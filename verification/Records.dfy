/** Kafka records, their routing headers, and consumer.route (internal/consumer/consumer.go). */
module Records {
  import opened Prelude
  import opened Events

  datatype Header = Header(key: string, value: Bytes)

  datatype Record = Record(topic: string, key: Bytes, value: Bytes, headers: seq<Header>)

  const ATTEMPT: string := "attempt"
  const FAILURE_REASON: string := "failure_reason"
  const NOT_BEFORE: string := "not_before"
  const ORIGINAL_TOPIC: string := "original_topic"

  predicate RoutingKey(key: string) {
    key == ATTEMPT || key == FAILURE_REASON || key == NOT_BEFORE || key == ORIGINAL_TOPIC
  }

  // ---------- strconv.Itoa and strconv.Atoi ----------

  function DigitChar(d: nat): (c: char)
    requires d < 10
    ensures '0' <= c <= '9' && DigitValue(c) == d
  {
    '0' + d as char
  }

  function DigitValue(c: char): (d: nat)
    requires '0' <= c <= '9'
  {
    c as nat - '0' as nat
  }

  function DecimalDigits(n: nat): string {
    if n < 10 then [DigitChar(n)] else DecimalDigits(n / 10) + [DigitChar(n % 10)]
  }

  function Itoa(n: int): string {
    if n < 0 then "-" + DecimalDigits(-n) else DecimalDigits(n)
  }

  function ParseDigits(s: string): Option<nat> {
    if s == "" then Some(0)
    else
      var c := s[|s| - 1];
      match ParseDigits(s[..|s| - 1])
      case Some(front) => if '0' <= c <= '9' then Some(10 * front + DigitValue(c)) else None
      case None => None
  }

  /** A non-empty digit string with its sign, if it denotes an int64. */
  function SignedDigits(negative: bool, digits: string): Option<int> {
    if digits == "" then None
    else
      match ParseDigits(digits)
      case None => None
      case Some(n) =>
        var magnitude: int := n;
        var value := if negative then -magnitude else magnitude;
        if -MAX_INT64 - 1 <= value <= MAX_INT64 then Some(value) else None
  }

  /** `strconv.Atoi` on a 64-bit platform; `None` is its error return. */
  function Atoi(s: string): Option<int> {
    if s != "" && (s[0] == '-' || s[0] == '+') then SignedDigits(s[0] == '-', s[1..])
    else SignedDigits(false, s)
  }

  lemma {:induction false} DigitsRoundTrip(n: nat)
    ensures DecimalDigits(n) != "" && '0' <= DecimalDigits(n)[0] <= '9'
    ensures ParseDigits(DecimalDigits(n)) == Some(n)
  {
    if n < 10 {
      assert DecimalDigits(n)[..0] == "";
    } else {
      DigitsRoundTrip(n / 10);
      assert DecimalDigits(n)[..|DecimalDigits(n)| - 1] == DecimalDigits(n / 10);
    }
  }

  lemma AtoiInvertsItoa(n: int)
    requires -MAX_INT64 - 1 <= n <= MAX_INT64
    ensures Atoi(Itoa(n)) == Some(n)
  {
    if n < 0 {
      DigitsRoundTrip(-n);
      assert Itoa(n)[1..] == DecimalDigits(-n);
    } else {
      DigitsRoundTrip(n);
    }
  }

  /** A decimal digit string and its value, digit by digit from the right. */
  ghost predicate Denotes(s: string, n: nat) {
    if s == "" then n == 0
    else '0' <= s[|s| - 1] <= '9' && s[|s| - 1] as int - '0' as int == n % 10 && Denotes(s[..|s| - 1], n / 10)
  }

  lemma {:induction false} ParseDigitsIff(s: string, n: nat)
    ensures ParseDigits(s) == Some(n) <==> Denotes(s, n)
  {
    if s != "" {
      ParseDigitsIff(s[..|s| - 1], n / 10);
    }
  }

  /** Some digit string parses exactly when it consists of digits. */
  lemma {:induction false} ParsesIff(s: string)
    ensures ParseDigits(s).Some? <==> forall i :: 0 <= i < |s| ==> '0' <= s[i] <= '9'
  {
    if s != "" {
      ParsesIff(s[..|s| - 1]);
    }
  }

  /** The texts of an int64: digits, possibly after a sign. */
  ghost predicate Decimal(s: string, n: int) {
    && -0x8000_0000_0000_0000 <= n <= 0x7fff_ffff_ffff_ffff
    && ((s != "" && n >= 0 && Denotes(s, n))
        || (|s| > 1 && s[0] == '+' && n >= 0 && Denotes(s[1..], n))
        || (|s| > 1 && s[0] == '-' && n <= 0 && Denotes(s[1..], -n)))
  }

  lemma AtoiIff(s: string, n: int)
    ensures Atoi(s) == Some(n) <==> Decimal(s, n)
  {
    if s != "" {
      ParsesIff(s);
      if n >= 0 {
        ParseDigitsIff(s, n);
        ParseDigitsIff(s[1..], n);
      }
      if n <= 0 {
        ParseDigitsIff(s[1..], -n);
      }
    }
  }

  /** A non-negative number is written with digits only, and without leading zeros. */
  lemma {:induction false} ItoaIs(n: nat)
    ensures Itoa(n) != "" && Denotes(Itoa(n), n) && (Itoa(n)[0] == '0' ==> Itoa(n) == "0")
  {
    if n >= 10 {
      ItoaIs(n / 10);
      assert Itoa(n)[..|Itoa(n)| - 1] == Itoa(n / 10);
    } else {
      assert Itoa(n)[..0] == "";
    }
  }

  lemma SomeDecimals()
    ensures Atoi("12") == Some(12) && Atoi("+7") == Some(7) && Atoi("-1") == Some(-1)
    ensures Atoi("") == None && Atoi("-") == None && Atoi("1a") == None
  {
    ParsesIff("1a");
    assert "1a"[1] == 'a';
    assert "12"[..1] == "1" && "1"[..0] == "" && "+7"[1..] == "7" && "7"[..0] == "" && "-1"[1..] == "1";
  }

  // ---------- reading headers: the first one with the key counts ----------

  function FirstHeader(headers: seq<Header>, key: string): Option<Bytes> {
    if headers == [] then None
    else if headers[0].key == key then Some(headers[0].value)
    else FirstHeader(headers[1..], key)
  }

  datatype HeaderError = ErrInvalidHeader

  function HeaderInt(record: Record, key: string): (r: Result<nat, HeaderError>) {
    match FirstHeader(record.headers, key)
    case None => Success(0)
    case Some(Text(s)) =>
      (match Atoi(s)
       case Some(n) => if n < 0 then Failure(ErrInvalidHeader) else Success(n)
       case None => Failure(ErrInvalidHeader))
    case Some(_) => Failure(ErrInvalidHeader)
  }

  /** The first header with the key, counted from the front. */
  ghost predicate IsFirst(headers: seq<Header>, key: string, i: int) {
    0 <= i < |headers| && headers[i].key == key && forall j :: 0 <= j < i ==> headers[j].key != key
  }

  lemma {:induction false} FirstHeaderIs(headers: seq<Header>, key: string)
    ensures forall i :: IsFirst(headers, key, i) ==> FirstHeader(headers, key) == Some(headers[i].value)
    ensures (forall i :: 0 <= i < |headers| ==> headers[i].key != key) <==> FirstHeader(headers, key) == None
  {
    if headers != [] {
      var rest := headers[1..];
      FirstHeaderIs(rest, key);
      assert forall i :: 0 < i < |headers| ==> headers[i] == rest[i - 1];
      forall i | IsFirst(headers, key, i) ensures FirstHeader(headers, key) == Some(headers[i].value) {
        if i > 0 {
          assert headers[0].key != key && IsFirst(rest, key, i - 1);
        }
      }
      if forall i :: 0 <= i < |rest| ==> rest[i].key != key {
        assert headers[0].key != key ==> forall i :: 0 <= i < |headers| ==> headers[i].key != key;
      }
    }
  }

  /** What the first header with the key must say for an integer to be read: a non-negative decimal within int64. */
  lemma HeaderIntIff(record: Record, key: string, n: nat)
    ensures HeaderInt(record, key) == Success(n)
            <==> || (n == 0 && forall i :: 0 <= i < |record.headers| ==> record.headers[i].key != key)
                 || exists i :: IsFirst(record.headers, key, i) && record.headers[i].value.Text?
                                && Decimal(record.headers[i].value.text, n)
  {
    FirstHeaderIs(record.headers, key);
    var h := record.headers;
    if FirstHeader(h, key).Some? {
      var i := FirstIndex(h, key);
      assert IsFirst(h, key, i) && FirstHeader(h, key) == Some(h[i].value);
      if h[i].value.Text? {
        AtoiIff(h[i].value.text, n);
      }
    }
  }

  lemma {:induction false} FirstIndex(headers: seq<Header>, key: string) returns (i: nat)
    requires FirstHeader(headers, key).Some?
    ensures IsFirst(headers, key, i)
  {
    if headers[0].key == key {
      i := 0;
    } else {
      var k := FirstIndex(headers[1..], key);
      i := k + 1;
      assert forall j :: 0 < j < |headers| ==> headers[j] == headers[1..][j - 1];
    }
  }

  function HeaderTime(record: Record, key: string): Result<Time, HeaderError> {
    match FirstHeader(record.headers, key)
    case None => Success(ZERO_TIME)
    case Some(TimeText(t)) => Success(t)
    case Some(_) => Failure(ErrInvalidHeader)
  }

  /** The first header with the key must be a time; without one there is no delay. */
  lemma HeaderTimeIff(record: Record, key: string, t: Time)
    ensures HeaderTime(record, key) == Success(t)
            <==> || (t == 0 && forall i :: 0 <= i < |record.headers| ==> record.headers[i].key != key)
                 || exists i :: IsFirst(record.headers, key, i) && record.headers[i].value == TimeText(t)
  {
    FirstHeaderIs(record.headers, key);
    if FirstHeader(record.headers, key).Some? {
      var i := FirstIndex(record.headers, key);
      assert IsFirst(record.headers, key, i) && FirstHeader(record.headers, key) == Some(record.headers[i].value);
    }
  }

  /** headerString: the raw bytes, empty when absent. */
  function HeaderString(record: Record, key: string): Bytes {
    match FirstHeader(record.headers, key)
    case None => Text("")
    case Some(b) => b
  }

  lemma HeaderStringIs(record: Record, key: string)
    ensures forall i :: IsFirst(record.headers, key, i) ==> HeaderString(record, key) == record.headers[i].value
    ensures (forall i :: 0 <= i < |record.headers| ==> record.headers[i].key != key) ==>
              HeaderString(record, key) == Text("")
  {
    FirstHeaderIs(record.headers, key);
  }

  // ---------- copying and routing ----------

  /** The headers whose key is not in `excluded`, in their order. */
  function Without(headers: seq<Header>, excluded: set<string>): seq<Header> {
    if headers == [] then []
    else
      var front := Without(headers[..|headers| - 1], excluded);
      var last := headers[|headers| - 1];
      if last.key in excluded then front else front + [last]
  }

  method CopyHeadersWithout(headers: seq<Header>, excluded: seq<string>) returns (result: seq<Header>)
    ensures result == Without(headers, set k | k in excluded)
  {
    var keys := set k | k in excluded;
    result := [];
    for i := 0 to |headers|
      invariant result == Without(headers[..i], keys)
    {
      assert headers[..i + 1][..i] == headers[..i];
      if headers[i].key !in keys {
        result := result + [headers[i]];
      }
    }
    assert headers[..|headers|] == headers;
  }

  const ROUTING_KEYS: set<string> := {ATTEMPT, FAILURE_REASON, NOT_BEFORE, ORIGINAL_TOPIC}

  function OriginalTopic(record: Record): Bytes {
    if HeaderString(record, ORIGINAL_TOPIC) == Text("") then Text(record.topic)
    else HeaderString(record, ORIGINAL_TOPIC)
  }

  /** The headers that are none of routing's business. */
  function PlainHeaders(record: Record): seq<Header> {
    Without(record.headers, ROUTING_KEYS)
  }

  /** The headers that routing writes; a zero `notBefore` is not written. */
  function RoutingTail(source: Record, attempt: nat, reason: string, notBefore: Time): seq<Header> {
    [Header(ATTEMPT, Text(Itoa(attempt))),
     Header(FAILURE_REASON, Text(reason)),
     Header(ORIGINAL_TOPIC, OriginalTopic(source))]
    + if notBefore == ZERO_TIME then [] else [Header(NOT_BEFORE, TimeText(notBefore))]
  }

  /** The record that consumer.route publishes for `source`. */
  function Routed(source: Record, topic: string, attempt: nat, reason: string, notBefore: Time): Record {
    Record(topic, source.key, source.value,
           PlainHeaders(source) + RoutingTail(source, attempt, reason, notBefore))
  }

  /** consumer.route up to the publish call. */
  method BuildRouted(source: Record, topic: string, attempt: nat, reason: string, notBefore: Time)
    returns (record: Record)
    ensures record == Routed(source, topic, attempt, reason, notBefore)
  {
    var originalTopic := HeaderString(source, ORIGINAL_TOPIC);
    if originalTopic == Text("") {
      originalTopic := Text(source.topic);
    }
    var headers := CopyHeadersWithout(source.headers, [ATTEMPT, FAILURE_REASON, NOT_BEFORE, ORIGINAL_TOPIC]);
    assert (set k | k in [ATTEMPT, FAILURE_REASON, NOT_BEFORE, ORIGINAL_TOPIC]) == ROUTING_KEYS;
    headers := headers + [Header(ATTEMPT, Text(Itoa(attempt))),
                          Header(FAILURE_REASON, Text(reason)),
                          Header(ORIGINAL_TOPIC, originalTopic)];
    if notBefore != ZERO_TIME {
      headers := headers + [Header(NOT_BEFORE, TimeText(notBefore))];
    }
    record := Record(topic, source.key, source.value, headers);
  }

  // ---------- what routing preserves ----------

  function CountKey(headers: seq<Header>, key: string): nat {
    if headers == [] then 0
    else CountKey(headers[1..], key) + if headers[0].key == key then 1 else 0
  }

  lemma {:induction false} FirstHeaderOfConcat(a: seq<Header>, b: seq<Header>, key: string)
    ensures FirstHeader(a + b, key) == if CountKey(a, key) == 0 then FirstHeader(b, key) else FirstHeader(a, key)
    ensures CountKey(a + b, key) == CountKey(a, key) + CountKey(b, key)
  {
    if a == [] {
      assert a + b == b;
    } else {
      FirstHeaderOfConcat(a[1..], b, key);
      assert (a + b)[1..] == a[1..] + b;
    }
  }

  lemma {:induction false} WithoutOfConcat(a: seq<Header>, b: seq<Header>, excluded: set<string>)
    ensures Without(a + b, excluded) == Without(a, excluded) + Without(b, excluded)
  {
    if b == [] {
      assert a + b == a;
    } else {
      WithoutOfConcat(a, b[..|b| - 1], excluded);
      assert (a + b)[..|a + b| - 1] == a + b[..|b| - 1];
    }
  }

  /** With the law on concatenations, this says header by header what is kept, and in which order. */
  lemma WithoutOfOne(header: Header, excluded: set<string>)
    ensures Without([header], excluded) == if header.key in excluded then [] else [header]
    ensures Without([], excluded) == []
  {
    assert [header][..0] == [];
  }

  lemma {:induction false} WithoutHasNone(headers: seq<Header>, excluded: set<string>, key: string)
    requires key in excluded
    ensures CountKey(Without(headers, excluded), key) == 0
    ensures Without(Without(headers, excluded), excluded) == Without(headers, excluded)
  {
    if headers != [] {
      var front := headers[..|headers| - 1];
      var last := headers[|headers| - 1];
      WithoutHasNone(front, excluded, key);
      if last.key !in excluded {
        FirstHeaderOfConcat(Without(front, excluded), [last], key);
        WithoutOfConcat(Without(front, excluded), [last], excluded);
        assert [last][..0] == [];
      }
    }
  }

  lemma {:induction false} AllExcluded(headers: seq<Header>, excluded: set<string>)
    requires forall i :: 0 <= i < |headers| ==> headers[i].key in excluded
    ensures Without(headers, excluded) == []
  {
    if headers != [] {
      AllExcluded(headers[..|headers| - 1], excluded);
    }
  }

  predicate DistinctKeys(headers: seq<Header>) {
    forall i, j :: 0 <= i < j < |headers| ==> headers[i].key != headers[j].key
  }

  lemma {:induction false} DistinctKeysLookup(headers: seq<Header>, key: string)
    requires DistinctKeys(headers)
    ensures CountKey(headers, key) <= 1
    ensures forall i :: 0 <= i < |headers| && headers[i].key == key ==>
              FirstHeader(headers, key) == Some(headers[i].value)
    ensures (forall i :: 0 <= i < |headers| ==> headers[i].key != key)
            ==> FirstHeader(headers, key) == None && CountKey(headers, key) == 0
  {
    if headers != [] {
      DistinctKeysLookup(headers[1..], key);
      assert forall i :: 0 < i < |headers| ==> headers[i] == headers[1..][i - 1];
      if headers[0].key == key {
        assert forall i :: 0 <= i < |headers| - 1 ==> headers[1..][i] == headers[i + 1];
      }
    }
  }

  lemma RoutingKeysDiffer()
    ensures ATTEMPT != FAILURE_REASON && ATTEMPT != NOT_BEFORE && ATTEMPT != ORIGINAL_TOPIC
    ensures FAILURE_REASON != NOT_BEFORE && FAILURE_REASON != ORIGINAL_TOPIC && NOT_BEFORE != ORIGINAL_TOPIC
  {
    assert ATTEMPT[0] == 'a' && FAILURE_REASON[0] == 'f' && NOT_BEFORE[0] == 'n' && ORIGINAL_TOPIC[0] == 'o';
  }

  lemma TailHeaders(source: Record, attempt: nat, reason: string, notBefore: Time)
    ensures var tail := RoutingTail(source, attempt, reason, notBefore);
            && FirstHeader(tail, ATTEMPT) == Some(Text(Itoa(attempt)))
            && FirstHeader(tail, FAILURE_REASON) == Some(Text(reason))
            && FirstHeader(tail, ORIGINAL_TOPIC) == Some(OriginalTopic(source))
            && FirstHeader(tail, NOT_BEFORE) == (if notBefore == ZERO_TIME then None else Some(TimeText(notBefore)))
            && forall key :: CountKey(tail, key) <= 1
  {
    var tail := RoutingTail(source, attempt, reason, notBefore);
    RoutingKeysDiffer();
    assert DistinctKeys(tail);
    assert tail[0].key == ATTEMPT && tail[1].key == FAILURE_REASON && tail[2].key == ORIGINAL_TOPIC;
    if notBefore != ZERO_TIME {
      assert tail[3].key == NOT_BEFORE;
    }
    forall key ensures CountKey(tail, key) <= 1 {
      DistinctKeysLookup(tail, key);
    }
    DistinctKeysLookup(tail, ATTEMPT);
    DistinctKeysLookup(tail, FAILURE_REASON);
    DistinctKeysLookup(tail, ORIGINAL_TOPIC);
    DistinctKeysLookup(tail, NOT_BEFORE);
  }

  /** A routing header of the routed record is the one that this hop wrote. */
  lemma RoutedHeader(source: Record, topic: string, attempt: nat, reason: string, notBefore: Time, key: string)
    requires RoutingKey(key)
    ensures var r, tail := Routed(source, topic, attempt, reason, notBefore),
            RoutingTail(source, attempt, reason, notBefore);
            FirstHeader(r.headers, key) == FirstHeader(tail, key) && CountKey(r.headers, key) == CountKey(tail, key)
  {
    FirstHeaderOfConcat(PlainHeaders(source), RoutingTail(source, attempt, reason, notBefore), key);
    WithoutHasNone(source.headers, ROUTING_KEYS, key);
  }

  /** The other headers stay as they are. */
  lemma RoutedKeepsPlain(source: Record, topic: string, attempt: nat, reason: string, notBefore: Time)
    ensures PlainHeaders(Routed(source, topic, attempt, reason, notBefore)) == PlainHeaders(source)
  {
    var plain, tail := PlainHeaders(source), RoutingTail(source, attempt, reason, notBefore);
    WithoutOfConcat(plain, tail, ROUTING_KEYS);
    WithoutHasNone(source.headers, ROUTING_KEYS, ATTEMPT);
    AllExcluded(tail, ROUTING_KEYS);
  }

  /** One hop: what a reader of the routed record sees. */
  lemma RoutedReadsBack(source: Record, topic: string, attempt: nat, reason: string, notBefore: Time)
    requires attempt <= MAX_INT64
    ensures var r := Routed(source, topic, attempt, reason, notBefore);
            && r.key == source.key && r.value == source.value && r.topic == topic
            && HeaderInt(r, "attempt") == Success(attempt)
            && HeaderTime(r, "not_before") == Success(notBefore)
            && HeaderString(r, "failure_reason") == Text(reason)
            && PlainHeaders(r) == PlainHeaders(source)
            && (OriginalTopic(source) != Text("") ==> OriginalTopic(r) == OriginalTopic(source))
            && forall key :: key in {"attempt", "failure_reason", "not_before", "original_topic"} ==>
              CountKey(r.headers, key) <= 1
  {
    TailHeaders(source, attempt, reason, notBefore);
    RoutedKeepsPlain(source, topic, attempt, reason, notBefore);
    forall key | key in ROUTING_KEYS { RoutedHeader(source, topic, attempt, reason, notBefore, key); }
    RoutedHeader(source, topic, attempt, reason, notBefore, ATTEMPT);
    RoutedHeader(source, topic, attempt, reason, notBefore, FAILURE_REASON);
    RoutedHeader(source, topic, attempt, reason, notBefore, NOT_BEFORE);
    RoutedHeader(source, topic, attempt, reason, notBefore, ORIGINAL_TOPIC);
    AtoiInvertsItoa(attempt);
  }

  /** `copy` is what routing makes of `source` with the attempt, reason and delay that the copy itself shows. */
  predicate IsRoutedCopy(source: Record, copy: Record) {
    && HeaderInt(copy, ATTEMPT).Success? && HeaderTime(copy, NOT_BEFORE).Success?
       && HeaderString(copy, FAILURE_REASON).Text?
    && copy == Routed(source, copy.topic, HeaderInt(copy, ATTEMPT).value, HeaderString(copy, FAILURE_REASON).text,
                      HeaderTime(copy, NOT_BEFORE).value)
  }

  /** A record without routing headers. */
  predicate IsUnrouted(record: Record) {
    HeaderString(record, ORIGINAL_TOPIC) == Text("") && PlainHeaders(record) == record.headers
  }

  lemma {:induction false} NoneCounted(headers: seq<Header>, key: string)
    ensures CountKey(headers, key) == 0 <==> forall i :: 0 <= i < |headers| ==> headers[i].key != key
  {
    if headers != [] {
      NoneCounted(headers[1..], key);
      assert forall i :: 0 < i < |headers| ==> headers[i] == headers[1..][i - 1];
      assert forall i :: 0 <= i < |headers| - 1 ==> headers[1..][i] == headers[i + 1];
    }
  }

  lemma {:induction false} NothingExcluded(headers: seq<Header>, excluded: set<string>)
    requires forall i :: 0 <= i < |headers| ==> headers[i].key !in excluded
    ensures Without(headers, excluded) == headers
  {
    if headers != [] {
      NothingExcluded(headers[..|headers| - 1], excluded);
    }
  }

  /** None of its keys is one of the four. */
  lemma UnroutedIff(record: Record)
    ensures IsUnrouted(record)
            <==> forall i :: 0 <= i < |record.headers| ==>
                   record.headers[i].key !in {"attempt", "failure_reason", "not_before", "original_topic"}
  {
    var h := record.headers;
    if IsUnrouted(record) {
      forall i | 0 <= i < |h| ensures h[i].key !in ROUTING_KEYS {
        if h[i].key in ROUTING_KEYS {
          WithoutHasNone(h, ROUTING_KEYS, h[i].key);
          NoneCounted(h, h[i].key);
          assert false;
        }
      }
    }
    if forall i :: 0 <= i < |h| ==> h[i].key !in ROUTING_KEYS {
      NothingExcluded(h, ROUTING_KEYS);
      HeaderStringIs(record, ORIGINAL_TOPIC);
    }
  }

  lemma RoutedIsCopy(source: Record, topic: string, attempt: nat, reason: string, notBefore: Time)
    requires attempt <= MAX_INT64
    ensures IsRoutedCopy(source, Routed(source, topic, attempt, reason, notBefore))
  {
    RoutedReadsBack(source, topic, attempt, reason, notBefore);
  }

  datatype Hop = Hop(topic: string, attempt: nat, reason: string, notBefore: Time)

  /** A record after any number of hops, first hop first. */
  function RoutedThrough(source: Record, hops: seq<Hop>): Record {
    if hops == [] then source
    else
      var h := hops[|hops| - 1];
      Routed(RoutedThrough(source, hops[..|hops| - 1]), h.topic, h.attempt, h.reason, h.notBefore)
  }

  /**
   * Any number of hops keeps key, value and the other headers, leaves at most one header per routing
   * key, and reads back exactly what the last hop wrote, while original_topic stays the first topic.
   */
  lemma {:induction false} RoutingRoundTrip(source: Record, hops: seq<Hop>)
    requires hops != [] && forall i :: 0 <= i < |hops| ==> hops[i].attempt <= MAX_INT64
    requires OriginalTopic(source) != Text("")
    ensures var r, h := RoutedThrough(source, hops), hops[|hops| - 1];
            && r.key == source.key && r.value == source.value && r.topic == h.topic
            && PlainHeaders(r) == PlainHeaders(source)
            && HeaderInt(r, ATTEMPT) == Success(h.attempt)
            && HeaderTime(r, NOT_BEFORE) == Success(h.notBefore)
            && HeaderString(r, FAILURE_REASON) == Text(h.reason)
            && HeaderString(r, ORIGINAL_TOPIC) == OriginalTopic(source)
            && forall key :: RoutingKey(key) ==> CountKey(r.headers, key) <= 1
    decreases |hops|
  {
    var h := hops[|hops| - 1];
    var before := RoutedThrough(source, hops[..|hops| - 1]);
    if |hops| > 1 {
      RoutingRoundTrip(source, hops[..|hops| - 1]);
    }
    assert OriginalTopic(before) == OriginalTopic(source);
    RoutedReadsBack(before, h.topic, h.attempt, h.reason, h.notBefore);
    RoutedOriginalTopic(before, h.topic, h.attempt, h.reason, h.notBefore);
  }

  /** The original_topic header itself, as opposed to `OriginalTopic`'s fallback on the topic. */
  lemma RoutedOriginalTopic(source: Record, topic: string, attempt: nat, reason: string, notBefore: Time)
    ensures HeaderString(Routed(source, topic, attempt, reason, notBefore), "original_topic") == OriginalTopic(source)
    ensures HeaderString(source, "original_topic") == Text("") ==> OriginalTopic(source) == Text(source.topic)
    ensures HeaderString(source, "original_topic") != Text("") ==>
              OriginalTopic(source) == HeaderString(source, "original_topic")
  {
    RoutedHeader(source, topic, attempt, reason, notBefore, ORIGINAL_TOPIC);
    TailHeaders(source, attempt, reason, notBefore);
  }
}
