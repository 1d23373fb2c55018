/** Shared vocabulary: machine integers, identifiers, durations and the two result types. */
module Prelude {

  datatype Option<+T> = None | Some(value: T)

  datatype Result<+T, +E> = Success(value: T) | Failure(error: E)

  /** How a database call ends: it may also have taken effect although its reply was an error. */
  datatype Fault = NoFault | Refused | ReplyLost

  const MAX_INT64: int := 0x7fff_ffff_ffff_ffff

  type int32 = x: int | -0x8000_0000 <= x < 0x8000_0000
  type int64 = x: int | -0x8000_0000_0000_0000 <= x <= MAX_INT64

  /** A UUID; the all-zero UUID is `NIL_UUID`. */
  type Uuid = nat
  const NIL_UUID: Uuid := 0

  /** An instant in nanoseconds. Go's zero `time.Time` is instant 0. */
  type Time = int
  const ZERO_TIME: Time := 0

  /** Durations are int64 nanoseconds, as in Go's `time.Duration`. */
  const MILLISECOND: int64 := 1_000_000
  const SECOND: int64 := 1000 * MILLISECOND
  const MINUTE: int64 := 60 * SECOND

  function Min(a: int, b: int): int { if a <= b then a else b }
  function Max(a: int, b: int): int { if a <= b then b else a }

  /** int64 arithmetic wraps around. */
  function Wrap64(x: int): (w: int64)
    ensures -MAX_INT64 - 1 <= x <= MAX_INT64 ==> w == x
  {
    (x + 0x8000_0000_0000_0000) % 0x1_0000_0000_0000_0000 - 0x8000_0000_0000_0000
  }

  /** The only int64 that differs from `x` by a multiple of 2^64. */
  lemma WrapIsCongruent(x: int, y: int64)
    ensures Wrap64(x) == y <==> (x - y) % 0x1_0000_0000_0000_0000 == 0
  {
  }

  /** Go's division truncates toward zero. */
  function Quotient(a: int64, b: int64): int
    requires b > 0
  {
    var n: int := a;
    if n >= 0 then n / b else -(-n / b)
  }

  /** The quotient whose remainder is smaller than the divisor and has the dividend's sign. */
  lemma QuotientTruncates(a: int64, b: int64)
    requires b > 0
    ensures var r := a - Quotient(a, b) * b;
            if a >= 0 then 0 <= r < b else -b < r <= 0
  {
    var n: int := a;
    if n >= 0 {
      assert n == n / b * b + n % b;
    } else {
      assert -n == -n / b * b + (-n) % b;
      assert -(-n / b) * b == -(-n / b * b);
    }
  }

  function Pow2(n: nat): (p: nat)
    ensures p >= 1
  {
    if n == 0 then 1 else 2 * Pow2(n - 1)
  }

  lemma {:induction false} Pow2Monotone(a: nat, b: nat)
    requires a <= b
    ensures Pow2(a) <= Pow2(b)
  {
    if a < b {
      Pow2Monotone(a, b - 1);
    }
  }

  /** Go's `(n+w-1)/w` on positive operands: the number of rounds `w` workers need for `n` items. */
  function Rounds(n: nat, w: nat): nat
    requires w > 0
  {
    (n + w - 1) / w
  }
  /** That many rounds are enough for all items, and one round less is not. */
  lemma RoundsAreEnough(n: nat, w: nat)
    requires w > 0
    ensures Rounds(n, w) * w >= n && (n > 0 ==> (Rounds(n, w) - 1) * w < n)
  {
    var q, r := (n + w - 1) / w, (n + w - 1) % w;
    assert n + w - 1 == q * w + r;
    assert (q - 1) * w == q * w - w;
  }
}
