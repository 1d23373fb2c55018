/** Rearranging sequences: the facts that order-independence proofs share. */
module Permutations {

  lemma SameMembers<T>(a: seq<T>, b: seq<T>)
    requires multiset(a) == multiset(b)
    ensures |a| == |b| && forall x :: x in a <==> x in b
  {
    assert |multiset(a)| == |a| && |multiset(b)| == |b|;
    forall x ensures x in a <==> x in b {
      assert x in a <==> x in multiset(a);
      assert x in b <==> x in multiset(b);
    }
  }

  lemma IndexOf<T>(s: seq<T>, x: T) returns (k: nat)
    requires x in s
    ensures k < |s| && s[k] == x
  {
    k :| 0 <= k < |s| && s[k] == x;
  }

  function RemoveAt<T>(s: seq<T>, k: nat): (r: seq<T>)
    requires k < |s|
    ensures |r| == |s| - 1
  {
    s[..k] + s[k + 1..]
  }

  lemma RemoveAtMultiset<T>(s: seq<T>, k: nat)
    requires k < |s|
    ensures multiset(RemoveAt(s, k)) == multiset(s) - multiset{s[k]}
    ensures multiset(s) == multiset(RemoveAt(s, k)) + multiset{s[k]}
  {
    var a, b := s[..k], s[k + 1..];
    assert s == (a + [s[k]]) + b;
    assert multiset(s) == multiset(a) + multiset{s[k]} + multiset(b);
    assert multiset(RemoveAt(s, k)) == multiset(a) + multiset(b);
  }

  lemma DropLastMultiset<T>(s: seq<T>)
    requires s != []
    ensures multiset(s[..|s| - 1]) == multiset(s) - multiset{s[|s| - 1]}
    ensures multiset(s) == multiset(s[..|s| - 1]) + multiset{s[|s| - 1]}
  {
    RemoveAtMultiset(s, |s| - 1);
    assert RemoveAt(s, |s| - 1) == s[..|s| - 1];
  }

  /** Rearrangements stay rearrangements when the same element is put back. */
  lemma PutBack<T>(a: seq<T>, k: nat, b: seq<T>)
    requires k < |a| && b != [] && a[k] == b[|b| - 1]
    requires multiset(RemoveAt(a, k)) == multiset(b[..|b| - 1])
    ensures multiset(a) == multiset(b)
  {
    RemoveAtMultiset(a, k);
    DropLastMultiset(b);
  }

  /** Mapping a function over two rearrangements gives two rearrangements. */
  lemma {:induction false} MapPermutation<T, U>(f: T -> U, a: seq<T>, b: seq<T>, fa: seq<U>, fb: seq<U>)
    requires multiset(a) == multiset(b)
    requires |fa| == |a| && forall i :: 0 <= i < |a| ==> fa[i] == f(a[i])
    requires |fb| == |b| && forall i :: 0 <= i < |b| ==> fb[i] == f(b[i])
    ensures multiset(fa) == multiset(fb)
    decreases |a|
  {
    SameMembers(a, b);
    if a == [] {
      assert fa == fb;
    } else {
      assert a[0] in b;
      var k := IndexOf(b, a[0]);
      RemoveAtMultiset(a, 0);
      RemoveAtMultiset(b, k);
      RemoveAtMultiset(fa, 0);
      RemoveAtMultiset(fb, k);
      MapPermutation(f, RemoveAt(a, 0), RemoveAt(b, k), RemoveAt(fa, 0), RemoveAt(fb, k));
    }
  }

  lemma {:induction false} DistinctOccurOnce<T>(key: T -> string, a: seq<T>, x: T)
    requires forall i, j :: 0 <= i < j < |a| ==> key(a[i]) != key(a[j])
    ensures multiset(a)[x] <= 1
  {
    if a != [] {
      var last := |a| - 1;
      RemoveAtMultiset(a, last);
      assert RemoveAt(a, last) == a[..last];
      DistinctOccurOnce(key, a[..last], x);
      if a[last] == x {
        assert x !in a[..last];
      }
    }
  }

  lemma TwiceOccurs<T>(b: seq<T>, i: nat, j: nat)
    requires i < j < |b| && b[i] == b[j]
    ensures multiset(b)[b[i]] >= 2
  {
    RemoveAtMultiset(b, j);
    assert RemoveAt(b, j)[i] == b[i];
    assert b[i] in RemoveAt(b, j);
  }

  /** Having pairwise distinct keys survives rearranging. */
  lemma DistinctPermutation<T>(key: T -> string, a: seq<T>, b: seq<T>)
    requires multiset(a) == multiset(b)
    requires forall i, j :: 0 <= i < j < |a| ==> key(a[i]) != key(a[j])
    ensures forall i, j :: 0 <= i < j < |b| ==> key(b[i]) != key(b[j])
  {
    SameMembers(a, b);
    forall i, j | 0 <= i < j < |b| ensures key(b[i]) != key(b[j]) {
      if b[i] == b[j] {
        TwiceOccurs(b, i, j);
        DistinctOccurOnce(key, a, b[i]);
        assert false;
      }
      var k := IndexOf(a, b[i]);
      var l := IndexOf(a, b[j]);
    }
  }

  // ---------- counting ----------

  /** The natural numbers below `n`. */
  function Below(n: nat): (all: set<nat>)
    ensures |all| == n
    ensures forall x: nat :: x in all <==> x < n
  {
    if n == 0 then {} else Below(n - 1) + {n - 1}
  }

  lemma {:induction false} SubsetSize<T>(a: set<T>, b: set<T>)
    requires a <= b
    ensures |a| <= |b|
  {
    if a != {} {
      var x :| x in a;
      SubsetSize(a - {x}, b - {x});
    }
  }

  function Members(s: seq<nat>): (m: set<nat>)
    ensures forall x :: x in m <==> x in s
  {
    set x | x in s
  }

  lemma {:induction false} DistinctCount(s: seq<nat>)
    requires forall i, j :: 0 <= i < j < |s| ==> s[i] != s[j]
    ensures |Members(s)| == |s|
  {
    if s != [] {
      var front, last := s[..|s| - 1], s[|s| - 1];
      DistinctCount(front);
      assert s == front + [last] && last !in front;
      assert Members(s) == Members(front) + {last};
    }
  }

  /** Pigeonhole: `n` distinct numbers below `n` include every number below `n`. */
  lemma Pigeonhole(s: seq<nat>, n: nat, x: nat) returns (k: nat)
    requires |s| == n && x < n
    requires forall i :: 0 <= i < |s| ==> s[i] < n
    requires forall i, j :: 0 <= i < j < |s| ==> s[i] != s[j]
    ensures k < |s| && s[k] == x
  {
    DistinctCount(s);
    if x !in s {
      SubsetSize(Members(s), Below(n) - {x});
    }
    k := IndexOf(s, x);
  }
}
