/**
 * `Array.prototype.filter` over sequences, with what a caller needs to know
 * about it: everything kept satisfies the predicate, the order is kept, and
 * exactly the satisfying elements are kept.
 */
module Seqs {

  /** `a` is `b` with some elements dropped, order kept. */
  ghost predicate IsSubsequence<T>(a: seq<T>, b: seq<T>)
    decreases |b|
  {
    if a == [] then true
    else if b == [] then false
    else if a[0] == b[0] then IsSubsequence(a[1..], b[1..])
    else IsSubsequence(a, b[1..])
  }

  /** Number of elements of `s` that satisfy `p`. */
  function CountWhere<T>(p: T -> bool, s: seq<T>): nat {
    if s == [] then 0 else (if p(s[0]) then 1 else 0) + CountWhere(p, s[1..])
  }

  /** `s.filter(p)` */
  function Filter<T>(p: T -> bool, s: seq<T>): (r: seq<T>)
    ensures forall k :: 0 <= k < |r| ==> p(r[k])
    ensures forall x :: x in s && p(x) ==> x in r
    ensures forall x :: x in r ==> x in s
    ensures IsSubsequence(r, s)
    ensures |r| == CountWhere(p, s) <= |s|
  {
    if s == [] then []
    else
      var rest := Filter(p, s[1..]);
      if p(s[0]) then
        var r := [s[0]] + rest;
        assert r[1..] == rest;
        r
      else
        SubsequenceDropFront(rest, s);
        rest
  }

  lemma SubsequenceDropFront<T>(a: seq<T>, b: seq<T>)
    requires b != [] && IsSubsequence(a, b[1..])
    ensures IsSubsequence(a, b)
    decreases |b|, 0
  {
    if a != [] && a[0] == b[0] {
      SubsequenceTail(a, b[1..]);
    }
  }

  lemma SubsequenceTail<T>(a: seq<T>, b: seq<T>)
    requires a != [] && IsSubsequence(a, b)
    ensures IsSubsequence(a[1..], b)
    decreases |b|, 1
  {
    if a[0] != b[0] {
      SubsequenceTail(a, b[1..]);
      SubsequenceDropFront(a[1..], b);
    } else if a[1..] != [] {
      SubsequenceDropFront(a[1..], b);
    }
  }

  /** Filtering with a predicate that holds everywhere keeps the sequence whole. */
  lemma {:induction false} FilterAll<T>(p: T -> bool, s: seq<T>)
    requires forall x :: x in s ==> p(x)
    ensures Filter(p, s) == s
  {
    if s != [] {
      FilterAll(p, s[1..]);
    }
  }

  /** Filtering with a predicate that holds nowhere leaves nothing. */
  lemma {:induction false} FilterNone<T>(p: T -> bool, s: seq<T>)
    requires forall x :: x in s ==> !p(x)
    ensures Filter(p, s) == []
  {
    if s != [] {
      FilterNone(p, s[1..]);
    }
  }

  /** Filtering a sequence with one more element at its end. */
  lemma {:induction false} FilterSnoc<T>(p: T -> bool, s: seq<T>, x: T)
    ensures Filter(p, s + [x]) == Filter(p, s) + (if p(x) then [x] else [])
  {
    if s == [] {
      assert [x][1..] == [];
    } else {
      assert (s + [x])[1..] == s[1..] + [x];
      FilterSnoc(p, s[1..], x);
    }
  }

  lemma SliceSnoc<T>(s: seq<T>, i: nat, j: nat)
    requires i <= j < |s|
    ensures s[i..j + 1] == s[i..j] + [s[j]]
  {
  }

  /** Filtering distributes over concatenation. */
  lemma {:induction false} FilterConcat<T>(p: T -> bool, a: seq<T>, b: seq<T>)
    ensures Filter(p, a + b) == Filter(p, a) + Filter(p, b)
  {
    if a == [] {
      assert a + b == b;
    } else {
      assert (a + b)[1..] == a[1..] + b;
      FilterConcat(p, a[1..], b);
    }
  }

  /** Filtering twice is filtering once by both predicates. */
  lemma {:induction false} FilterFilter<T>(p: T -> bool, q: T -> bool, both: T -> bool, s: seq<T>)
    requires forall x :: both(x) == (q(x) && p(x))
    ensures Filter(p, Filter(q, s)) == Filter(both, s)
  {
    if s != [] {
      FilterFilter(p, q, both, s[1..]);
      if q(s[0]) {
        assert ([s[0]] + Filter(q, s[1..]))[1..] == Filter(q, s[1..]);
      }
    }
  }
}
