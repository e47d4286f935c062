/** Order-preserving filtering of sequences, the `Array.prototype.filter` that the
    store's delete and the storefront's search are built on. */
module Seqs {

  /** The elements of `s` that satisfy `f`, in their original order. */
  function Filter<T>(f: T -> bool, s: seq<T>): (r: seq<T>)
    ensures |r| <= |s|
    ensures forall k :: 0 <= k < |r| ==> f(r[k])
  {
    if s == [] then []
    else if f(s[0]) then [s[0]] + Filter(f, s[1..])
    else Filter(f, s[1..])
  }

  /** An element of `s` is kept exactly when it passes the test. */
  lemma {:induction false} FilterMembership<T>(f: T -> bool, s: seq<T>)
    ensures forall k :: 0 <= k < |Filter(f, s)| ==> Filter(f, s)[k] in s
    ensures forall k :: 0 <= k < |s| && f(s[k]) ==> s[k] in Filter(f, s)
  {
    if s != [] {
      FilterMembership(f, s[1..]);
    }
  }

  /** Nothing is dropped or duplicated: each kept value occurs exactly as often as in `s`. */
  lemma {:induction false} FilterCount<T>(f: T -> bool, s: seq<T>, x: T)
    ensures multiset(Filter(f, s))[x] == if f(x) then multiset(s)[x] else 0
  {
    if s != [] {
      FilterCount(f, s[1..], x);
      assert s == [s[0]] + s[1..];
    }
  }

  /** The result is a subsequence of `s`: its elements sit in `s` at strictly increasing indices. */
  lemma {:induction false} FilterIndices<T>(f: T -> bool, s: seq<T>) returns (idx: seq<nat>)
    ensures |idx| == |Filter(f, s)|
    ensures forall k :: 0 <= k < |idx| ==> idx[k] < |s| && s[idx[k]] == Filter(f, s)[k]
    ensures forall k, l :: 0 <= k < l < |idx| ==> idx[k] < idx[l]
  {
    if s == [] {
      idx := [];
    } else {
      var rest := FilterIndices(f, s[1..]);
      idx := IndicesAfterHead(f, s, rest);
    }
  }

  /** The step case of FilterIndices: the indices into `s[1..]` shifted by one, after index 0 when it is kept. */
  lemma IndicesAfterHead<T>(f: T -> bool, s: seq<T>, rest: seq<nat>) returns (idx: seq<nat>)
    requires s != []
    requires |rest| == |Filter(f, s[1..])|
    requires forall k :: 0 <= k < |rest| ==> rest[k] < |s| - 1 && s[1..][rest[k]] == Filter(f, s[1..])[k]
    requires forall k, l :: 0 <= k < l < |rest| ==> rest[k] < rest[l]
    ensures |idx| == |Filter(f, s)|
    ensures forall k :: 0 <= k < |idx| ==> idx[k] < |s| && s[idx[k]] == Filter(f, s)[k]
    ensures forall k, l :: 0 <= k < l < |idx| ==> idx[k] < idx[l]
  {
    var tail := Filter(f, s[1..]);
    var shifted := seq(|rest|, k requires 0 <= k < |rest| => rest[k] + 1);
    forall k | 0 <= k < |shifted|
      ensures shifted[k] < |s| && s[shifted[k]] == tail[k]
    {
      assert s[shifted[k]] == s[1..][rest[k]];
    }
    if f(s[0]) {
      assert Filter(f, s) == [s[0]] + tail;
      idx := [0] + shifted;
      assert forall k :: 0 < k < |idx| ==> idx[k] == shifted[k - 1];
    } else {
      assert Filter(f, s) == tail;
      idx := shifted;
    }
  }

  /** When every element passes, filtering returns its input unchanged. */
  lemma {:induction false} FilterKeepsAll<T>(f: T -> bool, s: seq<T>)
    requires forall k :: 0 <= k < |s| ==> f(s[k])
    ensures Filter(f, s) == s
  {
    if s != [] {
      FilterKeepsAll(f, s[1..]);
    }
  }

  /** Filtering twice with the same test is filtering once. */
  lemma FilterIdempotent<T>(f: T -> bool, s: seq<T>)
    ensures Filter(f, Filter(f, s)) == Filter(f, s)
  {
    FilterKeepsAll(f, Filter(f, s));
  }

  /** Two tests that agree on every element of `s` filter it alike. */
  lemma {:induction false} FilterCongruent<T>(f: T -> bool, g: T -> bool, s: seq<T>)
    requires forall k :: 0 <= k < |s| ==> f(s[k]) == g(s[k])
    ensures Filter(f, s) == Filter(g, s)
  {
    if s != [] {
      FilterCongruent(f, g, s[1..]);
    }
  }
}
