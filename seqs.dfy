/**
 * Sequence operations shared by the stores and helpers: JavaScript's
 * `Array.prototype.filter`, a count of matching elements, and the
 * "is a subsequence of" relation used to say that an operation keeps
 * relative order.
 */
module Seqs {

  /** `s.filter(p)`: the elements of `s` satisfying `p`, in their original order. */
  function Filter<T>(s: seq<T>, p: T -> bool): (r: seq<T>)
    ensures |r| <= |s|
    ensures forall k :: 0 <= k < |r| ==> r[k] in s && p(r[k])
    ensures forall k :: 0 <= k < |s| && p(s[k]) ==> s[k] in r
    decreases |s|
  {
    if |s| == 0 then []
    else (if p(s[0]) then [s[0]] else []) + Filter(s[1..], p)
  }

  /** `s.filter(p).length`. */
  function Count<T>(s: seq<T>, p: T -> bool): nat
  {
    |Filter(s, p)|
  }

  /** Filtering distributes over concatenation: filtering never reorders what it keeps. */
  lemma {:induction false} FilterConcat<T>(a: seq<T>, b: seq<T>, p: T -> bool)
    ensures Filter(a + b, p) == Filter(a, p) + Filter(b, p)
    decreases |a|
  {
    if |a| == 0 {
      assert a + b == b;
    } else {
      assert (a + b)[1..] == a[1..] + b;
      FilterConcat(a[1..], b, p);
    }
  }

  /** A filter that keeps everything is the identity; one that keeps nothing is empty. */
  lemma {:induction false} FilterExtremes<T>(s: seq<T>, p: T -> bool)
    ensures (forall k :: 0 <= k < |s| ==> p(s[k])) ==> Filter(s, p) == s
    ensures (forall k :: 0 <= k < |s| ==> !p(s[k])) ==> Filter(s, p) == []
    decreases |s|
  {
    if |s| > 0 {
      FilterExtremes(s[1..], p);
      if forall k :: 0 <= k < |s| ==> p(s[k]) {
        assert forall k :: 0 <= k < |s[1..]| ==> p(s[1..][k]) by {
          forall k | 0 <= k < |s[1..]| ensures p(s[1..][k]) { assert s[1..][k] == s[k + 1]; }
        }
      }
      if forall k :: 0 <= k < |s| ==> !p(s[k]) {
        assert forall k :: 0 <= k < |s[1..]| ==> !p(s[1..][k]) by {
          forall k | 0 <= k < |s[1..]| ensures !p(s[1..][k]) { assert s[1..][k] == s[k + 1]; }
        }
      }
    }
  }

  /**
   * `r` can be obtained from `s` by deleting elements: everything in `r`
   * occurs in `s`, in the same relative order.
   */
  ghost predicate IsSubseq<T>(r: seq<T>, s: seq<T>)
    decreases |s|
  {
    if r == [] then true
    else if s == [] then false
    else (r[0] == s[0] && IsSubseq(r[1..], s[1..])) || IsSubseq(r, s[1..])
  }

  /** What a filter keeps is a subsequence of its input. */
  lemma {:induction false} FilterIsSubseq<T>(s: seq<T>, p: T -> bool)
    ensures IsSubseq(Filter(s, p), s)
    decreases |s|
  {
    if |s| > 0 {
      FilterIsSubseq(s[1..], p);
      var r := Filter(s, p);
      if p(s[0]) {
        assert r[0] == s[0] && r[1..] == Filter(s[1..], p);
      } else {
        assert r == Filter(s[1..], p);
        if r != [] { assert IsSubseq(r, s[1..]); }
      }
    }
  }

  /** Appending one element to both sides keeps a subsequence a subsequence. */
  lemma {:induction false} SubseqSnoc<T>(r: seq<T>, s: seq<T>, x: T, keep: bool)
    requires IsSubseq(r, s)
    ensures IsSubseq(if keep then r + [x] else r, s + [x])
    decreases |s|
  {
    if s == [] {
      assert r == [];
      if keep {
        assert [x][1..] == [];
      }
    } else if r == [] {
      if keep {
        SubseqSnoc([], s[1..], x, true);
        assert (s + [x])[1..] == s[1..] + [x];
      }
    } else {
      assert (s + [x])[1..] == s[1..] + [x];
      if r[0] == s[0] && IsSubseq(r[1..], s[1..]) {
        SubseqSnoc(r[1..], s[1..], x, keep);
        if keep { assert (r + [x])[1..] == r[1..] + [x]; }
      } else {
        SubseqSnoc(r, s[1..], x, keep);
      }
    }
  }

  /** `s.map(x => sel(x) ? f(x) : x)`: the selected elements transformed, the rest kept. */
  function MapWhere<T>(s: seq<T>, sel: T -> bool, f: T -> T): (r: seq<T>)
    ensures |r| == |s|
    ensures forall k :: 0 <= k < |s| && sel(s[k]) ==> r[k] == f(s[k])
    ensures forall k :: 0 <= k < |s| && !sel(s[k]) ==> r[k] == s[k]
  {
    seq(|s|, k requires 0 <= k < |s| => if sel(s[k]) then f(s[k]) else s[k])
  }
}
