/** Sequence operations behind the source's `Array.prototype.filter` and
    `new Set(array)`, with the facts the modules of the model use. */
module Seqs {

  /** `r` is an order-preserving subsequence of `s`. */
  ghost predicate Subseq<T>(r: seq<T>, s: seq<T>)
    decreases |s|
  {
    if |r| == 0 then true
    else if |s| == 0 then false
    else (r[0] == s[0] && Subseq(r[1..], s[1..])) || Subseq(r, s[1..])
  }

  lemma {:induction false} SubseqTransitive<T>(a: seq<T>, b: seq<T>, c: seq<T>)
    requires Subseq(a, b) && Subseq(b, c)
    ensures Subseq(a, c)
    decreases |c|
  {
    if |a| > 0 {
      if Subseq(b, c[1..]) {
        SubseqTransitive(a, b, c[1..]);
      } else if a[0] == b[0] && Subseq(a[1..], b[1..]) {
        SubseqTransitive(a[1..], b[1..], c[1..]);
      } else {
        SubseqTransitive(a, b[1..], c[1..]);
      }
    }
  }

  lemma {:induction false} SubseqSnoc<T>(r: seq<T>, s: seq<T>, x: T)
    requires Subseq(r, s)
    ensures Subseq(r, s + [x]) && Subseq(r + [x], s + [x])
    decreases |s|
  {
    if |s| == 0 {
      assert (r + [x])[1..] == [];
    } else {
      assert (s + [x])[1..] == s[1..] + [x];
      if |r| > 0 {
        assert (r + [x])[1..] == r[1..] + [x];
        if r[0] == s[0] && Subseq(r[1..], s[1..]) {
          SubseqSnoc(r[1..], s[1..], x);
        } else {
          SubseqSnoc(r, s[1..], x);
        }
      } else {
        SubseqSnoc(r, s[1..], x);
      }
    }
  }

  lemma {:induction false} SubseqReflexive<T>(s: seq<T>)
    ensures Subseq(s, s)
  {
    if |s| > 0 { SubseqReflexive(s[1..]); }
  }

  /** `s.filter(p)`: the elements of `s` that satisfy `p`, in their order. */
  function Filter<T>(s: seq<T>, p: T -> bool): (r: seq<T>)
    ensures |r| <= |s|
    ensures forall i :: 0 <= i < |r| ==> r[i] in s
    ensures forall i :: 0 <= i < |s| && p(s[i]) ==> s[i] in r
    ensures forall i :: 0 <= i < |r| ==> p(r[i])
    ensures Subseq(r, s)
  {
    if |s| == 0 then []
    else if p(s[0]) then [s[0]] + Filter(s[1..], p)
    else Filter(s[1..], p)
  }

  /** `filter` keeps every element that satisfies `p` as often as it occurs
      and drops every other one, so with `Subseq` it fixes the result. */
  lemma {:induction false} FilterCounts<T>(s: seq<T>, p: T -> bool)
    ensures multiset(Filter(s, p)) <= multiset(s)
    ensures forall i :: 0 <= i < |s| ==>
              multiset(Filter(s, p))[s[i]] == if p(s[i]) then multiset(s)[s[i]] else 0
  {
    if |s| > 0 {
      assert s == [s[0]] + s[1..];
      FilterCounts(s[1..], p);
      forall i | 0 <= i < |s|
        ensures multiset(Filter(s, p))[s[i]] == if p(s[i]) then multiset(s)[s[i]] else 0
      {
        if i > 0 { assert s[i] == s[1..][i - 1]; }
        if s[i] !in s[1..] { assert multiset(s[1..])[s[i]] == 0; }
        else {
          var j :| 0 <= j < |s[1..]| && s[1..][j] == s[i];
        }
      }
    }
  }

  /** A filter that rejects nothing returns its input unchanged. */
  lemma {:induction false} FilterKeepsAll<T>(s: seq<T>, p: T -> bool)
    requires forall i :: 0 <= i < |s| ==> p(s[i])
    ensures Filter(s, p) == s
  {
    if |s| > 0 { FilterKeepsAll(s[1..], p); }
  }

  lemma {:induction false} FilterConcat<T>(a: seq<T>, b: seq<T>, p: T -> bool)
    ensures Filter(a + b, p) == Filter(a, p) + Filter(b, p)
  {
    if |a| > 0 {
      assert (a + b)[1..] == a[1..] + b;
      FilterConcat(a[1..], b, p);
    } else {
      assert a + b == b;
    }
  }

  /** The position of the first occurrence of `x` in `s`. */
  function FirstIndex<T(==)>(s: seq<T>, x: T): (k: nat)
    requires x in s
    ensures k < |s| && s[k] == x && x !in s[..k]
  {
    if s[0] == x then 0
    else
      assert s[1..][..FirstIndex(s[1..], x)] == s[1..1 + FirstIndex(s[1..], x)];
      1 + FirstIndex(s[1..], x)
  }

  lemma FirstIndexSnoc<T>(p: seq<T>, x: T, y: T)
    requires y in p
    ensures FirstIndex(p + [x], y) == FirstIndex(p, y)
  {
    var k1, k2 := FirstIndex(p, y), FirstIndex(p + [x], y);
    assert (p + [x])[..k2] == p[..k2] || k2 == |p|;
  }

  /** Indexing past a one-element head. */
  lemma ConsIndex<T>(x: T, s: seq<T>, i: nat)
    requires 1 <= i <= |s|
    ensures ([x] + s)[i] == s[i - 1]
  {
  }

  /** The elements of `new Set(s)` in iteration order: each distinct element
      of `s` once, inserted when it is first met. */
  function Distinct<T(==)>(s: seq<T>): (r: seq<T>)
    ensures forall i :: 0 <= i < |r| ==> r[i] in s
    ensures forall i :: 0 <= i < |s| ==> s[i] in r
    ensures forall i, j :: 0 <= i < j < |r| ==> r[i] != r[j]
    ensures Subseq(r, s)
  {
    if |s| == 0 then []
    else
      var p := s[..|s| - 1];
      var x := s[|s| - 1];
      var d := Distinct(p);
      assert s == p + [x];
      SubseqSnoc(d, p, x);
      if x in d then d else d + [x]
  }

  /** The distinct elements come in the order of their first appearance. */
  lemma {:induction false} DistinctFirstAppearance<T>(s: seq<T>, i: nat, j: nat)
    requires i < j < |Distinct(s)|
    ensures FirstIndex(s, Distinct(s)[i]) < FirstIndex(s, Distinct(s)[j])
  {
    var p := s[..|s| - 1];
    var x := s[|s| - 1];
    var d := Distinct(p);
    assert s == p + [x];
    var r := Distinct(s);
    if j < |d| {
      DistinctFirstAppearance(p, i, j);
      FirstIndexSnoc(p, x, d[i]);
      FirstIndexSnoc(p, x, d[j]);
    } else {
      assert x !in d && r == d + [x] && r[j] == x;
      FirstIndexSnoc(p, x, d[i]);
      assert x !in p;
      assert FirstIndex(s, x) == |s| - 1;
    }
  }

  /** The same order behind a one-element head. */
  lemma DistinctAfterHeadFirstAppearance<T>(x: T, s: seq<T>, i: nat, j: nat)
    requires 1 <= i < j <= |Distinct(s)|
    ensures ([x] + Distinct(s))[i] in s && ([x] + Distinct(s))[j] in s
    ensures FirstIndex(s, ([x] + Distinct(s))[i]) < FirstIndex(s, ([x] + Distinct(s))[j])
  {
    ConsIndex(x, Distinct(s), i);
    ConsIndex(x, Distinct(s), j);
    DistinctFirstAppearance(s, i - 1, j - 1);
  }
}
