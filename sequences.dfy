/** The two array operations every query of the store is made of:
    `filter` (an order-preserving selection) and `find` (the first match).
    Both are specified here once, independently of any entity. */
module Sequences {
  import opened Wrappers

  /** The elements of `s` that satisfy `p`, in the order they occur in `s`. */
  function Filter<T(!new)>(s: seq<T>, p: T -> bool): (r: seq<T>)
    ensures |r| <= |s|
    ensures forall x :: x in r <==> x in s && p(x)
    ensures forall k :: 0 <= k < |r| ==> p(r[k])
  {
    if s == [] then []
    else if p(s[0]) then [s[0]] + Filter(s[1..], p)
    else Filter(s[1..], p)
  }

  /** The first element of `s` that satisfies `p`, if there is one. */
  function Find<T>(s: seq<T>, p: T -> bool): (r: Option<T>)
    ensures r.None? <==> forall i :: 0 <= i < |s| ==> !p(s[i])
    ensures r.Some? ==> r.value in s && p(r.value)
  {
    if s == [] then None
    else if p(s[0]) then Some(s[0])
    else Find(s[1..], p)
  }

  ghost predicate Increasing(idx: seq<int>) {
    forall k, l :: 0 <= k < l < |idx| ==> idx[k] < idx[l]
  }

  /** `idx` lists, in increasing order, the positions of `s` whose elements make up `r`. */
  ghost predicate Picks<T>(idx: seq<int>, r: seq<T>, s: seq<T>) {
    && |idx| == |r|
    && (forall k :: 0 <= k < |idx| ==> 0 <= idx[k] < |s| && r[k] == s[idx[k]])
    && Increasing(idx)
  }

  /** `r` occurs in `s` as a subsequence: same elements, same relative order. */
  ghost predicate SubsequenceOf<T>(r: seq<T>, s: seq<T>) {
    exists idx :: Picks(idx, r, s)
  }

  /** `r` is made of exactly the elements of `s` at the positions where `p`
      holds, in the order of `s`: the reference meaning of a filter. */
  ghost predicate SelectedBy<T>(r: seq<T>, s: seq<T>, p: T -> bool) {
    exists idx :: Picks(idx, r, s) && forall j :: 0 <= j < |s| ==> (j in idx <==> p(s[j]))
  }

  /** `s[i]` is the first element of `s` that satisfies `p`. */
  ghost predicate FirstMatchAt<T>(s: seq<T>, p: T -> bool, i: int) {
    0 <= i < |s| && p(s[i]) && forall j :: 0 <= j < i ==> !p(s[j])
  }

  /** The positions of `idx`, each moved one place right. */
  function Moved(idx: seq<int>): (m: seq<int>)
    ensures |m| == |idx|
    ensures forall k :: 0 <= k < |idx| ==> m[k] == idx[k] + 1
  {
    seq(|idx|, k requires 0 <= k < |idx| => idx[k] + 1)
  }

  lemma MovedPicks<T>(x: T, t: seq<T>, r: seq<T>, idx: seq<int>)
    requires Picks(idx, r, t)
    ensures Picks(Moved(idx), r, [x] + t)
    ensures forall j :: j in Moved(idx) <==> j - 1 in idx
  {
    var m, s := Moved(idx), [x] + t;
    forall k | 0 <= k < |m| ensures 0 <= m[k] < |s| && r[k] == s[m[k]] {
      assert s[idx[k] + 1] == t[idx[k]];
    }
    forall k, l | 0 <= k < l < |m| ensures m[k] < m[l] {
      assert idx[k] < idx[l];
    }
    MovedMembers(idx);
  }

  lemma MovedMembers(idx: seq<int>)
    ensures forall j :: j in Moved(idx) <==> j - 1 in idx
  {
    var m := Moved(idx);
    forall j ensures j in m <==> j - 1 in idx {
      if j in m {
        var k :| 0 <= k < |m| && m[k] == j;
      }
      if j - 1 in idx {
        var k :| 0 <= k < |idx| && idx[k] == j - 1;
        assert m[k] == j;
      }
    }
  }

  lemma ConsPicks<T>(s: seq<T>, r: seq<T>, m: seq<int>)
    requires s != [] && Picks(m, r, s)
    requires forall k :: 0 <= k < |m| ==> m[k] > 0
    ensures Picks([0] + m, [s[0]] + r, s)
  {
    var m', r' := [0] + m, [s[0]] + r;
    forall k | 0 <= k < |m'| ensures 0 <= m'[k] < |s| && r'[k] == s[m'[k]] {
      if k > 0 {
        assert m'[k] == m[k - 1] && r'[k] == r[k - 1];
      }
    }
    forall k, l | 0 <= k < l < |m'| ensures m'[k] < m'[l] {
      assert m'[l] == m[l - 1];
      if k > 0 {
        assert m'[k] == m[k - 1];
      }
    }
  }

  /** Filter meets its reference meaning. */
  lemma {:induction false} FilterSelects<T(!new)>(s: seq<T>, p: T -> bool)
    ensures SelectedBy(Filter(s, p), s, p)
  {
    if s == [] {
      var idx: seq<int> := [];
      assert Picks(idx, Filter(s, p), s);
    } else {
      var t, rest := s[1..], Filter(s[1..], p);
      FilterSelects(t, p);
      ConsSelects(s[0], t, p, rest);
      assert Filter(s, p) == (if p(s[0]) then [s[0]] else []) + rest;
      assert s == [s[0]] + t;
    }
  }

  /** Putting one element in front of a selection: it joins the front of the
      result exactly when it passes the test. */
  lemma ConsSelects<T>(x: T, t: seq<T>, p: T -> bool, r: seq<T>)
    requires SelectedBy(r, t, p)
    ensures SelectedBy((if p(x) then [x] else []) + r, [x] + t, p)
  {
    var idx' :| Picks(idx', r, t) && forall j :: 0 <= j < |t| ==> (j in idx' <==> p(t[j]));
    var idx := ConsWitness(x, t, p, r, idx');
  }

  lemma ConsWitness<T>(x: T, t: seq<T>, p: T -> bool, r: seq<T>, idx': seq<int>) returns (idx: seq<int>)
    requires Picks(idx', r, t) && forall j :: 0 <= j < |t| ==> (j in idx' <==> p(t[j]))
    ensures Picks(idx, (if p(x) then [x] else []) + r, [x] + t)
    ensures forall j :: 0 <= j < |t| + 1 ==> (j in idx <==> p(([x] + t)[j]))
  {
    var s := [x] + t;
    MovedPicks(x, t, r, idx');
    var m := Moved(idx');
    idx := if p(x) then [0] + m else m;
    if p(x) {
      ConsPicks(s, r, m);
    }
    forall j | 0 <= j < |s| ensures j in idx <==> p(s[j]) {
      if j > 0 {
        assert s[j] == t[j - 1];
        assert j in idx <==> j in m;
      } else {
        assert 0 !in m;
      }
    }
  }

  /** Two increasing sequences holding the same values are equal. */
  lemma {:induction false} IncreasingUnique(a: seq<int>, b: seq<int>)
    requires Increasing(a) && Increasing(b)
    requires forall x :: x in a <==> x in b
    ensures a == b
  {
    SameEmptiness(a, b);
    if a != [] {
      IncreasingHeadsAgree(a, b);
      IncreasingTailsAgree(a, b);
      IncreasingUnique(a[1..], b[1..]);
      assert a == [a[0]] + a[1..];
      assert b == [b[0]] + b[1..];
    }
  }

  lemma SameEmptiness(a: seq<int>, b: seq<int>)
    requires forall x :: x in a <==> x in b
    ensures a == [] <==> b == []
  {
    if a != [] {
      var x := a[0];
      assert x in a;
    }
    if b != [] {
      var x := b[0];
      assert x in b;
    }
  }

  lemma IncreasingHeadsAgree(a: seq<int>, b: seq<int>)
    requires Increasing(a) && Increasing(b) && a != [] && b != []
    requires forall x :: x in a <==> x in b
    ensures a[0] == b[0]
  {
    assert a[0] in a && b[0] in b;
    var m :| 0 <= m < |b| && b[m] == a[0];
    var n :| 0 <= n < |a| && a[n] == b[0];
    assert b[0] <= b[m];
    assert a[0] <= a[n];
  }

  lemma IncreasingTailsAgree(a: seq<int>, b: seq<int>)
    requires Increasing(a) && Increasing(b) && a != [] && b != [] && a[0] == b[0]
    requires forall x :: x in a <==> x in b
    ensures Increasing(a[1..]) && Increasing(b[1..])
    ensures forall x :: x in a[1..] <==> x in b[1..]
  {
    forall x | x in a[1..] ensures x in b[1..] {
      var k :| 1 <= k < |a| && a[k] == x;
      assert a[0] < a[k];
      assert x in b;
      var k' :| 0 <= k' < |b| && b[k'] == x;
      assert b[1..][k' - 1] == x;
    }
    forall x | x in b[1..] ensures x in a[1..] {
      var k :| 1 <= k < |b| && b[k] == x;
      assert b[0] < b[k];
      assert x in a;
      var k' :| 0 <= k' < |a| && a[k'] == x;
      assert a[1..][k' - 1] == x;
    }
  }

  /** The reference meaning of a filter determines its result: Filter is the
      only sequence that meets it. */
  lemma SelectedByUnique<T(!new)>(r: seq<T>, s: seq<T>, p: T -> bool)
    requires SelectedBy(r, s, p)
    ensures r == Filter(s, p)
  {
    FilterSelects(s, p);
    var f := Filter(s, p);
    var i1 :| Picks(i1, r, s) && forall j :: 0 <= j < |s| ==> (j in i1 <==> p(s[j]));
    var i2 :| Picks(i2, f, s) && forall j :: 0 <= j < |s| ==> (j in i2 <==> p(s[j]));
    SamePositions(i1, i2, |s|);
    IncreasingUnique(i1, i2);
    PicksDetermine(i1, r, f, s);
  }

  lemma SamePositions(a: seq<int>, b: seq<int>, n: int)
    requires forall k :: 0 <= k < |a| ==> 0 <= a[k] < n
    requires forall k :: 0 <= k < |b| ==> 0 <= b[k] < n
    requires forall j :: 0 <= j < n ==> (j in a <==> j in b)
    ensures forall x :: x in a <==> x in b
  {
    forall x ensures x in a <==> x in b {
      if x in a {
        var k :| 0 <= k < |a| && a[k] == x;
      }
      if x in b {
        var k :| 0 <= k < |b| && b[k] == x;
      }
    }
  }

  lemma PicksDetermine<T>(idx: seq<int>, r1: seq<T>, r2: seq<T>, s: seq<T>)
    requires Picks(idx, r1, s) && Picks(idx, r2, s)
    ensures r1 == r2
  {
    forall k | 0 <= k < |r1| ensures r1[k] == r2[k] {
      assert r1[k] == s[idx[k]];
    }
  }

  /** A selection is a subsequence. */
  lemma SelectedIsSubsequence<T>(r: seq<T>, s: seq<T>, p: T -> bool)
    requires SelectedBy(r, s, p)
    ensures SubsequenceOf(r, s)
  {
    var idx :| Picks(idx, r, s) && forall j :: 0 <= j < |s| ==> (j in idx <==> p(s[j]));
  }

  /** `find` returns the first match. */
  lemma {:induction false} FindFirst<T>(s: seq<T>, p: T -> bool, i: int)
    requires FirstMatchAt(s, p, i)
    ensures Find(s, p) == Some(s[i])
  {
    if i > 0 {
      FindFirst(s[1..], p, i - 1);
    }
  }

  lemma FindReturnsFirst<T>(s: seq<T>, p: T -> bool)
    ensures forall i :: FirstMatchAt(s, p, i) ==> Find(s, p) == Some(s[i])
  {
    forall i | FirstMatchAt(s, p, i) {
      FindFirst(s, p, i);
    }
  }

  /** The number of positions of `s` whose element satisfies `p`. */
  ghost function CountWhere<T>(s: seq<T>, p: T -> bool): nat {
    |set i | 0 <= i < |s| && p(s[i])|
  }

  /** An increasing sequence holds as many distinct values as it is long. */
  lemma {:induction false} IncreasingCount(idx: seq<int>)
    requires Increasing(idx)
    ensures |set x | x in idx| == |idx|
  {
    if idx != [] {
      var tail := idx[1..];
      IncreasingCount(tail);
      assert (set x | x in idx) == {idx[0]} + (set x | x in tail);
      assert idx[0] !in tail;
    }
  }

  /** The length of a filter is the number of positions that pass it. */
  lemma FilterCount<T(!new)>(s: seq<T>, p: T -> bool)
    ensures |Filter(s, p)| == CountWhere(s, p)
  {
    FilterSelects(s, p);
    SelectedLength(Filter(s, p), s, p);
  }

  /** A selection is as long as the number of positions that pass the test. */
  lemma SelectedLength<T>(r: seq<T>, s: seq<T>, p: T -> bool)
    requires SelectedBy(r, s, p)
    ensures |r| == CountWhere(s, p)
  {
    var idx :| Picks(idx, r, s) && forall j :: 0 <= j < |s| ==> (j in idx <==> p(s[j]));
    PositionsCount(idx, s, p);
  }

  lemma PositionsCount<T>(idx: seq<int>, s: seq<T>, p: T -> bool)
    requires Increasing(idx)
    requires forall k :: 0 <= k < |idx| ==> 0 <= idx[k] < |s|
    requires forall j :: 0 <= j < |s| ==> (j in idx <==> p(s[j]))
    ensures |idx| == CountWhere(s, p)
  {
    IncreasingCount(idx);
    var values := set x | x in idx;
    var positions := set i | 0 <= i < |s| && p(s[i]);
    forall x | x in values ensures x in positions {
      var k :| 0 <= k < |idx| && idx[k] == x;
    }
    forall x | x in positions ensures x in values {
    }
    assert values == positions;
  }

  /** Filtering twice is filtering once by the conjunction. */
  lemma {:induction false} FilterFilter<T(!new)>(s: seq<T>, p: T -> bool, q: T -> bool, pq: T -> bool)
    requires forall x :: pq(x) == (p(x) && q(x))
    ensures Filter(Filter(s, p), q) == Filter(s, pq)
  {
    if s != [] {
      FilterFilter(s[1..], p, q, pq);
    }
  }

  /** A filter that every element passes keeps the whole sequence. */
  lemma {:induction false} FilterKeepsAll<T(!new)>(s: seq<T>, p: T -> bool)
    requires forall k :: 0 <= k < |s| ==> p(s[k])
    ensures Filter(s, p) == s
  {
    if s != [] {
      FilterKeepsAll(s[1..], p);
      assert s == [s[0]] + s[1..];
    }
  }
}
