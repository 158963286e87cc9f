/**
 * The final ranking: `select.sort((a, b) => a.median - b.median)` and the same
 * for `insert`. Array.prototype.sort is stable (ECMA-262, 2019 edition on), so
 * the result is the records in ascending median order with equal medians in
 * their original order. `SortByMedian` is a stable insertion sort; the
 * uniqueness lemma shows that any sorted, tie-preserving rearrangement (the
 * engine's own algorithm included) is equal to it.
 */
module Ranking {
  import opened Records

  ghost predicate SortedByMedian(s: seq<MeasureCodec>)
  {
    forall i, j :: 0 <= i < j < |s| ==> s[i].median <= s[j].median
  }

  /** The records of s whose median is m, in their order in s. */
  function WithMedian(s: seq<MeasureCodec>, m: int): seq<MeasureCodec>
  {
    if s == [] then [] else WithMedian(s[..|s| - 1], m) + Tie(s[|s| - 1], m)
  }

  /** [x] when x's median is m, otherwise nothing. */
  function Tie(x: MeasureCodec, m: int): seq<MeasureCodec>
  {
    if x.median == m then [x] else []
  }

  /** b keeps every group of equal medians of a in the same order: what stability means. */
  ghost predicate SameTies(a: seq<MeasureCodec>, b: seq<MeasureCodec>)
  {
    forall m :: WithMedian(a, m) == WithMedian(b, m)
  }

  /** Inserts x after every record of t whose median is not above x's. */
  function InsertByMedian(t: seq<MeasureCodec>, x: MeasureCodec): seq<MeasureCodec>
  {
    if t == [] then [x]
    else if t[|t| - 1].median <= x.median then t + [x]
    else InsertByMedian(t[..|t| - 1], x) + [t[|t| - 1]]
  }

  /** The comparator `(a, b) => a.median - b.median` applied by a stable sort. */
  function SortByMedian(s: seq<MeasureCodec>): seq<MeasureCodec>
  {
    if s == [] then [] else InsertByMedian(SortByMedian(s[..|s| - 1]), s[|s| - 1])
  }

  /** In-place stable insertion sort of a report array. */
  method SortByMedianInPlace(a: array<MeasureCodec>)
    modifies a
    ensures a[..] == SortByMedian(old(a[..]))
  {
    ghost var s := a[..];
    var i := 0;
    while i < a.Length
      invariant 0 <= i <= a.Length
      invariant a[..i] == SortByMedian(s[..i])
      invariant a[i..] == s[i..]
    {
      assert a[i] == s[i] by { assert a[i..][0] == s[i..][0]; }
      InsertNext(a, i);
      assert s[..i + 1][..i] == s[..i];
      i := i + 1;
    }
    assert s[..a.Length] == s;
  }

  /** One pass of the insertion sort: a[i] moves into the sorted prefix a[..i]. */
  method InsertNext(a: array<MeasureCodec>, i: nat)
    requires i < a.Length
    modifies a
    ensures a[..i + 1] == InsertByMedian(old(a[..i]), old(a[i]))
    ensures a[i + 1..] == old(a[i + 1..])
  {
    var x := a[i];
    ghost var t := a[..i];
    var j := ShiftGreater(a, i, x);
    a[j] := x;
    InsertAt(t, x, j);
    Spliced(a[..i + 1], t, x, j);
    assert a[i + 1..] == old(a[i + 1..]) by {
      var rest, rest0 := a[i + 1..], old(a[i + 1..]);
      forall k | 0 <= k < |rest|
        ensures rest[k] == rest0[k]
      {
        assert a[i + 1 + k] == old(a[i + 1 + k]);
      }
    }
  }

  /**
   * Moves the records of a[..i] whose median is above x's one place to the
   * right, from the end of the prefix down, and returns the slot left free.
   */
  method ShiftGreater(a: array<MeasureCodec>, i: nat, x: MeasureCodec) returns (j: nat)
    requires i < a.Length
    modifies a
    ensures j <= i
    ensures j > 0 ==> old(a[j - 1]).median <= x.median
    ensures forall k :: 0 <= k < j ==> a[k] == old(a[k])
    ensures forall k :: j < k <= i ==> a[k] == old(a[k - 1])
    ensures forall k :: j <= k < i ==> old(a[k]).median > x.median
    ensures forall k :: i < k < a.Length ==> a[k] == old(a[k])
  {
    j := i;
    while j > 0 && a[j - 1].median > x.median
      invariant 0 <= j <= i
      invariant forall k :: 0 <= k < j ==> a[k] == old(a[k])
      invariant forall k :: j < k <= i ==> a[k] == old(a[k - 1])
      invariant forall k :: j <= k < i ==> old(a[k]).median > x.median
      invariant forall k :: i < k < a.Length ==> a[k] == old(a[k])
    {
      a[j] := a[j - 1];
      j := j - 1;
    }
  }

  /** A sequence that agrees with t before j, holds x at j and t shifted by one after j is t with x spliced in at j. */
  lemma Spliced(b: seq<MeasureCodec>, t: seq<MeasureCodec>, x: MeasureCodec, j: nat)
    requires j <= |t| && |b| == |t| + 1 && b[j] == x
    requires forall k :: 0 <= k < j ==> b[k] == t[k]
    requires forall k :: j < k < |b| ==> b[k] == t[k - 1]
    ensures b == t[..j] + [x] + t[j..]
  {
  }

  /** Where InsertByMedian puts x: after the prefix not above it, before the suffix above it. */
  lemma {:induction false} InsertAt(t: seq<MeasureCodec>, x: MeasureCodec, j: nat)
    requires j <= |t|
    requires j > 0 ==> t[j - 1].median <= x.median
    requires forall k :: j <= k < |t| ==> t[k].median > x.median
    ensures InsertByMedian(t, x) == t[..j] + [x] + t[j..]
  {
    if j < |t| {
      var t' := t[..|t| - 1];
      InsertAt(t', x, j);
      assert t[..j] == t'[..j];
      assert t[j..] == t'[j..] + [t[|t| - 1]];
    } else if t != [] {
      assert t[..j] == t;
    }
  }

  ghost predicate AllAtMost(s: seq<MeasureCodec>, bound: int)
  {
    forall i :: 0 <= i < |s| ==> s[i].median <= bound
  }

  lemma {:induction false} InsertByMedianAtMost(t: seq<MeasureCodec>, x: MeasureCodec, bound: int)
    requires AllAtMost(t, bound) && x.median <= bound
    ensures AllAtMost(InsertByMedian(t, x), bound)
  {
    if t != [] && t[|t| - 1].median > x.median {
      InsertByMedianAtMost(t[..|t| - 1], x, bound);
    }
  }

  lemma {:induction false} InsertByMedianSorted(t: seq<MeasureCodec>, x: MeasureCodec)
    requires SortedByMedian(t)
    ensures SortedByMedian(InsertByMedian(t, x))
  {
    if t != [] && t[|t| - 1].median > x.median {
      var t' := t[..|t| - 1];
      var last := t[|t| - 1];
      InsertByMedianSorted(t', x);
      InsertByMedianAtMost(t', x, last.median);
    }
  }

  lemma {:induction false} InsertByMedianMultiset(t: seq<MeasureCodec>, x: MeasureCodec)
    ensures multiset(InsertByMedian(t, x)) == multiset(t) + multiset{x}
  {
    if t != [] && t[|t| - 1].median > x.median {
      var t' := t[..|t| - 1];
      InsertByMedianMultiset(t', x);
      assert t == t' + [t[|t| - 1]];
    }
  }

  /** The ranking is ascending by median. */
  lemma {:induction false} SortByMedianSorted(s: seq<MeasureCodec>)
    ensures SortedByMedian(SortByMedian(s))
  {
    if s != [] {
      SortByMedianSorted(s[..|s| - 1]);
      InsertByMedianSorted(SortByMedian(s[..|s| - 1]), s[|s| - 1]);
    }
  }

  /** The ranking holds exactly the records it was given. */
  lemma {:induction false} SortByMedianPermutation(s: seq<MeasureCodec>)
    ensures multiset(SortByMedian(s)) == multiset(s)
  {
    if s != [] {
      var s', x := s[..|s| - 1], s[|s| - 1];
      var t := SortByMedian(s');
      calc {
        multiset(SortByMedian(s));
        multiset(InsertByMedian(t, x));
        { InsertByMedianMultiset(t, x); }
        multiset(t) + multiset{x};
        { SortByMedianPermutation(s'); }
        multiset(s') + multiset{x};
        { assert s == s' + [x]; }
        multiset(s);
      }
    }
  }

  lemma WithMedianSnoc(s: seq<MeasureCodec>, x: MeasureCodec, m: int)
    ensures WithMedian(s + [x], m) == WithMedian(s, m) + Tie(x, m)
  {
    assert (s + [x])[..|s|] == s;
  }

  lemma {:induction false} InsertByMedianTies(t: seq<MeasureCodec>, x: MeasureCodec, m: int)
    ensures WithMedian(InsertByMedian(t, x), m) == WithMedian(t, m) + Tie(x, m)
  {
    if t == [] || t[|t| - 1].median <= x.median {
      WithMedianSnoc(t, x, m);
    } else {
      var t', last := t[..|t| - 1], t[|t| - 1];
      var r := InsertByMedian(t', x);
      var w, tx, tl := WithMedian(t', m), Tie(x, m), Tie(last, m);
      calc {
        WithMedian(InsertByMedian(t, x), m);
        WithMedian(r + [last], m);
        { WithMedianSnoc(r, last, m); }
        WithMedian(r, m) + tl;
        { InsertByMedianTies(t', x, m); }
        w + tx + tl;
        { // last sorts after x, so at most one of them has median m
          if tx != [] { assert tl == []; } }
        w + tl + tx;
        { WithMedianSnoc(t', last, m); assert t == t' + [last]; }
        WithMedian(t, m) + tx;
      }
    }
  }

  /** Records with equal medians keep their relative order: the sort is stable. */
  lemma {:induction false} SortByMedianStable(s: seq<MeasureCodec>)
    ensures SameTies(SortByMedian(s), s)
  {
    if s != [] {
      var s' := s[..|s| - 1];
      SortByMedianStable(s');
      forall m
        ensures WithMedian(SortByMedian(s), m) == WithMedian(s, m)
      {
        InsertByMedianTies(SortByMedian(s'), s[|s| - 1], m);
      }
    }
  }

  lemma WithMedianMember(s: seq<MeasureCodec>, m: int, y: MeasureCodec)
    requires y in WithMedian(s, m)
    ensures y in s && y.median == m
  {
    if s != [] {
      if y in WithMedian(s[..|s| - 1], m) {
        WithMedianMember(s[..|s| - 1], m, y);
      }
    }
  }

  /**
   * A sorted sequence is determined by its groups of equal medians, so every
   * stable ascending sort of the same records gives the same ranking.
   */
  lemma {:induction false} SortedTiesUnique(t: seq<MeasureCodec>, u: seq<MeasureCodec>)
    requires SortedByMedian(t) && SortedByMedian(u) && SameTies(t, u)
    ensures t == u
    decreases |t| + |u|
  {
    if u != [] {
      TiesNonEmpty(t, u);
    }
    if t != [] {
      TiesNonEmpty(u, t);
      TiesLast(t, u);
      var t', u' := t[..|t| - 1], u[..|u| - 1];
      SortedTiesUnique(t', u');
      assert t == t' + [t[|t| - 1]] && u == u' + [u[|u| - 1]];
    }
  }

  lemma TiesNonEmpty(t: seq<MeasureCodec>, u: seq<MeasureCodec>)
    requires SameTies(t, u) && u != []
    ensures t != []
  {
    var b := u[|u| - 1];
    WithMedianSnoc(u[..|u| - 1], b, b.median);
    assert u == u[..|u| - 1] + [b];
    assert WithMedian(t, b.median) == WithMedian(u, b.median) != [];
  }

  /** Two sorted sequences with the same ties end in the same record, and agree on ties without it. */
  lemma TiesLast(t: seq<MeasureCodec>, u: seq<MeasureCodec>)
    requires SortedByMedian(t) && SortedByMedian(u) && SameTies(t, u)
    requires t != [] && u != []
    ensures t[|t| - 1] == u[|u| - 1]
    ensures SameTies(t[..|t| - 1], u[..|u| - 1])
  {
    var a, b := t[|t| - 1], u[|u| - 1];
    var t', u' := t[..|t| - 1], u[..|u| - 1];
    assert t == t' + [a] && u == u' + [b];
    assert a in WithMedian(u, a.median) by {
      WithMedianSnoc(t', a, a.median);
      assert WithMedian(t, a.median) == WithMedian(u, a.median);
    }
    WithMedianMember(u, a.median, a);
    assert b in WithMedian(t, b.median) by {
      WithMedianSnoc(u', b, b.median);
      assert WithMedian(t, b.median) == WithMedian(u, b.median);
    }
    WithMedianMember(t, b.median, b);
    var mid := a.median;
    assert b.median == mid;
    WithMedianSnoc(t', a, mid);
    WithMedianSnoc(u', b, mid);
    assert WithMedian(t, mid) == WithMedian(u, mid);
    assert a == (WithMedian(t', mid) + [a])[|WithMedian(t', mid)|];
    assert b == (WithMedian(u', mid) + [b])[|WithMedian(u', mid)|];
    assert a == b;
    forall m
      ensures WithMedian(t', m) == WithMedian(u', m)
    {
      WithMedianSnoc(t', a, m);
      WithMedianSnoc(u', b, m);
      assert WithMedian(t, m) == WithMedian(u, m);
      if m == mid {
        var x, y := WithMedian(t', m), WithMedian(u', m);
        assert x + [a] == y + [b];
        assert |x| == |y|;
        assert x == (x + [a])[..|x|];
        assert y == (y + [b])[..|y|];
        assert x == y;
      } else {
        assert WithMedian(t, m) == WithMedian(t', m) + [];
        assert WithMedian(u, m) == WithMedian(u', m) + [];
        assert WithMedian(t', m) == WithMedian(t, m);
        assert WithMedian(u', m) == WithMedian(u, m);
      }
    }
  }

  /** The ranking is the one stable ascending-median order of its input. */
  lemma StableSortIsSortByMedian(s: seq<MeasureCodec>, t: seq<MeasureCodec>)
    requires SortedByMedian(t) && SameTies(t, s)
    ensures t == SortByMedian(s)
  {
    SortByMedianSorted(s);
    SortByMedianStable(s);
    SortedTiesUnique(t, SortByMedian(s));
  }

  /** t ranks the records of s: ascending by median, the same records, equal medians in their order in s. */
  ghost predicate IsRanking(t: seq<MeasureCodec>, s: seq<MeasureCodec>)
  {
    SortedByMedian(t) && multiset(t) == multiset(s) && SameTies(t, s)
  }

  /** SortByMedian(s) is a ranking of s, and the only one. */
  lemma RankingIsSortByMedian(s: seq<MeasureCodec>, t: seq<MeasureCodec>)
    ensures IsRanking(t, s) <==> t == SortByMedian(s)
  {
    if t == SortByMedian(s) {
      SortByMedianSorted(s);
      SortByMedianPermutation(s);
      SortByMedianStable(s);
    }
    if IsRanking(t, s) {
      StableSortIsSortByMedian(s, t);
    }
  }
}
