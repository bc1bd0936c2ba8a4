/** The median of a sample and how many of its values can be wrong before it is. */
module Medians {

  predicate Ordered(xs: seq<real>) {
    forall i, j :: 0 <= i < j < |xs| ==> xs[i] <= xs[j]
  }

  function Insert(x: real, xs: seq<real>): (ys: seq<real>)
    ensures |ys| == |xs| + 1
  {
    if xs == [] || x <= xs[0] then [x] + xs else [xs[0]] + Insert(x, xs[1..])
  }

  function Sort(xs: seq<real>): (ys: seq<real>)
    ensures |ys| == |xs|
  {
    if xs == [] then [] else Insert(xs[0], Sort(xs[1..]))
  }

  /** The middle value, or the mean of the middle two. */
  function Median(xs: seq<real>): real
    requires xs != []
  {
    var sorted := Sort(xs);
    (sorted[(|xs| - 1) / 2] + sorted[|xs| / 2]) / 2.0
  }

  function Count(xs: seq<real>, p: real -> bool): nat {
    if xs == [] then 0 else (if p(xs[0]) then 1 else 0) + Count(xs[1..], p)
  }

  // ---- sorting ----

  lemma {:induction false} InsertOrdered(x: real, xs: seq<real>)
    requires Ordered(xs)
    ensures Ordered(Insert(x, xs))
    ensures forall y :: y in Insert(x, xs) <==> y == x || y in xs
  {
    if xs != [] && x > xs[0] {
      InsertOrdered(x, xs[1..]);
      var rest := Insert(x, xs[1..]);
      assert xs == [xs[0]] + xs[1..];
      forall i | 0 <= i < |rest| ensures xs[0] <= rest[i] {
        assert rest[i] in rest;
      }
    }
  }

  lemma {:induction false} SortOrdered(xs: seq<real>)
    ensures Ordered(Sort(xs))
  {
    if xs != [] {
      SortOrdered(xs[1..]);
      InsertOrdered(xs[0], Sort(xs[1..]));
    }
  }

  lemma {:induction false} InsertCounts(x: real, xs: seq<real>, p: real -> bool)
    ensures Count(Insert(x, xs), p) == (if p(x) then 1 else 0) + Count(xs, p)
  {
    if xs == [] || x <= xs[0] {
      assert ([x] + xs)[1..] == xs;
    } else {
      InsertCounts(x, xs[1..], p);
      assert ([xs[0]] + Insert(x, xs[1..]))[1..] == Insert(x, xs[1..]);
    }
  }

  lemma {:induction false} SortCounts(xs: seq<real>, p: real -> bool)
    ensures Count(Sort(xs), p) == Count(xs, p)
  {
    if xs != [] {
      SortCounts(xs[1..], p);
      InsertCounts(xs[0], Sort(xs[1..]), p);
    }
  }

  lemma {:induction false} CountAtLeast(xs: seq<real>, p: real -> bool, lo: nat, hi: nat)
    requires lo <= hi <= |xs| && forall i :: lo <= i < hi ==> p(xs[i])
    ensures Count(xs, p) >= hi - lo
  {
    if xs != [] && hi > 0 {
      assert lo == 0 && hi > lo ==> p(xs[0]);
      CountAtLeast(xs[1..], p, if lo == 0 then 0 else lo - 1, hi - 1);
    }
  }

  lemma {:induction false} SortKeepsValues(xs: seq<real>)
    ensures multiset(Sort(xs)) == multiset(xs)
  {
    if xs != [] {
      SortKeepsValues(xs[1..]);
      InsertKeepsValues(xs[0], Sort(xs[1..]));
      assert xs == [xs[0]] + xs[1..];
    }
  }

  lemma {:induction false} InsertKeepsValues(x: real, xs: seq<real>)
    ensures multiset(Insert(x, xs)) == multiset(xs) + multiset{x}
  {
    if xs != [] && x > xs[0] {
      InsertKeepsValues(x, xs[1..]);
      assert xs == [xs[0]] + xs[1..];
    } else {
      assert [x] + xs == Insert(x, xs);
    }
  }

  lemma OrderedFirst(xs: seq<real>, ys: seq<real>)
    requires Ordered(xs) && Ordered(ys) && multiset(xs) == multiset(ys) && xs != []
    ensures ys != [] && xs[0] == ys[0] && multiset(xs[1..]) == multiset(ys[1..])
  {
    assert |multiset(xs)| == |multiset(ys)|;
    assert xs[0] in multiset(ys) && ys[0] in multiset(xs);
    assert xs[0] == ys[0];
    assert xs == [xs[0]] + xs[1..] && ys == [ys[0]] + ys[1..];
    assert multiset(xs) == multiset{xs[0]} + multiset(xs[1..]) && multiset(ys) == multiset{ys[0]} + multiset(ys[1..]);
    assert multiset(xs[1..]) == multiset(xs) - multiset{xs[0]} && multiset(ys[1..]) == multiset(ys) - multiset{ys[0]};
  }

  /** A sample has one ordering. */
  lemma {:induction false} OneOrdering(xs: seq<real>, ys: seq<real>)
    requires Ordered(xs) && Ordered(ys) && multiset(xs) == multiset(ys)
    ensures xs == ys
  {
    if xs == [] {
      assert |multiset(xs)| == |multiset(ys)|;
    } else {
      OrderedFirst(xs, ys);
      OneOrdering(xs[1..], ys[1..]);
      assert xs == [xs[0]] + xs[1..] && ys == [ys[0]] + ys[1..];
    }
  }

  /** However a sample is put in order, its median is the middle value, or half the sum
      of the middle two. */
  lemma MedianIsMiddle(xs: seq<real>, ordered: seq<real>)
    requires xs != [] && Ordered(ordered) && multiset(ordered) == multiset(xs)
    ensures |ordered| == |xs|
    ensures if |xs| % 2 == 1 then Median(xs) == ordered[|xs| / 2]
            else 2.0 * Median(xs) == ordered[|xs| / 2 - 1] + ordered[|xs| / 2]
  {
    SortOrdered(xs);
    SortKeepsValues(xs);
    OneOrdering(Sort(xs), ordered);
  }

  // ---- replaced values ----

  /** How many positions differ. */
  function Changed(xs: seq<real>, ys: seq<real>): nat
    requires |xs| == |ys|
  {
    if xs == [] then 0 else (if xs[0] != ys[0] then 1 else 0) + Changed(xs[1..], ys[1..])
  }

  lemma {:induction false} CountWithinChanged(xs: seq<real>, ys: seq<real>, p: real -> bool)
    requires |xs| == |ys| && forall i :: 0 <= i < |xs| && xs[i] == ys[i] ==> !p(ys[i])
    ensures Count(ys, p) <= Changed(xs, ys)
  {
    if xs != [] {
      assert xs[0] == ys[0] ==> !p(ys[0]);
      CountWithinChanged(xs[1..], ys[1..], p);
    }
  }

  function Below(bound: real): real -> bool { (y: real) => y < bound }

  function Above(bound: real): real -> bool { (y: real) => y > bound }

  /** With at most `m` values below the bound, rank `m` is not below it. */
  lemma {:induction false} RankNotBelow(xs: seq<real>, bound: real, m: nat)
    requires m < |xs| && Count(xs, Below(bound)) <= m
    ensures Sort(xs)[m] >= bound
  {
    hide Sort, Count;
    SortOrdered(xs);
    SortCounts(xs, Below(bound));
    if Sort(xs)[m] < bound { CountAtLeast(Sort(xs), Below(bound), 0, m + 1); }
  }

  lemma {:induction false} RankNotAbove(xs: seq<real>, bound: real, m: nat)
    requires m < |xs| && Count(xs, Above(bound)) < |xs| - m
    ensures Sort(xs)[m] <= bound
  {
    hide Sort, Count;
    SortOrdered(xs);
    SortCounts(xs, Above(bound));
    if Sort(xs)[m] > bound { CountAtLeast(Sort(xs), Above(bound), m, |xs|); }
  }

  lemma {:induction false} MedianBetween(xs: seq<real>, lo: real, hi: real)
    requires xs != []
    requires lo <= Sort(xs)[(|xs| - 1) / 2] && Sort(xs)[|xs| / 2] <= hi
    ensures lo <= Median(xs) <= hi
  {
    hide Sort;
    SortOrdered(xs);
    var i, j := (|xs| - 1) / 2, |xs| / 2;
    assert i == j || i < j < |xs|;
    assert Sort(xs)[i] <= Sort(xs)[j];
  }

  /** Replacing fewer than half of a sample, however wildly, keeps its median
      between the least and the greatest untouched value. */
  lemma MedianRobust(xs: seq<real>, ys: seq<real>, lo: real, hi: real)
    requires xs != [] && |xs| == |ys| && 2 * Changed(xs, ys) < |xs|
    requires forall i :: 0 <= i < |xs| && xs[i] == ys[i] ==> lo <= xs[i] <= hi
    ensures lo <= Median(ys) <= hi
  {
    hide Median, Sort, Count, Changed;
    CountWithinChanged(xs, ys, Below(lo));
    CountWithinChanged(xs, ys, Above(hi));
    RankNotBelow(ys, lo, (|ys| - 1) / 2);
    RankNotAbove(ys, hi, |ys| / 2);
    MedianBetween(ys, lo, hi);
  }

  // ---- the bound is exact ----

  /** `xs` with every position of `touched` set to `x`. */
  function Overwrite(xs: seq<real>, touched: seq<bool>, x: real): (ys: seq<real>)
    requires |touched| == |xs|
    ensures |ys| == |xs| && forall i :: 0 <= i < |xs| ==> ys[i] == if touched[i] then x else xs[i]
  {
    seq(|xs|, i requires 0 <= i < |xs| => if touched[i] then x else xs[i])
  }

  function Touched(touched: seq<bool>): nat {
    if touched == [] then 0 else (if touched[0] then 1 else 0) + Touched(touched[1..])
  }

  lemma {:induction false} OverwriteCounts(xs: seq<real>, touched: seq<bool>, x: real, p: real -> bool)
    requires |touched| == |xs| && !p(x)
    ensures Count(Overwrite(xs, touched, x), p) <= |xs| - Touched(touched)
  {
    if xs != [] {
      OverwriteCounts(xs[1..], touched[1..], x, p);
      assert Overwrite(xs, touched, x)[1..] == Overwrite(xs[1..], touched[1..], x);
    }
  }

  lemma {:induction false} CountNone(xs: seq<real>, p: real -> bool)
    requires forall i :: 0 <= i < |xs| ==> !p(xs[i])
    ensures Count(xs, p) == 0
  {
    if xs != [] {
      assert !p(xs[0]);
      CountNone(xs[1..], p);
    }
  }

  /** Half is already too many: whichever half of the positions is replaced, some
      replacement drives the median past any bound. */
  lemma HalfBreaksMedian(xs: seq<real>, touched: seq<bool>, least: real, bound: real)
    requires xs != [] && |touched| == |xs| && |xs| <= 2 * Touched(touched)
    requires forall i :: 0 <= i < |xs| ==> least <= xs[i]
    ensures exists x: real :: Median(Overwrite(xs, touched, x)) > bound
  {
    var x := if least > bound then least + 1.0 else 2.0 * bound - least + 1.0;
    var ys := Overwrite(xs, touched, x);
    MiddlesAfterOverwrite(xs, touched, least, x);
    assert Median(ys) >= (least + x) / 2.0 > bound;
  }

  lemma MiddlesAfterOverwrite(xs: seq<real>, touched: seq<bool>, least: real, x: real)
    requires xs != [] && |touched| == |xs| && |xs| <= 2 * Touched(touched) && least <= x
    requires forall i :: 0 <= i < |xs| ==> least <= xs[i]
    ensures Median(Overwrite(xs, touched, x)) >= (least + x) / 2.0
  {
    hide Sort, Count, Touched;
    var ys := Overwrite(xs, touched, x);
    OverwriteCounts(xs, touched, x, Below(x));
    RankNotBelow(ys, x, |ys| / 2);
    CountNone(ys, Below(least));
    RankNotBelow(ys, least, (|ys| - 1) / 2);
  }
}
