/** Embargoed rolling walk-forward folds: the loop that cuts them, their closed
    form, and what the windows promise. */
module WalkForward {
  import opened Wrappers

  datatype Fold = Fold(index: nat, trainStart: int, trainEnd: int, testStart: int, testEnd: int, embargo: int)

  datatype FoldError = InvalidWindow | NegativeEmbargo | InvalidStep | NegativeHorizon

  datatype Geometry = Geometry(start: int, end: int, train: int, test: int, embargo: int, step: int)

  /** A missing or zero step means the width of a test window. */
  function StepOf(step: Option<int>, test: int): int {
    if step.Some? && step.value != 0 then step.value else test
  }

  lemma StepIs(width: int, test: int)
    ensures StepOf(None, test) == test && StepOf(Some(width), test) == if width == 0 then test else width
  {}

  predicate Sound(g: Geometry) {
    g.start < g.end && g.train > 0 && g.test > 0 && g.embargo >= 0 && g.step > 0
  }

  function FirstTest(g: Geometry): int { g.start + g.train + g.embargo }

  /** Where fold `i`, if there is one, starts testing. */
  function TestStart(g: Geometry, i: nat): int { FirstTest(g) + i * g.step }

  function FoldAt(g: Geometry, i: nat): Fold {
    var testStart := TestStart(g, i);
    Fold(i, testStart - g.embargo - g.train, testStart - g.embargo, testStart,
         if testStart + g.test <= g.end then testStart + g.test else g.end, g.embargo)
  }

  /** ceil((end - first test start) / step), or none when that is not positive. */
  function FoldCount(g: Geometry): nat
    requires g.step > 0
  {
    var span := g.end - FirstTest(g);
    if span <= 0 then 0 else (span + g.step - 1) / g.step
  }

  /** `folds` are exactly the folds of the geometry. */
  ghost predicate AreFolds(g: Geometry, folds: seq<Fold>) {
    && Sound(g)
    && |folds| == FoldCount(g)
    && (forall i :: 0 <= i < |folds| ==> folds[i] == FoldAt(g, i))
  }

  /** The loop body runs for index `i` exactly when `i` is below the count. */
  lemma CountBounds(g: Geometry, i: nat)
    requires g.step > 0
    ensures TestStart(g, i) < g.end <==> i < FoldCount(g)
  {
    var span, n := g.end - FirstTest(g), FoldCount(g);
    if span > 0 {
      assert n * g.step >= span > (n - 1) * g.step;
      if i < n {
        Scaled(i, n - 1, g.step);
      } else {
        Scaled(n, i, g.step);
      }
    } else {
      Scaled(0, i, g.step);
    }
  }

  lemma Scaled(x: int, y: int, factor: int)
    requires x <= y && factor >= 0
    ensures x * factor <= y * factor
  {}

  method RollingFolds(start: int, end: int, train: int, test: int, embargo: int, stepSeconds: Option<int>)
      returns (r: Result<seq<Fold>, FoldError>)
    ensures var g := Geometry(start, end, train, test, embargo, StepOf(stepSeconds, test));
      if !(start < end) || train <= 0 || test <= 0 then r == Err(InvalidWindow)
      else if embargo < 0 then r == Err(NegativeEmbargo)
      else if g.step <= 0 then r == Err(InvalidStep)
      else r.Ok? && AreFolds(g, r.value)
  {
    if !(start < end) || train <= 0 || test <= 0 { return Err(InvalidWindow); }
    if embargo < 0 { return Err(NegativeEmbargo); }
    var step := StepOf(stepSeconds, test);
    if step <= 0 { return Err(InvalidStep); }
    ghost var g := Geometry(start, end, train, test, embargo, step);
    var folds: seq<Fold> := [];
    var testStart := start + train + embargo;
    var index := 0;
    CountBounds(g, 0);
    while testStart < end
      invariant 0 <= index == |folds| <= FoldCount(g)
      invariant testStart == TestStart(g, index)
      invariant testStart < end <==> index < FoldCount(g)
      invariant forall i :: 0 <= i < |folds| ==> folds[i] == FoldAt(g, i)
      decreases end - testStart
    {
      var testEnd := if testStart + test <= end then testStart + test else end;
      var trainEnd := testStart - embargo;
      folds := folds + [Fold(index, testStart - embargo - train, trainEnd, testStart, testEnd, embargo)];
      index := index + 1;
      testStart := testStart + step;
      CountBounds(g, index);
    }
    r := Ok(folds);
  }

  /** Each fold trains for exactly the training width, inside the range, ends
      training exactly the embargo before it tests, and tests a non-empty window
      that is cut short only by the end of the range. */
  lemma FoldShape(g: Geometry, folds: seq<Fold>, i: nat)
    requires AreFolds(g, folds) && i < |folds|
    ensures var f := folds[i];
      && f.index == i
      && f.trainEnd - f.trainStart == g.train
      && f.testStart - f.trainEnd == g.embargo
      && g.start <= f.trainStart < f.trainEnd <= f.testStart < f.testEnd <= g.end
      && f.testEnd - f.testStart <= g.test
      && (f.testEnd - f.testStart < g.test ==> f.testEnd == g.end)
  {
    CountBounds(g, i);
    Scaled(0, i, g.step);
  }

  predicate Tests(f: Fold, ts: int) { f.testStart <= ts < f.testEnd }

  /** The number of folds whose test window holds `ts`. */
  ghost function Holders(folds: seq<Fold>, ts: int): set<nat> {
    set i: nat | i < |folds| && Tests(folds[i], ts)
  }

  /** With the default step the test windows partition the range from the first
      test start to the end: each instant there is in exactly one, and no other
      instant is in any. */
  lemma WindowsPartition(g: Geometry, folds: seq<Fold>, ts: int)
    requires AreFolds(g, folds) && g.step == g.test
    ensures Holders(folds, ts) == if FirstTest(g) <= ts < g.end then {((ts - FirstTest(g)) / g.test) as nat} else {}
  {
    forall i: nat | i < |folds|
      ensures Tests(folds[i], ts) <==> FirstTest(g) <= ts < g.end && i == (ts - FirstTest(g)) / g.test
    {
      WindowHolds(g, i, ts);
    }
    if FirstTest(g) <= ts < g.end {
      var k := (ts - FirstTest(g)) / g.test;
      assert k * g.test <= ts - FirstTest(g);
      CountBounds(g, k);
      assert k in Holders(folds, ts);
    }
  }

  lemma WindowHolds(g: Geometry, i: nat, ts: int)
    requires Sound(g) && g.step == g.test && i < FoldCount(g)
    ensures Tests(FoldAt(g, i), ts) <==> FirstTest(g) <= ts < g.end && i == (ts - FirstTest(g)) / g.test
  {
    var offset := ts - FirstTest(g);
    assert offset == (offset / g.test) * g.test + offset % g.test;
    if i < offset / g.test {
      Scaled(i + 1, offset / g.test, g.test);
      assert (i + 1) * g.test == i * g.test + g.test;
    } else if offset / g.test < i {
      Scaled(offset / g.test + 1, i, g.test);
      assert (offset / g.test + 1) * g.test == (offset / g.test) * g.test + g.test;
    }
    if offset < 0 { Scaled(0, i, g.step); }
  }

  /** Test windows follow one another without overlap. */
  ghost predicate Disjoint(folds: seq<Fold>) {
    forall i, j :: 0 <= i < j < |folds| ==> folds[i].testEnd <= folds[j].testStart
  }

  /** Folds are described as non-overlapping in time. That is so exactly when the
      step is no shorter than a test window, or there are fewer than two. */
  lemma WindowsDisjointIff(g: Geometry, folds: seq<Fold>)
    requires AreFolds(g, folds)
    ensures Disjoint(folds) <==> (g.step >= g.test || |folds| < 2)
  {
    if g.step >= g.test {
      forall i, j | 0 <= i < j < |folds| ensures folds[i].testEnd <= folds[j].testStart {
        Scaled(i + 1, j, g.step);
        assert (i + 1) * g.step == i * g.step + g.step;
      }
    } else if |folds| >= 2 {
      CountBounds(g, 1);
      assert folds[1].testStart < folds[0].testEnd;
    }
  }

  lemma FirstTwoFolds(g: Geometry)
    ensures TestStart(g, 1) == FirstTest(g) + g.step
    ensures FoldAt(g, 0).testStart == FirstTest(g) && FoldAt(g, 1).testStart == FirstTest(g) + g.step
    ensures FirstTest(g) + g.test <= g.end ==> FoldAt(g, 0).testEnd == FirstTest(g) + g.test
  {}

  /** Windows four wide cut every two: the first is [1, 5), the next starts at 3. */
  lemma ShortStepOverlaps(g: Geometry)
    requires g.start == 0 && g.end == 7 && g.train == 1 && g.test == 4 && g.embargo == 0 && g.step == 2
    ensures Sound(g) && FoldCount(g) >= 2
    ensures FoldAt(g, 0).testStart == 1 && FoldAt(g, 1).testStart == 3 && FoldAt(g, 0).testEnd == 5
  {
    hide TestStart, FoldCount, FoldAt;
    FirstTwoFolds(g);
    CountBounds(g, 1);
  }

  // ---- purged folds ----

  function Expanded(f: Fold, start: int): Fold { f.(trainStart := start) }

  method PurgedFolds(start: int, end: int, train: int, test: int, lookback: int, horizon: int,
                     expanding: bool, stepSeconds: Option<int>)
      returns (r: Result<seq<Fold>, FoldError>)
    ensures r == Err(NegativeHorizon) <==> lookback < 0 || horizon < 0
    ensures var g := Geometry(start, end, train, test, lookback + horizon, StepOf(stepSeconds, test));
      r.Ok? <==> lookback >= 0 && horizon >= 0 && Sound(g)
    ensures var g := Geometry(start, end, train, test, lookback + horizon, StepOf(stepSeconds, test));
      r.Ok? ==> |r.value| == FoldCount(g) && forall i :: 0 <= i < |r.value| ==>
        r.value[i] == if expanding then Expanded(FoldAt(g, i), start) else FoldAt(g, i)
  {
    if lookback < 0 || horizon < 0 { return Err(NegativeHorizon); }
    var rolled := RollingFolds(start, end, train, test, lookback + horizon, stepSeconds);
    if rolled.Err? || !expanding { return rolled; }
    var folds := rolled.value;
    r := Ok(seq(|folds|, i requires 0 <= i < |folds| => Expanded(folds[i], start)));
  }

  /** Expanding folds train on nested windows, each holding the rolling fold's own
      and every earlier test window that ended before its purge. No training
      instant is within lookback plus horizon of a tested one. */
  lemma {:induction false} ExpandingWindowsNest(
      g: Geometry, folds: seq<Fold>, purged: seq<Fold>, i: nat, j: nat, trained: int, tested: int)
    requires AreFolds(g, folds) && |purged| == |folds| && i < j < |folds|
    requires forall k :: 0 <= k < |folds| ==> purged[k] == Expanded(folds[k], g.start)
    ensures purged[i].trainStart == purged[j].trainStart == g.start
    ensures purged[i].trainEnd < purged[j].trainEnd
    ensures purged[j].trainStart <= folds[j].trainStart && purged[j].trainEnd == folds[j].trainEnd
    ensures trained < purged[j].trainEnd && Tests(purged[j], tested) ==> tested - trained > g.embargo
  {
    hide FoldCount;
    assert purged[i] == Expanded(FoldAt(g, i), g.start) && purged[j] == Expanded(FoldAt(g, j), g.start);
    assert folds[j] == FoldAt(g, j);
    StartsInOrder(g, i, j);
    hide TestStart, AreFolds;
  }

  lemma StartsInOrder(g: Geometry, i: nat, j: nat)
    requires Sound(g) && i < j
    ensures FirstTest(g) <= TestStart(g, i) < TestStart(g, j)
  {
    Scaled(0, i, g.step);
    Scaled(i + 1, j, g.step);
    assert (i + 1) * g.step == i * g.step + g.step;
  }
}
