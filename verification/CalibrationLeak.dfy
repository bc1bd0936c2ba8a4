/** Where walk-forward validation does look ahead: a fold fitted on a market that
    closes after it began to test, when the step is too short; and a fold's training
    segment, replayed with a calibrator fitted on what closed after it. */
module CalibrationLeak {
  import opened Wrappers
  import opened Broker
  import opened Engine
  import opened EngineLoad
  import opened WalkForward
  import opened Calibration
  import opened CalibrationLaws
  import opened CalibrationCausality
  import opened OneTradeRun

  // ---- a short step ----

  predicate Overlaps(g: Geometry) { Sound(g) && g.step < g.test && FoldCount(g) >= 2 }

  /** Bought in the first second that fold 0 tests; closes one second after fold 1
      begins to. */
  function LateClose(g: Geometry): Scene { Scene(TestStart(g, 0), TestStart(g, 1) + 1, Yes) }

  function BuyersArm(): Arm<bool> { Arm((_, _) => true, false, _ => Buyer()) }

  lemma LateCloseIsTested(g: Geometry)
    requires Overlaps(g)
    ensures var (c, fold) := (LateClose(g), FoldAt(g, 0));
            fold.trainStart < fold.testStart == c.fill < c.close <= fold.testEnd
  {
    CountBounds(g, 1);
  }

  /** The converse of `CalibrationNeverLeaks`: whenever a step is shorter than a
      test window and there are two folds, this database and this arm have fold 1
      fitted on the outcome of a market that closes after it began to test. */
  lemma {:induction false} ShortStepLeaks(
      g: Geometry, folds: seq<Fold>, cash: int, runs: seq<FoldRun>, timelines: seq<seq<int>>)
    requires AreFolds(g, folds) && g.step < g.test && |folds| >= 2 && cash >= 53
    requires RunsAre(DatabaseOf(LateClose(g)), folds, BuyersArm(), cash, runs, timelines) && |runs| >= 1
    ensures PairsBefore(DatabaseOf(LateClose(g)), runs, 1) == [Pair(0.5, 1.0)] && SourcesBefore(runs, 1) == ["m"]
    ensures !KnownBy(DatabaseOf(LateClose(g)), "m", folds[1].testStart)
  {
    hide IsFoldRun;
    var c := LateClose(g);
    var db := DatabaseOf(c);
    assert RunIs(db, folds[0], BuyersArm(), cash, runs, timelines, 0);
    LateCloseIsTested(g);
    TradeIsSampled(c, folds[0], cash, timelines[0], runs[0]);
    PairsOfTrade(c, runs[0]);
    PairsBeforeExtends(db, [runs[0]], runs[1..], 1);
    assert [runs[0]] + runs[1..] == runs;
    assert db.markets[..0] == [] && MarketOf(db.markets, "m") == Some(MarketIn(c));
    assert SourcesBefore(runs, 0) == [];
  }

  // ---- the training segment ----

  /** Fold 1 trains on what fold 0 begins to test on. */
  predicate TrainsOnTested(g: Geometry) { Sound(g) && g.step < g.train + g.embargo && FoldCount(g) >= 2 }

  /** Bought in the first second that fold 0 tests; closes the next. */
  function NextClose(g: Geometry, winner: Side): Scene { Scene(TestStart(g, 0), TestStart(g, 0) + 1, winner) }

  /** Buys until a calibrator has been fitted, and after that if what it was fitted
      on came out YES. */
  function LearningArm(): Arm<bool> {
    Arm((pairs: seq<Pair>, _) => |pairs| > 0 && pairs[0].outcome == 1.0, true,
        buys => if buys then Buyer() else Holder())
  }

  lemma NextCloseIsTested(g: Geometry, winner: Side)
    requires TrainsOnTested(g)
    ensures var (c, fold, next) := (NextClose(g, winner), FoldAt(g, 0), FoldAt(g, 1));
      && fold.trainStart < fold.testStart == c.fill < c.close <= fold.testEnd
      && next.trainStart < c.fill < next.testStart && c.close <= next.testEnd
  {
    CountBounds(g, 1);
  }

  lemma {:induction false} LearnedFrom(
      g: Geometry, folds: seq<Fold>, winner: Side, cash: int, runs: seq<FoldRun>, timelines: seq<seq<int>>,
      timeline: seq<int>)
    requires AreFolds(g, folds) && TrainsOnTested(g) && cash >= 53
    requires RunsAre(DatabaseOf(NextClose(g, winner)), folds, LearningArm(), cash, runs, timelines) && |runs| >= 1
    requires IsTimeline(Load(DatabaseOf(NextClose(g, winner)), folds[1].trainStart, folds[1].testEnd), timeline)
    ensures timeline == Times(NextClose(g, winner))
    ensures "m" in ReplayOf(DatabaseOf(NextClose(g, winner)), folds[1], LearningArm(), cash, runs, 1, timeline, 2)
                     .broker.positions
            <==> winner == Yes
  {
    hide IsFoldRun, Replay, TestStart, Load, DatabaseOf;
    var c, arm := NextClose(g, winner), LearningArm();
    var db := DatabaseOf(c);
    assert RunIs(db, folds[0], arm, cash, runs, timelines, 0);
    NextCloseIsTested(g, winner);
    TradeIsSampled(c, folds[0], cash, timelines[0], runs[0]);
    PairsOfTrade(c, runs[0]);
    PairsBeforeExtends(db, [runs[0]], runs[1..], 1);
    assert [runs[0]] + runs[1..] == runs;
    AllLoaded(c, folds[1].trainStart, folds[1].testEnd);
    OneTimeline(c, timeline);
    BuyerHolds(c, cash);
    HolderHoldsNothing(c, cash);
  }

  /** `ArmNoLookAhead` needs fold `k` to have begun to test. Whenever fold 1 trains on
      what fold 0 begins to test on, here are two databases that store the same up to
      that time, inside fold 1's training window, with results published alike, and
      an arm whose fold 1 has by then bought on the one and not on the other: its
      calibrator knows how a market came out that closes later. */
  lemma {:induction false} TrainingLooksAhead(
      g: Geometry, folds: seq<Fold>, cash: int, runsA: seq<FoldRun>, tlsA: seq<seq<int>>,
      runsB: seq<FoldRun>, tlsB: seq<seq<int>>, tlA: seq<int>, tlB: seq<int>)
    requires AreFolds(g, folds) && TrainsOnTested(g) && cash >= 53
    requires RunsAre(DatabaseOf(NextClose(g, Yes)), folds, LearningArm(), cash, runsA, tlsA) && |runsA| >= 1
    requires RunsAre(DatabaseOf(NextClose(g, No)), folds, LearningArm(), cash, runsB, tlsB) && |runsB| >= 1
    requires IsTimeline(Load(DatabaseOf(NextClose(g, Yes)), folds[1].trainStart, folds[1].testEnd), tlA)
    requires IsTimeline(Load(DatabaseOf(NextClose(g, No)), folds[1].trainStart, folds[1].testEnd), tlB)
    ensures var (a, b, limit) := (DatabaseOf(NextClose(g, Yes)), DatabaseOf(NextClose(g, No)), TestStart(g, 0));
      && folds[1].trainStart < limit < folds[1].testStart
      && SameStored(a, b, limit) && SamePublished(a.markets, b.markets, folds[1].trainStart, folds[1].testEnd)
      && |tlA| >= 2 && tlA[1] <= limit && tlB == tlA
      && "m" in ReplayOf(a, folds[1], LearningArm(), cash, runsA, 1, tlA, 2).broker.positions
      && "m" !in ReplayOf(b, folds[1], LearningArm(), cash, runsB, 1, tlB, 2).broker.positions
  {
    hide RunsAre, ReplayOf, Load, TestStart;
    LearnedFrom(g, folds, Yes, cash, runsA, tlsA, tlA);
    LearnedFrom(g, folds, No, cash, runsB, tlsB, tlB);
    NextCloseIsTested(g, Yes);
  }
}
