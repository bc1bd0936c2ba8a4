/** Walk-forward validation as a whole does not look ahead: two databases that
    store the same up to a time are validated alike up to it, once the fold that
    tests at that time has begun to. */
module CalibrationCausality {
  import opened Broker
  import opened Engine
  import opened EngineCausality
  import opened EngineLoad
  import opened EngineLedger
  import opened WalkForward
  import opened Calibration
  import opened CalibrationLaws

  // ---- one fold that has ended ----

  /** A market closed by `limit` has the same result in both databases. */
  lemma SameResult(a: Database, b: Database, limit: int, ticker: string)
    requires SameStored(a, b, limit) && MarketOf(a.markets, ticker).Some?
    requires MarketOf(a.markets, ticker).value.closeTs <= limit
    ensures WonYes(a, ticker) == WonYes(b, ticker) && OutcomeOf(a, ticker) == OutcomeOf(b, ticker)
  {
    SameMarket(a.markets, b.markets, limit, ticker);
  }

  lemma SameStoredSymmetric(a: Database, b: Database, limit: int)
    requires SameStored(a, b, limit)
    ensures SameStored(b, a, limit)
    ensures DistinctTickers(a.markets) ==> DistinctTickers(b.markets)
  {
    SameListingsSymmetric(a.markets, b.markets, limit);
  }

  /** Of the markets that close by `limit` the same ones are published. */
  lemma ClosedArePublishedAlike(a: Database, b: Database, start: int, end: int, limit: int)
    requires SameStored(a, b, limit) && end <= limit
    ensures SamePublished(a.markets, b.markets, start, end)
  {
    forall i | 0 <= i < |a.markets| && start < a.markets[i].closeTs <= end
      ensures a.markets[i].resolution.Unresolved? == b.markets[i].resolution.Unresolved?
    {
      assert SameListing(a.markets[i], b.markets[i], limit);
    }
  }

  lemma EventsWithin(a: Archive, start: int, end: int, timeline: seq<int>, k: nat)
    requires LoadedFor(a, start, end) && IsTimeline(a, timeline) && k < |timeline|
    ensures timeline[k] <= end
  {
    assert timeline[k] in timeline;
  }

  /** A fold whose data end by `limit` is replayed to the same end. */
  lemma SameFinish(
      a: Database, b: Database, fold: Fold, cfg: EngineConfig, cash: int, tlA: seq<int>, tlB: seq<int>, limit: int)
    requires DistinctTickers(a.markets) && SameStored(a, b, limit) && fold.testEnd <= limit
    requires IsTimeline(Load(a, fold.trainStart, fold.testEnd), tlA)
    requires IsTimeline(Load(b, fold.trainStart, fold.testEnd), tlB)
    ensures tlA == tlB
    ensures Replay(cfg, Load(a, fold.trainStart, fold.testEnd), cash, tlA, |tlA|)
         == Replay(cfg, Load(b, fold.trainStart, fold.testEnd), cash, tlB, |tlB|)
  {
    hide Replay, Load, LoadedFor, IsTimeline, SameStored, SamePublished;
    var start, end := fold.trainStart, fold.testEnd;
    SameStoredSymmetric(a, b, limit);
    LoadIsLoaded(a, start, end);
    LoadIsLoaded(b, start, end);
    ClosedArePublishedAlike(a, b, start, end, limit);
    ClosedArePublishedAlike(b, a, start, end, limit);
    if tlA != [] { EventsWithin(Load(a, start, end), start, end, tlA, |tlA| - 1); }
    if tlB != [] { EventsWithin(Load(b, start, end), start, end, tlB, |tlB| - 1); }
    NoLookAheadFromDatabase(cfg, a, b, start, end, limit, cash, tlA, tlB, |tlA|);
    NoLookAheadFromDatabase(cfg, b, a, start, end, limit, cash, tlB, tlA, |tlB|);
  }

  lemma {:induction false} SameHarvest(
      a: Database, b: Database, settlements: seq<Settlement>, testStart: int, recorded: map<string, real>, k: nat)
    requires k <= |settlements|
    requires forall i :: 0 <= i < |settlements| ==> WonYes(a, settlements[i].ticker) == WonYes(b, settlements[i].ticker)
    ensures Harvest(a, settlements, testStart, recorded, k) == Harvest(b, settlements, testStart, recorded, k)
  {
    hide WonYes;
    if k > 0 { SameHarvest(a, b, settlements, testStart, recorded, k - 1); }
  }

  /** A settled market of a finished replay closed by its end, in the database too. */
  lemma SettledClosed(db: Database, fold: Fold, cfg: EngineConfig, cash: int, timeline: seq<int>, n: nat)
    requires DistinctTickers(db.markets) && IsTimeline(Load(db, fold.trainStart, fold.testEnd), timeline)
    requires n < |Replay(cfg, Load(db, fold.trainStart, fold.testEnd), cash, timeline, |timeline|).broker.settlements|
    ensures var s := Replay(cfg, Load(db, fold.trainStart, fold.testEnd), cash, timeline, |timeline|);
            var m := MarketOf(db.markets, s.broker.settlements[n].ticker);
            m.Some? && m.value.closeTs <= fold.testEnd
  {
    hide Replay;
    var loaded := Load(db, fold.trainStart, fold.testEnd);
    var s := Replay(cfg, loaded, cash, timeline, |timeline|);
    LoadIsLoaded(db, fold.trainStart, fold.testEnd);
    SettledWithin(cfg, loaded, cash, timeline, fold.trainStart, fold.testEnd, n);
    MarketOfUnique(db.markets, MarketOf(loaded.markets, s.broker.settlements[n].ticker).value);
  }

  /** A fold that ends by `limit` yields the same. */
  lemma SameFoldRun(
      a: Database, b: Database, fold: Fold, cfg: EngineConfig, cash: int,
      tlA: seq<int>, tlB: seq<int>, runA: FoldRun, runB: FoldRun, limit: int)
    requires DistinctTickers(a.markets) && SameStored(a, b, limit) && fold.testEnd <= limit
    requires IsFoldRun(a, fold, cfg, cash, tlA, runA) && IsFoldRun(b, fold, cfg, cash, tlB, runB)
    ensures runA == runB
  {
    hide Replay, WonYes, Load, SameStored;
    SameFinish(a, b, fold, cfg, cash, tlA, tlB, limit);
    var s := Replay(cfg, Load(a, fold.trainStart, fold.testEnd), cash, tlA, |tlA|);
    var settlements := s.broker.settlements;
    forall i | 0 <= i < |settlements| ensures WonYes(a, settlements[i].ticker) == WonYes(b, settlements[i].ticker) {
      SettledClosed(a, fold, cfg, cash, tlA, i);
      SameResult(a, b, limit, settlements[i].ticker);
    }
    SameHarvest(a, b, settlements, fold.testStart, s.recorded, |settlements|);
  }

  lemma {:induction false} SamePairs(a: Database, b: Database, raw: seq<RawEntry>, k: nat)
    requires k <= |raw| && forall i :: 0 <= i < |raw| ==> OutcomeOf(a, raw[i].ticker) == OutcomeOf(b, raw[i].ticker)
    ensures PairsOf(a, raw, k) == PairsOf(b, raw, k)
  {
    hide OutcomeOf;
    if k > 0 { SamePairs(a, b, raw, k - 1); }
  }

  lemma SameFoldPairs(
      a: Database, b: Database, fold: Fold, cfg: EngineConfig, cash: int, timeline: seq<int>, run: FoldRun, limit: int)
    requires DistinctTickers(a.markets) && SameStored(a, b, limit) && fold.testEnd <= limit
    requires IsFoldRun(a, fold, cfg, cash, timeline, run)
    ensures PairsOf(a, run.raw, |run.raw|) == PairsOf(b, run.raw, |run.raw|)
  {
    hide Replay, OutcomeOf, SameStored, IsFoldRun, FilledAs, DistinctEntries;
    FoldContributions(a, fold, cfg, cash, timeline, run);
    forall i | 0 <= i < |run.raw| ensures OutcomeOf(a, run.raw[i].ticker) == OutcomeOf(b, run.raw[i].ticker) {
      assert ClosedInside(a, fold, run.raw[i]);
      SameResult(a, b, limit, run.raw[i].ticker);
    }
    SamePairs(a, b, run.raw, |run.raw|);
  }

  // ---- the arm ----

  predicate EndedBy(folds: seq<Fold>, k: nat, limit: int) {
    k <= |folds| && forall j :: 0 <= j < k ==> folds[j].testEnd <= limit
  }

  /** Folds that have ended by `limit` ran alike and leave the same pairs. */
  lemma {:induction false} EndedFoldsAgree<C>(
      a: Database, b: Database, folds: seq<Fold>, arm: Arm<C>, cash: int,
      runsA: seq<FoldRun>, tlsA: seq<seq<int>>, runsB: seq<FoldRun>, tlsB: seq<seq<int>>, limit: int, k: nat)
    requires DistinctTickers(a.markets) && SameStored(a, b, limit) && EndedBy(folds, k, limit)
    requires RunsAre(a, folds, arm, cash, runsA, tlsA) && RunsAre(b, folds, arm, cash, runsB, tlsB)
    requires k <= |runsA| && k <= |runsB|
    ensures runsA[..k] == runsB[..k] && PairsBefore(a, runsA, k) == PairsBefore(b, runsB, k)
  {
    hide IsFoldRun, SameStored, CalibratorFor, PairsOf;
    if k > 0 {
      EndedFoldsAgree(a, b, folds, arm, cash, runsA, tlsA, runsB, tlsB, limit, k - 1);
      var fold := folds[k - 1];
      var cfg := arm.engine(CalibratorFor(arm, fold, PairsBefore(a, runsA, k - 1)));
      assert RunIs(a, fold, arm, cash, runsA, tlsA, k - 1) && RunIs(b, fold, arm, cash, runsB, tlsB, k - 1);
      SameFoldRun(a, b, fold, cfg, cash, tlsA[k - 1], tlsB[k - 1], runsA[k - 1], runsB[k - 1], limit);
      SameFoldPairs(a, b, fold, cfg, cash, tlsA[k - 1], runsA[k - 1], limit);
      assert runsA[..k] == runsA[..k - 1] + [runsA[k - 1]] && runsB[..k] == runsB[..k - 1] + [runsB[k - 1]];
    }
  }

  /** No look-ahead of a whole validation. With disjoint test windows, and results
      published for the same markets of fold `k`'s range, two databases that store the
      same up to `limit` agree, once fold `k` has begun to test, on everything done by
      then: the runs of all earlier folds, the pairs and the calibrator fitted on them,
      and fold `k`'s replay after every step up to `limit`. */
  lemma ArmNoLookAhead<C>(
      a: Database, b: Database, folds: seq<Fold>, arm: Arm<C>, cash: int,
      runsA: seq<FoldRun>, tlsA: seq<seq<int>>, runsB: seq<FoldRun>, tlsB: seq<seq<int>>, limit: int, k: nat,
      tlA: seq<int>, tlB: seq<int>, n: nat)
    requires DistinctTickers(a.markets) && SameStored(a, b, limit) && Disjoint(folds)
    requires RunsAre(a, folds, arm, cash, runsA, tlsA) && RunsAre(b, folds, arm, cash, runsB, tlsB)
    requires k < |folds| && k <= |runsA| && k <= |runsB| && folds[k].testStart <= limit
    requires SamePublished(a.markets, b.markets, folds[k].trainStart, folds[k].testEnd)
    requires IsTimeline(Load(a, folds[k].trainStart, folds[k].testEnd), tlA)
    requires IsTimeline(Load(b, folds[k].trainStart, folds[k].testEnd), tlB)
    requires n <= |tlA| && (n > 0 ==> tlA[n - 1] <= limit)
    ensures runsA[..k] == runsB[..k] && PairsBefore(a, runsA, k) == PairsBefore(b, runsB, k)
    ensures n <= |tlB| && tlA[..n] == tlB[..n]
    ensures ReplayOf(a, folds[k], arm, cash, runsA, k, tlA, n) == ReplayOf(b, folds[k], arm, cash, runsB, k, tlB, n)
  {
    hide RunsAre, SameStored, SamePublished, Replay, Load, IsTimeline, CalibratorFor, PairsBefore;
    EndedFoldsAgree(a, b, folds, arm, cash, runsA, tlsA, runsB, tlsB, limit, k);
    var cfg := arm.engine(CalibratorFor(arm, folds[k], PairsBefore(a, runsA, k)));
    NoLookAheadFromDatabase(cfg, a, b, folds[k].trainStart, folds[k].testEnd, limit, cash, tlA, tlB, n);
  }

  /** Fold `k`'s replay after `n` steps, calibrated on the runs before it. */
  ghost function ReplayOf<C>(
      db: Database, fold: Fold, arm: Arm<C>, cash: int, runs: seq<FoldRun>, k: nat, timeline: seq<int>,
      n: nat): EngineState
    requires k <= |runs| && n <= |timeline|
  {
    var cfg := arm.engine(CalibratorFor(arm, fold, PairsBefore(db, runs, k)));
    Replay(cfg, Load(db, fold.trainStart, fold.testEnd), cash, timeline, n)
  }
}
