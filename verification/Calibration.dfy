/** Walk-forward validation of one strategy arm: each fold replays its own
    window of the database with a calibrator fitted on what the earlier folds
    traded. The calibration set is followed through the loop and shown to hold
    nothing from after the fold's own test start. */
module Calibration {
  import opened Wrappers
  import opened Broker
  import opened Engine
  import opened EngineLoad
  import opened EngineRun
  import opened WalkForward

  // ---- what one fold yields ----

  datatype Pair = Pair(raw: real, outcome: real)

  /** An entry of a dictionary that keeps the order its keys were first set in. */
  datatype RawEntry = RawEntry(ticker: string, raw: real)

  predicate HasEntry(entries: seq<RawEntry>, ticker: string) {
    exists i :: 0 <= i < |entries| && entries[i].ticker == ticker
  }

  function Put(entries: seq<RawEntry>, ticker: string, raw: real): seq<RawEntry> {
    if entries == [] then [RawEntry(ticker, raw)]
    else
      var last := |entries| - 1;
      if entries[last].ticker == ticker then entries[last := RawEntry(ticker, raw)]
      else if HasEntry(entries[..last], ticker) then Put(entries[..last], ticker, raw) + [entries[last]]
      else entries + [RawEntry(ticker, raw)]
  }

  /** The validation reads results in lower case, which the broker does not. */
  predicate ReadsYes(r: Resolution) { r == ResolvedTo(Yes) || r == Unrecognised(Some(Yes)) }

  /** Whether the published result reads YES; `None` for a market not in the database. */
  function WonYes(db: Database, ticker: string): Option<bool> {
    var m := MarketOf(db.markets, ticker);
    if m.None? then None else Some(ReadsYes(m.value.resolution))
  }

  /** The outcome a calibrator learns is what a YES position was paid exactly when the
      result is not a YES in other letters. */
  lemma OutcomeIsSettlementIff(db: Database, ticker: string, pos: OpenPosition, ts: int)
    requires MarketOf(db.markets, ticker).Some? && pos.side == Yes
    ensures var resolution := MarketOf(db.markets, ticker).value.resolution;
      WonYes(db, ticker) == Some(Expiry(ticker, pos, resolution, ts).won) <==> resolution != Unrecognised(Some(Yes))
  {}

  /** A result spelled "YES": the YES position loses its stake, the calibrator learns YES. */
  lemma SpelledYesSplits()
    ensures var db := Database([Market("m", "s", 1, Strike("", None, None), Unrecognised(Some(Yes)))], [], [], [], []);
            var x := Expiry("m", OpenPosition(Yes, 1, 40, 0, 2), db.markets[0].resolution, 1);
            !x.won && x.gross == -40 && OutcomeOf(db, "m") == 1.0
  {}

  /** The raw probabilities a fold contributes, and the sample its report is built from. */
  datatype FoldRun = FoldRun(raw: seq<RawEntry>, probs: seq<real>, outcomes: seq<bool>)

  predicate Contributes(db: Database, x: Settlement, testStart: int, recorded: map<string, real>) {
    x.entryTs >= testStart && x.ticker in recorded && WonYes(db, x.ticker).Some?
  }

  function Harvest(
      db: Database, settlements: seq<Settlement>, testStart: int, recorded: map<string, real>, k: nat): FoldRun
    requires k <= |settlements|
  {
    if k == 0 then FoldRun([], [], [])
    else
      var before, x := Harvest(db, settlements, testStart, recorded, k - 1), settlements[k - 1];
      if Contributes(db, x, testStart, recorded)
      then FoldRun(Put(before.raw, x.ticker, recorded[x.ticker]), before.probs + [recorded[x.ticker]],
                   before.outcomes + [WonYes(db, x.ticker).value])
      else before
  }

  predicate Ordered(fold: Fold) { fold.trainStart < fold.testStart < fold.testEnd }

  /** `run` is what replaying the fold's window from scratch yields. */
  ghost predicate IsFoldRun(db: Database, fold: Fold, cfg: EngineConfig, cash: int, timeline: seq<int>, run: FoldRun) {
    var a := Load(db, fold.trainStart, fold.testEnd);
    var s := Replay(cfg, a, cash, timeline, |timeline|);
    && IsTimeline(a, timeline)
    && run == Harvest(db, s.broker.settlements, fold.testStart, s.recorded, |s.broker.settlements|)
  }

  method RunOneFold(db: Database, fold: Fold, cfg: EngineConfig, cash: int)
      returns (r: Result<FoldRun, RunError>, ghost timeline: seq<int>)
    requires DistinctTickers(db.markets) && 0.0 < cfg.broker.capFraction <= 1.0
    ensures r.Ok? <==> Ordered(fold)
    ensures r.Ok? ==> IsFoldRun(db, fold, cfg, cash, timeline, r.value)
  {
    hide Replay;
    LoadIsLoaded(db, fold.trainStart, fold.testEnd);
    var broker := new BacktestBroker(cash, cfg.broker);
    var engine := new BacktestEngine(cfg, broker, cash);
    var result, visited :=
        engine.Run(Load(db, fold.trainStart, fold.testEnd), fold.trainStart, fold.testEnd, fold.testStart);
    timeline := visited;
    if result.Err? { return Err(result.error), timeline; }
    var settlements, recorded := broker.settlements, engine.recorded;
    var raw: seq<RawEntry>, probs: seq<real>, outcomes: seq<bool> := [], [], [];
    for i := 0 to |settlements|
      invariant FoldRun(raw, probs, outcomes) == Harvest(db, settlements, fold.testStart, recorded, i)
    {
      var x := settlements[i];
      if x.entryTs >= fold.testStart {
        var won := WonYes(db, x.ticker);
        if x.ticker in recorded && won.Some? {
          probs := probs + [recorded[x.ticker]];
          outcomes := outcomes + [won.value];
          raw := Put(raw, x.ticker, recorded[x.ticker]);
        }
      }
    }
    r := Ok(FoldRun(raw, probs, outcomes));
  }

  // ---- the arm ----

  /** A strategy arm: how a calibrator is fitted (the fold's index is part of its
      version), the one used before there is anything to fit on, and the engine
      built around a calibrator. */
  datatype Arm<!C> = Arm(fit: (seq<Pair>, nat) -> C, identity: C, engine: C -> EngineConfig)

  function CalibratorFor<C>(arm: Arm<C>, fold: Fold, pairs: seq<Pair>): C {
    if pairs != [] then arm.fit(pairs, fold.index) else arm.identity
  }

  function OutcomeOf(db: Database, ticker: string): real {
    if WonYes(db, ticker) == Some(true) then 1.0 else 0.0
  }

  function PairsOf(db: Database, raw: seq<RawEntry>, k: nat): seq<Pair>
    requires k <= |raw|
  {
    if k == 0 then [] else PairsOf(db, raw, k - 1) + [Pair(raw[k - 1].raw, OutcomeOf(db, raw[k - 1].ticker))]
  }

  /** The pairs of the first `k` runs, one run after the other. */
  function PairsBefore(db: Database, runs: seq<FoldRun>, k: nat): seq<Pair>
    requires k <= |runs|
  {
    if k == 0 then [] else PairsBefore(db, runs, k - 1) + PairsOf(db, runs[k - 1].raw, |runs[k - 1].raw|)
  }

  /** Every run is its fold's, calibrated on exactly the runs before it. */
  ghost predicate RunsAre<C>(
      db: Database, folds: seq<Fold>, arm: Arm<C>, cash: int, runs: seq<FoldRun>, timelines: seq<seq<int>>)
  {
    && |runs| == |timelines| <= |folds|
    && forall k :: 0 <= k < |runs| ==> RunIs(db, folds[k], arm, cash, runs, timelines, k)
  }

  ghost predicate RunIs<C>(
      db: Database, fold: Fold, arm: Arm<C>, cash: int, runs: seq<FoldRun>, timelines: seq<seq<int>>, k: nat)
    requires k < |runs| == |timelines|
  {
    IsFoldRun(db, fold, arm.engine(CalibratorFor(arm, fold, PairsBefore(db, runs, k))), cash, timelines[k], runs[k])
  }

  lemma {:induction false} PairsBeforeExtends(db: Database, runs: seq<FoldRun>, more: seq<FoldRun>, k: nat)
    requires k <= |runs|
    ensures PairsBefore(db, runs + more, k) == PairsBefore(db, runs, k)
  {
    if k > 0 {
      PairsBeforeExtends(db, runs, more, k - 1);
      assert (runs + more)[k - 1] == runs[k - 1];
    }
  }

  lemma RunsExtend<C>(
      db: Database, folds: seq<Fold>, arm: Arm<C>, cash: int,
      runs: seq<FoldRun>, timelines: seq<seq<int>>, run: FoldRun, timeline: seq<int>)
    requires RunsAre(db, folds, arm, cash, runs, timelines) && |runs| < |folds|
    requires IsFoldRun(db, folds[|runs|], arm.engine(CalibratorFor(arm, folds[|runs|], PairsBefore(db, runs, |runs|))),
                       cash, timeline, run)
    ensures RunsAre(db, folds, arm, cash, runs + [run], timelines + [timeline])
    ensures PairsBefore(db, runs + [run], |runs| + 1) == PairsBefore(db, runs, |runs|) + PairsOf(db, run.raw, |run.raw|)
  {
    hide IsFoldRun, CalibratorFor;
    var longer, times := runs + [run], timelines + [timeline];
    PairsBeforeExtends(db, runs, [run], |runs|);
    forall k | 0 <= k < |longer| ensures RunIs(db, folds[k], arm, cash, longer, times, k) {
      if k < |runs| {
        PairsBeforeExtends(db, runs, [run], k);
        assert RunIs(db, folds[k], arm, cash, runs, timelines, k);
      }
    }
  }

  lemma NoRuns<C>(db: Database, folds: seq<Fold>, arm: Arm<C>, cash: int)
    ensures RunsAre(db, folds, arm, cash, [], [])
  {}

  /** The cache holds published results only. */
  ghost predicate CacheSound(db: Database, cache: map<string, bool>) {
    forall t :: t in cache ==> WonYes(db, t) == Some(cache[t])
  }

  /** Every market of the entries with a result in the database is in the cache. */
  ghost predicate Covered(db: Database, raw: seq<RawEntry>, cache: map<string, bool>) {
    forall i :: 0 <= i < |raw| && WonYes(db, raw[i].ticker).Some? ==> raw[i].ticker in cache
  }

  /** Looks up the published results of one fold's markets. */
  method CacheResults(db: Database, raw: seq<RawEntry>, cache: map<string, bool>) returns (results: map<string, bool>)
    requires CacheSound(db, cache)
    ensures CacheSound(db, results) && Covered(db, raw, results) && cache.Keys <= results.Keys
  {
    results := cache;
    for i := 0 to |raw|
      invariant CacheSound(db, results) && cache.Keys <= results.Keys
      invariant forall j :: 0 <= j < i && WonYes(db, raw[j].ticker).Some? ==> raw[j].ticker in results
    {
      var won := WonYes(db, raw[i].ticker);
      if won.Some? { results := results[raw[i].ticker := won.value]; }
    }
  }

  /** The pairs of the first `k` entries, with outcomes read from the cache. */
  function CachedPairs(raw: seq<RawEntry>, results: map<string, bool>, k: nat): seq<Pair>
    requires k <= |raw|
  {
    if k == 0 then []
    else
      var t := raw[k - 1].ticker;
      CachedPairs(raw, results, k - 1) + [Pair(raw[k - 1].raw, if t in results && results[t] then 1.0 else 0.0)]
  }

  /** A sound cache that covers the entries gives the outcomes of the database. */
  lemma {:induction false} CacheAgrees(db: Database, raw: seq<RawEntry>, results: map<string, bool>, k: nat)
    requires k <= |raw| && CacheSound(db, results) && Covered(db, raw, results)
    ensures CachedPairs(raw, results, k) == PairsOf(db, raw, k)
  {
    if k > 0 { CacheAgrees(db, raw, results, k - 1); }
  }

  /** Rolls one fold's pairs into the calibration set, with the cached results. */
  method RollPairs(raw: seq<RawEntry>, pairs: seq<Pair>, results: map<string, bool>) returns (rolled: seq<Pair>)
    ensures rolled == pairs + CachedPairs(raw, results, |raw|)
  {
    rolled := pairs;
    for i := 0 to |raw|
      invariant rolled == pairs + CachedPairs(raw, results, i)
    {
      var t := raw[i].ticker;
      rolled := rolled + [Pair(raw[i].raw, if t in results && results[t] then 1.0 else 0.0)];
    }
  }

  /** Walks the folds in order. Each is evaluated with a fresh engine, on a
      calibrator fitted to exactly the pairs of the folds before it, in order. */
  method RunArm<C(!new)>(db: Database, folds: seq<Fold>, arm: Arm<C>, cash: int)
      returns (r: Result<seq<FoldRun>, RunError>, ghost timelines: seq<seq<int>>)
    requires DistinctTickers(db.markets)
    requires forall c: C :: 0.0 < arm.engine(c).broker.capFraction <= 1.0
    ensures r.Ok? <==> forall k :: 0 <= k < |folds| ==> Ordered(folds[k])
    ensures r.Ok? ==> |r.value| == |folds| && RunsAre(db, folds, arm, cash, r.value, timelines)
  {
    hide IsFoldRun, RunsAre, WonYes;
    timelines := [];
    NoRuns(db, folds, arm, cash);
    var runs: seq<FoldRun> := [];
    var calibPairs: seq<Pair> := [];
    var resultsCache: map<string, bool> := map[];
    for k := 0 to |folds|
      invariant |runs| == k && RunsAre(db, folds, arm, cash, runs, timelines)
      invariant calibPairs == PairsBefore(db, runs, k)
      invariant CacheSound(db, resultsCache)
      invariant forall i :: 0 <= i < k ==> Ordered(folds[i])
    {
      var calibrator := if |calibPairs| > 0 then arm.fit(calibPairs, folds[k].index) else arm.identity;
      var result, timeline := RunOneFold(db, folds[k], arm.engine(calibrator), cash);
      if result.Err? { return Err(result.error), timelines; }
      resultsCache := CacheResults(db, result.value.raw, resultsCache);
      calibPairs := RollPairs(result.value.raw, calibPairs, resultsCache);
      CacheAgrees(db, result.value.raw, resultsCache, |result.value.raw|);
      RunsExtend(db, folds, arm, cash, runs, timelines, result.value, timeline);
      runs := runs + [result.value];
      timelines := timelines + [timeline];
    }
    r := Ok(runs);
  }
}
