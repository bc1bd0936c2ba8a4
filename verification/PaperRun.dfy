/** One foreground paper run: preflight, reconciliation, and cycles of
    evaluation, with the gate that decides which assets may be filled. */
module PaperRun {
  import opened Wrappers
  import opened PaperBroker
  import opened PredictionAdapter

  datatype Domain = Prediction | Perp | Sports
  datatype RunMode = PaperMode | ShadowMode
  datatype Lifecycle = Disabled | Observe | Backtest | Shadow | Paper | Blocked

  datatype AdmissionReason =
    | NotInRegistry | AssetNotActive | NoDecisions | DataUnavailable
    | AdmittedForPaper | AdmittedForDecisions | NoFrozenReport | ReconstructedData

  datatype Admission = Admission(
    asset: string, lifecycle: Lifecycle, admitted: bool, mayFill: bool, reason: AdmissionReason)

  /** What the operator pins, and what the preflight can look up about an asset. A
      run may be given no lookup of where an asset's data came from. */
  datatype RunConfig = RunConfig(
    domain: Domain, assets: seq<string>, mode: RunMode, duration: Option<int>, maxCycles: Option<nat>,
    guardPasses: bool, strategyKnown: bool,
    reportPresent: string -> bool, dataAvailable: string -> bool,
    provenance: Option<string -> Option<string>>)

  const ACTIVE_ASSETS: set<string> := {"BTC", "ETH", "SOL", "XRP"}

  // ---- preflight ----

  /** The registry entry of an asset; the last one counts. */
  function Registered(registry: seq<AssetConfig>, asset: string): Option<AssetConfig> {
    if registry == [] then None
    else if registry[|registry| - 1].assetId == asset then Some(registry[|registry| - 1])
    else Registered(registry[..|registry| - 1], asset)
  }

  /** A live instrument is blocked for a paper run; a perp is only observed. */
  function LifecycleFor(config: AssetConfig, domain: Domain): Lifecycle {
    if domain.Perp? || config.mode.None? then Observe
    else
      match config.mode.value
      case ModeLive => Blocked
      case ModeDisabled => Disabled
      case ModeObserve => Observe
      case ModeBacktest => Backtest
      case ModeShadow => Lifecycle.Shadow
      case ModePaper => Paper
      case ModeBlocked => Blocked
  }

  predicate RecordsDecisions(l: Lifecycle) { l in {Lifecycle.Shadow, Paper} }

  /** The lookup says that the data are the source's own. */
  predicate Vouched(config: RunConfig, asset: string) {
    config.provenance.Some? && config.provenance.value(asset) == Some("source_native")
  }

  /** What the preflight takes for that: it asks nothing when there is no lookup. */
  predicate SourceNative(config: RunConfig, asset: string) { config.provenance.None? || Vouched(config, asset) }

  function Admit(config: RunConfig, registry: seq<AssetConfig>, asset: string): Admission {
    var found := Registered(registry, asset);
    if found.None? then Admission(asset, Blocked, false, false, NotInRegistry)
    else if !config.domain.Sports? && asset !in ACTIVE_ASSETS then
      Admission(asset, Blocked, false, false, AssetNotActive)
    else
      var lifecycle := LifecycleFor(found.value, config.domain);
      if !RecordsDecisions(lifecycle) then Admission(asset, lifecycle, false, false, NoDecisions)
      else if !config.dataAvailable(asset) then Admission(asset, lifecycle, false, false, DataUnavailable)
      else
        var paper := lifecycle == Paper && config.mode == PaperMode;
        var mayFill := paper && config.reportPresent(asset) && SourceNative(config, asset);
        Admission(asset, lifecycle, true, mayFill,
          if mayFill then AdmittedForPaper
          else if paper && !config.reportPresent(asset) then NoFrozenReport
          else if paper then ReconstructedData
          else AdmittedForDecisions)
  }

  /** Everything a fill needs of its asset and its run. */
  predicate FillConditions(config: RunConfig, registry: seq<AssetConfig>, asset: string) {
    && config.mode == PaperMode && !config.domain.Perp?
    && Registered(registry, asset).Some? && Registered(registry, asset).value.mode == Some(ModePaper)
    && (config.domain.Prediction? ==> asset in ACTIVE_ASSETS)
    && config.dataAvailable(asset) && config.reportPresent(asset) && SourceNative(config, asset)
  }

  /** An asset may be filled exactly when every condition holds, and the reason
      given agrees. */
  lemma MayFillIff(config: RunConfig, registry: seq<AssetConfig>, asset: string)
    ensures var a := Admit(config, registry, asset);
      && (a.mayFill <==> FillConditions(config, registry, asset))
      && (a.mayFill <==> a.reason.AdmittedForPaper?)
      && (a.mayFill ==> a.admitted) && a.asset == asset
  {}

  /** The entry at `i` is the last one of the asset. */
  predicate LastEntry(registry: seq<AssetConfig>, asset: string, i: nat) {
    i < |registry| && registry[i].assetId == asset && forall j :: i < j < |registry| ==> registry[j].assetId != asset
  }

  lemma {:induction false} RegisteredIs(registry: seq<AssetConfig>, asset: string)
    ensures var found := Registered(registry, asset);
      && (found.Some? ==> exists i: nat :: LastEntry(registry, asset, i) && registry[i] == found.value)
      && (found.None? ==> forall i :: 0 <= i < |registry| ==> registry[i].assetId != asset)
  {
    if registry != [] {
      var front := registry[..|registry| - 1];
      if registry[|front|].assetId == asset {
        assert LastEntry(registry, asset, |front|);
      } else {
        RegisteredIs(front, asset);
        if Registered(front, asset).Some? {
          var i: nat :| LastEntry(front, asset, i) && front[i] == Registered(front, asset).value;
          assert LastEntry(registry, asset, i);
        }
      }
    }
  }

  /** An asset is admitted exactly when it is registered, tradable in its domain, in
      a mode that records decisions, and has data; the reason given is the first
      that fails. */
  lemma AdmissionIs(config: RunConfig, registry: seq<AssetConfig>, asset: string)
    ensures var a := Admit(config, registry, asset);
            var entry := Registered(registry, asset);
            var active :=
                config.domain == Sports || asset == "BTC" || asset == "ETH" || asset == "SOL" || asset == "XRP";
            var records :=
                config.domain != Perp && entry.Some? && entry.value.mode in {Some(ModeShadow), Some(ModePaper)};
            var available := config.dataAvailable(asset);
      && (a.admitted <==> entry.Some? && active && records && available)
      && (a.reason == NotInRegistry <==> entry.None?)
      && (a.reason == AssetNotActive <==> entry.Some? && !active)
      && (a.reason == NoDecisions <==> entry.Some? && active && !records)
      && (a.reason == DataUnavailable <==> entry.Some? && active && records && !available)
      && (a.reason == NoFrozenReport <==>
            a.admitted && entry.value.mode == Some(ModePaper) && config.mode == PaperMode
                && !config.reportPresent(asset))
      && (a.admitted ==> a.lifecycle == if entry.value.mode == Some(ModePaper) then Paper else Lifecycle.Shadow)
      && (entry.Some? && active && entry.value.mode == Some(ModeLive) && config.domain != Perp ==>
          a.lifecycle == Blocked)
  {}

  /** Where data came from is described as failing closed: no lookup, or one that says
      anything else, refuses fills. For an asset that may otherwise be filled that is
      so exactly when there is a lookup. */
  lemma ProvenanceFailsClosedIff(config: RunConfig, registry: seq<AssetConfig>, asset: string)
    requires FillConditions(config.(provenance := None), registry, asset)
    ensures (Admit(config, registry, asset).mayFill <==> Vouched(config, asset)) <==> config.provenance.Some?
  {
    MayFillIff(config, registry, asset);
  }

  /** A paper run over one asset, given no lookup, may fill it. */
  lemma NoLookupPermitsFills()
    ensures var config := RunConfig(Prediction, ["BTC"], PaperMode, None, None, true, true, _ => true, _ => true, None);
            var registry := [AssetConfig("BTC", Some(ModePaper), ["KXBTC15M"])];
            Admit(config, registry, "BTC").mayFill && !Vouched(config, "BTC")
  {}

  datatype PreflightError = GuardRefused | UnknownStrategy | NothingAdmitted

  method RunPreflight(config: RunConfig, registry: seq<AssetConfig>) returns (r: Result<seq<Admission>, PreflightError>)
    ensures r == Err(GuardRefused) <==> !config.guardPasses
    ensures r == Err(UnknownStrategy) <==> config.guardPasses && !config.strategyKnown
    ensures r == Err(NothingAdmitted) <==>
      config.guardPasses && config.strategyKnown
      && forall i :: 0 <= i < |config.assets| ==> !Admit(config, registry, config.assets[i]).admitted
    ensures r.Ok? ==>
      && |r.value| == |config.assets|
      && (forall i :: 0 <= i < |r.value| ==> r.value[i] == Admit(config, registry, config.assets[i]))
  {
    if !config.guardPasses { return Err(GuardRefused); }
    if !config.strategyKnown { return Err(UnknownStrategy); }
    var admissions: seq<Admission> := [];
    var any := false;
    for i := 0 to |config.assets|
      invariant |admissions| == i && forall j :: 0 <= j < i ==>
          admissions[j] == Admit(config, registry, config.assets[j])
      invariant any <==> exists j :: 0 <= j < i && admissions[j].admitted
    {
      var admission := Admit(config, registry, config.assets[i]);
      admissions := admissions + [admission];
      any := any || admission.admitted;
    }
    if !any {
      assert forall i :: 0 <= i < |config.assets| ==> !admissions[i].admitted;
      return Err(NothingAdmitted);
    }
    r := Ok(admissions);
  }

  // ---- what a run asks ----

  /** After reconciling the first `k` admissions: the state, how often the adapter was
      asked, and which assets are blocked. */
  datatype Opening = Opening(state: AdapterState, asked: nat, blocked: map<string, bool>)

  function Reconciling(
      admissions: seq<Admission>, registry: seq<AssetConfig>, world: World, s: AdapterState, n: nat, k: nat)
      : (r: Opening)
    requires k <= |admissions| && PointsIntoLedger(s.broker)
    ensures PointsIntoLedger(r.state.broker)
  {
    if k == 0 then Opening(s, n, map[])
    else
      var before := Reconciling(admissions, registry, world, s, n, k - 1);
      var asset := admissions[k - 1].asset;
      if !admissions[k - 1].admitted then before
      else
        var rows := before.state.broker.ledger;
        var r := Reconciled(registry, world, before.state, rows, before.asked, asset, |rows|);
        Opening(r.state, before.asked + 1, before.blocked[asset := r.unresolved != 0])
  }

  /** After evaluating the first `k` admissions of a cycle. */
  function Cycled(
      admissions: seq<Admission>, blocked: map<string, bool>, registry: seq<AssetConfig>, world: World, maxAge: int,
      now: int, s: AdapterState, n: nat, k: nat): (AdapterState, nat)
    requires k <= |admissions|
  {
    if k == 0 then (s, n)
    else
      var (before, asked) := Cycled(admissions, blocked, registry, world, maxAge, now, s, n, k - 1);
      var admission := admissions[k - 1];
      if !admission.admitted then (before, asked)
      else
        var mayFill := admission.mayFill && !(admission.asset in blocked && blocked[admission.asset]);
        (Evaluated(registry, world, maxAge, before, asked, admission.asset, now, mayFill).0, asked + 1)
  }

  /** After `k` cycles, the i-th at `clock(first + i)`. */
  function Cycles(
      admissions: seq<Admission>, blocked: map<string, bool>, registry: seq<AssetConfig>, world: World, maxAge: int,
      clock: nat -> int, first: nat, s: AdapterState, n: nat, k: nat): (AdapterState, nat)
  {
    if k == 0 then (s, n)
    else
      var (before, asked) := Cycles(admissions, blocked, registry, world, maxAge, clock, first, s, n, k - 1);
      Cycled(admissions, blocked, registry, world, maxAge, clock(first + k - 1), before, asked, |admissions|)
  }

  /** Each admitted asset of a cycle is evaluated once, in order, with permission exactly
      when its admission gives it and its reconciliation did not block it. */
  lemma CycleAsksEach(
      admissions: seq<Admission>, blocked: map<string, bool>, registry: seq<AssetConfig>, world: World, maxAge: int,
      now: int, s: AdapterState, n: nat, k: nat)
    requires k < |admissions|
    ensures var (before, asked) := Cycled(admissions, blocked, registry, world, maxAge, now, s, n, k);
      var after := Cycled(admissions, blocked, registry, world, maxAge, now, s, n, k + 1);
      var asset := admissions[k].asset;
      if admissions[k].admitted then
        var permitted := admissions[k].mayFill && (asset in blocked ==> !blocked[asset]);
        after == (Evaluated(registry, world, maxAge, before, asked, asset, now, permitted).0, asked + 1)
      else after == (before, asked)
    ensures Cycled(admissions, blocked, registry, world, maxAge, now, s, n, 0) == (s, n)
  {}

  /** Each admitted asset is reconciled once before the first cycle, and blocked exactly
      when it was left unresolved. */
  lemma OpeningAsksEach(
      admissions: seq<Admission>, registry: seq<AssetConfig>, world: World, s: AdapterState, n: nat, k: nat)
    requires k < |admissions| && PointsIntoLedger(s.broker)
    ensures var before := Reconciling(admissions, registry, world, s, n, k);
      var after := Reconciling(admissions, registry, world, s, n, k + 1);
      if admissions[k].admitted then
        var rows := before.state.broker.ledger;
        var r := Reconciled(registry, world, before.state, rows, before.asked, admissions[k].asset, |rows|);
        && after.state == r.state && after.asked == before.asked + 1
        && after.blocked == before.blocked[admissions[k].asset := r.unresolved > 0]
      else after == before
    ensures Reconciling(admissions, registry, world, s, n, 0) == Opening(s, n, map[])
  {}

  /** Cycles follow one another, each at its own reading of the clock. */
  lemma CyclesFollow(
      admissions: seq<Admission>, blocked: map<string, bool>, registry: seq<AssetConfig>, world: World, maxAge: int,
      clock: nat -> int, first: nat, s: AdapterState, n: nat, k: nat)
    ensures var (before, asked) := Cycles(admissions, blocked, registry, world, maxAge, clock, first, s, n, k);
      Cycles(admissions, blocked, registry, world, maxAge, clock, first, s, n, k + 1)
        == Cycled(admissions, blocked, registry, world, maxAge, clock(first + k), before, asked, |admissions|)
    ensures Cycles(admissions, blocked, registry, world, maxAge, clock, first, s, n, 0) == (s, n)
  {}

  /** A round of the loop is the last when a stop was asked for, the time is up, or there
      have been enough. */
  predicate Ends(config: RunConfig, stopAt: nat, clock: nat -> int, first: nat, start: int, cycles: nat) {
    || stopAt <= cycles
    || (config.duration.Some? && start + config.duration.value <= clock(first + cycles))
    || (config.maxCycles.Some? && config.maxCycles.value <= cycles)
  }

  /** No round before this one was the last. */
  predicate Ongoing(config: RunConfig, stopAt: nat, clock: nat -> int, first: nat, start: int, rounds: nat) {
    forall i: nat :: i < rounds ==> !Ends(config, stopAt, clock, first, start, i)
  }

  lemma GoesOn(config: RunConfig, stopAt: nat, clock: nat -> int, first: nat, start: int, rounds: nat)
    ensures Ongoing(config, stopAt, clock, first, start, 0)
    ensures Ongoing(config, stopAt, clock, first, start, rounds) && !Ends(config, stopAt, clock, first, start, rounds)
            ==> Ongoing(config, stopAt, clock, first, start, rounds + 1)
  {}

  // ---- what a run may do to the ledger ----

  /** No row of the asset is open among the first `base`. */
  predicate AllClosed(registry: seq<AssetConfig>, ledger: seq<LedgerRow>, base: nat, asset: string)
    requires base <= |ledger|
  {
    forall i :: 0 <= i < base ==> !OpenRowOf(registry, ledger[i], asset)
  }

  predicate DistinctOwners(owners: seq<string>) {
    forall i, j :: 0 <= i < j < |owners| ==> owners[i] != owners[j]
  }

  /** The gate: against the ledger the run began with, rows were at most settled;
      each new row, one per asset at most, is open and was made for an asset that
      meets every fill condition and has no row left open from before. When quotes
      are honest the row is of that asset's own market. */
  ghost predicate GateHolds(config: RunConfig, registry: seq<AssetConfig>, world: World,
                            before: seq<LedgerRow>, after: seq<LedgerRow>, owners: seq<string>)
  {
    && |after| == |before| + |owners|
    && (forall i :: 0 <= i < |before| ==> KeptOrSettled(before[i], after[i]))
    && (forall i :: |before| <= i < |after| ==>
          after[i].status.RowOpen?
          && (HonestQuotes(world, registry) ==> AssetOf(registry, after[i].ticker) == Some(owners[i - |before|])))
    && DistinctOwners(owners)
    && (forall i :: 0 <= i < |owners| ==>
          FillConditions(config, registry, owners[i]) && AllClosed(registry, after, |before|, owners[i]))
  }

  /** So with honest quotes a run never leaves an asset with two open rows of
      which one is new. */
  lemma OneOpenRowPerAsset(config: RunConfig, registry: seq<AssetConfig>, world: World,
                           before: seq<LedgerRow>, after: seq<LedgerRow>, owners: seq<string>, i: nat, j: nat,
                           asset: string)
    requires GateHolds(config, registry, world, before, after, owners) && HonestQuotes(world, registry)
    requires i < j < |after| && |before| <= j
    requires OpenRowOf(registry, after[j], asset)
    ensures !OpenRowOf(registry, after[i], asset)
  {}

  /** Settled rows stay settled. */
  lemma SettledTwice(a: LedgerRow, b: LedgerRow, c: LedgerRow)
    requires KeptOrSettled(a, b) && KeptOrSettled(b, c)
    ensures KeptOrSettled(a, c)
  {}

  class PaperOrchestrator {
    const config: RunConfig
    const clock: nat -> int
    /** The round of the loop at whose start the stop request is seen. */
    const stopAt: nat
    var ticks: nat

    constructor (config: RunConfig, clock: nat -> int, stopAt: nat)
      ensures this.config == config && this.clock == clock && this.stopAt == stopAt && ticks == 0
    {
      this.config, this.clock, this.stopAt, ticks := config, clock, stopAt, 0;
    }

    method Now() returns (now: int)
      modifies this`ticks
      ensures now == clock(old(ticks)) && ticks == old(ticks) + 1
    {
      now := clock(ticks);
      ticks := ticks + 1;
    }

    /** Reconciles every admitted asset; one left unresolved is blocked from entry. */
    method ReconcileAll(admissions: seq<Admission>, adapter: PredictionPaperAdapter, ghost startingCash: int)
        returns (entryBlocked: map<string, bool>)
      requires Sound(startingCash, adapter.broker.State())
      modifies adapter`openByAsset, adapter`asked, adapter.broker
      ensures Sound(startingCash, adapter.broker.State())
      ensures OnlySettled(old(adapter.broker.ledger), adapter.broker.ledger)
      ensures AllAsked(admissions, entryBlocked)
      ensures UnblockedClosed(adapter.registry, adapter.broker.ledger, entryBlocked)
      ensures PointsIntoLedger(old(adapter.broker.State()))
      ensures Opening(adapter.State(), adapter.asked, entryBlocked)
        == Reconciling(admissions, adapter.registry, adapter.world, old(adapter.State()), old(adapter.asked),
            |admissions|)
    {
      SoundPointed(startingCash, adapter.broker.State());
      hide Sound, Reconciled, Reconciling, OnlySettled, UnblockedClosed, PointsIntoLedger;
      entryBlocked := map[];
      NothingReconciled(adapter.registry, adapter.broker.ledger);
      if |admissions| > 0 {
        OpeningAsksEach(admissions, adapter.registry, adapter.world, adapter.State(), adapter.asked, 0);
      } else {
        NothingAsked(admissions, adapter.registry, adapter.world, adapter.State(), adapter.asked);
      }
      for i := 0 to |admissions|
        invariant Sound(startingCash, adapter.broker.State())
        invariant OnlySettled(old(adapter.broker.ledger), adapter.broker.ledger)
        invariant forall j :: 0 <= j < i && admissions[j].admitted ==> admissions[j].asset in entryBlocked
        invariant UnblockedClosed(adapter.registry, adapter.broker.ledger, entryBlocked)
        invariant Opening(adapter.State(), adapter.asked, entryBlocked)
          == Reconciling(admissions, adapter.registry, adapter.world, old(adapter.State()), old(adapter.asked), i)
      {
        OpeningAsksEach(admissions, adapter.registry, adapter.world, old(adapter.State()), old(adapter.asked), i);
        if !admissions[i].admitted { continue; }
        SoundPointed(startingCash, adapter.broker.State());
        OneReconciled(startingCash, adapter.registry, adapter.world, old(adapter.broker.ledger), adapter.State(),
                      adapter.asked, admissions[i].asset, entryBlocked);
        var resolved := adapter.Reconcile(admissions[i].asset);
        entryBlocked := entryBlocked[admissions[i].asset := !resolved];
      }
    }

    /** One pass over the admitted assets. */
    method Cycle(admissions: seq<Admission>, entryBlocked: map<string, bool>, now: int, adapter: PredictionPaperAdapter,
                 ghost startingCash: int, ghost before: seq<LedgerRow>, ghost owners: seq<string>)
        returns (ghost owned: seq<string>)
      requires Sound(startingCash, adapter.broker.State())
      requires GateHolds(config, adapter.registry, adapter.world, before, adapter.broker.ledger, owners)
      requires forall i :: 0 <= i < |owners| ==> owners[i] in adapter.openByAsset
      requires Cleared(config, adapter.registry, admissions, entryBlocked, adapter.broker.ledger, |before|)
      modifies adapter`openByAsset, adapter`asked, adapter.broker
      ensures Sound(startingCash, adapter.broker.State())
      ensures owners <= owned
          && GateHolds(config, adapter.registry, adapter.world, before, adapter.broker.ledger, owned)
      ensures forall i :: 0 <= i < |owned| ==> owned[i] in adapter.openByAsset
      ensures Cleared(config, adapter.registry, admissions, entryBlocked, adapter.broker.ledger, |before|)
      ensures old(adapter.broker.ledger) <= adapter.broker.ledger
      ensures (adapter.State(), adapter.asked)
        == Cycled(admissions, entryBlocked, adapter.registry, adapter.world, adapter.maxAge, now,
                  old(adapter.State()), old(adapter.asked), |admissions|)
    {
      owned := owners;
      for i := 0 to |admissions|
        invariant Sound(startingCash, adapter.broker.State())
        invariant owners <= owned
            && GateHolds(config, adapter.registry, adapter.world, before, adapter.broker.ledger, owned)
        invariant forall j :: 0 <= j < |owned| ==> owned[j] in adapter.openByAsset
        invariant Cleared(config, adapter.registry, admissions, entryBlocked, adapter.broker.ledger, |before|)
        invariant old(adapter.broker.ledger) <= adapter.broker.ledger
        invariant (adapter.State(), adapter.asked)
          == Cycled(admissions, entryBlocked, adapter.registry, adapter.world, adapter.maxAge, now,
                    old(adapter.State()), old(adapter.asked), i)
      {
        hide Sound, GateHolds, Cleared, Evaluated, Cycled;
        CycleAsksEach(admissions, entryBlocked, adapter.registry, adapter.world, adapter.maxAge, now,
                      old(adapter.State()), old(adapter.asked), i);
        if !admissions[i].admitted { continue; }
        var asset := admissions[i].asset;
        var blocked := asset in entryBlocked && entryBlocked[asset];
        var mayFill := admissions[i].mayFill && !blocked;
        ghost var s, n := adapter.State(), adapter.asked;
        var v := adapter.Evaluate(asset, now, mayFill);
        EvaluatedSound(startingCash, adapter.registry, adapter.world, adapter.maxAge, s, n, asset, now, mayFill);
        EvaluatedEffect(adapter.registry, adapter.world, adapter.maxAge, s, n, asset, now, mayFill);
        if v.FilledAt? {
          GateAdmits(config, adapter.registry, adapter.world, admissions, entryBlocked, before, s.broker.ledger,
              adapter.broker.ledger, owned, i);
          owned := owned + [asset];
        }
      }
    }

    /** The loop of a run, from its start: cycles until a round ends it. */
    method Loop(admissions: seq<Admission>, entryBlocked: map<string, bool>, adapter: PredictionPaperAdapter,
                ghost startingCash: int, ghost before: seq<LedgerRow>)
        returns (completed: bool, ghost owners: seq<string>, ghost rounds: nat)
      requires Sound(startingCash, adapter.broker.State())
      requires GateHolds(config, adapter.registry, adapter.world, before, adapter.broker.ledger, [])
      requires Cleared(config, adapter.registry, admissions, entryBlocked, adapter.broker.ledger, |before|)
      modifies this`ticks, adapter`openByAsset, adapter`asked, adapter.broker
      ensures Sound(startingCash, adapter.broker.State())
      ensures GateHolds(config, adapter.registry, adapter.world, before, adapter.broker.ledger, owners)
      ensures (adapter.State(), adapter.asked)
        == Cycles(admissions, entryBlocked, adapter.registry, adapter.world, adapter.maxAge, clock, old(ticks) + 1,
                  old(adapter.State()), old(adapter.asked), rounds)
      ensures Ends(config, stopAt, clock, old(ticks) + 1, clock(old(ticks)), rounds)
      ensures Ongoing(config, stopAt, clock, old(ticks) + 1, clock(old(ticks)), rounds)
      ensures completed <==> rounds < stopAt
    {
      hide Sound, Cleared, GateHolds, Cycled, Cycles, Ongoing;
      owners, rounds := [], 0;
      var start := Now();
      ghost var s, n, first := adapter.State(), adapter.asked, ticks;
      CyclesFollow(admissions, entryBlocked, adapter.registry, adapter.world, adapter.maxAge, clock, first, s, n, 0);
      GoesOn(config, stopAt, clock, first, start, 0);
      var cycles := 0;
      while true
        invariant Sound(startingCash, adapter.broker.State())
        invariant GateHolds(config, adapter.registry, adapter.world, before, adapter.broker.ledger, owners)
        invariant forall i :: 0 <= i < |owners| ==> owners[i] in adapter.openByAsset
        invariant Cleared(config, adapter.registry, admissions, entryBlocked, adapter.broker.ledger, |before|)
        invariant 0 <= cycles <= stopAt && ticks == first + cycles
        invariant (adapter.State(), adapter.asked)
          == Cycles(admissions, entryBlocked, adapter.registry, adapter.world, adapter.maxAge, clock, first,
              s, n, cycles)
        invariant Ongoing(config, stopAt, clock, first, start, cycles)
        decreases stopAt - cycles
      {
        rounds := cycles;
        var now := Now();
        if cycles >= stopAt { return false, owners, rounds; }
        if config.duration.Some? && now - start >= config.duration.value { break; }
        if config.maxCycles.Some? && cycles >= config.maxCycles.value { break; }
        GoesOn(config, stopAt, clock, first, start, cycles);
        hide Ends;
        owners := Cycle(admissions, entryBlocked, now, adapter, startingCash, before, owners);
        CyclesFollow(admissions, entryBlocked, adapter.registry, adapter.world, adapter.maxAge, clock, first,
            s, n, cycles);
        cycles := cycles + 1;
      }
      completed := true;
    }

    /** What follows the preflight: every admitted asset is reconciled, and then cycles
        follow until a round ends the run. */
    method Session(admissions: seq<Admission>, adapter: PredictionPaperAdapter, ghost startingCash: int)
        returns (completed: bool, ghost owners: seq<string>, ghost rounds: nat)
      requires Sound(startingCash, adapter.broker.State()) && admissions == Admissions(config, adapter.registry)
      modifies this`ticks, adapter`openByAsset, adapter`asked, adapter.broker
      ensures Sound(startingCash, adapter.broker.State())
      ensures GateHolds(config, adapter.registry, adapter.world, old(adapter.broker.ledger),
          adapter.broker.ledger, owners)
      ensures RanAs(config, stopAt, clock, old(ticks), adapter.registry, adapter.world, adapter.maxAge,
                    old(adapter.State()), old(adapter.asked), adapter.State(), adapter.asked, rounds, completed)
    {
      hide Sound, Cleared, Reconciling, Cycles, Ends, Ongoing, GateHolds, RanAs;
      hide OnlySettled, UnblockedClosed, PointsIntoLedger, AllAsked, Admissions;
      ghost var before, s, n := adapter.broker.ledger, adapter.State(), adapter.asked;
      var entryBlocked := ReconcileAll(admissions, adapter, startingCash);
      GateOpens(config, adapter.registry, adapter.world, before, adapter.broker.ledger);
      ReconciledIsCleared(config, adapter.registry, entryBlocked, adapter.broker.ledger);
      ghost var opening := Opening(adapter.State(), adapter.asked, entryBlocked);
      completed, owners, rounds := Loop(admissions, entryBlocked, adapter, startingCash, before);
      RanSo(config, stopAt, clock, old(ticks), adapter.registry, adapter.world, adapter.maxAge, s, n, opening,
            adapter.State(), adapter.asked, rounds, completed);
    }

    /** A whole run, however long: it asks exactly what the preflight admits, cycle after
        cycle until a round ends it, and the gate holds of everything it did. */
    method Run(adapter: PredictionPaperAdapter, ghost startingCash: int)
        returns (r: Result<bool, PreflightError>, ghost owners: seq<string>, ghost rounds: nat)
      requires Sound(startingCash, adapter.broker.State())
      modifies this`ticks, adapter`openByAsset, adapter`asked, adapter.broker
      ensures Sound(startingCash, adapter.broker.State())
      ensures GateHolds(config, adapter.registry, adapter.world, old(adapter.broker.ledger),
          adapter.broker.ledger, owners)
      ensures r.Err? <==> RefusedPreflight(config, adapter.registry).Some?
      ensures r.Err? ==> adapter.State() == old(adapter.State())
                         && RefusedPreflight(config, adapter.registry) == Some(r.error)
      ensures r.Ok? ==>
        RanAs(config, stopAt, clock, old(ticks), adapter.registry, adapter.world, adapter.maxAge,
              old(adapter.State()), old(adapter.asked), adapter.State(), adapter.asked, rounds, r.value)
    {
      hide Sound, RefusedPreflight, GateHolds, Admit, RanAs, Admissions, OnlySettled;
      owners, rounds := [], 0;
      NothingReconciled(adapter.registry, adapter.broker.ledger);
      GateOpens(config, adapter.registry, adapter.world, adapter.broker.ledger, adapter.broker.ledger);
      var preflight := RunPreflight(config, adapter.registry);
      PreflightRefuses(config, adapter.registry, preflight);
      if preflight.Err? { return Err(preflight.error), [], 0; }
      var completed;
      completed, owners, rounds := Session(preflight.value, adapter, startingCash);
      r := Ok(completed);
    }
  }

  /** The run reconciled what its preflight admits and then went through its rounds: each
      a cycle at its own time, the last at the first that ends it. */
  ghost predicate RanAs(
      config: RunConfig, stopAt: nat, clock: nat -> int, ticks: nat, registry: seq<AssetConfig>, world: World,
      maxAge: int, s: AdapterState, n: nat, after: AdapterState, asked: nat, rounds: nat, completed: bool)
  {
    PointsIntoLedger(s.broker) &&
    var admissions := Admissions(config, registry);
    var opening := Reconciling(admissions, registry, world, s, n, |admissions|);
    && (after, asked)
         == Cycles(admissions, opening.blocked, registry, world, maxAge, clock, ticks + 1, opening.state, opening.asked,
                   rounds)
    && Ends(config, stopAt, clock, ticks + 1, clock(ticks), rounds)
    && Ongoing(config, stopAt, clock, ticks + 1, clock(ticks), rounds)
    && (completed <==> rounds < stopAt)
  }

  lemma RanSo(
      config: RunConfig, stopAt: nat, clock: nat -> int, ticks: nat, registry: seq<AssetConfig>, world: World,
      maxAge: int, s: AdapterState, n: nat, opening: Opening, after: AdapterState, asked: nat, rounds: nat,
      completed: bool)
    requires PointsIntoLedger(s.broker)
    requires var admissions := Admissions(config, registry);
      && opening == Reconciling(admissions, registry, world, s, n, |admissions|)
      && (after, asked)
           == Cycles(admissions, opening.blocked, registry, world, maxAge, clock, ticks + 1,
                  opening.state, opening.asked, rounds)
    requires Ends(config, stopAt, clock, ticks + 1, clock(ticks), rounds)
    requires Ongoing(config, stopAt, clock, ticks + 1, clock(ticks), rounds)
    requires completed <==> rounds < stopAt
    ensures RanAs(config, stopAt, clock, ticks, registry, world, maxAge, s, n, after, asked, rounds, completed)
  {}

  /** With nothing added yet the gate holds of rows at most settled. */
  lemma GateOpens(
      config: RunConfig, registry: seq<AssetConfig>, world: World, before: seq<LedgerRow>, after: seq<LedgerRow>)
    requires OnlySettled(before, after)
    ensures GateHolds(config, registry, world, before, after, [])
  {}

  /** The same rows, settled at most. */
  predicate OnlySettled(before: seq<LedgerRow>, after: seq<LedgerRow>) {
    |after| == |before| && forall i :: 0 <= i < |before| ==> KeptOrSettled(before[i], after[i])
  }

  /** Every admitted asset was reconciled. */
  predicate AllAsked(admissions: seq<Admission>, entryBlocked: map<string, bool>) {
    forall i :: 0 <= i < |admissions| && admissions[i].admitted ==> admissions[i].asset in entryBlocked
  }

  /** No unblocked asset has a row left open. */
  predicate UnblockedClosed(registry: seq<AssetConfig>, ledger: seq<LedgerRow>, entryBlocked: map<string, bool>) {
    forall a :: a in entryBlocked && !entryBlocked[a] ==> AllClosed(registry, ledger, |ledger|, a)
  }

  lemma NothingReconciled(registry: seq<AssetConfig>, ledger: seq<LedgerRow>)
    ensures OnlySettled(ledger, ledger) && UnblockedClosed(registry, ledger, map[])
  {}

  lemma NothingAsked(admissions: seq<Admission>, registry: seq<AssetConfig>, world: World, s: AdapterState, n: nat)
    requires PointsIntoLedger(s.broker)
    ensures Reconciling(admissions, registry, world, s, n, 0) == Opening(s, n, map[])
  {}

  /** What reconciling one more asset keeps. */
  lemma OneReconciled(
      startingCash: int, registry: seq<AssetConfig>, world: World, persisted: seq<LedgerRow>, s: AdapterState, n: nat,
      asset: string, entryBlocked: map<string, bool>)
    requires Sound(startingCash, s.broker) && PointsIntoLedger(s.broker)
    requires OnlySettled(persisted, s.broker.ledger) && UnblockedClosed(registry, s.broker.ledger, entryBlocked)
    ensures var r := Reconciled(registry, world, s, s.broker.ledger, n, asset, |s.broker.ledger|);
      && Sound(startingCash, r.state.broker) && OnlySettled(persisted, r.state.broker.ledger)
      && UnblockedClosed(registry, r.state.broker.ledger, entryBlocked[asset := r.unresolved != 0])
  {
    hide Sound, Reconciled, KeptOrSettled, AllClosed, PointsIntoLedger, OpenRowOf;
    var r := Reconciled(registry, world, s, s.broker.ledger, n, asset, |s.broker.ledger|);
    var ledger := r.state.broker.ledger;
    ReconciledEffect(startingCash, registry, world, s, n, asset, |s.broker.ledger|);
    forall j | 0 <= j < |persisted| ensures KeptOrSettled(persisted[j], ledger[j]) {
      SettledTwice(persisted[j], s.broker.ledger[j], ledger[j]);
    }
    var blocked := entryBlocked[asset := r.unresolved != 0];
    forall a | a in blocked && !blocked[a] ensures AllClosed(registry, ledger, |ledger|, a) {
      if a == asset {
        ClosedWhenResolved(registry, ledger, asset);
      } else {
        StaysClosed(registry, s.broker.ledger, ledger, |ledger|, a);
      }
    }
  }

  lemma ClosedWhenResolved(registry: seq<AssetConfig>, ledger: seq<LedgerRow>, asset: string)
    requires forall i :: 0 <= i < |ledger| ==> !OpenRowOf(registry, ledger[i], asset)
    ensures AllClosed(registry, ledger, |ledger|, asset)
  {}

  function Admissions(config: RunConfig, registry: seq<AssetConfig>): seq<Admission> {
    seq(|config.assets|, i requires 0 <= i < |config.assets| => Admit(config, registry, config.assets[i]))
  }

  /** Why a run is refused before anything is asked. */
  function RefusedPreflight(config: RunConfig, registry: seq<AssetConfig>): Option<PreflightError> {
    if !config.guardPasses then Some(GuardRefused)
    else if !config.strategyKnown then Some(UnknownStrategy)
    else if forall i :: 0 <= i < |config.assets| ==> !Admit(config, registry, config.assets[i]).admitted
    then Some(NothingAdmitted)
    else None
  }

  lemma PreflightRefuses(config: RunConfig, registry: seq<AssetConfig>, r: Result<seq<Admission>, PreflightError>)
    requires r == Err(GuardRefused) <==> !config.guardPasses
    requires r == Err(UnknownStrategy) <==> config.guardPasses && !config.strategyKnown
    requires r == Err(NothingAdmitted) <==>
      config.guardPasses && config.strategyKnown
      && forall i :: 0 <= i < |config.assets| ==> !Admit(config, registry, config.assets[i]).admitted
    requires r.Ok? ==> |r.value| == |config.assets| && forall i :: 0 <= i < |r.value| ==>
        r.value[i] == Admit(config, registry, config.assets[i])
    ensures r.Err? <==> RefusedPreflight(config, registry).Some?
    ensures r.Err? ==> RefusedPreflight(config, registry) == Some(r.error)
    ensures r.Ok? ==> r.value == Admissions(config, registry)
  {
    hide Admit;
    if r.Err? { assert r.error.GuardRefused? || r.error.UnknownStrategy? || r.error.NothingAdmitted?; }
  }

  /** Every admission that may be filled and was not blocked has every condition
      met and its old rows closed. */
  ghost predicate Cleared(config: RunConfig, registry: seq<AssetConfig>, admissions: seq<Admission>,
                          entryBlocked: map<string, bool>, ledger: seq<LedgerRow>, base: nat)
  {
    && base <= |ledger|
    && forall i :: 0 <= i < |admissions| && admissions[i].admitted && admissions[i].mayFill ==>
         FillConditions(config, registry, admissions[i].asset)
         && admissions[i].asset in entryBlocked
         && (!entryBlocked[admissions[i].asset] ==> AllClosed(registry, ledger, base, admissions[i].asset))
  }

  lemma ReconciledIsCleared(config: RunConfig, registry: seq<AssetConfig>, entryBlocked: map<string, bool>,
                            ledger: seq<LedgerRow>)
    requires AllAsked(Admissions(config, registry), entryBlocked)
    requires UnblockedClosed(registry, ledger, entryBlocked)
    ensures Cleared(config, registry, Admissions(config, registry), entryBlocked, ledger, |ledger|)
  {}

  lemma StaysClosed(registry: seq<AssetConfig>, before: seq<LedgerRow>, after: seq<LedgerRow>, base: nat, asset: string)
    requires base <= |before| <= |after| && AllClosed(registry, before, base, asset)
    requires forall i :: 0 <= i < base ==> KeptOrSettled(before[i], after[i])
    ensures AllClosed(registry, after, base, asset)
  {}

  /** A permitted fill extends the gate to its new row. */
  lemma GateAdmits(
      config: RunConfig, registry: seq<AssetConfig>, world: World, admissions: seq<Admission>,
      entryBlocked: map<string, bool>,
                   before: seq<LedgerRow>, ledger: seq<LedgerRow>, after: seq<LedgerRow>, owners: seq<string>, i: nat)
    requires GateHolds(config, registry, world, before, ledger, owners)
    requires Cleared(config, registry, admissions, entryBlocked, ledger, |before|)
    requires i < |admissions| && admissions[i].admitted && admissions[i].mayFill
    requires admissions[i].asset in entryBlocked ==> !entryBlocked[admissions[i].asset]
    requires admissions[i].asset !in owners
    requires |after| == |ledger| + 1 && after[..|ledger|] == ledger && after[|ledger|].status.RowOpen?
    requires HonestQuotes(world, registry) ==> AssetOf(registry, after[|ledger|].ticker) == Some(admissions[i].asset)
    ensures GateHolds(config, registry, world, before, after, owners + [admissions[i].asset])
    ensures Cleared(config, registry, admissions, entryBlocked, after, |before|)
  {
    hide FillConditions, OpenRowOf, KeptOrSettled, HonestQuotes, AssetOf;
    assert forall j :: 0 <= j < |ledger| ==> after[j] == ledger[j];
    assert forall j :: 0 <= j < |before| ==> KeptOrSettled(before[j], ledger[j]);
    forall j | 0 <= j < |before| ensures KeptOrSettled(before[j], after[j]) {
      assert after[j] == ledger[j];
    }
    var longer := owners + [admissions[i].asset];
    assert forall j :: 0 <= j < |owners| ==> owners[j] in owners;
    forall j, k | 0 <= j < k < |longer| ensures longer[j] != longer[k] {
      assert longer[j] == owners[j];
    }
    forall j | 0 <= j < |longer|
      ensures FillConditions(config, registry, longer[j]) && AllClosed(registry, after, |before|, longer[j])
    {
      if j < |owners| { assert longer[j] == owners[j]; }
    }
  }
}
