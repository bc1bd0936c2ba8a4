/** The adapter between a paper run and the paper broker: it reconciles restored
    rows against official results and turns a strategy's signal into at most one
    position per asset. */
module PredictionAdapter {
  import opened Wrappers
  import opened Broker
  import opened BrokerLaws
  import opened PaperBroker

  datatype RegistryMode = ModeLive | ModeDisabled | ModeObserve | ModeBacktest | ModeShadow | ModePaper | ModeBlocked

  /** `mode` is that of the fifteen-minute instrument, or else of the hourly one. */
  datatype AssetConfig = AssetConfig(assetId: string, mode: Option<RegistryMode>, series: seq<string>)

  /** The first asset with a series the ticker starts with. */
  function AssetOf(registry: seq<AssetConfig>, ticker: string): Option<string> {
    if registry == [] then None
    else if exists i :: 0 <= i < |registry[0].series| && registry[0].series[i] != "" && registry[0].series[i] <= ticker
    then Some(registry[0].assetId)
    else AssetOf(registry[1..], ticker)
  }

  predicate HasSeries(registry: seq<AssetConfig>, asset: string) {
    registry != [] &&
    if registry[0].assetId == asset then exists i :: 0 <= i < |registry[0].series| && registry[0].series[i] != ""
    else HasSeries(registry[1..], asset)
  }

  // ---- the world outside ----

  datatype MarketQuote = MarketQuote(ticker: string, observedAt: int, yesBid: Option<int>, yesAsk: Option<int>)

  datatype Signal = HoldSignal | BuySignal(side: Option<Side>, limit: Option<int>, quantity: int)

  datatype Feed = FeedFault | NothingListed | Listed(quote: MarketQuote)

  datatype StrategyReply = StrategyFault | Replied(signal: Signal)

  /** Whatever the feeds, the strategy, the settlement source and the wall clock
      say at the `n`-th time of asking; nothing ties one answer to the next. */
  datatype World = World(
    quote: (nat, string, int) -> Feed,
    signal: (nat, MarketQuote, int) -> StrategyReply,
    result: (nat, string) -> Resolution,
    wall: nat -> int)

  /** Quotes offered for an asset are of that asset's own series. */
  ghost predicate HonestQuotes(world: World, registry: seq<AssetConfig>) {
    forall n: nat, asset, now :: world.quote(n, asset, now).Listed? ==>
      AssetOf(registry, world.quote(n, asset, now).quote.ticker) == Some(asset)
  }

  datatype AdapterState = AdapterState(broker: PaperState, openByAsset: map<string, string>)

  datatype Verdict =
    | NoSeries | NoListedMarket | StaleQuote | HeldBack | PositionOpen | InvalidSignal
    | Shadowed(would: Option<int>) | Rejected(reason: RejectReason) | FilledAt(price: int, quantity: int) | AdapterFault

  // ---- start ----

  /** One of the first `k` rows is an open one of the market. */
  predicate OpenBefore(ledger: seq<LedgerRow>, k: nat, ticker: string) {
    exists j :: 0 <= j < k && IsOpenRow(ledger, j, ticker)
  }

  lemma OpenBeforeNext(ledger: seq<LedgerRow>, k: nat, ticker: string)
    ensures OpenBefore(ledger, k + 1, ticker) <==> OpenBefore(ledger, k, ticker) || IsOpenRow(ledger, k, ticker)
  {}

  /** The asset map after the first `k` rows of a restored ledger. Markets come in
      the order in which each was first restored, and the last one of an asset
      stays; a second open row of a market does not move it. */
  function OpenAssets(registry: seq<AssetConfig>, ledger: seq<LedgerRow>, k: nat): map<string, string>
    requires k <= |ledger|
  {
    if k == 0 then map[]
    else
      var before, row := OpenAssets(registry, ledger, k - 1), ledger[k - 1];
      var asset := AssetOf(registry, row.ticker);
      if !row.status.RowOpen? || OpenBefore(ledger, k - 1, row.ticker) || asset.None? then before
      else before[asset.value := row.ticker]
  }

  // ---- reconcile ----

  predicate OpenRowOf(registry: seq<AssetConfig>, row: LedgerRow, asset: string) {
    row.status.RowOpen? && AssetOf(registry, row.ticker) == Some(asset)
  }

  datatype Reconciliation = Reconciliation(state: AdapterState, unresolved: nat)

  /** The first `k` of the rows that were open when reconciliation began. */
  function Reconciled(
      registry: seq<AssetConfig>, world: World, s: AdapterState, rows: seq<LedgerRow>, n: nat, asset: string,
      k: nat): (r: Reconciliation)
    requires k <= |rows| && PointsIntoLedger(s.broker)
    ensures PointsIntoLedger(r.state.broker)
  {
    if k == 0 then Reconciliation(s, 0)
    else
      var before, row := Reconciled(registry, world, s, rows, n, asset, k - 1), rows[k - 1];
      if !OpenRowOf(registry, row, asset) then before
      else
        var result := world.result(n, row.ticker);
        if result.ResolvedTo? then
          SettleStaysPointed(before.state.broker, row.ticker, result, row.entryTs);
          Reconciliation(AdapterState(PaperSettle(before.state.broker, row.ticker, result, row.entryTs),
                                      before.state.openByAsset - {asset}), before.unresolved)
        else before.(unresolved := before.unresolved + 1)
  }

  lemma SettleStaysPointed(s: PaperState, ticker: string, resolution: Resolution, ts: int)
    requires PointsIntoLedger(s)
    ensures PointsIntoLedger(PaperSettle(s, ticker, resolution, ts))
  {}

  // ---- evaluate ----

  function WouldFill(quote: MarketQuote, side: Side, limit: int): Option<int> {
    var price := if side.Yes? then quote.yesAsk
                 else if quote.yesBid.None? then None else Some(100 - quote.yesBid.value);
    if price.None? || !(1 <= price.value <= 99) then None
    else if price.value <= limit then price else None
  }

  function AtLeastOne(n: int): Contracts { if n > 1 then n else 1 }

  function QuoteOf(q: MarketQuote): Quote { Quote(q.ticker, q.observedAt, q.yesBid, q.yesAsk) }

  /** An order carries a limit between 1 and 99, or it cannot be built at all. */
  function Ordered(
      s: AdapterState, asset: string, q: MarketQuote, side: Side, limit: int, quantity: int,
      wall: int): (AdapterState, Verdict) {
    var shown := s.broker.(quotes := s.broker.quotes[q.ticker := QuoteOf(q)]);
    if !(1 <= limit <= 99) then (s.(broker := shown), AdapterFault)
    else
      var (broker, result) :=
          PaperPlace(shown, OrderRequest(q.ticker, side, AtLeastOne(quantity), Some(limit), Taker), wall);
      match result
      case Filled(_, filled, price, _) =>
        (AdapterState(broker, s.openByAsset[asset := q.ticker]), FilledAt(price, filled))
      case Rejected(_, reason) => (s.(broker := broker), Verdict.Rejected(reason))
  }

  function Evaluated(
      registry: seq<AssetConfig>, world: World, maxAge: int, s: AdapterState, n: nat, asset: string, now: int,
      mayFill: bool):
      (AdapterState, Verdict)
  {
    if !HasSeries(registry, asset) then (s, NoSeries)
    else
      match world.quote(n, asset, now)
      case FeedFault => (s, AdapterFault)
      case NothingListed => (s, NoListedMarket)
      case Listed(q) =>
        if now - q.observedAt > maxAge then (s, StaleQuote)
        else
          match world.signal(n, q, now)
          case StrategyFault => (s, AdapterFault)
          case Replied(HoldSignal) => (s, HeldBack)
          case Replied(BuySignal(side, limit, quantity)) =>
            if asset in s.openByAsset then (s, PositionOpen)
            else if side.None? || limit.None? then (s, InvalidSignal)
            else if !mayFill then (s, Shadowed(WouldFill(q, side.value, limit.value)))
            else Ordered(s, asset, q, side.value, limit.value, quantity, world.wall(n))
  }

  class PredictionPaperAdapter {
    const registry: seq<AssetConfig>
    const world: World
    const maxAge: int
    const broker: PaperBroker
    var openByAsset: map<string, string>
    var asked: nat

    ghost function State(): AdapterState
      reads this, broker
    {
      AdapterState(broker.State(), openByAsset)
    }

    /** Starts over any persisted ledger: the restored markets, in the order of
        their first open rows, are mapped to their assets. What is restored is
        sound when the ledger has at most one open row of each market, as one
        broker leaves it. */
    constructor (persisted: seq<LedgerRow>, startingCash: int, registry: seq<AssetConfig>, world: World, maxAge: int)
      ensures this.registry == registry && this.world == world && this.maxAge == maxAge && asked == 0
      ensures fresh(broker)
      ensures State() == AdapterState(Opened(startingCash, persisted), OpenAssets(registry, persisted, |persisted|))
      ensures OneOpenRowEach(persisted) ==> Sound(startingCash, broker.State())
    {
      if OneOpenRowEach(persisted) { OpenedIsSound(startingCash, persisted); }
      this.registry, this.world, this.maxAge, asked := registry, world, maxAge, 0;
      openByAsset := map[];
      broker := new PaperBroker(persisted, startingCash);
      new;
      var listed: set<string> := {};
      for k := 0 to |persisted|
        invariant asked == 0 && broker.State() == Opened(startingCash, persisted)
        invariant openByAsset == OpenAssets(registry, persisted, k)
        invariant forall t :: t in listed <==> OpenBefore(persisted, k, t)
      {
        var ticker := persisted[k].ticker;
        forall t: string
          ensures OpenBefore(persisted, k + 1, t) <==> OpenBefore(persisted, k, t) || IsOpenRow(persisted, k, t)
        {
          OpenBeforeNext(persisted, k, t);
        }
        if !persisted[k].status.RowOpen? || ticker in listed { continue; }
        listed := listed + {ticker};
        var asset := AssetOf(registry, ticker);
        if asset.Some? { openByAsset := openByAsset[asset.value := ticker]; }
      }
    }

    /** Settles the asset's open rows that have an official result; resolved when
        none is left without one. */
    method Reconcile(asset: string) returns (resolved: bool)
      requires PointsIntoLedger(broker.State())
      modifies this`openByAsset, this`asked, broker
      ensures asked == old(asked) + 1
      ensures var r :=
          Reconciled(registry, world, old(State()), old(broker.ledger), old(asked), asset, |old(broker.ledger)|);
              State() == r.state && (resolved <==> r.unresolved == 0)
    {
      var rows, n := broker.ledger, asked;
      asked := asked + 1;
      var unresolved := 0;
      for k := 0 to |rows|
        invariant Reconciliation(State(), unresolved) == Reconciled(registry, world, old(State()), rows, n, asset, k)
        invariant asked == n + 1 && PointsIntoLedger(broker.State()) && unresolved >= 0
      {
        if !OpenRowOf(registry, rows[k], asset) { continue; }
        var result := world.result(n, rows[k].ticker);
        if result.ResolvedTo? {
          SettleStaysPointed(broker.State(), rows[k].ticker, result, rows[k].entryTs);
          var net := broker.SettleMarket(rows[k].ticker, result, rows[k].entryTs);
          openByAsset := openByAsset - {asset};
        } else {
          unresolved := unresolved + 1;
        }
      }
      resolved := unresolved == 0;
    }

    /** One evaluation of one asset. */
    method Evaluate(asset: string, now: int, mayFill: bool) returns (v: Verdict)
      modifies this`openByAsset, this`asked, broker
      ensures asked == old(asked) + 1
      ensures (State(), v) == Evaluated(registry, world, maxAge, old(State()), old(asked), asset, now, mayFill)
    {
      var n := asked;
      asked := asked + 1;
      if !HasSeries(registry, asset) { return NoSeries; }
      var feed := world.quote(n, asset, now);
      if feed.FeedFault? { return AdapterFault; }
      if feed.NothingListed? { return NoListedMarket; }
      var q := feed.quote;
      if now - q.observedAt > maxAge { return StaleQuote; }
      var reply := world.signal(n, q, now);
      if reply.StrategyFault? { return AdapterFault; }
      if reply.signal.HoldSignal? { return HeldBack; }
      if asset in openByAsset { return PositionOpen; }
      if reply.signal.side.None? || reply.signal.limit.None? { return InvalidSignal; }
      var side, limit := reply.signal.side.value, reply.signal.limit.value;
      var would := WouldFill(q, side, limit);
      if !mayFill { return Shadowed(would); }
      broker.SetCurrentQuote(QuoteOf(q));
      if !(1 <= limit <= 99) { return AdapterFault; }
      var order := OrderRequest(q.ticker, side, AtLeastOne(reply.signal.quantity), Some(limit), Taker);
      var result := broker.PlaceOrder(order, world.wall(n));
      match result
      case Filled(_, quantity, price, _) =>
        openByAsset := openByAsset[asset := q.ticker];
        v := FilledAt(price, quantity);
      case Rejected(_, reason) =>
        v := Verdict.Rejected(reason);
    }
  }

  // ---- what each operation can do ----

  /** Only a permitted evaluation of an asset with nothing open can add a row, and
      then exactly one: open, within the limit, in a market not already held. */
  lemma EvaluatedEffect(
      registry: seq<AssetConfig>, world: World, maxAge: int, s: AdapterState, n: nat, asset: string, now: int,
      mayFill: bool)
    ensures var (after, v) := Evaluated(registry, world, maxAge, s, n, asset, now, mayFill);
      if v.FilledAt? then
        && mayFill && asset !in s.openByAsset
        && |after.broker.ledger| == |s.broker.ledger| + 1 && after.broker.ledger[..|s.broker.ledger|] == s.broker.ledger
        && var row := after.broker.ledger[|s.broker.ledger|];
        && row.status.RowOpen? && row.ticker !in s.broker.positions
        && world.quote(n, asset, now).Listed? && row.ticker == world.quote(n, asset, now).quote.ticker
        && 1 <= row.entryPrice == v.price <= 99 && row.quantity == v.quantity > 0
        && after.openByAsset == s.openByAsset[asset := row.ticker]
        && after.broker.cash == s.broker.cash - (Stake(row.entryPrice, row.quantity) + OrZero(row.entryFee)) >= 0
      else
        after.broker.ledger == s.broker.ledger && after.broker.positions == s.broker.positions
        && after.broker.cash == s.broker.cash && after.openByAsset == s.openByAsset
  {}

  lemma EvaluatedSound(
      startingCash: int, registry: seq<AssetConfig>, world: World, maxAge: int, s: AdapterState, n: nat, asset: string,
      now: int, mayFill: bool)
    requires Sound(startingCash, s.broker)
    ensures Sound(startingCash, Evaluated(registry, world, maxAge, s, n, asset, now, mayFill).0.broker)
  {
    hide Sound;
    var feed := world.quote(n, asset, now);
    if feed.Listed? {
      var reply := world.signal(n, feed.quote, now);
      if reply.Replied? && reply.signal.BuySignal? && reply.signal.side.Some? && reply.signal.limit.Some? {
        var quote := QuoteOf(feed.quote);
        var order := OrderRequest(feed.quote.ticker, reply.signal.side.value, AtLeastOne(reply.signal.quantity),
            Some(reply.signal.limit.value), Taker);
        SoundPointed(startingCash, s.broker);
        SoundStep(startingCash, s.broker, SetQuote(quote));
        var shown := s.broker.(quotes := s.broker.quotes[quote.ticker := quote]);
        SoundPointed(startingCash, shown);
        SoundStep(startingCash, shown, PlacePaper(order, world.wall(n)));
      }
    }
  }

  lemma SoundPointed(startingCash: int, s: PaperState)
    requires Sound(startingCash, s)
    ensures PointsIntoLedger(s)
  {}

  /** The shadow's would-fill price is the price the broker fills at, unless it
      has not the cash. */
  lemma ShadowMatchesPaper(q: MarketQuote, side: Side, limit: int, quantity: Contracts, cash: int)
    ensures var priced := PriceQuote(QuoteOf(q), cash, OrderRequest(q.ticker, side, quantity, Some(limit), Taker));
      && (priced.Ok? ==> WouldFill(q, side, limit) == Some(priced.value.price))
      && (WouldFill(q, side, limit).Some? ==> priced.Ok? || priced.error.InsufficientFunds?)
  {}

  // ---- reconciliation ----

  /** The row is as before, or was open and has been settled by an official result. */
  predicate KeptOrSettled(before: LedgerRow, after: LedgerRow) {
    after == before
    || (before.status.RowOpen? && (after == SettledRow(before, ResolvedTo(Yes), before.entryTs)
                                   || after == SettledRow(before, ResolvedTo(No), before.entryTs)))
  }

  /** Every position of a sound account points to the only open row of its
      market, and every open row has one. */
  lemma OpenRowsHeld(startingCash: int, s: PaperState, i: nat)
    requires Sound(startingCash, s) && i < |s.ledger| && s.ledger[i].status.RowOpen?
    ensures s.ledger[i].ticker in s.positions && s.positions[s.ledger[i].ticker] == i
  {
    var t := s.ledger[i].ticker;
    RestoredPositions(startingCash, s.ledger, |s.ledger|, t);
    assert IsOpenRow(s.ledger, i, t);
  }

  /** After the first `k` rows: every one of the asset's is settled or counted as
      unresolved, and nothing else has changed. */
  ghost predicate ReconciledTo(
      registry: seq<AssetConfig>, world: World, n: nat, before: PaperState, r: Reconciliation, asset: string, k: nat)
  {
    var ledger := r.state.broker.ledger;
    && |ledger| == |before.ledger|
    && (forall i :: 0 <= i < |ledger| ==> KeptOrSettled(before.ledger[i], ledger[i]))
    && (forall i :: 0 <= i < |ledger| && (i >= k || !OpenRowOf(registry, before.ledger[i], asset)) ==>
        ledger[i] == before.ledger[i])
    && (forall i :: 0 <= i < k && i < |ledger| && OpenRowOf(registry, before.ledger[i], asset) ==>
          ledger[i] == (if world.result(n, before.ledger[i].ticker).ResolvedTo?
                        then SettledRow(before.ledger[i], world.result(n, before.ledger[i].ticker),
                                        before.ledger[i].entryTs)
                        else before.ledger[i]))
    && (r.unresolved == 0 ==> forall i :: 0 <= i < k && i < |ledger| ==> !OpenRowOf(registry, ledger[i], asset))
    && (r.unresolved > 0 ==> exists i :: 0 <= i < k && i < |ledger| && OpenRowOf(registry, ledger[i], asset))
  }

  /** Reconciling is resolved exactly when none of the asset's rows is left open. */
  lemma {:induction false} ReconciledEffect(
      startingCash: int, registry: seq<AssetConfig>, world: World, s: AdapterState, n: nat, asset: string, k: nat)
    requires Sound(startingCash, s.broker) && PointsIntoLedger(s.broker) && k <= |s.broker.ledger|
    ensures var r := Reconciled(registry, world, s, s.broker.ledger, n, asset, k);
      Sound(startingCash, r.state.broker) && ReconciledTo(registry, world, n, s.broker, r, asset, k)
  {
    hide Sound, AssetOf, SettledRow, PaperSettle;
    if k > 0 {
      ReconciledEffect(startingCash, registry, world, s, n, asset, k - 1);
      var before, row := Reconciled(registry, world, s, s.broker.ledger, n, asset, k - 1), s.broker.ledger[k - 1];
      if OpenRowOf(registry, row, asset) {
        assert before.state.broker.ledger[k - 1] == row;
        var result := world.result(n, row.ticker);
        if result.ResolvedTo? {
          RowSettled(startingCash, registry, world, n, s.broker, before, asset, k);
        } else {
          StillUnresolved(registry, world, n, s.broker, before, asset, k);
        }
      }
    }
  }

  lemma RowSettled(startingCash: int, registry: seq<AssetConfig>, world: World, n: nat, before: PaperState,
                   r: Reconciliation, asset: string, k: nat)
    requires 0 < k <= |before.ledger| && ReconciledTo(registry, world, n, before, r, asset, k - 1)
    requires OpenRowOf(registry, before.ledger[k - 1], asset)
    requires world.result(n, before.ledger[k - 1].ticker).ResolvedTo?
    requires Sound(startingCash, r.state.broker) && PointsIntoLedger(r.state.broker)
    ensures var row := before.ledger[k - 1];
            var result := world.result(n, row.ticker);
            var settled := Reconciliation(AdapterState(PaperSettle(r.state.broker, row.ticker, result, row.entryTs),
                                                       r.state.openByAsset - {asset}), r.unresolved);
            Sound(startingCash, settled.state.broker) && ReconciledTo(registry, world, n, before, settled, asset, k)
  {
    hide Sound, AssetOf, SettledRow, KeptOrSettled;
    var row := before.ledger[k - 1];
    var result := world.result(n, row.ticker);
    assert r.state.broker.ledger[k - 1] == row;
    SoundStep(startingCash, r.state.broker, SettlePaper(row.ticker, result, row.entryTs));
    OpenRowsHeld(startingCash, r.state.broker, k - 1);
    SettledRowShape(row, result);
    var ledger := PaperSettle(r.state.broker, row.ticker, result, row.entryTs).ledger;
    assert forall i :: 0 <= i < |ledger| && i != k - 1 ==> ledger[i] == r.state.broker.ledger[i];
    if r.unresolved > 0 {
      var i :| 0 <= i < k - 1 && i < |ledger| && OpenRowOf(registry, r.state.broker.ledger[i], asset);
      assert OpenRowOf(registry, ledger[i], asset);
    }
  }

  lemma SettledRowShape(row: LedgerRow, result: Resolution)
    requires result.ResolvedTo? && row.status.RowOpen?
    ensures KeptOrSettled(row, SettledRow(row, result, row.entryTs))
    ensures !SettledRow(row, result, row.entryTs).status.RowOpen?
  {
    assert result == ResolvedTo(Yes) || result == ResolvedTo(No) by {
      assert result.side.Yes? || result.side.No?;
    }
  }

  lemma StillUnresolved(registry: seq<AssetConfig>, world: World, n: nat, before: PaperState, r: Reconciliation,
                        asset: string, k: nat)
    requires 0 < k <= |before.ledger| && ReconciledTo(registry, world, n, before, r, asset, k - 1)
    requires OpenRowOf(registry, before.ledger[k - 1], asset)
    requires !world.result(n, before.ledger[k - 1].ticker).ResolvedTo?
    ensures ReconciledTo(registry, world, n, before, r.(unresolved := r.unresolved + 1), asset, k)
  {}

  /** The asset is free again when one of its rows was settled, and otherwise as it was. */
  lemma {:induction false} ReconciledFrees(
      registry: seq<AssetConfig>, world: World, s: AdapterState, rows: seq<LedgerRow>, n: nat, asset: string, k: nat)
    requires PointsIntoLedger(s.broker) && k <= |rows|
    ensures Reconciled(registry, world, s, rows, n, asset, k).state.openByAsset
      == if exists i :: 0 <= i < k && OpenRowOf(registry, rows[i], asset) && world.result(n, rows[i].ticker).ResolvedTo?
         then s.openByAsset - {asset} else s.openByAsset
  {
    hide OpenRowOf, PaperSettle, PointsIntoLedger;
    if k > 0 { ReconciledFrees(registry, world, s, rows, n, asset, k - 1); }
  }

  // ---- the registry ----

  /** Some series of the entry starts the ticker. */
  predicate Names(config: AssetConfig, ticker: string) {
    exists i :: 0 <= i < |config.series| && config.series[i] != "" && config.series[i] <= ticker
  }

  predicate FirstNaming(registry: seq<AssetConfig>, ticker: string, i: int) {
    0 <= i < |registry| && Names(registry[i], ticker) && forall j :: 0 <= j < i ==> !Names(registry[j], ticker)
  }

  /** A ticker is of the first asset of the registry that names it. */
  lemma {:induction false} AssetOfIs(registry: seq<AssetConfig>, ticker: string)
    ensures AssetOf(registry, ticker).None? <==> forall i :: 0 <= i < |registry| ==> !Names(registry[i], ticker)
    ensures forall i :: FirstNaming(registry, ticker, i) ==> AssetOf(registry, ticker) == Some(registry[i].assetId)
  {
    hide Names;
    if registry != [] {
      AssetOfIs(registry[1..], ticker);
      assert Names(registry[0], ticker) <==>
        exists i :: 0 <= i < |registry[0].series| && registry[0].series[i] != "" && registry[0].series[i] <= ticker by {
        NamesIs(registry[0], ticker);
      }
      assert forall i :: 1 <= i < |registry| ==> registry[i] == registry[1..][i - 1];
    }
  }

  lemma NamesIs(config: AssetConfig, ticker: string)
    ensures Names(config, ticker) <==>
      exists i :: 0 <= i < |config.series| && config.series[i] != "" && config.series[i] <= ticker
  {}

  /** An asset is mapped when the first entry of its name has a series. */
  lemma {:induction false} HasSeriesIff(registry: seq<AssetConfig>, asset: string)
    ensures HasSeries(registry, asset) <==>
      exists i :: 0 <= i < |registry| && registry[i].assetId == asset
        && (forall j :: 0 <= j < i ==> registry[j].assetId != asset) && HasOne(registry[i].series)
  {
    if registry != [] {
      HasSeriesIff(registry[1..], asset);
      assert forall i :: 1 <= i < |registry| ==> registry[i] == registry[1..][i - 1];
      if i :| 0 <= i < |registry| - 1 && registry[1..][i].assetId == asset
              && (forall j :: 0 <= j < i ==> registry[1..][j].assetId != asset) && HasOne(registry[1..][i].series) {
        assert registry[i + 1] == registry[1..][i];
      }
    }
  }

  predicate HasOne(series: seq<string>) { exists i :: 0 <= i < |series| && series[i] != "" }

  /** Row `i` opened its market, which is of the asset. */
  predicate OpensFor(registry: seq<AssetConfig>, ledger: seq<LedgerRow>, i: int, asset: string) {
    && 0 <= i < |ledger| && ledger[i].status == RowOpen && AssetOf(registry, ledger[i].ticker) == Some(asset)
    && forall j :: 0 <= j < i ==> !(ledger[j].status == RowOpen && ledger[j].ticker == ledger[i].ticker)
  }

  /** A restored asset is mapped to the market of its that was opened last. */
  lemma {:induction false} OpenAssetsAre(registry: seq<AssetConfig>, ledger: seq<LedgerRow>, k: nat, asset: string)
    requires k <= |ledger|
    ensures asset in OpenAssets(registry, ledger, k) <==> exists i :: 0 <= i < k && OpensFor(registry, ledger, i, asset)
    ensures forall i :: 0 <= i < k && OpensFor(registry, ledger, i, asset)
              && (forall j :: i < j < k ==> !OpensFor(registry, ledger, j, asset))
              ==> asset in OpenAssets(registry, ledger, k) && OpenAssets(registry, ledger, k)[asset] == ledger[i].ticker
  {
    hide AssetOf, OpensFor, OpenBefore;
    if k > 0 {
      OpenAssetsAre(registry, ledger, k - 1, asset);
      OpensIff(registry, ledger, k - 1, asset);
    }
  }

  lemma OpensIff(registry: seq<AssetConfig>, ledger: seq<LedgerRow>, i: nat, asset: string)
    requires i < |ledger|
    ensures OpensFor(registry, ledger, i, asset) <==>
      ledger[i].status == RowOpen && AssetOf(registry, ledger[i].ticker) == Some(asset)
      && !OpenBefore(ledger, i, ledger[i].ticker)
  {
    hide AssetOf;
    assert forall j :: 0 <= j < i ==>
      (IsOpenRow(ledger, j, ledger[i].ticker) <==> ledger[j].status == RowOpen && ledger[j].ticker == ledger[i].ticker);
  }

  // ---- what an evaluation answers ----

  /** An evaluation, in order: an asset without a series has no market; a faulty or empty
      feed, an old quote, a faulty strategy and a hold end it; an open position blocks
      it; a buy needs a side and a limit; without permission it is only noted what it
      would fill at; and an order that can be built is placed, for the side and limit
      of the signal and at least one contract, on that quote. */
  lemma EvaluationAnswers(
      registry: seq<AssetConfig>, world: World, maxAge: int, s: AdapterState, n: nat, asset: string, now: int,
      mayFill: bool)
    ensures var (after, v) := Evaluated(registry, world, maxAge, s, n, asset, now, mayFill);
      var feed := world.quote(n, asset, now);
      if !HasSeries(registry, asset) then after == s && v == NoSeries
      else if feed == FeedFault then after == s && v == AdapterFault
      else if feed == NothingListed then after == s && v == NoListedMarket
      else if feed.quote.observedAt < now - maxAge then after == s && v == StaleQuote
      else
        var reply := world.signal(n, feed.quote, now);
        if reply == StrategyFault then after == s && v == AdapterFault
        else if reply.signal == HoldSignal then after == s && v == HeldBack
        else if asset in s.openByAsset then after == s && v == PositionOpen
        else if reply.signal.side.None? || reply.signal.limit.None? then after == s && v == InvalidSignal
        else if !mayFill
        then after == s && v == Shadowed(WouldFill(feed.quote, reply.signal.side.value, reply.signal.limit.value))
        else
          var q := feed.quote;
          var shown :=
              s.broker.(quotes := s.broker.quotes[q.ticker := Quote(q.ticker, q.observedAt, q.yesBid, q.yesAsk)]);
          if reply.signal.limit.value < 1 || reply.signal.limit.value > 99
          then after == s.(broker := shown) && v == AdapterFault
          else
            var quantity: Contracts := if reply.signal.quantity >= 1 then reply.signal.quantity else 1;
            var order := OrderRequest(q.ticker, reply.signal.side.value, quantity, reply.signal.limit, Taker);
            var (broker, result) := PaperPlace(shown, order, world.wall(n));
            && after.broker == broker
            && (result.Filled? ==> after.openByAsset == s.openByAsset[asset := q.ticker]
                                   && v == FilledAt(result.price, result.quantity))
            && (result.Rejected? ==> after.openByAsset == s.openByAsset && v == Verdict.Rejected(result.reason))
  {
    hide HasSeries, WouldFill, PaperPlace;
    var feed := world.quote(n, asset, now);
    assert feed.FeedFault? || feed.NothingListed? || feed.Listed?;
    if feed.Listed? {
      var reply := world.signal(n, feed.quote, now);
      assert reply.StrategyFault? || reply.Replied?;
      if reply.Replied? { assert reply.signal.HoldSignal? || reply.signal.BuySignal?; }
    }
  }

  /** The price the side of a quote asks: its ask for YES, what its bid leaves for NO. */
  predicate AsksOf(q: MarketQuote, side: Side, price: int) {
    if side == Yes then q.yesAsk == Some(price) else q.yesBid == Some(100 - price)
  }

  /** A shadow notes the price it would pay, if that is inside 1..99 and its limit. */
  lemma WouldFillIff(q: MarketQuote, side: Side, limit: int, price: int)
    ensures WouldFill(q, side, limit) == Some(price) <==> AsksOf(q, side, price) && 1 <= price <= 99 && price <= limit
  {}

  /** Everything an evaluation needs to fill, at this price, size and fee. */
  predicate FillsAt(
      registry: seq<AssetConfig>, world: World, maxAge: int, s: AdapterState, n: nat, asset: string, now: int,
      mayFill: bool, fill: Fill)
  {
    && HasSeries(registry, asset)
    && world.quote(n, asset, now).Listed?
    && var q := world.quote(n, asset, now).quote;
    && now - q.observedAt <= maxAge
    && world.signal(n, q, now).Replied? && world.signal(n, q, now).signal.BuySignal?
    && var signal := world.signal(n, q, now).signal;
    && signal.side.Some? && signal.limit.Some? && 1 <= signal.limit.value <= 99
    && mayFill && asset !in s.openByAsset && q.ticker !in s.broker.positions
    && AsksOf(q, signal.side.value, fill.price) && 1 <= fill.price <= 99 && fill.price <= signal.limit.value
    && fill.quantity == (if signal.quantity >= 1 then signal.quantity else 1)
    && LeastFee(fill.price, fill.quantity, fill.fee)
    && fill.price * fill.quantity + fill.fee <= s.broker.cash
  }

  lemma QuoteCanFill(q: MarketQuote, cash: int, side: Side, limit: int, quantity: Contracts, fill: Fill)
    ensures CanFill(WORST, QuoteBar(QuoteOf(q)), cash, OrderRequest(q.ticker, side, quantity, Some(limit), Taker), fill)
      <==> AsksOf(q, side, fill.price) && 1 <= fill.price <= 99 && fill.price <= limit && fill.quantity == quantity
           && LeastFee(fill.price, fill.quantity, fill.fee) && fill.price * fill.quantity + fill.fee <= cash
  {
    hide LeastFee;
  }

  /** An evaluation fills exactly when it can, for the signal's side, at the price its
      quote asks within the signal's limit, for at least one contract, paid from cash. */
  lemma EvaluationFillsIff(
      registry: seq<AssetConfig>, world: World, maxAge: int, s: AdapterState, n: nat, asset: string, now: int,
      mayFill: bool)
    ensures Evaluated(registry, world, maxAge, s, n, asset, now, mayFill).1.FilledAt? <==>
      exists fill :: FillsAt(registry, world, maxAge, s, n, asset, now, mayFill, fill)
  {
    hide Evaluated, HasSeries, CanFill, LeastFee, PaperPlace;
    EvaluationAnswers(registry, world, maxAge, s, n, asset, now, mayFill);
    if Orders(registry, world, maxAge, s, n, asset, now, mayFill) {
      var q := world.quote(n, asset, now).quote;
      var signal := world.signal(n, q, now).signal;
      var quantity: Contracts := if signal.quantity >= 1 then signal.quantity else 1;
      var shown := s.broker.(quotes := s.broker.quotes[q.ticker := QuoteOf(q)]);
      var order := OrderRequest(q.ticker, signal.side.value, quantity, signal.limit, Taker);
      PaperFillsIff(shown, order, world.wall(n));
      assert shown.quotes[order.ticker] == QuoteOf(q) && order.limit == Some(signal.limit.value);
      forall fill: Fill
        ensures CanFill(WORST, QuoteBar(QuoteOf(q)), shown.cash, order, fill) && q.ticker !in shown.positions
                <==> FillsAt(registry, world, maxAge, s, n, asset, now, mayFill, fill)
      {
        QuoteCanFill(q, shown.cash, signal.side.value, signal.limit.value, quantity, fill);
      }
    }
  }

  /** The evaluation gets as far as placing an order. */
  predicate Orders(
      registry: seq<AssetConfig>, world: World, maxAge: int, s: AdapterState, n: nat, asset: string, now: int,
      mayFill: bool)
  {
    && HasSeries(registry, asset) && world.quote(n, asset, now).Listed?
    && var q := world.quote(n, asset, now).quote;
    && now - q.observedAt <= maxAge
    && world.signal(n, q, now).Replied? && world.signal(n, q, now).signal.BuySignal?
    && var signal := world.signal(n, q, now).signal;
    && signal.side.Some? && signal.limit.Some? && 1 <= signal.limit.value <= 99 && mayFill && asset !in s.openByAsset
  }

  /** What a fill writes: one open row, for the signal's side, at the quote's price and
      time, and the account that paid for it. */
  lemma EvaluationBooks(
      registry: seq<AssetConfig>, world: World, maxAge: int, s: AdapterState, n: nat, asset: string, now: int,
      mayFill: bool, fill: Fill)
    requires FillsAt(registry, world, maxAge, s, n, asset, now, mayFill, fill)
    ensures var (after, v) := Evaluated(registry, world, maxAge, s, n, asset, now, mayFill);
      var q := world.quote(n, asset, now).quote;
      var ts := if q.observedAt != 0 then q.observedAt else world.wall(n);
      && v == FilledAt(fill.price, fill.quantity)
      && after.openByAsset == s.openByAsset[asset := q.ticker]
      && after.broker.cash == s.broker.cash - (fill.price * fill.quantity + fill.fee)
      && after.broker.positions == s.broker.positions[q.ticker := |s.broker.ledger|]
      && after.broker.ledger == s.broker.ledger +
           [LedgerRow(q.ticker, world.signal(n, q, now).signal.side.value, fill.quantity, fill.price, ts, RowOpen,
                      Some(fill.fee), None, None, None, None, None)]
  {
    hide Evaluated, HasSeries, CanFill, LeastFee, PaperPlace;
    EvaluationAnswers(registry, world, maxAge, s, n, asset, now, mayFill);
    var q := world.quote(n, asset, now).quote;
    var signal := world.signal(n, q, now).signal;
    var quantity: Contracts := if signal.quantity >= 1 then signal.quantity else 1;
    var shown := s.broker.(quotes := s.broker.quotes[q.ticker := QuoteOf(q)]);
    var order := OrderRequest(q.ticker, signal.side.value, quantity, signal.limit, Taker);
    QuoteCanFill(q, shown.cash, signal.side.value, signal.limit.value, quantity, fill);
    PaperFillIsBooked(shown, order, world.wall(n), fill);
  }
}
