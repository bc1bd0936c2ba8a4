/** The event-driven replay, as functions on its state: one step per timestamp,
    in five phases. `EngineRun` holds the imperative loop, proved equal to this. */
module Engine {
  import opened Wrappers
  import opened Broker
  import opened Slices
  import Sums

  // ---- the archive ----

  datatype Strike = Strike(kind: string, floor: Option<real>, cap: Option<real>)

  datatype Market = Market(ticker: string, series: string, closeTs: int, strike: Strike, resolution: Resolution)

  /** One contract candle. Quotes and traded prices may be missing. */
  datatype Candle = Candle(
    ticker: string, ts: int,
    yesBidLow: Option<int>, yesBidClose: Option<int>,
    yesAskHigh: Option<int>, yesAskClose: Option<int>,
    priceHigh: Option<int>, priceLow: Option<int>,
    volume: Option<int>, openInterest: int)

  datatype SpotBar = SpotBar(open: real, high: real, low: real, close: real, volume: real)

  datatype Reading = Reading(observedAt: int, value: real)

  datatype Feature = Feature(asset: string, available: bool, aligned: bool, payload: real)

  /** What one run loads. Spot series are keyed by the bar's opening time, index
      readings by the time they become usable, features by their as-of time. */
  datatype Archive = Archive(
    markets: seq<Market>,
    candles: seq<Candle>,
    spotHourly: map<string, seq<Row<real>>>,
    spotDaily: map<string, seq<Row<real>>>,
    spotBars: map<string, seq<Row<SpotBar>>>,
    brti: seq<Row<Reading>>,
    features: seq<Row<Feature>>)

  predicate DistinctTickers(markets: seq<Market>) {
    forall i, j :: 0 <= i < j < |markets| ==> markets[i].ticker != markets[j].ticker
  }

  /** The rows the run's queries return for `[start, end]`: markets that close
      inside it with a published result, and candles of those markets. */
  predicate LoadedFor(a: Archive, start: int, end: int) {
    && DistinctTickers(a.markets)
    && (forall i :: 0 <= i < |a.markets| ==>
          start < a.markets[i].closeTs <= end && !a.markets[i].resolution.Unresolved?)
    && (forall i :: 0 <= i < |a.candles| ==>
          start <= a.candles[i].ts <= end && MarketOf(a.markets, a.candles[i].ticker).Some?)
  }

  function MarketOf(markets: seq<Market>, ticker: string): (m: Option<Market>)
    ensures m.Some? ==> m.value in markets && m.value.ticker == ticker
    ensures m.None? ==> forall i :: 0 <= i < |markets| ==> markets[i].ticker != ticker
  {
    if markets == [] then None
    else if markets[|markets| - 1].ticker == ticker then Some(markets[|markets| - 1])
    else MarketOf(markets[..|markets| - 1], ticker)
  }

  function CandlesAt(candles: seq<Candle>, ts: int): (found: seq<Candle>)
    ensures forall c :: c in found <==> c in candles && c.ts == ts
  {
    if candles == [] then []
    else
      var last := candles[|candles| - 1];
      var rest := CandlesAt(candles[..|candles| - 1], ts);
      assert forall c :: c in candles <==> c in candles[..|candles| - 1] || c == last by {
        assert candles == candles[..|candles| - 1] + [last];
      }
      if last.ts == ts then rest + [last] else rest
  }

  function ClosingAt(markets: seq<Market>, ts: int): (found: seq<Market>)
    ensures forall m :: m in found <==> m in markets && m.closeTs == ts
  {
    if markets == [] then []
    else
      var last := markets[|markets| - 1];
      var rest := ClosingAt(markets[..|markets| - 1], ts);
      assert forall m :: m in markets <==> m in markets[..|markets| - 1] || m == last by {
        assert markets == markets[..|markets| - 1] + [last];
      }
      if last.closeTs == ts then rest + [last] else rest
  }

  predicate Increasing(xs: seq<int>) {
    forall i, j :: 0 <= i < j < |xs| ==> xs[i] < xs[j]
  }

  /** Every timestamp at which a candle ends or a market closes. */
  function EventTimes(a: Archive): set<int> {
    (set c | c in a.candles :: c.ts) + (set m | m in a.markets :: m.closeTs)
  }

  /** `timeline` is the sorted set of the archive's event times. */
  ghost predicate IsTimeline(a: Archive, timeline: seq<int>) {
    && Increasing(timeline)
    && (forall t :: t in timeline <==> t in EventTimes(a))
  }

  // ---- decisions ----

  datatype Action = BuyYes | BuyNo | Hold

  /** Prices are in cents of the side bought; the probability is of that side. */
  datatype Decision = Decision(
    action: Action, fairProbability: Option<real>, entryPrice: Option<int>,
    minEntry: Option<int>, maxEntry: Option<int>, stop: Option<int>, target: Option<int>,
    rawProbability: Option<real>)

  /** What a strategy sees. Volatility and trend are functions of the slices, so
      the slices stand for them. */
  datatype Context = Context(
    ticker: string, series: string, strike: Strike, nowTs: int, closeTs: int,
    yesBid: Option<int>, yesAsk: Option<int>,
    spot: Option<real>, daily: seq<Row<real>>, spotThen: Option<real>,
    bars: seq<Row<SpotBar>>, brti: seq<Row<Reading>>, features: seq<Feature>)

  /** The engine's parameters. The guard is a function of the equity curve it has
      been fed, the throttle of the entries it has recorded, the sizer of the
      decision and the cash on hand. */
  datatype EngineConfig = EngineConfig(
    broker: BrokerConfig,
    strategy: Context -> Decision,
    size: (Decision, int) -> int,
    guardAllows: seq<(int, int)> -> bool,
    throttleAllows: (seq<(string, int)>, string, int) -> bool,
    symbolOf: map<string, string>,
    assetOf: map<string, string>,
    evalStride: int,
    trendLookback: nat,
    spotBarWindow: nat,
    requireAlignment: bool)

  const BRTI_SLICE_WINDOW: nat := 1800

  function SeriesOf<V>(all: map<string, seq<Row<V>>>, symbol: string): seq<Row<V>> {
    if symbol in all then all[symbol] else []
  }

  /** Feature snapshots of one asset that are available and no later than `ts`. */
  function FeaturesBefore(features: seq<Row<Feature>>, asset: Option<string>, ts: int): seq<Feature> {
    if features == [] then []
    else
      var last := features[|features| - 1];
      var rest := FeaturesBefore(features[..|features| - 1], asset, ts);
      if Some(last.value.asset) == asset && last.value.available && last.key <= ts then rest + [last.value] else rest
  }

  function ContextAt(cfg: EngineConfig, a: Archive, m: Market, c: Candle, symbol: string, ts: int): Context {
    var hourly := SeriesOf(a.spotHourly, symbol);
    Context(
      m.ticker, m.series, m.strike, ts, m.closeTs, c.yesBidClose, c.yesAskClose,
      LatestBefore(hourly, ts),
      HistoryBefore(SeriesOf(a.spotDaily, symbol), ts),
      LatestBefore(hourly, ts - cfg.trendLookback),
      LastBefore(SeriesOf(a.spotBars, symbol), ts, cfg.spotBarWindow),
      WindowBefore(a.brti, ts, BRTI_SLICE_WINDOW),
      FeaturesBefore(a.features, if symbol in cfg.assetOf then Some(cfg.assetOf[symbol]) else None, ts))
  }

  const HOLD := Decision(Hold, None, None, None, None, None, None, None)

  function Decide(cfg: EngineConfig, ctx: Context): Decision {
    if cfg.requireAlignment && ctx.features == [] then HOLD
    else if cfg.requireAlignment && exists i :: 0 <= i < |ctx.features| && !ctx.features[i].aligned then HOLD
    else cfg.strategy(ctx)
  }

  /** A buy is queued only with a probability in [0, 1] and an entry price. */
  predicate Queues(d: Decision) {
    && !d.action.Hold?
    && d.fairProbability.Some? && 0.0 <= d.fairProbability.value <= 1.0
    && d.entryPrice.Some?
  }

  /** The wrapper notes a buy whether or not it is queued. */
  function Noted(recorded: map<string, real>, ticker: string, d: Decision): map<string, real> {
    if !d.action.Hold? && d.rawProbability.Some? then recorded[ticker := d.rawProbability.value] else recorded
  }

  function SideOf(d: Decision): Side { if d.action.BuyYes? then Yes else No }

  // ---- the replay's state ----

  datatype PendingEntry = PendingEntry(
    ticker: string, series: string, decidedTs: int, closeTs: int, decision: Decision, side: Side)

  datatype ExitLevels = ExitLevels(stop: int, target: int, side: Side)

  datatype TradeStatus = StillOpen | SettledWon | SettledLost | ClosedEarly

  datatype ExitRecord = ExitRecord(ts: int, price: int, gross: int, entryFee: int, exitFee: int, net: int)

  /** The trade row, with the signal it came from. */
  datatype TradeRow = TradeRow(
    ticker: string, decidedTs: int, decision: Decision, side: Side, quantity: int,
    entryPrice: int, entryTs: int, status: TradeStatus, exit: Option<ExitRecord>)

  /** `pending` is in the order the entries were queued. `recorded` is what the
      recording wrapper around the strategy has noted: the raw probability of the
      latest buy that carried one, per market. */
  datatype EngineState = EngineState(
    broker: BrokerState,
    pending: seq<PendingEntry>,
    exitLevels: map<string, ExitLevels>,
    entryTs: map<string, int>,
    lastEval: map<string, int>,
    trades: map<string, TradeRow>,
    equity: seq<(int, int)>,
    entries: seq<(string, int)>,
    recorded: map<string, real>)

  function Start(startingCash: int): EngineState {
    EngineState(Fresh(startingCash), [], map[], map[], map[], map[], [], [], map[])
  }

  // ---- phase 1: stop and target exits ----

  /** The level a candle's traded range crosses, the stop first when it crosses
      both. A NO position reads the complemented range. */
  function FixedRExitPrice(c: Candle, side: Side, stop: int, target: int): Option<int> {
    if c.priceHigh.None? || c.priceLow.None? then None
    else
      var high := if side.Yes? then c.priceHigh.value else 100 - c.priceLow.value;
      var low := if side.Yes? then c.priceLow.value else 100 - c.priceHigh.value;
      if low <= stop then Some(stop)
      else if high >= target then Some(target)
      else None
  }

  function ClosedRow(row: TradeRow, x: Settlement, price: int, ts: int, status: TradeStatus): TradeRow {
    row.(status := status, exit := Some(ExitRecord(ts, price, x.gross, x.entryFee, x.exitFee, x.net)))
  }

  function ExitOne(s: EngineState, c: Candle, ts: int): EngineState {
    if c.ticker !in s.exitLevels then s
    else
      var levels := s.exitLevels[c.ticker];
      var price := FixedRExitPrice(c, levels.side, levels.stop, levels.target);
      if price.None? || c.ticker !in s.broker.positions then s
      else
        var x := EarlyClose(c.ticker, s.broker.positions[c.ticker], price.value, ts);
        s.(broker := CloseEarly(s.broker, c.ticker, price.value, ts),
           exitLevels := s.exitLevels - {c.ticker},
           trades := if c.ticker in s.trades
                     then s.trades[c.ticker := ClosedRow(s.trades[c.ticker], x, price.value, ts, ClosedEarly)]
                     else s.trades)
  }

  function Exits(s: EngineState, candles: seq<Candle>, ts: int, k: nat): EngineState
    requires k <= |candles|
  {
    if k == 0 then s else ExitOne(Exits(s, candles, ts, k - 1), candles[k - 1], ts)
  }

  // ---- phase 2: settlement ----

  function SettleOne(s: EngineState, m: Market, ts: int): EngineState {
    var broker := Settle(s.broker, m.ticker, m.resolution, ts);
    var settled := s.(broker := broker, exitLevels := s.exitLevels - {m.ticker});
    if m.ticker in s.trades && broker.settlements != [] then
      var x := broker.settlements[|broker.settlements| - 1];
      var row := s.trades[m.ticker];
      if x.ticker == m.ticker && row.status.StillOpen? then
        settled.(trades := s.trades[m.ticker :=
          ClosedRow(row, x, if x.won then 100 else 0, ts, if x.won then SettledWon else SettledLost)])
      else settled
    else settled
  }

  function SettleAll(s: EngineState, closing: seq<Market>, ts: int, k: nat): EngineState
    requires k <= |closing|
  {
    if k == 0 then s else SettleOne(SettleAll(s, closing, ts, k - 1), closing[k - 1], ts)
  }

  // ---- phase 3: execute queued entries ----

  /** A two-sided quote inside 1..99 with open interest behind it. */
  predicate IsLiveQuote(c: Candle) {
    && c.openInterest > 0
    && c.yesBidClose.Some? && c.yesAskClose.Some?
    && 1 <= c.yesBidClose.value <= 99 && 1 <= c.yesAskClose.value <= 99
  }

  function BarOf(ticker: string, c: Candle, ts: int): MarketBar {
    MarketBar(ticker, ts, c.yesBidLow, c.yesBidClose, c.yesAskHigh, c.yesAskClose, c.volume)
  }

  predicate InBand(d: Decision, price: int) {
    && (d.minEntry.Some? ==> d.minEntry.value <= price)
    && (d.maxEntry.Some? ==> price <= d.maxEntry.value)
  }

  datatype Execution = Entered | RejectedBand | DeadQuote | NoFill

  function ExecutePending(
      cfg: EngineConfig, s: EngineState, p: PendingEntry, c: Candle, ts: int): (EngineState, Execution) {
    if !cfg.guardAllows(s.equity) then (s, NoFill)
    else if !cfg.throttleAllows(s.entries, p.series, ts) then (s, NoFill)
    else if !IsLiveQuote(c) then (s, DeadQuote)
    else
      var quantity := cfg.size(p.decision, s.broker.cash);
      if quantity <= 0 then (s, NoFill)
      else
        var shown := SetBar(s.broker, BarOf(p.ticker, c, ts));
        var (broker, result) := Place(cfg.broker, shown, OrderRequest(p.ticker, p.side, quantity, None, Taker));
        if result.Rejected? then (s.(broker := broker), NoFill)
        else if !InBand(p.decision, result.price) then (s.(broker := Void(broker, p.ticker)), RejectedBand)
        else
          (s.(broker := broker,
              entryTs := s.entryTs[p.ticker := ts],
              exitLevels := if p.decision.stop.Some? && p.decision.target.Some?
                            then s.exitLevels[p.ticker :=
                                ExitLevels(p.decision.stop.value, p.decision.target.value, p.side)]
                            else s.exitLevels,
              trades := s.trades[p.ticker := TradeRow(p.ticker, p.decidedTs, p.decision, p.side, result.quantity,
                                                      result.price, ts, StillOpen, None)]),
           Entered)
  }

  function Without(pending: seq<PendingEntry>, ticker: string): (rest: seq<PendingEntry>)
    ensures forall p :: p in rest <==> p in pending && p.ticker != ticker
    ensures |rest| <= |pending|
  {
    if pending == [] then []
    else
      var last := pending[|pending| - 1];
      var rest := Without(pending[..|pending| - 1], ticker);
      assert forall p :: p in pending <==> p in pending[..|pending| - 1] || p == last by {
        assert pending == pending[..|pending| - 1] + [last];
      }
      if last.ticker == ticker then rest else rest + [last]
  }

  function CandleOf(candles: seq<Candle>, ticker: string): (c: Option<Candle>)
    ensures c.Some? ==> c.value in candles && c.value.ticker == ticker
    ensures c.None? ==> forall i :: 0 <= i < |candles| ==> candles[i].ticker != ticker
  {
    if candles == [] then None
    else if candles[|candles| - 1].ticker == ticker then Some(candles[|candles| - 1])
    else CandleOf(candles[..|candles| - 1], ticker)
  }

  function DrainOne(cfg: EngineConfig, s: EngineState, p: PendingEntry, candles: seq<Candle>, ts: int): EngineState {
    if p.closeTs <= ts then s.(pending := Without(s.pending, p.ticker))
    else
      var c := CandleOf(candles, p.ticker);
      if c.None? then s
      else
        var (after, outcome) := ExecutePending(cfg, s.(pending := Without(s.pending, p.ticker)), p, c.value, ts);
        if outcome.Entered? then after.(entries := after.entries + [(p.series, ts)]) else after
  }

  /** The queue is the snapshot taken when the phase begins. */
  function Drain(
      cfg: EngineConfig, s: EngineState, queue: seq<PendingEntry>, candles: seq<Candle>, ts: int,
      k: nat): EngineState
    requires k <= |queue|
  {
    if k == 0 then s else DrainOne(cfg, Drain(cfg, s, queue, candles, ts, k - 1), queue[k - 1], candles, ts)
  }

  // ---- phase 4: equity, open positions marked at entry cost ----

  function StakeOf(pos: OpenPosition): int { Stake(pos.entryPrice, pos.quantity) }

  ghost function Equity(b: BrokerState): int { b.cash + Sums.SumBy(b.positions, StakeOf) }

  ghost function MarkEquity(s: EngineState, ts: int): EngineState {
    s.(equity := s.equity + [(ts, Equity(s.broker))])
  }

  // ---- phase 5: evaluate and queue ----

  predicate HasPending(pending: seq<PendingEntry>, ticker: string) {
    exists i :: 0 <= i < |pending| && pending[i].ticker == ticker
  }

  /** A market's decision is noted, and queued when it can be. */
  function Answered(s: EngineState, m: Market, d: Decision, ts: int): EngineState {
    var noted := s.(recorded := Noted(s.recorded, m.ticker, d));
    if Queues(d)
    then noted.(pending := noted.pending + [PendingEntry(m.ticker, m.series, ts, m.closeTs, d, SideOf(d))])
    else noted
  }

  function EvaluateOne(cfg: EngineConfig, a: Archive, s: EngineState, c: Candle, ts: int): EngineState {
    var found := MarketOf(a.markets, c.ticker);
    if found.None? then s
    else
      var m := found.value;
      if m.closeTs <= ts || m.ticker in s.entryTs || HasPending(s.pending, m.ticker) then s
      else if m.ticker in s.lastEval && ts - s.lastEval[m.ticker] < cfg.evalStride then s
      else
        var seen := s.(lastEval := s.lastEval[m.ticker := ts]);
        if m.series !in cfg.symbolOf then seen
        else
          Answered(seen, m, Decide(cfg, ContextAt(cfg, a, m, c, cfg.symbolOf[m.series], ts)), ts)
  }

  function Evaluate(cfg: EngineConfig, a: Archive, s: EngineState, candles: seq<Candle>, ts: int, k: nat): EngineState
    requires k <= |candles|
  {
    if k == 0 then s else EvaluateOne(cfg, a, Evaluate(cfg, a, s, candles, ts, k - 1), candles[k - 1], ts)
  }

  // ---- one timestamp, and the run ----

  ghost function Step(cfg: EngineConfig, a: Archive, s: EngineState, ts: int): EngineState {
    var candles := CandlesAt(a.candles, ts);
    var closing := ClosingAt(a.markets, ts);
    var exited := Exits(s, candles, ts, |candles|);
    var settled := SettleAll(exited, closing, ts, |closing|);
    var drained := Drain(cfg, settled, settled.pending, candles, ts, |settled.pending|);
    Evaluate(cfg, a, MarkEquity(drained, ts), candles, ts, |candles|)
  }

  /** The state after the first `k` timestamps. */
  ghost function Replay(cfg: EngineConfig, a: Archive, startingCash: int, timeline: seq<int>, k: nat): EngineState
    requires k <= |timeline|
  {
    if k == 0 then Start(startingCash)
    else Step(cfg, a, Replay(cfg, a, startingCash, timeline, k - 1), timeline[k - 1])
  }

  function FinalEquity(s: EngineState, startingCash: int): int {
    if s.equity == [] then startingCash else s.equity[|s.equity| - 1].1
  }

  /** The settlements entered on one side of the split. */
  function Segment(settlements: seq<Settlement>, entryTs: map<string, int>, splitTs: int, test: bool): seq<Settlement> {
    if settlements == [] then []
    else
      var last := settlements[|settlements| - 1];
      var rest := Segment(settlements[..|settlements| - 1], entryTs, splitTs, test);
      if last.ticker in entryTs && (entryTs[last.ticker] >= splitTs) == test then rest + [last] else rest
  }
}
