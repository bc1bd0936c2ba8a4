/** The smallest run that trades: one market, quoted twice, bought at the second
    quote and settled at its close. */
module OneTradeRun {
  import opened Wrappers
  import opened Fees
  import opened Broker
  import opened Engine
  import opened EngineCausality
  import opened EngineLoad
  import opened WalkForward
  import opened Calibration

  /** When the market is bought, when it closes, and which side wins. */
  datatype Scene = Scene(fill: int, close: int, winner: Side)

  function MarketIn(c: Scene): Market {
    Market("m", "s", c.close, Strike("", None, None), ResolvedTo(c.winner))
  }

  function Quote(ts: int): Candle {
    Candle("m", ts, Some(49), Some(49), Some(51), Some(51), None, None, None, 1)
  }

  /** Quoted just before, when the entry is decided, and when it is filled. */
  function DatabaseOf(c: Scene): Database {
    Database([MarketIn(c)], [Quote(c.fill - 1), Quote(c.fill)], [], [], [])
  }

  const BUY := Decision(BuyYes, Some(0.5), Some(50), None, None, None, None, Some(0.5))

  /** Always makes one decision, for one contract. */
  function Always(d: Decision): EngineConfig {
    EngineConfig(
      BrokerConfig(Pessimistic, 1.0), _ => d, (_, _) => 1, _ => true, (_, _, _) => true,
      map["s" := "y"], map[], 0, 0, 0, false)
  }

  function Buyer(): EngineConfig { Always(BUY) }

  function Holder(): EngineConfig { Always(HOLD) }

  function Times(c: Scene): seq<int> { [c.fill - 1, c.fill, c.close] }

  function ArchiveOf(c: Scene): Archive {
    Archive([MarketIn(c)], [Quote(c.fill - 1), Quote(c.fill)], map[], map[], map[], [], [])
  }

  lemma BothSelected(a: Candle, b: Candle, markets: seq<Market>, start: int, end: int)
    requires start <= a.ts <= end && start <= b.ts <= end
    requires MarketOf(markets, a.ticker).Some? && MarketOf(markets, b.ticker).Some?
    ensures SelectCandles([a, b], markets, start, end) == [a, b]
  {
    assert SelectCandles([], markets, start, end) == [];
    hide SelectCandles, MarketOf;
    SelectAppend([], a, markets, start, end);
    SelectAppend([a], b, markets, start, end);
    assert [] + [a] == [a] && [a] + [b] == [a, b];
  }

  lemma NothingElseLoaded(db: Database, start: int, end: int)
    requires db.spot == [] && db.readings == [] && db.features == []
    ensures var (a, markets) := (Load(db, start, end), SelectMarkets(db.markets, start, end));
            a == Archive(markets, SelectCandles(db.candles, markets, start, end), map[], map[], map[], [], [])
  {
    hide SelectMarkets, SelectCandles, BarsOf, Closes;
  }

  /** A run whose range holds all three events loads the whole database. */
  lemma AllLoaded(c: Scene, start: int, end: int)
    requires start < c.fill < c.close <= end
    ensures Load(DatabaseOf(c), start, end) == ArchiveOf(c)
  {
    hide Load, SelectMarkets, SelectCandles, MarketOf;
    NothingElseLoaded(DatabaseOf(c), start, end);
    OneMarketSelected(MarketIn(c), start, end);
    BothSelected(Quote(c.fill - 1), Quote(c.fill), SelectMarkets([MarketIn(c)], start, end), start, end);
  }

  lemma EventsAre(c: Scene)
    requires c.fill < c.close
    ensures EventTimes(ArchiveOf(c)) == {c.fill - 1, c.fill, c.close}
    ensures IsTimeline(ArchiveOf(c), Times(c)) && SamePast(ArchiveOf(c), ArchiveOf(c), c.close)
  {
    var a := ArchiveOf(c);
    assert a.candles[0] in a.candles && a.candles[1] in a.candles && a.markets[0] in a.markets;
  }

  /** There is one timeline. */
  lemma OneTimeline(c: Scene, timeline: seq<int>)
    requires c.fill < c.close && IsTimeline(ArchiveOf(c), timeline)
    ensures timeline == Times(c)
  {
    hide EventTimes, SamePast;
    var a, times := ArchiveOf(c), Times(c);
    EventsAre(c);
    assert |timeline| > 3 ==> timeline[3] in timeline && timeline[3] <= c.close;
    SameTimes(a, a, c.close, times, timeline, 2);
  }

  // ---- the replay, step by step ----

  function Queued(c: Scene): PendingEntry {
    PendingEntry("m", "s", c.fill - 1, c.close, BUY, Yes)
  }

  lemma CandleRows(c: Scene, ts: int)
    ensures CandlesAt(ArchiveOf(c).candles, ts)
         == (if ts == c.fill - 1 then [Quote(ts)] else []) + (if ts == c.fill then [Quote(ts)] else [])
  {
    var candles := ArchiveOf(c).candles;
    assert candles[..1] == [candles[0]] && candles[..1][..0] == [];
    assert CandlesAt(candles[..1], ts) == if candles[0].ts == ts then [candles[0]] else [];
  }

  lemma MarketRows(c: Scene, ts: int)
    ensures ClosingAt(ArchiveOf(c).markets, ts) == if c.close == ts then [MarketIn(c)] else []
    ensures MarketOf(ArchiveOf(c).markets, "m") == Some(MarketIn(c))
  {
    assert ArchiveOf(c).markets[..0] == [];
  }

  /** The entry is decided and queued. */
  lemma Decided(c: Scene, cash: int)
    requires c.fill < c.close
    ensures var s := Step(Buyer(), ArchiveOf(c), Start(cash), c.fill - 1);
      && s.broker == Fresh(cash) && s.pending == [Queued(c)] && s.exitLevels == map[] && s.entryTs == map[]
      && s.recorded == map["m" := 0.5] && s.trades == map[]
  {
    hide ContextAt, Equity;
    var cfg, a, ts, start := Buyer(), ArchiveOf(c), c.fill - 1, Start(cash);
    CandleRows(c, ts);
    MarketRows(c, ts);
    var candles := CandlesAt(a.candles, ts);
    assert Exits(start, candles, ts, 1) == start;
    var marked := MarkEquity(start, ts);
    assert Evaluate(cfg, a, marked, candles, ts, 0) == marked;
    assert Evaluate(cfg, a, marked, candles, ts, 1) == EvaluateOne(cfg, a, marked, candles[0], ts);
  }

  /** One contract at 51, with a fee of two cents. */
  lemma OrderFilled(cash: int, ts: int)
    requires cash >= 53
    ensures var shown := SetBar(Fresh(cash), BarOf("m", Quote(ts), ts));
            var (broker, result) := Place(Buyer().broker, shown, OrderRequest("m", Yes, 1, None, Taker));
      && result == OrderResult.Filled(1, 1, 51, ts)
      && broker.positions == map["m" := OpenPosition(Yes, 1, 51, ts, 2)] && broker.settlements == []
  {
    assert EntryFee(51, 1) == 2;
  }

  lemma EntryExecuted(c: Scene, cash: int, s: EngineState)
    requires cash >= 53 && s.broker == Fresh(cash) && s.pending == [Queued(c)] && s.exitLevels == map[]
    ensures var ts := c.fill;
            var (after, outcome) := ExecutePending(Buyer(), s.(pending := []), Queued(c), Quote(ts), ts);
      && outcome.Entered? && after.pending == [] && after.exitLevels == map[] && after.recorded == s.recorded
      && after.broker.positions == map["m" := OpenPosition(Yes, 1, 51, ts, 2)] && after.broker.settlements == []
      && "m" in after.entryTs
  {
    OrderFilled(cash, c.fill);
    hide Place;
  }

  lemma EntryDrained(c: Scene, cash: int, s: EngineState)
    requires c.fill < c.close && cash >= 53
    requires s.broker == Fresh(cash) && s.pending == [Queued(c)] && s.exitLevels == map[]
    ensures var ts := c.fill;
            var after := Drain(Buyer(), s, s.pending, [Quote(ts)], ts, 1);
      && after.pending == [] && after.exitLevels == map[] && after.recorded == s.recorded
      && after.broker.positions == map["m" := OpenPosition(Yes, 1, 51, ts, 2)] && after.broker.settlements == []
      && "m" in after.entryTs
  {
    hide ExecutePending;
    var ts := c.fill;
    EntryExecuted(c, cash, s);
    assert CandleOf([Quote(ts)], "m") == Some(Quote(ts));
    assert s.pending[..0] == [] && Without(s.pending, "m") == [];
    assert Drain(Buyer(), s, s.pending, [Quote(ts)], ts, 0) == s;
  }

  /** The entry is filled at the second quote. */
  lemma EntryFilled(c: Scene, cash: int, s: EngineState)
    requires c.fill < c.close && cash >= 53
    requires s.broker == Fresh(cash) && s.pending == [Queued(c)] && s.exitLevels == map[] && s.entryTs == map[]
    requires s.recorded == map["m" := 0.5] && s.trades == map[]
    ensures var after := Step(Buyer(), ArchiveOf(c), s, c.fill);
      && after.broker.positions == map["m" := OpenPosition(Yes, 1, 51, c.fill, 2)]
      && after.broker.settlements == [] && after.exitLevels == map[]
      && after.recorded == map["m" := 0.5] && after.pending == []
  {
    hide ContextAt, Equity, Drain;
    var cfg, a, ts := Buyer(), ArchiveOf(c), c.fill;
    CandleRows(c, ts);
    MarketRows(c, ts);
    var candles := CandlesAt(a.candles, ts);
    assert candles == [Quote(ts)];
    assert Exits(s, candles, ts, 0) == s && Exits(s, candles, ts, 1) == s;
    EntryDrained(c, cash, s);
    var drained := Drain(cfg, s, s.pending, candles, ts, 1);
    var marked := MarkEquity(drained, ts);
    assert Evaluate(cfg, a, marked, candles, ts, 0) == marked;
    assert Evaluate(cfg, a, marked, candles, ts, 1) == EvaluateOne(cfg, a, marked, candles[0], ts) == marked;
  }

  /** It is settled at the close. */
  lemma Settled(c: Scene, s: EngineState)
    requires c.fill < c.close
    requires s.broker.positions == map["m" := OpenPosition(Yes, 1, 51, c.fill, 2)]
    requires s.broker.settlements == [] && s.exitLevels == map[] && s.recorded == map["m" := 0.5] && s.pending == []
    ensures var after := Step(Buyer(), ArchiveOf(c), s, c.close);
      && |after.broker.settlements| == 1
      && after.broker.settlements[0].ticker == "m" && after.broker.settlements[0].entryTs == c.fill
      && after.recorded == map["m" := 0.5]
  {
    hide Equity;
    CandleRows(c, c.close);
    MarketRows(c, c.close);
    assert CandlesAt(ArchiveOf(c).candles, c.close) == [];
    var closing := ClosingAt(ArchiveOf(c).markets, c.close);
    assert SettleAll(s, closing, c.close, 1)
        == SettleOne(SettleAll(s, closing, c.close, 0), closing[0], c.close);
  }

  // ---- what it yields ----

  /** A fold that tests from the fill on samples the trade. */
  lemma TradeIsSampled(c: Scene, fold: Fold, cash: int, timeline: seq<int>, run: FoldRun)
    requires fold.trainStart < fold.testStart == c.fill < c.close <= fold.testEnd && cash >= 53
    requires IsFoldRun(DatabaseOf(c), fold, Buyer(), cash, timeline, run)
    ensures run.raw == [RawEntry("m", 0.5)]
  {
    hide Step;
    AllLoaded(c, fold.trainStart, fold.testEnd);
    OneTimeline(c, timeline);
    var cfg, a, times := Buyer(), ArchiveOf(c), Times(c);
    var s1 := Step(cfg, a, Start(cash), times[0]);
    var s2 := Step(cfg, a, s1, times[1]);
    var s3 := Step(cfg, a, s2, times[2]);
    assert Replay(cfg, a, cash, times, 0) == Start(cash);
    assert Replay(cfg, a, cash, times, 1) == s1;
    assert Replay(cfg, a, cash, times, 2) == s2;
    assert Replay(cfg, a, cash, times, 3) == s3;
    Decided(c, cash);
    EntryFilled(c, cash, s1);
    Settled(c, s2);
    HarvestOfOne(c, s3.broker.settlements, s3.recorded);
  }

  lemma HarvestOfOne(c: Scene, settlements: seq<Settlement>, recorded: map<string, real>)
    requires |settlements| == 1 && settlements[0].ticker == "m" && settlements[0].entryTs == c.fill
    requires recorded == map["m" := 0.5]
    ensures Harvest(DatabaseOf(c), settlements, c.fill, recorded, 1).raw == [RawEntry("m", 0.5)]
  {
    var db := DatabaseOf(c);
    assert db.markets[..0] == [];
    assert MarketOf(db.markets, "m") == Some(MarketIn(c));
    assert Harvest(db, settlements, c.fill, recorded, 0) == FoldRun([], [], []);
    assert Contributes(db, settlements[0], c.fill, recorded);
  }

  /** The pairs such a fold leaves: the trade's probability and what became of it. */
  lemma PairsOfTrade(c: Scene, run: FoldRun)
    requires run.raw == [RawEntry("m", 0.5)]
    ensures PairsBefore(DatabaseOf(c), [run], 1) == [Pair(0.5, if c.winner.Yes? then 1.0 else 0.0)]
  {
    var db := DatabaseOf(c);
    assert db.markets[..0] == [] && MarketOf(db.markets, "m") == Some(MarketIn(c));
    assert PairsOf(db, run.raw, 0) == [] && PairsBefore(db, [run], 0) == [];
    assert PairsOf(db, run.raw, 1) == [Pair(0.5, if c.winner.Yes? then 1.0 else 0.0)];
  }

  /** After the second quote a buyer holds the market. */
  lemma BuyerHolds(c: Scene, cash: int)
    requires c.fill < c.close && cash >= 53
    ensures "m" in Replay(Buyer(), ArchiveOf(c), cash, Times(c), 2).broker.positions
  {
    hide Step;
    var cfg, a, times := Buyer(), ArchiveOf(c), Times(c);
    assert Replay(cfg, a, cash, times, 0) == Start(cash);
    Decided(c, cash);
    EntryFilled(c, cash, Replay(cfg, a, cash, times, 1));
  }

  lemma NothingDecided(a: Archive, s: EngineState, candle: Candle, ts: int)
    ensures var after := EvaluateOne(Holder(), a, s, candle, ts);
            after.broker == s.broker && after.pending == s.pending && after.exitLevels == s.exitLevels
  {
    hide ContextAt, HasPending;
  }

  lemma NothingHeld(c: Scene, s: EngineState, ts: int)
    requires ts in {c.fill - 1, c.fill} && c.fill < c.close && s.broker.positions == map[] && s.pending == []
    requires s.exitLevels == map[]
    ensures var after := Step(Holder(), ArchiveOf(c), s, ts);
            after.broker.positions == map[] && after.pending == [] && after.exitLevels == map[]
  {
    hide Equity, EvaluateOne;
    var cfg, a := Holder(), ArchiveOf(c);
    CandleRows(c, ts);
    MarketRows(c, ts);
    var candles := CandlesAt(a.candles, ts);
    assert candles == [Quote(ts)] && ClosingAt(a.markets, ts) == [];
    assert Exits(s, candles, ts, 0) == s && Exits(s, candles, ts, 1) == s;
    assert SettleAll(s, [], ts, 0) == s && Drain(cfg, s, [], candles, ts, 0) == s;
    var marked := MarkEquity(s, ts);
    assert Evaluate(cfg, a, marked, candles, ts, 0) == marked;
    assert Evaluate(cfg, a, marked, candles, ts, 1) == EvaluateOne(cfg, a, marked, candles[0], ts);
    hide CandlesAt, ClosingAt, Exits, SettleAll, Drain, Evaluate;
    NothingDecided(a, marked, candles[0], ts);
  }

  /** One that never buys does not. */
  lemma HolderHoldsNothing(c: Scene, cash: int)
    requires c.fill < c.close
    ensures "m" !in Replay(Holder(), ArchiveOf(c), cash, Times(c), 2).broker.positions
  {
    hide Step;
    var cfg, a, times := Holder(), ArchiveOf(c), Times(c);
    assert Replay(cfg, a, cash, times, 0) == Start(cash);
    NothingHeld(c, Start(cash), c.fill - 1);
    NothingHeld(c, Replay(cfg, a, cash, times, 1), c.fill);
  }
}
