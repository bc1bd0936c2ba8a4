/** Whole-run laws of the replay: every market lives through at most one trade,
    in causal order, and the money adds up at every timestamp. */
module EngineLedger {
  import opened Wrappers
  import opened Broker
  import opened Engine

  // ---- one market's share of the state ----

  function SettledFor(settlements: seq<Settlement>, ticker: string): seq<Settlement> {
    if settlements == [] then []
    else
      var last := settlements[|settlements| - 1];
      var rest := SettledFor(settlements[..|settlements| - 1], ticker);
      if last.ticker == ticker then rest + [last] else rest
  }

  lemma SettledForAppend(settlements: seq<Settlement>, x: Settlement, ticker: string)
    ensures SettledFor(settlements + [x], ticker)
         == if x.ticker == ticker then SettledFor(settlements, ticker) + [x] else SettledFor(settlements, ticker)
  {}

  datatype View = View(
    position: Option<OpenPosition>, entryTs: Option<int>, trade: Option<TradeRow>,
    levels: Option<ExitLevels>, settled: seq<Settlement>)

  function Get<V>(m: map<string, V>, key: string): Option<V> { if key in m then Some(m[key]) else None }

  function ViewOf(s: EngineState, t: string): View {
    View(Get(s.broker.positions, t), Get(s.entryTs, t), Get(s.trades, t), Get(s.exitLevels, t),
         SettledFor(s.broker.settlements, t))
  }

  // ---- the three stages of a market ----

  const IDLE := View(None, None, None, None, [])

  /** The row was decided before it was filled, at a price its decision allows. */
  predicate SoundEntry(row: TradeRow, t: string) {
    && row.ticker == t
    && row.decidedTs < row.entryTs
    && Queues(row.decision) && row.side == SideOf(row.decision)
    && InBand(row.decision, row.entryPrice)
  }

  predicate LevelsFrom(levels: ExitLevels, row: TradeRow) {
    && row.decision.stop == Some(levels.stop) && row.decision.target == Some(levels.target)
    && levels.side == row.side
  }

  /** An open position, its trade row still open and agreeing with it, in a
      market that closes at or after `closeBound`. */
  predicate Holding(a: Archive, t: string, v: View, entryBound: int, closeBound: int) {
    && v.position.Some? && v.entryTs.Some? && v.trade.Some? && v.settled == []
    && SoundEntry(v.trade.value, t)
    && v.trade.value.status.StillOpen? && v.trade.value.exit.None?
    && v.trade.value.entryTs == v.position.value.entryTs == v.entryTs.value < entryBound
    && v.trade.value.side == v.position.value.side
    && v.trade.value.quantity == v.position.value.quantity
    && v.trade.value.entryPrice == v.position.value.entryPrice
    && (v.levels.Some? ==> LevelsFrom(v.levels.value, v.trade.value))
    && MarketOf(a.markets, t).Some? && closeBound <= MarketOf(a.markets, t).value.closeTs
  }

  /** How the row ended: at one of its own levels while the market was open, or
      at the market's close by its published result. */
  predicate SoundExit(m: Market, row: TradeRow, x: Settlement) {
    match row.status
    case StillOpen => false
    case ClosedEarly =>
      row.exit.Some?
          && (row.decision.stop == Some(row.exit.value.price) || row.decision.target == Some(row.exit.value.price))
    case SettledWon => x.won && x.settledTs == m.closeTs && m.resolution == ResolvedTo(row.side)
    case SettledLost => !x.won && x.settledTs == m.closeTs && m.resolution != ResolvedTo(row.side)
  }

  /** One settlement, with the trade row carrying its numbers. */
  predicate Finished(a: Archive, t: string, v: View) {
    && v.position.None? && v.entryTs.Some? && v.trade.Some? && v.levels.None? && |v.settled| == 1
    && var row, x := v.trade.value, v.settled[0];
    && SoundEntry(row, t)
    && row.entryTs == x.entryTs == v.entryTs.value
    && row.side == x.side && row.quantity == x.quantity && row.entryPrice == x.entryPrice
    && row.exit.Some?
    && row.exit.value.ts == x.settledTs && row.exit.value.gross == x.gross
    && row.exit.value.entryFee == x.entryFee && row.exit.value.exitFee == x.exitFee && row.exit.value.net == x.net
    && MarketOf(a.markets, t).Some?
    && row.entryTs < x.settledTs <= MarketOf(a.markets, t).value.closeTs
    && SoundExit(MarketOf(a.markets, t).value, row, x)
  }

  predicate Stage(a: Archive, t: string, v: View, entryBound: int, closeBound: int) {
    v == IDLE || Holding(a, t, v, entryBound, closeBound) || Finished(a, t, v)
  }

  ghost predicate AllStages(a: Archive, s: EngineState, entryBound: int, closeBound: int) {
    forall t: string :: Stage(a, t, ViewOf(s, t), entryBound, closeBound)
  }

  /** A queued entry awaits a market that is still idle. */
  predicate SoundPending(a: Archive, s: EngineState, p: PendingEntry, decidedBound: int) {
    && p.ticker !in s.entryTs
    && p.decidedTs < decidedBound
    && Queues(p.decision) && p.side == SideOf(p.decision)
    && MarketOf(a.markets, p.ticker).Some?
    && MarketOf(a.markets, p.ticker).value.closeTs == p.closeTs
  }

  predicate DistinctQueue(pending: seq<PendingEntry>) {
    forall i, j :: 0 <= i < j < |pending| ==> pending[i].ticker != pending[j].ticker
  }

  ghost predicate PendingSound(a: Archive, s: EngineState, decidedBound: int) {
    && DistinctQueue(s.pending)
    && forall i :: 0 <= i < |s.pending| ==> SoundPending(a, s, s.pending[i], decidedBound)
  }

  /** What one phase may do to a market that has been entered: nothing to the
      entry, and nothing at all once it is finished. */
  predicate Evolves(v: View, w: View) {
    && v.settled <= w.settled
    && (v.trade.Some? && v.entryTs.Some? ==>
          && w.trade.Some? && w.entryTs == v.entryTs
          && w.trade.value.(status := v.trade.value.status, exit := v.trade.value.exit) == v.trade.value)
    && (v.position.None? && v.trade.Some? ==> w == v)
  }

  // ---- phase 1 ----

  lemma ExitOneFrame(s: EngineState, c: Candle, ts: int, t: string)
    requires t != c.ticker
    ensures ViewOf(ExitOne(s, c, ts), t) == ViewOf(s, t)
  {}

  lemma ExitOneStage(a: Archive, s: EngineState, c: Candle, ts: int)
    requires Stage(a, c.ticker, ViewOf(s, c.ticker), ts, ts)
    ensures Stage(a, c.ticker, ViewOf(ExitOne(s, c, ts), c.ticker), ts, ts)
    ensures Evolves(ViewOf(s, c.ticker), ViewOf(ExitOne(s, c, ts), c.ticker))
  {
    if c.ticker in s.exitLevels && c.ticker in s.broker.positions {
      var levels := s.exitLevels[c.ticker];
      var price := FixedRExitPrice(c, levels.side, levels.stop, levels.target);
      if price.Some? {
        var x := EarlyClose(c.ticker, s.broker.positions[c.ticker], price.value, ts);
        SettledForAppend(s.broker.settlements, x, c.ticker);
        assert Finished(a, c.ticker, ViewOf(ExitOne(s, c, ts), c.ticker));
      }
    }
  }

  lemma {:induction false} ExitsKeepStages(a: Archive, s: EngineState, candles: seq<Candle>, ts: int, k: nat)
    requires k <= |candles| && AllStages(a, s, ts, ts)
    ensures AllStages(a, Exits(s, candles, ts, k), ts, ts)
    ensures Exits(s, candles, ts, k).pending == s.pending && Exits(s, candles, ts, k).entryTs == s.entryTs
    ensures forall t: string :: Evolves(ViewOf(s, t), ViewOf(Exits(s, candles, ts, k), t))
  {
    if k > 0 {
      ExitsKeepStages(a, s, candles, ts, k - 1);
      var before := Exits(s, candles, ts, k - 1);
      var after := ExitOne(before, candles[k - 1], ts);
      assert after == Exits(s, candles, ts, k);
      forall t: string
        ensures Stage(a, t, ViewOf(after, t), ts, ts)
        ensures Evolves(ViewOf(s, t), ViewOf(after, t))
      {
        assert Stage(a, t, ViewOf(before, t), ts, ts);
        assert Evolves(ViewOf(s, t), ViewOf(before, t));
        if t == candles[k - 1].ticker {
          ExitOneStage(a, before, candles[k - 1], ts);
          EvolvesTransitive(ViewOf(s, t), ViewOf(before, t), ViewOf(after, t));
        } else {
          ExitOneFrame(before, candles[k - 1], ts, t);
        }
      }
    }
  }

  lemma EvolvesReflexive(v: View)
    ensures Evolves(v, v)
  {}

  lemma EvolvesTransitive(u: View, v: View, w: View)
    requires Evolves(u, v) && Evolves(v, w)
    ensures Evolves(u, w)
  {}

  // ---- phase 2 ----

  lemma {:induction false} MarketOfUnique(markets: seq<Market>, m: Market)
    requires DistinctTickers(markets) && m in markets
    ensures MarketOf(markets, m.ticker) == Some(m)
  {}

  lemma SettleOneEffect(s: EngineState, m: Market, ts: int)
    ensures var after := SettleOne(s, m, ts);
      && after.pending == s.pending && after.entryTs == s.entryTs && after.equity == s.equity
      && m.ticker !in after.broker.positions && m.ticker !in after.exitLevels
      && (forall t :: t in after.broker.positions ==> t in s.broker.positions)
      && after.broker.settlements ==
           (if m.ticker !in s.broker.positions then s.broker.settlements
            else s.broker.settlements + [Expiry(m.ticker, s.broker.positions[m.ticker], m.resolution, ts)])
  {
    hide ClosedRow, Expiry;
  }

  lemma SettleOneElsewhere(s: EngineState, m: Market, ts: int, t: string)
    requires t != m.ticker
    ensures var after := SettleOne(s, m, ts);
      && Get(after.broker.positions, t) == Get(s.broker.positions, t)
      && Get(after.trades, t) == Get(s.trades, t)
      && Get(after.exitLevels, t) == Get(s.exitLevels, t)
  {
    hide ClosedRow, Expiry, Settle;
    assert Get(Settle(s.broker, m.ticker, m.resolution, ts).positions, t) == Get(s.broker.positions, t) by {
      SettleElsewhere(s.broker, m, ts, t);
    }
  }

  lemma SettleElsewhere(b: BrokerState, m: Market, ts: int, t: string)
    requires t != m.ticker
    ensures Get(Settle(b, m.ticker, m.resolution, ts).positions, t) == Get(b.positions, t)
  {}

  lemma SettleOneFrame(s: EngineState, m: Market, ts: int, t: string)
    requires t != m.ticker
    ensures ViewOf(SettleOne(s, m, ts), t) == ViewOf(s, t)
  {
    hide SettleOne, SettledFor, Get;
    SettleOneEffect(s, m, ts);
    SettleOneElsewhere(s, m, ts, t);
    if m.ticker in s.broker.positions {
      SettledForAppend(s.broker.settlements, Expiry(m.ticker, s.broker.positions[m.ticker], m.resolution, ts), t);
    }
  }

  /** A held market's open row is closed with the numbers of its settlement. */
  lemma SettleOneTrade(s: EngineState, m: Market, ts: int)
    ensures var t := m.ticker;
      if t in s.broker.positions && t in s.trades && s.trades[t].status.StillOpen? then
        var x := Expiry(t, s.broker.positions[t], m.resolution, ts);
        t in SettleOne(s, m, ts).trades
        && SettleOne(s, m, ts).trades[t]
             == ClosedRow(s.trades[t], x, if x.won then 100 else 0, ts, if x.won then SettledWon else SettledLost)
      else t !in s.broker.positions && (t in s.trades ==> !s.trades[t].status.StillOpen?) ==>
        Get(SettleOne(s, m, ts).trades, t) == Get(s.trades, t)
  {
    hide ClosedRow;
  }

  lemma SettleOneStage(a: Archive, s: EngineState, m: Market, ts: int)
    requires DistinctTickers(a.markets) && m in a.markets && m.closeTs == ts
    requires Stage(a, m.ticker, ViewOf(s, m.ticker), ts, ts)
    ensures var v := ViewOf(SettleOne(s, m, ts), m.ticker); v == IDLE || Finished(a, m.ticker, v)
    ensures Evolves(ViewOf(s, m.ticker), ViewOf(SettleOne(s, m, ts), m.ticker))
  {
    hide SettleOne, SettledFor, MarketOf, DistinctTickers, InBand, Queues, SideOf;
    MarketOfUnique(a.markets, m);
    SettleOneEffect(s, m, ts);
    SettleOneTrade(s, m, ts);
    if m.ticker in s.broker.positions {
      SettledForAppend(s.broker.settlements,
          Expiry(m.ticker, s.broker.positions[m.ticker], m.resolution, ts), m.ticker);
    }
  }

  lemma {:induction false} SettleAllKeepsStages(a: Archive, s: EngineState, closing: seq<Market>, ts: int, k: nat)
    requires DistinctTickers(a.markets) && k <= |closing|
    requires forall i :: 0 <= i < |closing| ==> closing[i] in a.markets && closing[i].closeTs == ts
    requires AllStages(a, s, ts, ts)
    ensures AllStages(a, SettleAll(s, closing, ts, k), ts, ts)
    ensures SettleAll(s, closing, ts, k).pending == s.pending
    ensures SettleAll(s, closing, ts, k).entryTs == s.entryTs
    ensures forall i :: 0 <= i < k ==> closing[i].ticker !in SettleAll(s, closing, ts, k).broker.positions
    ensures forall t: string :: Evolves(ViewOf(s, t), ViewOf(SettleAll(s, closing, ts, k), t))
  {
    hide SettleOne, Holding, Finished, Evolves, ViewOf;
    if k == 0 {
      forall t: string ensures Evolves(ViewOf(s, t), ViewOf(s, t)) { EvolvesReflexive(ViewOf(s, t)); }
    } else {
      SettleAllKeepsStages(a, s, closing, ts, k - 1);
      var before, m := SettleAll(s, closing, ts, k - 1), closing[k - 1];
      SettleOneEffect(before, m, ts);
      forall t: string
        ensures Stage(a, t, ViewOf(SettleOne(before, m, ts), t), ts, ts)
        ensures Evolves(ViewOf(s, t), ViewOf(SettleOne(before, m, ts), t))
      {
        assert Stage(a, t, ViewOf(before, t), ts, ts);
        assert Evolves(ViewOf(s, t), ViewOf(before, t));
        if t == m.ticker {
          SettleOneStage(a, before, m, ts);
          EvolvesTransitive(ViewOf(s, t), ViewOf(before, t), ViewOf(SettleOne(before, m, ts), t));
        } else {
          SettleOneFrame(before, m, ts, t);
        }
      }
    }
  }

  /** After the settlement phase every market still held closes later. */
  lemma SettledMarketsGone(a: Archive, s: EngineState, ts: int)
    requires DistinctTickers(a.markets) && AllStages(a, s, ts, ts)
    ensures var closing := ClosingAt(a.markets, ts);
            AllStages(a, SettleAll(s, closing, ts, |closing|), ts, ts + 1)
  {
    var closing := ClosingAt(a.markets, ts);
    assert forall i :: 0 <= i < |closing| ==> closing[i] in closing;
    SettleAllKeepsStages(a, s, closing, ts, |closing|);
    var after := SettleAll(s, closing, ts, |closing|);
    forall m | m in closing ensures m.ticker !in after.broker.positions {
      var i :| 0 <= i < |closing| && closing[i] == m;
    }
    forall t: string ensures Stage(a, t, ViewOf(after, t), ts, ts + 1) {
      assert Stage(a, t, ViewOf(after, t), ts, ts);
      var m := MarketOf(a.markets, t);
      assert m.Some? && m.value.closeTs == ts ==> m.value in closing;
    }
  }

  // ---- phase 3 ----

  lemma PlaceEffect(config: BrokerConfig, b: BrokerState, order: OrderRequest)
    ensures var (after, result) := Place(config, b, order);
      && after.settlements == b.settlements
      && (result.Rejected? ==> after.positions == b.positions)
      && (result.Filled? ==>
            && order.ticker !in b.positions && order.ticker in b.bars
            && order.ticker in after.positions
            && after.positions == b.positions[order.ticker := after.positions[order.ticker]]
            && var pos := after.positions[order.ticker];
               pos.side == order.side && pos.quantity == result.quantity && pos.entryPrice == result.price
               && pos.entryTs == b.bars[order.ticker].ts)
  {}

  /** An execution either enters, recording exactly what the broker filled, or
      leaves every record alone. */
  lemma ExecuteRecords(cfg: EngineConfig, s: EngineState, p: PendingEntry, c: Candle, ts: int)
    ensures var (after, outcome) := ExecutePending(cfg, s, p, c, ts);
      && after.pending == s.pending && after.equity == s.equity
      && after.lastEval == s.lastEval && after.recorded == s.recorded && after.entries == s.entries
      && (!outcome.Entered? ==>
          after.entryTs == s.entryTs && after.trades == s.trades && after.exitLevels == s.exitLevels)
      && (outcome.Entered? ==>
            var quantity := cfg.size(p.decision, s.broker.cash);
            quantity > 0 &&
            var order := OrderRequest(p.ticker, p.side, quantity, None, Taker);
            var (broker, result) := Place(cfg.broker, SetBar(s.broker, BarOf(p.ticker, c, ts)), order);
            && result.Filled? && after.broker == broker && InBand(p.decision, result.price)
            && after.entryTs == s.entryTs[p.ticker := ts]
            && after.trades == s.trades[p.ticker := TradeRow(p.ticker, p.decidedTs, p.decision, p.side, result.quantity,
                                                             result.price, ts, StillOpen, None)]
            && after.exitLevels == (if p.decision.stop.Some? && p.decision.target.Some?
                 then s.exitLevels[p.ticker := ExitLevels(p.decision.stop.value, p.decision.target.value, p.side)]
                 else s.exitLevels))
  {
    hide Place, Void, InBand, IsLiveQuote, SetBar, BarOf;
    if cfg.guardAllows(s.equity) && cfg.throttleAllows(s.entries, p.series, ts) && IsLiveQuote(c) {
      var quantity := cfg.size(p.decision, s.broker.cash);
      if quantity > 0 {
        var order := OrderRequest(p.ticker, p.side, quantity, None, Taker);
        match Place(cfg.broker, SetBar(s.broker, BarOf(p.ticker, c, ts)), order).1
        case Filled(_, _, _, _) =>
        case Rejected(_, _) =>
      }
    }
  }

  /** Only an entry leaves a position behind: a fill outside its band is voided. */
  lemma ExecuteRefused(cfg: EngineConfig, s: EngineState, p: PendingEntry, c: Candle, ts: int)
    requires p.ticker !in s.broker.positions
    ensures var (after, outcome) := ExecutePending(cfg, s, p, c, ts);
      && after.broker.settlements == s.broker.settlements
      && (!outcome.Entered? ==> after.broker.positions == s.broker.positions)
  {
    hide Place, Void, InBand, IsLiveQuote, BarOf;
    var quantity := cfg.size(p.decision, s.broker.cash);
    if quantity > 0 {
      var shown := SetBar(s.broker, BarOf(p.ticker, c, ts));
      var order := OrderRequest(p.ticker, p.side, quantity, None, Taker);
      PlaceEffect(cfg.broker, shown, order);
      VoidRestores(s.broker.positions, Place(cfg.broker, shown, order).0, p.ticker);
    }
  }

  /** What executing a queued entry can do to the state. */
  lemma ExecuteEffect(cfg: EngineConfig, s: EngineState, p: PendingEntry, c: Candle, ts: int)
    requires p.ticker !in s.broker.positions
    ensures var (after, outcome) := ExecutePending(cfg, s, p, c, ts);
      && after.pending == s.pending && after.equity == s.equity
      && after.lastEval == s.lastEval && after.recorded == s.recorded && after.entries == s.entries
      && after.broker.settlements == s.broker.settlements
      && (!outcome.Entered? ==>
            after.broker.positions == s.broker.positions && after.entryTs == s.entryTs
            && after.trades == s.trades && after.exitLevels == s.exitLevels)
      && (outcome.Entered? ==>
            && p.ticker in after.broker.positions
            && var pos := after.broker.positions[p.ticker];
            && pos.entryTs == ts && pos.side == p.side && InBand(p.decision, pos.entryPrice)
            && after.broker.positions == s.broker.positions[p.ticker := pos]
            && after.entryTs == s.entryTs[p.ticker := ts]
            && after.trades == s.trades[p.ticker := TradeRow(p.ticker, p.decidedTs, p.decision, p.side, pos.quantity,
                                                             pos.entryPrice, ts, StillOpen, None)]
            && after.exitLevels == (if p.decision.stop.Some? && p.decision.target.Some?
                 then s.exitLevels[p.ticker := ExitLevels(p.decision.stop.value, p.decision.target.value, p.side)]
                 else s.exitLevels))
  {
    hide ExecutePending, Place, InBand;
    ExecuteRecords(cfg, s, p, c, ts);
    ExecuteRefused(cfg, s, p, c, ts);
    var quantity := cfg.size(p.decision, s.broker.cash);
    if quantity > 0 {
      PlaceEffect(cfg.broker, SetBar(s.broker, BarOf(p.ticker, c, ts)),
          OrderRequest(p.ticker, p.side, quantity, None, Taker));
    }
  }

  lemma VoidRestores(positions: map<string, OpenPosition>, placed: BrokerState, t: string)
    requires t !in positions
    ensures (t in placed.positions && placed.positions == positions[t := placed.positions[t]])
            ==> Void(placed, t).positions == positions
    ensures Void(placed, t).settlements == placed.settlements
  {}

  lemma ExecuteFrame(cfg: EngineConfig, s: EngineState, p: PendingEntry, c: Candle, ts: int, t: string)
    requires t != p.ticker && p.ticker !in s.broker.positions
    ensures ViewOf(ExecutePending(cfg, s, p, c, ts).0, t) == ViewOf(s, t)
  {
    ExecuteEffect(cfg, s, p, c, ts);
  }

  lemma ExecuteStage(cfg: EngineConfig, a: Archive, s: EngineState, p: PendingEntry, c: Candle, ts: int)
    requires ViewOf(s, p.ticker) == IDLE
    requires SoundPending(a, s, p, ts) && ts < p.closeTs
    ensures var v := ViewOf(ExecutePending(cfg, s, p, c, ts).0, p.ticker);
            v == IDLE || Holding(a, p.ticker, v, ts + 1, ts + 1)
    ensures ExecutePending(cfg, s, p, c, ts).0.pending == s.pending
    ensures ExecutePending(cfg, s, p, c, ts).0.entryTs == s.entryTs
         || ExecutePending(cfg, s, p, c, ts).0.entryTs == s.entryTs[p.ticker := ts]
  {
    ExecuteEffect(cfg, s, p, c, ts);
    IdleMeans(s, p.ticker);
    var (after, outcome) := ExecutePending(cfg, s, p, c, ts);
    if outcome.Entered? {
      assert Holding(a, p.ticker, ViewOf(after, p.ticker), ts + 1, ts + 1);
    }
  }

  lemma IdleMeans(s: EngineState, t: string)
    requires ViewOf(s, t) == IDLE
    ensures t !in s.broker.positions && t !in s.entryTs && t !in s.trades && t !in s.exitLevels
    ensures SettledFor(s.broker.settlements, t) == []
  {}

  lemma DrainOneKeepsStages(
      cfg: EngineConfig, a: Archive, s: EngineState, p: PendingEntry, candles: seq<Candle>, ts: int)
    requires AllStages(a, s, ts + 1, ts + 1) && PendingSound(a, s, ts)
    requires p in s.pending
    ensures AllStages(a, DrainOne(cfg, s, p, candles, ts), ts + 1, ts + 1)
    ensures PendingSound(a, DrainOne(cfg, s, p, candles, ts), ts)
    ensures forall q :: q in s.pending && q.ticker != p.ticker ==> q in DrainOne(cfg, s, p, candles, ts).pending
    ensures forall t: string :: Evolves(ViewOf(s, t), ViewOf(DrainOne(cfg, s, p, candles, ts), t))
  {
    var i :| 0 <= i < |s.pending| && s.pending[i] == p;
    assert SoundPending(a, s, p, ts);
    WithoutDistinct(s.pending, p.ticker);
    var waiting := s.(pending := Without(s.pending, p.ticker));
    WaitingSound(a, s, waiting, ts);
    assert AllStages(a, waiting, ts + 1, ts + 1) by { SameViews(a, s, waiting, ts + 1); }
    var c := CandleOf(candles, p.ticker);
    if ts < p.closeTs && c.Some? {
      assert ViewOf(s, p.ticker) == IDLE by {
        assert Stage(a, p.ticker, ViewOf(s, p.ticker), ts + 1, ts + 1);
      }
      ExecuteKeepsStages(cfg, a, waiting, p, c.value, ts);
      var executed := ExecutePending(cfg, waiting, p, c.value, ts).0;
      var after := DrainOne(cfg, s, p, candles, ts);
      WaitingSound(a, executed, after, ts);
      SameViews(a, executed, after, ts + 1);
    }
  }

  lemma SameViews(a: Archive, s: EngineState, w: EngineState, bound: int)
    requires AllStages(a, s, bound, bound)
    requires forall t: string :: ViewOf(w, t) == ViewOf(s, t)
    ensures AllStages(a, w, bound, bound)
  {}

  lemma WaitingSound(a: Archive, s: EngineState, waiting: EngineState, ts: int)
    requires PendingSound(a, s, ts) && DistinctQueue(waiting.pending)
    requires forall q :: q in waiting.pending ==> q in s.pending
    requires waiting == s.(pending := waiting.pending, entries := waiting.entries)
    ensures PendingSound(a, waiting, ts)
    ensures forall t: string :: ViewOf(waiting, t) == ViewOf(s, t)
  {
    forall j | 0 <= j < |waiting.pending| ensures SoundPending(a, waiting, waiting.pending[j], ts) {
      var q := waiting.pending[j];
      assert q in waiting.pending;
      var i :| 0 <= i < |s.pending| && s.pending[i] == q;
      assert SoundPending(a, s, s.pending[i], ts);
    }
  }

  /** An entry leaves the queue before it is executed, so nothing still queued
      is for the market it enters. */
  lemma ExecuteKeepsStages(cfg: EngineConfig, a: Archive, s: EngineState, p: PendingEntry, c: Candle, ts: int)
    requires AllStages(a, s, ts + 1, ts + 1) && PendingSound(a, s, ts)
    requires ViewOf(s, p.ticker) == IDLE && SoundPending(a, s, p, ts) && ts < p.closeTs
    requires forall q :: q in s.pending ==> q.ticker != p.ticker
    ensures var after := ExecutePending(cfg, s, p, c, ts).0;
            AllStages(a, after, ts + 1, ts + 1) && PendingSound(a, after, ts) && after.pending == s.pending
    ensures forall t: string :: Evolves(ViewOf(s, t), ViewOf(ExecutePending(cfg, s, p, c, ts).0, t))
  {
    var after := ExecutePending(cfg, s, p, c, ts).0;
    IdleMeans(s, p.ticker);
    ExecuteStage(cfg, a, s, p, c, ts);
    forall t: string
      ensures Stage(a, t, ViewOf(after, t), ts + 1, ts + 1)
      ensures Evolves(ViewOf(s, t), ViewOf(after, t))
    {
      assert Stage(a, t, ViewOf(s, t), ts + 1, ts + 1);
      if t != p.ticker { ExecuteFrame(cfg, s, p, c, ts, t); }
    }
    forall j | 0 <= j < |after.pending| ensures SoundPending(a, after, after.pending[j], ts) {
      assert s.pending[j] in s.pending;
      assert SoundPending(a, s, s.pending[j], ts);
    }
  }

  lemma {:induction false} WithoutDistinct(pending: seq<PendingEntry>, ticker: string)
    requires DistinctQueue(pending)
    ensures DistinctQueue(Without(pending, ticker))
  {
    if pending != [] {
      var front, last := pending[..|pending| - 1], pending[|pending| - 1];
      WithoutDistinct(front, ticker);
      var rest := Without(front, ticker);
      forall i | 0 <= i < |rest| ensures rest[i].ticker != last.ticker {
        assert rest[i] in rest;
        assert rest[i] in front;
      }
    }
  }

  lemma {:induction false} DrainKeepsStages(
      cfg: EngineConfig, a: Archive, s: EngineState, candles: seq<Candle>, ts: int, k: nat)
    requires k <= |s.pending|
    requires AllStages(a, s, ts + 1, ts + 1) && PendingSound(a, s, ts)
    ensures var after := Drain(cfg, s, s.pending, candles, ts, k);
            AllStages(a, after, ts + 1, ts + 1) && PendingSound(a, after, ts)
    ensures forall j :: k <= j < |s.pending| ==> s.pending[j] in Drain(cfg, s, s.pending, candles, ts, k).pending
    ensures forall t: string :: Evolves(ViewOf(s, t), ViewOf(Drain(cfg, s, s.pending, candles, ts, k), t))
  {
    if k > 0 {
      DrainKeepsStages(cfg, a, s, candles, ts, k - 1);
      var before := Drain(cfg, s, s.pending, candles, ts, k - 1);
      DrainOneKeepsStages(cfg, a, before, s.pending[k - 1], candles, ts);
      forall t: string ensures Evolves(ViewOf(s, t), ViewOf(Drain(cfg, s, s.pending, candles, ts, k), t)) {
        EvolvesTransitive(ViewOf(s, t), ViewOf(before, t), ViewOf(Drain(cfg, s, s.pending, candles, ts, k), t));
      }
    }
  }

  // ---- phase 5 ----

  /** Evaluating a market leaves the books alone and queues at most one entry. */
  lemma EvaluateOneEffect(cfg: EngineConfig, a: Archive, s: EngineState, c: Candle, ts: int)
    ensures var after := EvaluateOne(cfg, a, s, c, ts);
      && after.broker == s.broker && after.entryTs == s.entryTs && after.trades == s.trades
      && after.exitLevels == s.exitLevels && after.equity == s.equity
      && (after.pending == s.pending || QueuedOne(a, s, after, c, ts))
  {
    hide ContextAt, Decide, Noted, Queues, SideOf, HasPending;
  }

  predicate QueuedOne(a: Archive, s: EngineState, after: EngineState, c: Candle, ts: int) {
    var found := MarketOf(a.markets, c.ticker);
    && found.Some? && c.ticker !in s.entryTs && !HasPending(s.pending, c.ticker)
    && |after.pending| == |s.pending| + 1 && after.pending[..|s.pending|] == s.pending
    && var p := after.pending[|s.pending|];
       p.ticker == c.ticker && p.decidedTs == ts && p.closeTs == found.value.closeTs
       && Queues(p.decision) && p.side == SideOf(p.decision)
  }

  lemma EvaluateOneKeepsPending(cfg: EngineConfig, a: Archive, s: EngineState, c: Candle, ts: int)
    requires PendingSound(a, s, ts + 1)
    ensures PendingSound(a, EvaluateOne(cfg, a, s, c, ts), ts + 1)
    ensures var after := EvaluateOne(cfg, a, s, c, ts);
            after.broker == s.broker && after.entryTs == s.entryTs && after.trades == s.trades
            && after.exitLevels == s.exitLevels && after.equity == s.equity
  {
    hide EvaluateOne, Queues, SideOf;
    EvaluateOneEffect(cfg, a, s, c, ts);
    var after := EvaluateOne(cfg, a, s, c, ts);
    forall i | 0 <= i < |after.pending| ensures SoundPending(a, after, after.pending[i], ts + 1) {
      if i < |s.pending| { assert SoundPending(a, s, s.pending[i], ts + 1) && after.pending[i] == s.pending[i]; }
    }
  }

  lemma {:induction false} EvaluateKeepsPending(
      cfg: EngineConfig, a: Archive, s: EngineState, candles: seq<Candle>, ts: int, k: nat)
    requires k <= |candles| && PendingSound(a, s, ts + 1)
    ensures PendingSound(a, Evaluate(cfg, a, s, candles, ts, k), ts + 1)
    ensures var after := Evaluate(cfg, a, s, candles, ts, k);
            after.broker == s.broker && after.entryTs == s.entryTs && after.trades == s.trades
            && after.exitLevels == s.exitLevels && after.equity == s.equity
  {
    hide EvaluateOne, PendingSound;
    if k > 0 {
      EvaluateKeepsPending(cfg, a, s, candles, ts, k - 1);
      EvaluateOneKeepsPending(cfg, a, Evaluate(cfg, a, s, candles, ts, k - 1), candles[k - 1], ts);
    }
  }
}
