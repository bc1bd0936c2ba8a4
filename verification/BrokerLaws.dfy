/** Laws of the replay broker over arbitrary sequences of its operations. */
module BrokerLaws {
  import opened Wrappers
  import opened Fees
  import opened Sums
  import opened Broker

  datatype Operation =
    | ShowBar(bar: MarketBar)
    | PlaceOrder(order: OrderRequest)
    | VoidFill(ticker: string)
    | ClosePosition(ticker: string, exitPrice: int, exitTs: int)
    | SettleMarket(ticker: string, resolution: Resolution, settledTs: int)

  function Apply(config: BrokerConfig, s: BrokerState, op: Operation): BrokerState {
    match op
    case ShowBar(bar) => SetBar(s, bar)
    case PlaceOrder(order) => Place(config, s, order).0
    case VoidFill(ticker) => Void(s, ticker)
    case ClosePosition(ticker, exitPrice, exitTs) => CloseEarly(s, ticker, exitPrice, exitTs)
    case SettleMarket(ticker, resolution, settledTs) => Settle(s, ticker, resolution, settledTs)
  }

  /** The state after the first `k` operations. */
  function After(config: BrokerConfig, s: BrokerState, ops: seq<Operation>, k: nat): BrokerState
    requires k <= |ops|
  {
    if k == 0 then s else Apply(config, After(config, s, ops, k - 1), ops[k - 1])
  }

  // ---- conservation ----

  function CapitalOf(pos: OpenPosition): int { Stake(pos.entryPrice, pos.quantity) + pos.entryFee }

  /** What the open positions have cost so far, fees included. */
  ghost function Committed(positions: map<string, OpenPosition>): int {
    SumBy(positions, CapitalOf)
  }

  function NetTotal(settlements: seq<Settlement>): int {
    if settlements == [] then 0
    else NetTotal(settlements[..|settlements| - 1]) + settlements[|settlements| - 1].net
  }

  lemma NetTotalAppend(settlements: seq<Settlement>, last: Settlement)
    ensures NetTotal(settlements + [last]) == NetTotal(settlements) + last.net
  {}

  /** The money the ledger can account for: cash, plus capital in open
      positions, minus everything the settled trades netted. */
  ghost function Principal(s: BrokerState): int {
    s.cash + Committed(s.positions) - NetTotal(s.settlements)
  }

  /** No operation creates or destroys money. */
  lemma {:induction false} PrincipalPreserved(config: BrokerConfig, s: BrokerState, op: Operation)
    ensures Principal(Apply(config, s, op)) == Principal(s)
  {
    hide SumBy, NetTotal, EntryFee;
    match op
    case ShowBar(_) =>
    case PlaceOrder(order) =>
      var after := Place(config, s, order).0;
      if Attempt(config, s, order).Ok? {
        SumByInsert(s.positions, CapitalOf, order.ticker, after.positions[order.ticker]);
      }
    case VoidFill(ticker) =>
      if ticker in s.positions {
        SumByRemove(s.positions, CapitalOf, ticker);
      }
    case ClosePosition(ticker, exitPrice, exitTs) =>
      if ticker in s.positions {
        var pos := s.positions[ticker];
        SumByRemove(s.positions, CapitalOf, ticker);
        NetTotalAppend(s.settlements, EarlyClose(ticker, pos, exitPrice, exitTs));
        assert (exitPrice - pos.entryPrice) * pos.quantity == exitPrice * pos.quantity - pos.entryPrice * pos.quantity;
      }
    case SettleMarket(ticker, resolution, settledTs) =>
      if ticker in s.positions {
        var pos := s.positions[ticker];
        SumByRemove(s.positions, CapitalOf, ticker);
        NetTotalAppend(s.settlements, Expiry(ticker, pos, resolution, settledTs));
        assert (100 - pos.entryPrice) * pos.quantity == 100 * pos.quantity - pos.entryPrice * pos.quantity;
      }
  }

  /** Conservation: after any operations, cash is the starting cash plus the
      settled net results minus what the open positions cost. */
  lemma {:induction false} Conservation(config: BrokerConfig, startingCash: int, ops: seq<Operation>, k: nat)
    requires k <= |ops|
    ensures var s := After(config, Fresh(startingCash), ops, k);
            s.cash == startingCash + NetTotal(s.settlements) - Committed(s.positions)
  {
    if k > 0 {
      Conservation(config, startingCash, ops, k - 1);
      PrincipalPreserved(config, After(config, Fresh(startingCash), ops, k - 1), ops[k - 1]);
    }
  }

  // ---- cash never goes negative ----

  /** Every position was bought at a positive price for a positive quantity and
      a fee that is not negative, and cash covers what was spent. */
  ghost predicate Solvent(s: BrokerState) {
    && s.cash >= 0
    && forall t :: t in s.positions ==>
        s.positions[t].quantity > 0 && 1 <= s.positions[t].entryPrice <= 99 && s.positions[t].entryFee >= 0
  }

  lemma FillIsPositive(config: BrokerConfig, s: BrokerState, order: OrderRequest)
    requires Attempt(config, s, order).Ok?
    ensures var pos := Place(config, s, order).0.positions[order.ticker];
            pos.quantity > 0 && 1 <= pos.entryPrice <= 99 && pos.entryFee >= 0
  {}

  /** Exactly the exit prices whose proceeds cover their own fee keep an early
      close from lowering cash. */
  lemma EarlyCloseAddsCash(s: BrokerState, ticker: string, exitPrice: int, exitTs: int)
    requires ticker in s.positions && s.positions[ticker].quantity > 0
    ensures CloseEarly(s, ticker, exitPrice, exitTs).cash >= s.cash <==> exitPrice >= 0 || exitPrice <= -1329
  {
    FeeWithinProceeds(exitPrice, s.positions[ticker].quantity);
  }

  ghost predicate ExitPriceCovered(op: Operation) {
    op.ClosePosition? ==> op.exitPrice >= 0
  }

  lemma {:induction false} SolventStep(config: BrokerConfig, s: BrokerState, op: Operation)
    requires Solvent(s) && ExitPriceCovered(op)
    ensures Solvent(Apply(config, s, op))
  {
    match op
    case ShowBar(_) =>
    case PlaceOrder(order) =>
      if Attempt(config, s, order).Ok? { FillIsPositive(config, s, order); }
    case VoidFill(ticker) =>
    case ClosePosition(ticker, exitPrice, exitTs) =>
      if ticker in s.positions { EarlyCloseAddsCash(s, ticker, exitPrice, exitTs); }
    case SettleMarket(ticker, resolution, settledTs) =>
  }

  /** Cash never goes negative, whatever the order of operations. */
  lemma {:induction false} CashNeverNegative(config: BrokerConfig, startingCash: nat, ops: seq<Operation>, k: nat)
    requires k <= |ops|
    requires forall i :: 0 <= i < |ops| ==> ExitPriceCovered(ops[i])
    ensures Solvent(After(config, Fresh(startingCash), ops, k))
  {
    if k > 0 {
      CashNeverNegative(config, startingCash, ops, k - 1);
      SolventStep(config, After(config, Fresh(startingCash), ops, k - 1), ops[k - 1]);
    }
  }

  // ---- voiding a fill ----

  /** Placing an order and voiding it restores cash and positions exactly when
      the market was not already held: on a held market the order is refused
      and the void drops the older position instead. */
  lemma PlaceThenVoid(config: BrokerConfig, s: BrokerState, order: OrderRequest)
    ensures var undone := Void(Place(config, s, order).0, order.ticker);
            (undone.cash == s.cash && undone.positions == s.positions) <==> order.ticker !in s.positions
    ensures var undone := Void(Place(config, s, order).0, order.ticker);
            undone.settlements == s.settlements && undone.bars == s.bars
  {}

  /** A second order on a held market: the void pays back the older stake and fee
      and drops the position that the order never opened. */
  lemma VoidDropsOlderPosition()
    ensures var held := OpenPosition(Yes, 1, 40, 0, 2);
            var bar := MarketBar("a", 1, Some(49), Some(49), Some(51), Some(51), None);
            var s := BrokerState(1000, map["a" := held], map["a" := bar], 2, []);
            var undone := Void(Place(BrokerConfig(Pessimistic, 1.0), s, OrderRequest("a", Yes, 1, None, Taker)).0, "a");
            undone.cash == 1042 && undone.positions == map[]
  {}

  // ---- what a fill means ----

  /** A bar whose recorded extremes bracket its closes. */
  predicate WellFormed(bar: MarketBar) {
    && bar.yesBidLow.Some? && bar.yesBidClose.Some? && bar.yesAskHigh.Some? && bar.yesAskClose.Some?
    && bar.yesBidLow.value <= bar.yesBidClose.value <= bar.yesAskClose.value <= bar.yesAskHigh.value
  }

  /** The pessimistic model never pays less than the midpoint model, nor less
      than the closing price of the side bought. */
  lemma PessimisticNeverFlatters(bar: MarketBar, side: Side)
    requires WellFormed(bar)
    ensures var worst := FillPrice(Pessimistic, bar, side);
            worst.Some? && FillPrice(Midpoint, bar, side).Some? &&
            worst.value >= FillPrice(Midpoint, bar, side).value &&
            worst.value >= (if side.Yes? then bar.yesAskClose.value else 100 - bar.yesBidClose.value)
  {}

  /** A fill respects the request, the limit, the liquidity cap and the cash on
      hand, and is paid for in full: no cheaper order was charged for it. */
  lemma FillRespectsOrder(config: BrokerConfig, s: BrokerState, order: OrderRequest)
    requires 0.0 < config.capFraction <= 1.0
    requires Place(config, s, order).1.Filled?
    ensures var after := Place(config, s, order).0;
            var fill := Place(config, s, order).1;
            && 1 <= fill.quantity <= order.quantity
            && (order.limit.Some? ==> fill.price <= order.limit.value)
            && (s.bars[order.ticker].volume.Some? ==>
                  fill.quantity as real <= s.bars[order.ticker].volume.value as real * config.capFraction)
            && after.cash >= 0
            && s.cash - after.cash >= fill.price * fill.quantity
            && 10000 * (s.cash - after.cash - fill.price * fill.quantity - 1)
                 < 7 * fill.price * (100 - fill.price) * fill.quantity
                 <= 10000 * (s.cash - after.cash - fill.price * fill.quantity)
            && order.style == Taker && order.ticker !in s.positions
  {}

  /** A YES and a NO of one size, each settled by its own market's result, return
      par between them exactly when one of them wins and the other does not. */
  lemma PairSettlesToPar(
      s: BrokerState, yesTicker: string, noTicker: string, yesResult: Resolution, noResult: Resolution, ts: int)
    requires yesTicker in s.positions && noTicker in s.positions && yesTicker != noTicker
    requires s.positions[yesTicker].side == Yes && s.positions[noTicker].side == No
    requires 0 < s.positions[yesTicker].quantity == s.positions[noTicker].quantity
    ensures Settle(Settle(s, yesTicker, yesResult, ts), noTicker, noResult, ts).cash - s.cash
              == 100 * s.positions[yesTicker].quantity
            <==> (yesResult == ResolvedTo(Yes) <==> noResult != ResolvedTo(No))
  {}

  // ---- what each operation answers, in figures ----

  /** The price an order pays on a bar: the worst quote of its side, or the rounded
      middle of the closing quotes, halves to the even cent. */
  predicate PaysOn(mode: FillMode, bar: MarketBar, side: Side, price: int) {
    match mode
    case Pessimistic =>
      if side == Yes then bar.yesAskHigh == Some(price) else bar.yesBidLow == Some(100 - price)
    case Midpoint =>
      && bar.yesBidClose.Some? && bar.yesAskClose.Some?
      && var (middle, total) := (if side == Yes then price else 100 - price,
                                 bar.yesBidClose.value + bar.yesAskClose.value);
         2 * middle == total || (total % 2 == 1 && middle % 2 == 0 && total - 1 <= 2 * middle <= total + 1)
  }

  /** The least whole cent at or above 7/100 of P(1-P) a contract. */
  predicate LeastFee(price: int, quantity: int, fee: int) {
    10000 * (fee - 1) < 7 * price * (100 - price) * quantity <= 10000 * fee
  }

  /** All that was asked for, or all that the bar's volume allows, and something. */
  predicate MostOf(config: BrokerConfig, bar: MarketBar, requested: int, quantity: int) {
    && 1 <= quantity <= requested
    && (bar.volume.Some? ==> quantity as real <= bar.volume.value as real * config.capFraction)
    && (quantity == requested
        || (bar.volume.Some? && bar.volume.value as real * config.capFraction < (quantity + 1) as real))
  }

  predicate CanFill(config: BrokerConfig, bar: MarketBar, cash: int, order: OrderRequest, fill: Fill) {
    && PaysOn(config.fillMode, bar, order.side, fill.price) && 1 <= fill.price <= 99
    && (order.limit.Some? ==> fill.price <= order.limit.value)
    && MostOf(config, bar, order.quantity, fill.quantity)
    && LeastFee(fill.price, fill.quantity, fill.fee)
    && fill.price * fill.quantity + fill.fee <= cash
  }

  lemma PricedIff(config: BrokerConfig, bar: MarketBar, cash: int, order: OrderRequest, fill: Fill)
    ensures CanFill(config, bar, cash, order, fill) <==> PriceOrder(config, bar, cash, order) == Ok(fill)
  {
    var price := FillPrice(config.fillMode, bar, order.side);
    PaidIff(config.fillMode, bar, order.side, fill.price);
    hide FillPrice, PaysOn;
    if price == Some(fill.price) {
      var quantity := FilledQuantity(config, bar, order.quantity);
      MostIff(config, bar, order.quantity, fill.quantity);
      hide MostOf, MaxFillable;
      if quantity == fill.quantity && quantity > 0 { LeastFeeIff(fill.price, quantity, fill.fee); }
    }
  }

  lemma PaidIff(mode: FillMode, bar: MarketBar, side: Side, price: int)
    ensures PaysOn(mode, bar, side, price) <==> FillPrice(mode, bar, side) == Some(price)
  {}

  lemma MostIff(config: BrokerConfig, bar: MarketBar, requested: int, quantity: int)
    requires requested > 0
    ensures MostOf(config, bar, requested, quantity) <==>
      var cap := MaxFillable(config, bar);
      (cap.Some? ==> cap.value >= 1) && quantity == FilledQuantity(config, bar, requested)
  {}

  lemma LeastFeeIff(price: int, quantity: int, fee: int)
    requires quantity > 0
    ensures LeastFee(price, quantity, fee) <==> fee == EntryFee(price, quantity)
  {}

  /** An order fills exactly when its market has a bar and no position, it takes
      what is there, and there is a fill to be had: at the price of its side inside
      1..99 and its limit, for the most the bar allows, and paid for with its fee. */
  lemma FillsIff(config: BrokerConfig, s: BrokerState, order: OrderRequest)
    ensures Place(config, s, order).1.Filled? <==>
      && order.ticker in s.bars && order.ticker !in s.positions && order.style == Taker
      && exists fill :: CanFill(config, s.bars[order.ticker], s.cash, order, fill)
  {
    hide PriceOrder, CanFill;
    if order.ticker in s.bars {
      var bar := s.bars[order.ticker];
      forall fill ensures CanFill(config, bar, s.cash, order, fill) <==>
          PriceOrder(config, bar, s.cash, order) == Ok(fill) {
        PricedIff(config, bar, s.cash, order, fill);
      }
      if PriceOrder(config, bar, s.cash, order).Ok? {
        assert CanFill(config, bar, s.cash, order, PriceOrder(config, bar, s.cash, order).value);
      }
    }
  }

  /** What a fill does: cash pays stake and fee, and the position says so. */
  lemma FillIsBooked(config: BrokerConfig, s: BrokerState, order: OrderRequest, fill: Fill)
    requires order.ticker in s.bars && order.ticker !in s.positions && order.style == Taker
    requires CanFill(config, s.bars[order.ticker], s.cash, order, fill)
    ensures var ts := s.bars[order.ticker].ts;
      Place(config, s, order)
        == (s.(nextOrderId := s.nextOrderId + 1,
               cash := s.cash - (fill.price * fill.quantity + fill.fee),
               positions := s.positions[order.ticker :=
                 OpenPosition(order.side, fill.quantity, fill.price, ts, fill.fee)]),
            OrderResult.Filled(s.nextOrderId, fill.quantity, fill.price, ts))
  {
    hide PriceOrder, CanFill;
    PricedIff(config, s.bars[order.ticker], s.cash, order, fill);
  }

  /** The bar's volume allows less than one contract. */
  predicate TooThin(config: BrokerConfig, bar: MarketBar) {
    bar.volume.Some? && bar.volume.value as real * config.capFraction < 1.0
  }

  lemma TooThinIff(config: BrokerConfig, bar: MarketBar)
    ensures TooThin(config, bar) <==> MaxFillable(config, bar).Some? && MaxFillable(config, bar).value < 1
  {
    if bar.volume.Some? { BelowOne(bar.volume.value as real * config.capFraction); }
  }

  lemma BelowOne(x: real)
    ensures x.Floor < 1 <==> x < 1.0
  {}

  /** Some price the order would pay has the property. */
  ghost predicate Quoted(config: BrokerConfig, bar: MarketBar, side: Side, lo: int, hi: int) {
    exists price :: lo <= price <= hi && PaysOn(config.fillMode, bar, side, price)
  }

  lemma QuotedIff(config: BrokerConfig, bar: MarketBar, side: Side, lo: int, hi: int)
    ensures var price := FillPrice(config.fillMode, bar, side);
      Quoted(config, bar, side, lo, hi) <==> price.Some? && lo <= price.value <= hi
  {
    var price := FillPrice(config.fillMode, bar, side);
    if price.Some? { PaidIff(config.fillMode, bar, side, price.value); }
    if p :| lo <= p <= hi && PaysOn(config.fillMode, bar, side, p) { PaidIff(config.fillMode, bar, side, p); }
  }

  /** Why an order does not fill, the first reason that applies; nothing changes but
      the order number. */
  lemma RefusedBecause(config: BrokerConfig, s: BrokerState, order: OrderRequest)
    requires Place(config, s, order).1.Rejected?
    ensures Place(config, s, order).0 == s.(nextOrderId := s.nextOrderId + 1)
    ensures var reason := Place(config, s, order).1.reason;
      if order.ticker !in s.bars then reason == NoMarketData
      else if order.ticker in s.positions then reason == PositionAlreadyOpen
      else if order.style == Maker then reason == MakerUnfilled
      else
        var bar := s.bars[order.ticker];
        if !Quoted(config, bar, order.side, 1, 99) then reason == NoFillableQuote
        else if order.limit.Some? && !Quoted(config, bar, order.side, 1, order.limit.value) then reason == LimitExceeded
        else if TooThin(config, bar) then reason == InsufficientLiquidity
        else reason == InsufficientFunds
  {
    if order.ticker in s.bars {
      var bar := s.bars[order.ticker];
      QuotedIff(config, bar, order.side, 1, 99);
      if order.limit.Some? { QuotedIff(config, bar, order.side, 1, order.limit.value); }
      TooThinIff(config, bar);
      hide Quoted, TooThin, FillPrice, MaxFillable, FilledQuantity, EntryFee;
    }
  }

  /** An early close pays what was sold less its own fee, and won when it was sold
      above its entry. */
  lemma EarlyCloseIs(s: BrokerState, ticker: string, exitPrice: int, exitTs: int, fee: int)
    requires ticker in s.positions && s.positions[ticker].quantity > 0
    requires LeastFee(exitPrice, s.positions[ticker].quantity, fee)
    ensures var (pos, after) := (s.positions[ticker], CloseEarly(s, ticker, exitPrice, exitTs));
      var gross := exitPrice * pos.quantity - pos.entryPrice * pos.quantity;
      && after.cash == s.cash + exitPrice * pos.quantity - fee
      && after.positions == s.positions - {ticker} && after.bars == s.bars && after.nextOrderId == s.nextOrderId
      && after.settlements == s.settlements +
           [Settlement(ticker, pos.side, pos.quantity, pos.entryPrice, pos.entryTs, exitPrice > pos.entryPrice,
                       gross, pos.entryFee, fee, gross - pos.entryFee - fee, exitTs)]
  {
    var pos := s.positions[ticker];
    LeastFeeIff(exitPrice, pos.quantity, fee);
    assert (exitPrice - pos.entryPrice) * pos.quantity == exitPrice * pos.quantity - pos.entryPrice * pos.quantity;
  }

  /** A settlement pays par when the result names the side held and nothing
      otherwise, and charges no fee. */
  lemma SettlementIs(s: BrokerState, ticker: string, resolution: Resolution, settledTs: int)
    requires ticker in s.positions
    ensures var (pos, after) := (s.positions[ticker], Settle(s, ticker, resolution, settledTs));
      var won := resolution.ResolvedTo? && resolution.side == pos.side;
      var paid := if won then 100 * pos.quantity else 0;
      var gross := paid - pos.entryPrice * pos.quantity;
      && after.cash == s.cash + paid
      && after.positions == s.positions - {ticker} && after.bars == s.bars && after.nextOrderId == s.nextOrderId
      && after.settlements == s.settlements +
           [Settlement(ticker, pos.side, pos.quantity, pos.entryPrice, pos.entryTs, won,
                       gross, pos.entryFee, 0, gross - pos.entryFee, settledTs)]
  {
    var pos := s.positions[ticker];
    assert (100 - pos.entryPrice) * pos.quantity == 100 * pos.quantity - pos.entryPrice * pos.quantity;
  }

  /** A market that is not held is not touched by any of the three ways out. */
  lemma NothingToLeave(s: BrokerState, ticker: string, exitPrice: int, ts: int, resolution: Resolution)
    requires ticker !in s.positions
    ensures Void(s, ticker) == s && CloseEarly(s, ticker, exitPrice, ts) == s && Settle(s, ticker, resolution, ts) == s
  {}
}
