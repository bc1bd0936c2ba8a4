/** The replay broker: worst-price fills, fees at entry and at an early close,
    fee-free settlement. Money is whole cents.

    Each operation is given twice: as a function on `BrokerState`, which the
    laws in the other modules speak about, and as a method of `BacktestBroker`
    that updates the fields in place and is proved equal to the function. */
module Broker {
  import opened Wrappers
  import opened Fees

  datatype Side = Yes | No

  /** An official market result. One that, as it is spelled, names neither side makes
      both lose; `lowered` is the side it names in lower case. */
  datatype Resolution = Unresolved | ResolvedTo(side: Side) | Unrecognised(lowered: Option<Side>)

  datatype FillMode = Pessimistic | Midpoint

  datatype ExecutionStyle = Taker | Maker

  /** The slice of one candle the fill model reads. */
  datatype MarketBar = MarketBar(
    ticker: string, ts: int,
    yesBidLow: Option<int>, yesBidClose: Option<int>,
    yesAskHigh: Option<int>, yesAskClose: Option<int>,
    volume: Option<int>)

  datatype OpenPosition = OpenPosition(
    side: Side, quantity: int, entryPrice: int, entryTs: int, entryFee: int)

  datatype Settlement = Settlement(
    ticker: string, side: Side, quantity: int, entryPrice: int, entryTs: int,
    won: bool, gross: int, entryFee: int, exitFee: int, net: int, settledTs: int)

  type Contracts = n: int | n > 0 witness 1

  datatype OrderRequest = OrderRequest(
    ticker: string, side: Side, quantity: Contracts, limit: Option<int>, style: ExecutionStyle)

  datatype RejectReason =
    | NoMarketData | PositionAlreadyOpen | MakerUnfilled | LimitRequired | NoFillableQuote
    | LimitExceeded | InsufficientLiquidity | InsufficientFunds

  datatype OrderResult =
    | Filled(orderId: nat, quantity: int, price: int, filledAt: int)
    | Rejected(orderId: nat, reason: RejectReason)

  /** `capFraction` bounds the share of a bar's volume one order may take. */
  datatype BrokerConfig = BrokerConfig(fillMode: FillMode, capFraction: real)

  datatype BrokerState = BrokerState(
    cash: int,
    positions: map<string, OpenPosition>,
    bars: map<string, MarketBar>,
    nextOrderId: nat,
    settlements: seq<Settlement>)

  function Fresh(startingCash: int): BrokerState {
    BrokerState(startingCash, map[], map[], 1, [])
  }

  // ---- fill model ----

  /** Python's `round(total / 2)`: halves go to the even neighbour. */
  function RoundHalf(total: int): (r: int)
    ensures total <= 2 * r + 1 && 2 * r - 1 <= total
    ensures total % 2 == 1 ==> r % 2 == 0
  {
    if total % 2 == 0 then total / 2
    else if (total / 2) % 2 == 0 then total / 2
    else total / 2 + 1
  }

  function FillPrice(mode: FillMode, bar: MarketBar, side: Side): Option<int> {
    match (mode, side)
    case (Pessimistic, Yes) => bar.yesAskHigh
    case (Pessimistic, No) => if bar.yesBidLow.None? then None else Some(100 - bar.yesBidLow.value)
    case (Midpoint, _) =>
      if bar.yesAskClose.None? || bar.yesBidClose.None? then None
      else
        var mid := RoundHalf(bar.yesAskClose.value + bar.yesBidClose.value);
        Some(if side.Yes? then mid else 100 - mid)
  }

  /** The most contracts a bar can fill, `None` when it carries no volume figure. */
  function MaxFillable(config: BrokerConfig, bar: MarketBar): Option<int> {
    if bar.volume.None? then None
    else Some((bar.volume.value as real * config.capFraction).Floor)
  }

  function Stake(price: int, quantity: int): int { price * quantity }

  // ---- operations on the broker's state ----

  function SetBar(s: BrokerState, bar: MarketBar): BrokerState {
    s.(bars := s.bars[bar.ticker := bar])
  }

  function FilledQuantity(config: BrokerConfig, bar: MarketBar, requested: int): int {
    var cap := MaxFillable(config, bar);
    if cap.Some? && cap.value < requested then cap.value else requested
  }

  /** What one marketable order costs. */
  datatype Fill = Fill(price: int, quantity: int, fee: int)

  /** Prices a taker order against a bar, with the refusals in the order the
      checks are made. */
  function PriceOrder(
      config: BrokerConfig, bar: MarketBar, cash: int, order: OrderRequest): Result<Fill, RejectReason> {
    var price := FillPrice(config.fillMode, bar, order.side);
    if price.None? || !(1 <= price.value <= 99) then Err(NoFillableQuote)
    else if order.limit.Some? && price.value > order.limit.value then Err(LimitExceeded)
    else
      var cap := MaxFillable(config, bar);
      if cap.Some? && cap.value < 1 then Err(InsufficientLiquidity)
      else
        var quantity := FilledQuantity(config, bar, order.quantity);
        var fee := EntryFee(price.value, quantity);
        if Stake(price.value, quantity) + fee > cash then Err(InsufficientFunds)
        else Ok(Fill(price.value, quantity, fee))
  }

  function Attempt(config: BrokerConfig, s: BrokerState, order: OrderRequest): Result<Fill, RejectReason> {
    if order.ticker !in s.bars then Err(NoMarketData)
    else if order.ticker in s.positions then Err(PositionAlreadyOpen)
    else if order.style.Maker? then Err(MakerUnfilled)
    else PriceOrder(config, s.bars[order.ticker], s.cash, order)
  }

  function Place(config: BrokerConfig, s: BrokerState, order: OrderRequest): (BrokerState, OrderResult) {
    var issued := s.(nextOrderId := s.nextOrderId + 1);
    match Attempt(config, s, order)
    case Err(reason) => (issued, Rejected(s.nextOrderId, reason))
    case Ok(fill) =>
      var ts := s.bars[order.ticker].ts;
      (issued.(
         cash := s.cash - Stake(fill.price, fill.quantity) - fill.fee,
         positions := s.positions[order.ticker := OpenPosition(order.side, fill.quantity, fill.price, ts, fill.fee)]),
       Filled(s.nextOrderId, fill.quantity, fill.price, ts))
  }

  function Void(s: BrokerState, ticker: string): BrokerState {
    if ticker !in s.positions then s
    else
      var pos := s.positions[ticker];
      s.(cash := s.cash + Stake(pos.entryPrice, pos.quantity) + pos.entryFee,
         positions := s.positions - {ticker})
  }

  function EarlyClose(ticker: string, pos: OpenPosition, exitPrice: int, exitTs: int): Settlement {
    var gross := (exitPrice - pos.entryPrice) * pos.quantity;
    var exitFee := EntryFee(exitPrice, pos.quantity);
    Settlement(ticker, pos.side, pos.quantity, pos.entryPrice, pos.entryTs,
               exitPrice > pos.entryPrice, gross, pos.entryFee, exitFee,
               gross - pos.entryFee - exitFee, exitTs)
  }

  function CloseEarly(s: BrokerState, ticker: string, exitPrice: int, exitTs: int): BrokerState {
    if ticker !in s.positions then s
    else
      var pos := s.positions[ticker];
      s.(cash := s.cash + exitPrice * pos.quantity - EntryFee(exitPrice, pos.quantity),
         positions := s.positions - {ticker},
         settlements := s.settlements + [EarlyClose(ticker, pos, exitPrice, exitTs)])
  }

  function Expiry(ticker: string, pos: OpenPosition, resolution: Resolution, settledTs: int): Settlement {
    var won := resolution == ResolvedTo(pos.side);
    var gross := (if won then 100 - pos.entryPrice else -pos.entryPrice) * pos.quantity;
    Settlement(ticker, pos.side, pos.quantity, pos.entryPrice, pos.entryTs,
               won, gross, pos.entryFee, 0, gross - pos.entryFee, settledTs)
  }

  function Settle(s: BrokerState, ticker: string, resolution: Resolution, settledTs: int): BrokerState {
    if ticker !in s.positions then s
    else
      var pos := s.positions[ticker];
      s.(cash := s.cash + (if resolution == ResolvedTo(pos.side) then 100 * pos.quantity else 0),
         positions := s.positions - {ticker},
         settlements := s.settlements + [Expiry(ticker, pos, resolution, settledTs)])
  }

  /** The object the replay engine drives. */
  class BacktestBroker {
    const config: BrokerConfig
    var cash: int
    var positions: map<string, OpenPosition>
    var currentBars: map<string, MarketBar>
    var nextOrderId: nat
    var settlements: seq<Settlement>

    ghost function State(): BrokerState
      reads this
    {
      BrokerState(cash, positions, currentBars, nextOrderId, settlements)
    }

    /** The source refuses any other liquidity cap. */
    constructor (startingCash: int, config: BrokerConfig)
      requires 0.0 < config.capFraction <= 1.0
      ensures State() == Fresh(startingCash) && this.config == config
    {
      this.config := config;
      cash := startingCash;
      positions := map[];
      currentBars := map[];
      nextOrderId := 1;
      settlements := [];
    }

    method SetCurrentBar(bar: MarketBar)
      modifies this`currentBars
      ensures State() == SetBar(old(State()), bar)
    {
      currentBars := currentBars[bar.ticker := bar];
    }

    method VoidFill(ticker: string)
      modifies this`cash, this`positions
      ensures State() == Void(old(State()), ticker)
    {
      if ticker !in positions { return; }
      var pos := positions[ticker];
      positions := positions - {ticker};
      var stake := pos.entryPrice * pos.quantity;
      cash := cash + (stake + pos.entryFee);
    }

    method ClosePositionEarly(ticker: string, exitPrice: int, exitTs: int) returns (closed: Option<Settlement>)
      modifies this`cash, this`positions, this`settlements
      ensures State() == CloseEarly(old(State()), ticker, exitPrice, exitTs)
      ensures ticker !in old(positions) ==> closed == None
      ensures ticker in old(positions) ==>
                closed == Some(EarlyClose(ticker, old(positions)[ticker], exitPrice, exitTs))
    {
      if ticker !in positions { return None; }
      var pos := positions[ticker];
      positions := positions - {ticker};
      var won := exitPrice > pos.entryPrice;
      var gross := (exitPrice - pos.entryPrice) * pos.quantity;
      var proceeds := exitPrice * pos.quantity;
      var exitFee := EntryFee(exitPrice, pos.quantity);
      cash := cash + (proceeds - exitFee);
      var settlement := Settlement(ticker, pos.side, pos.quantity, pos.entryPrice, pos.entryTs, won,
                                   gross, pos.entryFee, exitFee, gross - pos.entryFee - exitFee, exitTs);
      settlements := settlements + [settlement];
      closed := Some(settlement);
    }

    method SettleMarket(ticker: string, resolution: Resolution, settledTs: int)
      modifies this`cash, this`positions, this`settlements
      ensures State() == Settle(old(State()), ticker, resolution, settledTs)
    {
      if ticker !in positions { return; }
      var pos := positions[ticker];
      positions := positions - {ticker};
      var won := resolution == ResolvedTo(pos.side);
      var gross;
      if won {
        gross := (100 - pos.entryPrice) * pos.quantity;
        cash := cash + 100 * pos.quantity;
      } else {
        gross := -pos.entryPrice * pos.quantity;
      }
      settlements := settlements + [
        Settlement(ticker, pos.side, pos.quantity, pos.entryPrice, pos.entryTs, won,
                   gross, pos.entryFee, 0, gross - pos.entryFee, settledTs)];
    }

    method PlaceOrder(order: OrderRequest) returns (result: OrderResult)
      modifies this`cash, this`positions, this`nextOrderId
      ensures State() == Place(config, old(State()), order).0
      ensures result == Place(config, old(State()), order).1
    {
      var orderId := nextOrderId;
      nextOrderId := nextOrderId + 1;
      if order.ticker !in currentBars { return Rejected(orderId, NoMarketData); }
      var bar := currentBars[order.ticker];
      if order.ticker in positions { return Rejected(orderId, PositionAlreadyOpen); }
      if order.style.Maker? { return Rejected(orderId, MakerUnfilled); }
      var price := FillPrice(config.fillMode, bar, order.side);
      if price.None? || !(1 <= price.value <= 99) { return Rejected(orderId, NoFillableQuote); }
      if order.limit.Some? && price.value > order.limit.value { return Rejected(orderId, LimitExceeded); }
      var quantity: int := order.quantity;
      var cap := MaxFillable(config, bar);
      if cap.Some? {
        if cap.value < 1 { return Rejected(orderId, InsufficientLiquidity); }
        if cap.value < quantity { quantity := cap.value; }
      }
      var stake := price.value * quantity;
      var fee := EntryFee(price.value, quantity);
      if stake + fee > cash { return Rejected(orderId, InsufficientFunds); }
      cash := cash - (stake + fee);
      positions := positions[order.ticker := OpenPosition(order.side, quantity, price.value, bar.ts, fee)];
      result := Filled(orderId, quantity, price.value, bar.ts);
    }
  }
}
