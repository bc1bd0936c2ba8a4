/** Paper execution of linear perpetuals: fills, leverage, liquidation, risk
    steps and closes. Quantities are signed reals, long positive. */
module PerpPaper {
  import opened Wrappers

  datatype PerpError =
    | MinimumSize | InvalidContract | StaleQuote | OneSidedQuote | OffTickQuote
    | NoCollateral | LeverageExceeded | BracketRequired
    | InvalidBracket | LongBracketOrder | ShortBracketOrder | InvalidClose | InvalidMark

  datatype PerpQuote = PerpQuote(bid: Option<real>, ask: Option<real>, observedAt: int, availableAt: int)

  datatype Contract = Contract(tickSize: real, minimumSize: real, multiplier: real, feeRate: real)

  datatype PerpFill = PerpFill(quantity: real, price: real, fee: real, observedAt: int)

  datatype Bracket = Bracket(stopLoss: real, takeProfit: real)

  function Abs(x: real): real { if x < 0.0 then -x else x }
  function Max(x: real, y: real): real { if x >= y then x else y }
  function Min(x: real, y: real): real { if x <= y then x else y }

  // ---- entry ----

  /** Within the tolerance of a whole number of ticks. */
  predicate OnTick(price: real, tick: real)
    requires tick != 0.0
  {
    var ticks := price / tick;
    var nearest := (ticks + 0.5).Floor as real;
    Abs(ticks - nearest) <= Max(0.000000001 * Max(Abs(ticks), Abs(nearest)), 0.00000001)
  }

  function FillOrder(
      quantity: real, contract: Contract, quote: PerpQuote, decisionTs: int): Result<PerpFill, PerpError> {
    if quantity == 0.0 || Abs(quantity) < contract.minimumSize then Err(MinimumSize)
    else if contract.tickSize <= 0.0 || contract.multiplier <= 0.0 || contract.feeRate < 0.0 then Err(InvalidContract)
    else if quote.availableAt > decisionTs then Err(StaleQuote)
    else
      var price := if quantity > 0.0 then quote.ask else quote.bid;
      if price.None? || price.value <= 0.0 then Err(OneSidedQuote)
      else if !OnTick(price.value, contract.tickSize) then Err(OffTickQuote)
      else Ok(PerpFill(quantity, price.value, Abs(quantity) * contract.multiplier * price.value * contract.feeRate,
          quote.observedAt))
  }

  const ABSOLUTE_MAX_LEVERAGE: real := 3.0
  const LEVERAGE_TOLERANCE: real := 0.000000001
  const DEFAULT_MAINTENANCE: real := 0.005

  /** The leverage of an entry, refused above a cap that no caller can widen past three. */
  function EntryLeverage(
      quantity: real, multiplier: real, price: real, collateral: real, maxLeverage: real): Result<real, PerpError> {
    var cap := Min(Max(maxLeverage, 0.0), ABSOLUTE_MAX_LEVERAGE);
    if collateral <= 0.0 then Err(NoCollateral)
    else
      var leverage := Abs(quantity) * multiplier * price / collateral;
      if leverage > cap + LEVERAGE_TOLERANCE then Err(LeverageExceeded) else Ok(leverage)
  }

  function BracketFault(bracket: Bracket, entryPrice: real, quantity: real): Option<PerpError> {
    if quantity == 0.0 || bracket.stopLoss <= 0.0 || bracket.takeProfit <= 0.0 then Some(InvalidBracket)
    else if quantity > 0.0 && !(bracket.stopLoss < entryPrice < bracket.takeProfit) then Some(LongBracketOrder)
    else if quantity < 0.0 && !(bracket.takeProfit < entryPrice < bracket.stopLoss) then Some(ShortBracketOrder)
    else None
  }

  predicate Live(quantity: real, entryPrice: real, multiplier: real) {
    quantity != 0.0 && multiplier > 0.0 && entryPrice > 0.0
  }

  /** Contracts held, in units of the underlying. */
  function Units(quantity: real, multiplier: real): (k: real)
    ensures quantity != 0.0 && multiplier > 0.0 ==> k > 0.0
  {
    Abs(quantity) * multiplier
  }

  /** The mark at which equity meets the maintenance requirement, of either sign.
      The rate 1 for a long (or -1 for a short) divides by zero in the source. */
  function MaintenanceCrossing(quantity: real, entryPrice: real, multiplier: real, collateral: real, rate: real): real
    requires Live(quantity, entryPrice, multiplier) && rate != 1.0 && rate != -1.0
  {
    var k := Units(quantity, multiplier);
    if quantity > 0.0 then Quotient(k * entryPrice - collateral, k, 1.0 - rate)
    else Quotient(k * entryPrice + collateral, k, 1.0 + rate)
  }

  /** The crossing when it is a price, `None` otherwise and for a flat position. */
  function LiquidationPrice(
      quantity: real, entryPrice: real, multiplier: real, collateral: real, rate: real): Option<real>
    requires rate != 1.0 && rate != -1.0
  {
    if !Live(quantity, entryPrice, multiplier) then None
    else
      var price := MaintenanceCrossing(quantity, entryPrice, multiplier, collateral, rate);
      if price > 0.0 then Some(price) else None
  }

  /** x / (k * c), for factors that are not zero. */
  function Quotient(x: real, k: real, c: real): (q: real)
    requires k != 0.0 && c != 0.0
    ensures q * (k * c) == x
  {
    assert k * c != 0.0;
    x / (k * c)
  }

  // ---- marking ----

  datatype AccountState = AccountState(
    collateral: real, quantity: real, entryPrice: real, multiplier: real,
    realized: real, funding: real, fees: real)

  function EquityAt(account: AccountState, mark: real): real {
    account.collateral + account.realized + account.funding - account.fees
    + account.quantity * account.multiplier * (mark - account.entryPrice)
  }

  datatype MarkToMarket = MarkToMarket(
    equity: real, unrealized: real, notional: real, leverage: Option<real>, distance: Option<real>)

  function MarkPosition(account: AccountState, mark: real, liquidation: Option<real>): Result<MarkToMarket, PerpError> {
    if mark <= 0.0 || account.multiplier <= 0.0 then Err(InvalidMark)
    else
      var unrealized := account.quantity * account.multiplier * (mark - account.entryPrice);
      var equity := EquityAt(account, mark);
      var notional := Abs(account.quantity) * account.multiplier * mark;
      Ok(MarkToMarket(
        equity, unrealized, notional,
        if equity > 0.0 then Some(notional / equity) else None,
        if liquidation.None? then None
        else Some((if account.quantity > 0.0 then mark - liquidation.value else liquidation.value - mark) / mark)))
  }

  /** Positive funding charges longs and credits shorts. */
  function RealizedFunding(quantity: real, multiplier: real, mark: real, rate: real): real {
    -quantity * multiplier * mark * rate
  }

  // ---- the risk step ----

  datatype ExitReason =
    | EmergencyHalt | Liquidation | StopLoss | StopLossGap | TakeProfit | TakeProfitGap

  datatype StepDecision =
    | HoldStep | HoldNotOpen | HoldForMark
    | CloseStep(reason: ExitReason, exitPrice: Option<real>)

  const MAX_MARK_GAP: real := 0.05

  predicate Gapped(mark: real, prevMark: Option<real>) {
    prevMark.Some? && prevMark.value > 0.0 && Abs(mark - prevMark.value) / prevMark.value > MAX_MARK_GAP
  }

  datatype BracketHit = NoHit | StopHit | TargetHit

  function BracketExit(bracket: Bracket, quantity: real, mark: real): BracketHit {
    if quantity > 0.0 then
      if mark <= bracket.stopLoss then StopHit else if mark >= bracket.takeProfit then TargetHit else NoHit
    else
      if mark >= bracket.stopLoss then StopHit else if mark <= bracket.takeProfit then TargetHit else NoHit
  }

  function EvaluateStep(
      quantity: real, bracket: Option<Bracket>, mark: Option<real>, prevMark: Option<real>,
      liquidation: Option<real>, halted: bool): StepDecision
  {
    if halted then CloseStep(EmergencyHalt, mark)
    else if mark.None? || mark.value <= 0.0 then HoldForMark
    else if liquidation.Some? && ((quantity > 0.0 && mark.value <= liquidation.value)
                                  || (quantity < 0.0 && mark.value >= liquidation.value))
    then CloseStep(Liquidation, liquidation)
    else if bracket.None? then HoldStep
    else
      var gapped := Gapped(mark.value, prevMark);
      match BracketExit(bracket.value, quantity, mark.value)
      case NoHit => HoldStep
      case StopHit =>
        if gapped then CloseStep(StopLossGap, Some(mark.value)) else CloseStep(StopLoss, Some(bracket.value.stopLoss))
      case TargetHit =>
        if !gapped then CloseStep(TakeProfit, Some(bracket.value.takeProfit))
        else if quantity > 0.0 then CloseStep(TakeProfitGap, Some(Max(bracket.value.takeProfit, mark.value)))
        else CloseStep(TakeProfitGap, Some(Min(bracket.value.takeProfit, mark.value)))
  }

  // ---- a position ----

  datatype PositionStatus = Open | Closed | Liquidated

  datatype PositionState = PositionState(
    status: PositionStatus, quantity: real, multiplier: real, entryPrice: real, entryTs: int,
    fee: real, funding: real, realized: real)

  datatype PerpEvent =
    | FillEvent(ts: int, price: real, quantity: real, liquidation: Option<real>)
    | FundingEvent(ts: int, rate: real, mark: real, amount: real)
    | ReconciliationEvent(ts: int)
    | ExitEvent(ts: int, price: real, reason: ExitReason, realized: real, fees: real)

  function Funded(p: PositionState, rate: real, mark: real): PositionState {
    if !p.status.Open? then p
    else p.(funding := p.funding + RealizedFunding(p.quantity, p.multiplier, mark, rate))
  }

  function ExitFee(p: PositionState, feeRate: real, exitPrice: real): real {
    Abs(p.quantity) * p.multiplier * exitPrice * feeRate
  }

  /** Closing asks nothing about the status: the caller does. */
  function ClosedAt(
      p: PositionState, feeRate: real, exitPrice: real, reason: ExitReason): Result<PositionState, PerpError> {
    if p.multiplier <= 0.0 || exitPrice <= 0.0 then Err(InvalidClose)
    else Ok(p.(status := if reason.Liquidation? then Liquidated else Closed,
               realized := p.quantity * p.multiplier * (exitPrice - p.entryPrice),
               fee := p.fee + ExitFee(p, feeRate, exitPrice)))
  }

  /** One tick of market and operator input. */
  datatype Tick = Tick(
    mark: Option<real>, prevMark: Option<real>, bracket: Option<Bracket>, collateral: real, halted: bool)

  function DecideTick(p: PositionState, rate: real, tick: Tick): StepDecision
    requires rate != 1.0 && rate != -1.0
  {
    if !p.status.Open? then HoldNotOpen
    else EvaluateStep(p.quantity, tick.bracket, tick.mark, tick.prevMark,
                      LiquidationPrice(p.quantity, p.entryPrice, p.multiplier, tick.collateral, rate), tick.halted)
  }

  /** A decision without a price, or with price zero, leaves the position as it is. */
  function Stepped(p: PositionState, feeRate: real, rate: real, tick: Tick): Result<PositionState, PerpError>
    requires rate != 1.0 && rate != -1.0
  {
    var d := DecideTick(p, rate, tick);
    if d.CloseStep? && d.exitPrice.Some? && d.exitPrice.value != 0.0
    then ClosedAt(p, feeRate, d.exitPrice.value, d.reason)
    else Ok(p)
  }

  class PerpPosition {
    const quantity: real
    const multiplier: real
    const entryPrice: real
    const entryTs: int
    var status: PositionStatus
    var fee: real
    var funding: real
    var realized: real

    ghost function State(): PositionState
      reads this
    {
      PositionState(status, quantity, multiplier, entryPrice, entryTs, fee, funding, realized)
    }

    constructor (fill: PerpFill, multiplier: real)
      ensures State() == PositionState(Open, fill.quantity, multiplier, fill.price, fill.observedAt, fill.fee, 0.0, 0.0)
    {
      quantity := fill.quantity;
      this.multiplier := multiplier;
      entryPrice := fill.price;
      entryTs := fill.observedAt;
      status := Open;
      fee := fill.fee;
      funding := 0.0;
      realized := 0.0;
    }
  }

  class PerpPaperAdapter {
    const contract: Contract
    const collateral: real
    const maxLeverage: real
    const maintenanceRate: real
    var events: seq<PerpEvent>

    constructor (contract: Contract, collateral: real, maxLeverage: real, maintenanceRate: real)
      ensures this.contract == contract && this.collateral == collateral
      ensures this.maxLeverage == maxLeverage && this.maintenanceRate == maintenanceRate
      ensures events == []
    {
      this.contract := contract;
      this.collateral := collateral;
      this.maxLeverage := maxLeverage;
      this.maintenanceRate := maintenanceRate;
      events := [];
    }

    /** Opens a position, or refuses it before anything is recorded. */
    method OpenPosition(
        quantity: real, quote: PerpQuote, decisionTs: int, bracket: Option<Bracket>, override: Option<real>)
        returns (r: Result<PerpPosition, PerpError>)
      requires maintenanceRate != 1.0 && maintenanceRate != -1.0
      modifies this`events
      ensures var used := if override.Some? then override.value else collateral;
        r.Ok? <==> Admissible(quantity, contract, quote, decisionTs, bracket, used, maxLeverage)
      ensures r.Err? ==> events == old(events)
      ensures r.Err? ==>
        var used := if override.Some? then override.value else collateral;
        var filled := FillOrder(quantity, contract, quote, decisionTs);
        if filled.Err? then r.error == filled.error
        else
          var leverage := EntryLeverage(quantity, contract.multiplier, filled.value.price, used, maxLeverage);
          if leverage.Err? then r.error == leverage.error
          else if bracket.None? then r.error == BracketRequired
          else BracketFault(bracket.value, filled.value.price, quantity) == Some(r.error)
      ensures r.Ok? ==>
        var fill := FillOrder(quantity, contract, quote, decisionTs).value;
        var used := if override.Some? then override.value else collateral;
        fresh(r.value) &&
        r.value.State()
            == PositionState(Open, quantity, contract.multiplier, fill.price, fill.observedAt, fill.fee, 0.0, 0.0) &&
        events == old(events) + [FillEvent(fill.observedAt, fill.price, quantity,
          LiquidationPrice(quantity, fill.price, contract.multiplier, used, maintenanceRate))]
    {
      var filled := FillOrder(quantity, contract, quote, decisionTs);
      if filled.Err? { return Err(filled.error); }
      var fill := filled.value;
      var used := if override.Some? then override.value else collateral;
      var leverage := EntryLeverage(fill.quantity, contract.multiplier, fill.price, used, maxLeverage);
      if leverage.Err? { return Err(leverage.error); }
      if bracket.None? { return Err(BracketRequired); }
      var fault := BracketFault(bracket.value, fill.price, fill.quantity);
      if fault.Some? { return Err(fault.value); }
      var liquidation := LiquidationPrice(fill.quantity, fill.price, contract.multiplier, used, maintenanceRate);
      var position := new PerpPosition(fill, contract.multiplier);
      events := events + [FillEvent(fill.observedAt, fill.price, fill.quantity, liquidation)];
      r := Ok(position);
    }

    /** Applies one realized funding settlement; `None` once the position has left "open". */
    method ApplyFunding(position: PerpPosition, rate: real, mark: real, ts: int) returns (amount: Option<real>)
      modifies this`events, position
      ensures position.State() == Funded(old(position.State()), rate, mark)
      ensures amount == if old(position.status).Open?
        then Some(RealizedFunding(position.quantity, position.multiplier, mark, rate)) else None
      ensures events == if amount.Some? then old(events) + [FundingEvent(ts, rate, mark, amount.value)] else old(events)
    {
      if !position.status.Open? { return None; }
      var paid := RealizedFunding(position.quantity, position.multiplier, mark, rate);
      position.funding := position.funding + paid;
      events := events + [FundingEvent(ts, rate, mark, paid)];
      amount := Some(paid);
    }

    method Close(
        position: PerpPosition, exitPrice: real, reason: ExitReason, ts: int) returns (r: Result<(), PerpError>)
      modifies this`events, position
      ensures r.Err? <==> ClosedAt(old(position.State()), contract.feeRate, exitPrice, reason).Err?
      ensures r.Err? ==> position.State() == old(position.State()) && events == old(events)
      ensures r.Ok? ==>
        position.State() == ClosedAt(old(position.State()), contract.feeRate, exitPrice, reason).value &&
        events == old(events) + [ExitEvent(ts, exitPrice, reason, position.realized, position.fee)]
    {
      if position.multiplier <= 0.0 || exitPrice <= 0.0 { return Err(InvalidClose); }
      var pricePnl := position.quantity * position.multiplier * (exitPrice - position.entryPrice);
      var exitFee := Abs(position.quantity) * position.multiplier * exitPrice * contract.feeRate;
      position.status := if reason.Liquidation? then Liquidated else Closed;
      position.realized := pricePnl;
      position.fee := position.fee + exitFee;
      events := events + [ExitEvent(ts, exitPrice, reason, position.realized, position.fee)];
      r := Ok(());
    }

    /** Evaluates one tick and closes the position if it says so. */
    method Step(position: PerpPosition, tick: Tick, ts: int) returns (r: Result<StepDecision, PerpError>)
      requires maintenanceRate != 1.0 && maintenanceRate != -1.0
      modifies this`events, position
      ensures r.Err? <==> Stepped(old(position.State()), contract.feeRate, maintenanceRate, tick).Err?
      ensures r.Err? ==> position.State() == old(position.State()) && events == old(events)
      ensures r.Ok? ==>
        r.value == DecideTick(old(position.State()), maintenanceRate, tick) &&
        position.State() == Stepped(old(position.State()), contract.feeRate, maintenanceRate, tick).value
      ensures r.Ok? && position.status == old(position.status) ==>
        events == if r.value.HoldForMark? then old(events) + [ReconciliationEvent(ts)] else old(events)
      ensures r.Ok? && position.status != old(position.status) ==>
        r.value.CloseStep? && r.value.exitPrice.Some?
        && events
            == old(events) + [ExitEvent(ts, r.value.exitPrice.value, r.value.reason, position.realized, position.fee)]
    {
      if !position.status.Open? { return Ok(HoldNotOpen); }
      var liquidation := LiquidationPrice(position.quantity, position.entryPrice, position.multiplier,
                                          tick.collateral, maintenanceRate);
      var d := EvaluateStep(position.quantity, tick.bracket, tick.mark, tick.prevMark, liquidation, tick.halted);
      if d.CloseStep? && d.exitPrice.Some? && d.exitPrice.value != 0.0 {
        var closed := Close(position, d.exitPrice.value, d.reason, ts);
        if closed.Err? { return Err(closed.error); }
      } else if d.HoldForMark? {
        events := events + [ReconciliationEvent(ts)];
      }
      r := Ok(d);
    }
  }

  /** What an entry must satisfy to be opened. */
  predicate Admissible(
      quantity: real, contract: Contract, quote: PerpQuote, decisionTs: int,
      bracket: Option<Bracket>, collateral: real, maxLeverage: real)
  {
    var filled := FillOrder(quantity, contract, quote, decisionTs);
    && filled.Ok?
    && EntryLeverage(quantity, contract.multiplier, filled.value.price, collateral, maxLeverage).Ok?
    && bracket.Some? && BracketFault(bracket.value, filled.value.price, quantity).None?
  }
}
