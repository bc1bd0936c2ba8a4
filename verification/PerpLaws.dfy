/** Liquidation, solvency and lifecycle laws of paper perpetuals, and their
    agreement with the backtest ledger. */
module PerpLaws {
  import opened Wrappers
  import opened PerpPaper
  import PerpLedger

  // ---- liquidation ----

  /** Equity of a fresh position at a mark, and what maintenance asks for there. */
  function EquityOf(quantity: real, entryPrice: real, multiplier: real, collateral: real, mark: real): real {
    collateral + quantity * multiplier * (mark - entryPrice)
  }

  function MaintenanceOf(quantity: real, multiplier: real, rate: real, mark: real): real {
    rate * (Units(quantity, multiplier) * mark)
  }

  lemma SlopeDecides(slope: real, x: real)
    requires slope > 0.0
    ensures slope * x < 0.0 <==> x < 0.0
    ensures slope * x == 0.0 <==> x == 0.0
  {}

  lemma PositiveProduct(x: real, y: real)
    requires x > 0.0 && y > 0.0
    ensures x * y > 0.0
  {}

  /** For a long, equity less maintenance rises through zero at the crossing. */
  lemma LongDecides(k: real, entryPrice: real, collateral: real, rate: real, mark: real, crossing: real)
    requires k > 0.0 && rate < 1.0 && crossing * (k * (1.0 - rate)) == k * entryPrice - collateral
    ensures collateral + k * (mark - entryPrice) < rate * (k * mark) <==> mark < crossing
    ensures collateral + k * (mark - entryPrice) == rate * (k * mark) <==> mark == crossing
  {
    var slope := k * (1.0 - rate);
    PositiveProduct(k, 1.0 - rate);
    SlopeDecides(slope, mark - crossing);
    assert slope * (mark - crossing) == slope * mark - crossing * slope;
    assert slope * mark == k * mark - rate * (k * mark);
    assert k * (mark - entryPrice) == k * mark - k * entryPrice;
  }

  /** For a short it falls through zero there. */
  lemma ShortDecides(k: real, entryPrice: real, collateral: real, rate: real, mark: real, crossing: real)
    requires k > 0.0 && rate > -1.0 && crossing * (k * (1.0 + rate)) == k * entryPrice + collateral
    ensures collateral - k * (mark - entryPrice) < rate * (k * mark) <==> crossing < mark
    ensures collateral - k * (mark - entryPrice) == rate * (k * mark) <==> mark == crossing
  {
    var slope := k * (1.0 + rate);
    PositiveProduct(k, 1.0 + rate);
    SlopeDecides(slope, crossing - mark);
    assert slope * (crossing - mark) == crossing * slope - slope * mark;
    assert slope * mark == k * mark + rate * (k * mark);
    assert k * (mark - entryPrice) == k * mark - k * entryPrice;
  }

  lemma SignedMove(quantity: real, multiplier: real, move: real)
    ensures quantity > 0.0 ==> quantity * multiplier * move == Units(quantity, multiplier) * move
    ensures quantity < 0.0 ==> quantity * multiplier * move == -(Units(quantity, multiplier) * move)
  {}

  lemma CrossingSolves(quantity: real, entryPrice: real, multiplier: real, collateral: real, rate: real)
    requires Live(quantity, entryPrice, multiplier) && -1.0 < rate < 1.0
    ensures var k, crossing :=
        Units(quantity, multiplier), MaintenanceCrossing(quantity, entryPrice, multiplier, collateral, rate);
      if quantity > 0.0 then crossing * (k * (1.0 - rate)) == k * entryPrice - collateral
      else crossing * (k * (1.0 + rate)) == k * entryPrice + collateral
  {}

  lemma CrossingDecides(quantity: real, entryPrice: real, multiplier: real, collateral: real, rate: real, mark: real)
    requires Live(quantity, entryPrice, multiplier) && -1.0 < rate < 1.0
    ensures var crossing := MaintenanceCrossing(quantity, entryPrice, multiplier, collateral, rate);
            var equity := EquityOf(quantity, entryPrice, multiplier, collateral, mark);
            var maintenance := MaintenanceOf(quantity, multiplier, rate, mark);
            (equity < maintenance <==> (if quantity > 0.0 then mark < crossing else crossing < mark))
            && (equity == maintenance <==> mark == crossing)
  {
    hide MaintenanceCrossing, Units;
    var k := Units(quantity, multiplier);
    var crossing := MaintenanceCrossing(quantity, entryPrice, multiplier, collateral, rate);
    CrossingSolves(quantity, entryPrice, multiplier, collateral, rate);
    SignedMove(quantity, multiplier, mark - entryPrice);
    if quantity > 0.0 {
      LongDecides(k, entryPrice, collateral, rate, mark, crossing);
    } else {
      ShortDecides(k, entryPrice, collateral, rate, mark, crossing);
    }
  }

  /** Liquidation soundness: at any positive mark a live position is below
      maintenance exactly on the adverse side of its liquidation price, and
      meets it exactly there. When no price is given, no positive mark is
      liquidatable for a long and every one is for a short. */
  lemma LiquidationSound(quantity: real, entryPrice: real, multiplier: real, collateral: real, rate: real, mark: real)
    requires Live(quantity, entryPrice, multiplier) && -1.0 < rate < 1.0 && mark > 0.0
    ensures var equity := EquityOf(quantity, entryPrice, multiplier, collateral, mark);
            var maintenance := MaintenanceOf(quantity, multiplier, rate, mark);
            match LiquidationPrice(quantity, entryPrice, multiplier, collateral, rate)
            case Some(price) =>
              (equity < maintenance <==> (if quantity > 0.0 then mark < price else price < mark))
              && (equity == maintenance <==> mark == price)
            case None => equity < maintenance <==> quantity < 0.0
  {
    hide MaintenanceCrossing, EquityOf, MaintenanceOf;
    CrossingDecides(quantity, entryPrice, multiplier, collateral, rate, mark);
  }

  /** A short always has a liquidation price when it holds any collateral. */
  lemma ShortHasLiquidation(quantity: real, entryPrice: real, multiplier: real, collateral: real, rate: real)
    requires Live(quantity, entryPrice, multiplier) && quantity < 0.0 && -1.0 < rate < 1.0 && collateral > 0.0
    ensures LiquidationPrice(quantity, entryPrice, multiplier, collateral, rate).Some?
  {
    hide MaintenanceCrossing, Units;
    var k := Units(quantity, multiplier);
    CrossingSolves(quantity, entryPrice, multiplier, collateral, rate);
    PositiveProduct(k, entryPrice);
    PositiveProduct(k, 1.0 + rate);
    PositiveFactor(MaintenanceCrossing(quantity, entryPrice, multiplier, collateral, rate), k * (1.0 + rate));
  }

  lemma SignOfQuotient(x: real, y: real)
    requires y > 0.0
    ensures x / y > 0.0 <==> x > 0.0
  {
    assert x == (x / y) * y;
    assert x / y <= 0.0 ==> (x / y) * y <= 0.0;
    assert x / y > 0.0 ==> (x / y) * y > 0.0;
  }

  /** Marking reports a positive distance to liquidation exactly when the account,
      with everything it has realized, paid and been paid, is above maintenance. */
  lemma MarkedDistanceIsSolvency(account: AccountState, mark: real, rate: real)
    requires Live(account.quantity, account.entryPrice, account.multiplier) && -1.0 < rate < 1.0 && mark > 0.0
    ensures var backing := account.collateral + account.realized + account.funding - account.fees;
            var liquidation :=
                LiquidationPrice(account.quantity, account.entryPrice, account.multiplier, backing, rate);
            var marked := MarkPosition(account, mark, liquidation);
            marked.Ok? && (marked.value.distance.Some? <==> liquidation.Some?)
            && (liquidation.Some? ==>
                  (marked.value.distance.value > 0.0
                   <==> marked.value.equity > MaintenanceOf(account.quantity, account.multiplier, rate, mark)))
  {
    hide LiquidationPrice, MaintenanceOf;
    var backing := account.collateral + account.realized + account.funding - account.fees;
    LiquidationSound(account.quantity, account.entryPrice, account.multiplier, backing, rate, mark);
    var liquidation := LiquidationPrice(account.quantity, account.entryPrice, account.multiplier, backing, rate);
    if liquidation.Some? {
      SignOfQuotient(if account.quantity > 0.0 then mark - liquidation.value else liquidation.value - mark, mark);
    }
    assert EquityAt(account, mark) == EquityOf(account.quantity, account.entryPrice, account.multiplier, backing, mark);
  }

  lemma PositiveFactor(x: real, y: real)
    requires y > 0.0 && x * y > 0.0
    ensures x > 0.0
  {}

  /** Notional within the leverage ceiling of collateral leaves any maintenance
      rate below one over the ceiling strictly uncovered. */
  lemma BelowCeiling(notional: real, collateral: real, ceiling: real, rate: real)
    requires collateral > 0.0 && 0.0 <= rate && rate * ceiling < 1.0 && notional <= ceiling * collateral
    ensures rate * notional < collateral
  {
    assert (ceiling * collateral - notional) * rate >= 0.0;
    assert (1.0 - rate * ceiling) * collateral > 0.0;
    assert collateral - rate * notional
        == (1.0 - rate * ceiling) * collateral + (ceiling * collateral - notional) * rate;
  }

  /** No entry gets past the absolute ceiling, whatever cap the caller set. */
  lemma EntryWithinCeiling(quantity: real, multiplier: real, price: real, collateral: real, maxLeverage: real)
    requires EntryLeverage(quantity, multiplier, price, collateral, maxLeverage).Ok?
    ensures collateral > 0.0
    ensures Abs(quantity) * multiplier * price <= (ABSOLUTE_MAX_LEVERAGE + LEVERAGE_TOLERANCE) * collateral
  {}

  lemma CeilingOverDefault()
    ensures DEFAULT_MAINTENANCE * (ABSOLUTE_MAX_LEVERAGE + LEVERAGE_TOLERANCE) < 1.0
  {}

  /** Every position the adapter opens is strictly above maintenance at its entry
      price, for any rate below one over the leverage ceiling; the default rate
      is one. */
  lemma OpenedIsSolvent(
      quantity: real, contract: Contract, quote: PerpQuote, decisionTs: int,
      bracket: Option<Bracket>, collateral: real, maxLeverage: real, rate: real)
    requires Admissible(quantity, contract, quote, decisionTs, bracket, collateral, maxLeverage)
    requires rate >= 0.0 && rate * (ABSOLUTE_MAX_LEVERAGE + LEVERAGE_TOLERANCE) < 1.0
    ensures var price := FillOrder(quantity, contract, quote, decisionTs).value.price;
            EquityOf(quantity, price, contract.multiplier, collateral, price)
              > MaintenanceOf(quantity, contract.multiplier, rate, price)
    ensures DEFAULT_MAINTENANCE * (ABSOLUTE_MAX_LEVERAGE + LEVERAGE_TOLERANCE) < 1.0
  {
    hide FillOrder, BracketFault, OnTick;
    var price := FillOrder(quantity, contract, quote, decisionTs).value.price;
    EntryWithinCeiling(quantity, contract.multiplier, price, collateral, maxLeverage);
    CeilingOverDefault();
    var ceiling := ABSOLUTE_MAX_LEVERAGE + LEVERAGE_TOLERANCE;
    BelowCeiling(Abs(quantity) * contract.multiplier * price, collateral, ceiling, rate);
    assert EquityOf(quantity, price, contract.multiplier, collateral, price) == collateral;
  }

  /** A liquidation close leaves collateral plus the realized result equal to the
      maintenance requirement, which is positive. */
  lemma LiquidationLeavesMaintenance(p: PositionState, feeRate: real, rate: real, tick: Tick)
    requires p.status.Open? && Live(p.quantity, p.entryPrice, p.multiplier) && 0.0 < rate < 1.0
    requires DecideTick(p, rate, tick).CloseStep? && DecideTick(p, rate, tick).reason.Liquidation?
    ensures Stepped(p, feeRate, rate, tick).Ok?
    ensures var after := Stepped(p, feeRate, rate, tick).value;
            var exitPrice := DecideTick(p, rate, tick).exitPrice.value;
            after.status.Liquidated?
            && tick.collateral + after.realized == MaintenanceOf(p.quantity, p.multiplier, rate, exitPrice) > 0.0
  {
    hide MaintenanceCrossing, Gapped;
    var price := LiquidationPrice(p.quantity, p.entryPrice, p.multiplier, tick.collateral, rate).value;
    LiquidationSound(p.quantity, p.entryPrice, p.multiplier, tick.collateral, rate, price);
    PositiveProduct(Units(p.quantity, p.multiplier), price);
    PositiveProduct(rate, Units(p.quantity, p.multiplier) * price);
  }

  // ---- exit fills ----

  /** Of two prices to exit at, the one that is worse for the position. */
  function Worse(quantity: real, x: real, y: real): real { if quantity > 0.0 then Min(x, y) else Max(x, y) }

  /** Across a gap a stop fills at the mark, never better than the stop, and a
      target fills at the better of target and mark. The rule that a gap fills at
      the worse of level and mark is kept exactly by the stops, and by a target
      that the mark meets to the cent. */
  lemma GapFills(quantity: real, bracket: Bracket, mark: real, prevMark: Option<real>, liquidation: Option<real>)
    requires quantity != 0.0 && mark > 0.0
    ensures var d := EvaluateStep(quantity, Some(bracket), Some(mark), prevMark, liquidation, false);
      d.CloseStep? && d.reason in {StopLossGap, TakeProfitGap} ==>
        && d.exitPrice == Some(mark)
        && (d.reason.StopLossGap? ==> Worse(quantity, bracket.stopLoss, mark) == mark)
        && (d.reason.TakeProfitGap? ==> Worse(quantity, bracket.takeProfit, mark) == bracket.takeProfit)
        && (var hit := BracketExit(bracket, quantity, mark);
            var level := if hit.StopHit? then bracket.stopLoss else bracket.takeProfit;
            d.exitPrice == Some(Worse(quantity, level, mark)) <==> hit.StopHit? || mark == bracket.takeProfit)
  {}

  /** A long whose target is 110 jumps from 100 to 120: it fills at 120, where the
      worse of the two is 110. */
  lemma GappedTargetFillsAtTheBetter()
    ensures var d := EvaluateStep(1.0, Some(Bracket(90.0, 110.0)), Some(120.0), Some(100.0), None, false);
            d == CloseStep(TakeProfitGap, Some(120.0)) && Worse(1.0, 110.0, 120.0) == 110.0
  {}

  /** A halted step closes the position exactly when it has a positive mark; with
      none, or a zero one, the decision says close and the position stays open,
      and a negative one is an error. */
  lemma HaltNeedsMark(p: PositionState, feeRate: real, rate: real, tick: Tick)
    requires p.status.Open? && p.multiplier > 0.0 && tick.halted && -1.0 < rate < 1.0
    ensures DecideTick(p, rate, tick) == CloseStep(EmergencyHalt, tick.mark)
    ensures (Stepped(p, feeRate, rate, tick).Ok? && !Stepped(p, feeRate, rate, tick).value.status.Open?) <==>
            (tick.mark.Some? && tick.mark.value > 0.0)
    ensures Stepped(p, feeRate, rate, tick).Err? <==> tick.mark.Some? && tick.mark.value < 0.0
  {}

  /** A halted step without a mark decides to close and leaves the position open. */
  lemma HaltWithoutMarkStaysOpen(p: PositionState, feeRate: real)
    requires p.status.Open?
    ensures var tick := Tick(None, None, None, 100.0, true);
            DecideTick(p, 0.05, tick) == CloseStep(EmergencyHalt, None) && Stepped(p, feeRate, 0.05, tick) == Ok(p)
  {}

  // ---- lifecycle ----

  datatype LifeOp = Fund(rate: real, mark: real) | TickStep(tick: Tick)

  /** A position with the funding it was paid and the price it left at. */
  datatype Life = Life(position: PositionState, payments: seq<real>, exit: Option<real>)

  /** A step that raises leaves everything as it was. */
  function Lived(life: Life, feeRate: real, rate: real, op: LifeOp): Life
    requires -1.0 < rate < 1.0
  {
    var p := life.position;
    match op
    case Fund(fundingRate, mark) =>
      if !p.status.Open? then life
      else Life(Funded(p, fundingRate, mark),
                life.payments + [RealizedFunding(p.quantity, p.multiplier, mark, fundingRate)], life.exit)
    case TickStep(tick) =>
      match Stepped(p, feeRate, rate, tick)
      case Err(_) => life
      case Ok(after) => Life(after, life.payments, if after.status == p.status then life.exit
          else DecideTick(p, rate, tick).exitPrice)
  }

  function LivedFor(life: Life, feeRate: real, rate: real, ops: seq<LifeOp>, k: nat): Life
    requires -1.0 < rate < 1.0 && k <= |ops|
  {
    if k == 0 then life else Lived(LivedFor(life, feeRate, rate, ops, k - 1), feeRate, rate, ops[k - 1])
  }

  /** A position leaves "open" at most once, and nothing touches it afterwards. */
  lemma {:induction false} LeavesOpenOnce(life: Life, feeRate: real, rate: real, ops: seq<LifeOp>, j: nat, k: nat)
    requires -1.0 < rate < 1.0 && j <= k <= |ops|
    ensures !LivedFor(life, feeRate, rate, ops, j).position.status.Open? ==>
      LivedFor(life, feeRate, rate, ops, k) == LivedFor(life, feeRate, rate, ops, j)
  {
    if j < k { LeavesOpenOnce(life, feeRate, rate, ops, j, k - 1); }
  }

  /** Closing changes mark-to-market equity by exactly the exit fee: the closed
      account, now flat, is worth what it was at the exit price less that fee. */
  lemma CloseCostsOnlyTheFee(
      p: PositionState, collateral: real, feeRate: real, exitPrice: real, reason: ExitReason, laterMark: real)
    requires p.status.Open? && p.multiplier > 0.0 && exitPrice > 0.0 && p.realized == 0.0
    ensures ClosedAt(p, feeRate, exitPrice, reason).Ok?
    ensures var after := ClosedAt(p, feeRate, exitPrice, reason).value;
            var held := AccountState(collateral, p.quantity, p.entryPrice, p.multiplier, p.realized, p.funding, p.fee);
            var flat := AccountState(collateral, 0.0, p.entryPrice, p.multiplier, after.realized,
                after.funding, after.fee);
            EquityAt(flat, laterMark) == EquityAt(held, exitPrice) - ExitFee(p, feeRate, exitPrice)
  {}

  /** Only the caller's check of the status keeps the books right: closing again
      replaces the realized result and charges a second exit fee. */
  lemma ClosingAgainChargesAgain(p: PositionState, feeRate: real, first: real, second: real, reason: ExitReason)
    requires p.multiplier > 0.0 && first > 0.0 && second > 0.0
    ensures var once := ClosedAt(p, feeRate, first, reason);
            var twice := ClosedAt(once.value, feeRate, second, reason);
            once.Ok? && twice.Ok?
            && twice.value
                == ClosedAt(p, feeRate, second, reason).value.(fee := once.value.fee + ExitFee(p, feeRate, second))
  {}

  function Total(payments: seq<real>): real {
    if payments == [] then 0.0 else Total(payments[..|payments| - 1]) + payments[|payments| - 1]
  }

  /** What a life's books add up to, open or ended. */
  predicate BooksAgree(life: Life, entered: PositionState, feeRate: real) {
    var p := life.position;
    && p.quantity == entered.quantity && p.multiplier == entered.multiplier && p.entryPrice == entered.entryPrice
    && p.funding == Total(life.payments)
    && (p.status.Open? <==> life.exit.None?)
    && (life.exit.None? ==> p.realized == 0.0 && p.fee == entered.fee)
    && (life.exit.Some? ==>
          life.exit.value > 0.0
          && p.realized == p.quantity * p.multiplier * (life.exit.value - p.entryPrice)
          && p.fee == entered.fee + ExitFee(entered, feeRate, life.exit.value))
  }

  lemma TotalAppend(payments: seq<real>, last: real)
    ensures Total(payments + [last]) == Total(payments) + last
  {}

  lemma StepLeaves(p: PositionState, feeRate: real, rate: real, tick: Tick)
    requires -1.0 < rate < 1.0
    ensures var stepped := Stepped(p, feeRate, rate, tick);
            stepped.Ok? && stepped.value.status != p.status ==>
              p.status.Open? && !stepped.value.status.Open?
              && DecideTick(p, rate, tick).CloseStep? && DecideTick(p, rate, tick).exitPrice.Some?
              && ClosedAt(p, feeRate, DecideTick(p, rate, tick).exitPrice.value,
                  DecideTick(p, rate, tick).reason) == stepped
    ensures var stepped := Stepped(p, feeRate, rate, tick);
            stepped.Ok? && stepped.value.status == p.status ==> stepped.value == p
  {
    hide LiquidationPrice, Gapped, BracketExit, ExitFee;
  }

  lemma LivedKeepsBooks(life: Life, entered: PositionState, feeRate: real, rate: real, op: LifeOp)
    requires -1.0 < rate < 1.0 && BooksAgree(life, entered, feeRate)
    ensures BooksAgree(Lived(life, feeRate, rate, op), entered, feeRate)
  {
    hide DecideTick, Total, RealizedFunding, Stepped;
    match op
    case Fund(fundingRate, mark) =>
      TotalAppend(life.payments, RealizedFunding(life.position.quantity, life.position.multiplier, mark, fundingRate));
    case TickStep(tick) =>
      StepLeaves(life.position, feeRate, rate, tick);
  }

  lemma {:induction false} LifeKeepsBooks(entered: PositionState, feeRate: real, rate: real, ops: seq<LifeOp>, k: nat)
    requires -1.0 < rate < 1.0 && k <= |ops|
    requires entered.status.Open? && entered.funding == 0.0 && entered.realized == 0.0
    ensures BooksAgree(LivedFor(Life(entered, [], None), feeRate, rate, ops, k), entered, feeRate)
  {
    if k > 0 {
      LifeKeepsBooks(entered, feeRate, rate, ops, k - 1);
      LivedKeepsBooks(LivedFor(Life(entered, [], None), feeRate, rate, ops, k - 1), entered, feeRate, rate, ops[k - 1]);
    }
  }

  // ---- agreement with the backtest ledger ----

  /** Ledger funding events that carry the payments the paper position was credited. */
  predicate CarriesPayments(funding: seq<PerpLedger.Funding>, payments: seq<real>) {
    |funding| == |payments| && forall i :: 0 <= i < |funding| ==> funding[i].payment == payments[i]
  }

  lemma {:induction false} SameFundingTotal(funding: seq<PerpLedger.Funding>, payments: seq<real>)
    requires CarriesPayments(funding, payments)
    ensures PerpLedger.FundingTotal(funding) == Total(payments)
  {
    if funding != [] { SameFundingTotal(funding[..|funding| - 1], payments[..|payments| - 1]); }
  }

  /** The figures of an accepted ledger trade. */
  lemma TradeFigures(
      entry: PerpLedger.LedgerQuote, exit: PerpLedger.LedgerQuote, size: real, collateral: real, feeRate: real,
      funding: seq<PerpLedger.Funding>, maxLeverage: real, rate: real)
    requires PerpLedger.SimulateTrade(entry, exit, size, collateral, feeRate, funding, maxLeverage, rate).Ok?
    ensures var t := PerpLedger.SimulateTrade(entry, exit, size, collateral, feeRate, funding, maxLeverage, rate).value;
      && t.funding == funding && t.size == size * entry.multiplier
      && PerpLedger.QuoteFillPrice(entry, size, true) == Ok(t.entryMark)
      && PerpLedger.QuoteFillPrice(exit, size, false) == Ok(t.exitMark)
      && t.entryFee == Abs(size) * entry.multiplier * t.entryMark * feeRate
      && t.exitFee == Abs(size) * entry.multiplier * t.exitMark * feeRate
  {
    hide PerpLedger.LedgerLiquidation, PerpLedger.QuoteFillPrice, PerpLedger.FundingFault, PerpLedger.MaxNotional;
  }

  function Entered(fill: PerpFill, multiplier: real): PositionState {
    PositionState(Open, fill.quantity, multiplier, fill.price, fill.observedAt, fill.fee, 0.0, 0.0)
  }

  /** Lifecycle agreement: whatever funding and ticks a paper position goes
      through, once it has left "open" its realized result plus funding minus
      fees is the net result the backtest ledger computes for a trade with the
      same entry and exit fills and the same payments. */
  lemma LifeMatchesLedger(
      fill: PerpFill, multiplier: real, feeRate: real, rate: real, ops: seq<LifeOp>, k: nat,
      entry: PerpLedger.LedgerQuote, exit: PerpLedger.LedgerQuote, collateral: real,
      funding: seq<PerpLedger.Funding>, maxLeverage: real)
    requires 0.0 < rate < 1.0 && k <= |ops|
    requires fill.fee == Abs(fill.quantity) * multiplier * fill.price * feeRate
    requires entry.multiplier == multiplier && PerpLedger.QuoteFillPrice(entry, fill.quantity, true) == Ok(fill.price)
    requires var life := LivedFor(Life(Entered(fill, multiplier), [], None), feeRate, rate, ops, k);
             && !life.position.status.Open? && CarriesPayments(funding, life.payments)
             && life.exit.Some? && PerpLedger.QuoteFillPrice(exit, fill.quantity, false) == Ok(life.exit.value)
    requires PerpLedger.SimulateTrade(entry, exit, fill.quantity, collateral, feeRate, funding, maxLeverage, rate).Ok?
    ensures var p := LivedFor(Life(Entered(fill, multiplier), [], None), feeRate, rate, ops, k).position;
            var trade := PerpLedger.SimulateTrade(entry, exit, fill.quantity, collateral, feeRate, funding,
                maxLeverage, rate).value;
            p.realized + p.funding - p.fee == PerpLedger.NetPnl(trade)
  {
    hide LivedFor, PerpLedger.SimulateTrade, PerpLedger.QuoteFillPrice, PerpLedger.FundingTotal, Total;
    LifeKeepsBooks(Entered(fill, multiplier), feeRate, rate, ops, k);
    var life := LivedFor(Life(Entered(fill, multiplier), [], None), feeRate, rate, ops, k);
    SameFundingTotal(funding, life.payments);
    TradeFigures(entry, exit, fill.quantity, collateral, feeRate, funding, maxLeverage, rate);
  }

  /** The two liquidation formulas agree on every live position with collateral;
      without collateral the ledger gives no price. */
  lemma LiquidationFormulasAgree(quantity: real, entryPrice: real, multiplier: real, collateral: real, rate: real)
    requires Live(quantity, entryPrice, multiplier) && -1.0 < rate < 1.0
    ensures PerpLedger.LedgerLiquidation(quantity, entryPrice, multiplier, collateral, rate)
         == if collateral > 0.0 then LiquidationPrice(quantity, entryPrice, multiplier, collateral, rate) else None
  {
    hide Quotient, Units;
  }
}
