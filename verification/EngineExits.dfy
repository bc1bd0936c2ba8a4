/** What a fixed-R exit fills at, read from one candle. */
module EngineExits {
  import opened Wrappers
  import opened Broker
  import opened BrokerMirror
  import opened Engine

  /** The candle's traded range, in the price of the side held. */
  function HeldLow(c: Candle, side: Side): int
    requires c.priceHigh.Some? && c.priceLow.Some?
  {
    if side.Yes? then c.priceLow.value else 100 - c.priceHigh.value
  }

  function HeldHigh(c: Candle, side: Side): int
    requires c.priceHigh.Some? && c.priceLow.Some?
  {
    if side.Yes? then c.priceHigh.value else 100 - c.priceLow.value
  }

  /** An exit happens exactly when the range reaches a level, always at one of
      the two levels, and at the worse of them when the range reaches both. */
  lemma ExitTakesTheWorseLevel(c: Candle, side: Side, stop: int, target: int)
    requires c.priceHigh.Some? && c.priceLow.Some? && stop <= target
    ensures var exit := FixedRExitPrice(c, side, stop, target);
      && (exit.Some? <==> HeldLow(c, side) <= stop || target <= HeldHigh(c, side))
      && (exit.Some? ==> exit.value == stop || exit.value == target)
      && (HeldLow(c, side) <= stop && target <= HeldHigh(c, side) ==>
            exit.Some? && exit.value <= stop && exit.value <= target)
  {}

  /** The fill lies in the range the candle traded exactly when the range did not
      jump over the level filled at: past the stop when the stop is reached, past
      the target otherwise. */
  lemma ExitIsTradedUnlessGapped(c: Candle, side: Side, stop: int, target: int)
    requires c.priceHigh.Some? && c.priceLow.Some? && c.priceLow.value <= c.priceHigh.value
    requires FixedRExitPrice(c, side, stop, target).Some?
    ensures HeldLow(c, side) <= FixedRExitPrice(c, side, stop, target).value <= HeldHigh(c, side)
            <==> (if HeldLow(c, side) <= stop then stop <= HeldHigh(c, side) else HeldLow(c, side) <= target)
  {}

  /** A YES position stopped at 40 by a candle that only traded 10 to 20. */
  lemma GappedStopFillsAboveTheBar()
    ensures exists c: Candle :: c.priceHigh == Some(20) && c.priceLow == Some(10)
              && FixedRExitPrice(c, Yes, 40, 60) == Some(40)
  {
    var c := Candle("", 0, None, None, None, None, Some(20), Some(10), None, 1);
    assert FixedRExitPrice(c, Yes, 40, 60) == Some(40);
  }

  /** A YES position with its target at 60 on a candle that only traded 70 to 80:
      it is sold at 60, below everything that traded. */
  lemma GappedTargetFillsBelowTheBar()
    ensures exists c: Candle :: c.priceHigh == Some(80) && c.priceLow == Some(70)
              && FixedRExitPrice(c, Yes, 40, 60) == Some(60)
  {
    var c := Candle("", 0, None, None, None, None, Some(80), Some(70), None, 1);
    assert FixedRExitPrice(c, Yes, 40, 60) == Some(60);
  }

  function MirrorCandle(c: Candle): Candle {
    c.(yesBidLow := Complement(c.yesAskHigh), yesBidClose := Complement(c.yesAskClose),
       yesAskHigh := Complement(c.yesBidLow), yesAskClose := Complement(c.yesBidClose),
       priceHigh := Complement(c.priceLow), priceLow := Complement(c.priceHigh))
  }

  /** The mirrored candle exits the opposite side at the same price, offers the
      broker the mirrored bar, and is live exactly when the original is. */
  lemma CandleMirrored(c: Candle, side: Side, stop: int, target: int, ticker: string, ts: int)
    ensures FixedRExitPrice(MirrorCandle(c), FlipSide(side), stop, target) == FixedRExitPrice(c, side, stop, target)
    ensures BarOf(ticker, MirrorCandle(c), ts) == MirrorBar(BarOf(ticker, c, ts))
    ensures IsLiveQuote(MirrorCandle(c)) == IsLiveQuote(c)
  {}
}
