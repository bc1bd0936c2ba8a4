/** Two one-pass statistics and what they measure: the drawdown of a series of
    returns and the longest run of losing trades. And the flat-size restatement
    of a segment's net result. */
module Metrics {
  import opened Fees
  import opened Broker

  // ---- drawdown ----

  /** The running total after the first `k` returns. */
  function Cumulative(pnl: seq<real>, k: nat): real
    requires k <= |pnl|
  {
    if k == 0 then 0.0 else Cumulative(pnl, k - 1) + pnl[k - 1]
  }

  function Fall(pnl: seq<real>, i: nat, j: nat): real
    requires i <= |pnl| && j <= |pnl|
  {
    Level(pnl, i) - Level(pnl, j)
  }

  function Level(pnl: seq<real>, i: nat): real
    requires i <= |pnl|
  {
    Cumulative(pnl, i)
  }

  /** `d` is the deepest fall from any running total, the empty one included, to
      any later or equal one, among the first `n`. */
  ghost predicate IsDrawdown(pnl: seq<real>, n: nat, d: real)
    requires n <= |pnl|
  {
    && (forall i, j :: 0 <= i <= j <= n ==> Fall(pnl, i, j) <= d)
    && (exists i, j :: 0 <= i <= j <= n && Fall(pnl, i, j) == d)
  }

  ghost predicate IsPeak(pnl: seq<real>, n: nat, peak: real)
    requires n <= |pnl|
  {
    && (forall i :: 0 <= i <= n ==> Level(pnl, i) <= peak)
    && (exists i :: 0 <= i <= n && Level(pnl, i) == peak)
  }

  method Drawdown(pnl: seq<real>) returns (drawdown: real)
    ensures IsDrawdown(pnl, |pnl|, drawdown)
  {
    hide IsDrawdown, IsPeak;
    var cumulative, peak := 0.0, 0.0;
    drawdown := 0.0;
    NoFallYet(pnl);
    for k := 0 to |pnl|
      invariant cumulative == Cumulative(pnl, k)
      invariant IsPeak(pnl, k, peak)
      invariant IsDrawdown(pnl, k, drawdown)
    {
      cumulative := cumulative + pnl[k];
      PeakNext(pnl, k, peak);
      peak := Larger(cumulative, peak);
      DrawdownNext(pnl, k, peak, drawdown);
      drawdown := Larger(peak - cumulative, drawdown);
    }
  }

  function Larger(x: real, y: real): real { if x > y then x else y }

  lemma NoFallYet(pnl: seq<real>)
    ensures IsPeak(pnl, 0, 0.0) && IsDrawdown(pnl, 0, 0.0)
  {
    assert Level(pnl, 0) == 0.0 && Fall(pnl, 0, 0) == 0.0;
  }

  lemma PeakNext(pnl: seq<real>, k: nat, peak: real)
    requires k < |pnl| && IsPeak(pnl, k, peak)
    ensures IsPeak(pnl, k + 1, Larger(Cumulative(pnl, k + 1), peak))
  {
    var i :| 0 <= i <= k && Level(pnl, i) == peak;
    var j := if Cumulative(pnl, k + 1) > peak then k + 1 else i;
    assert Level(pnl, j) == Larger(Cumulative(pnl, k + 1), peak);
  }

  lemma DrawdownNext(pnl: seq<real>, k: nat, peak: real, drawdown: real)
    requires k < |pnl| && IsPeak(pnl, k + 1, peak) && IsDrawdown(pnl, k, drawdown)
    ensures IsDrawdown(pnl, k + 1, Larger(peak - Cumulative(pnl, k + 1), drawdown))
  {
    var deepest := Larger(peak - Cumulative(pnl, k + 1), drawdown);
    forall i, j | 0 <= i <= j <= k + 1 ensures Fall(pnl, i, j) <= deepest {
      if j <= k { assert Fall(pnl, i, j) <= drawdown; }
    }
    if deepest == drawdown {
      var i, j :| 0 <= i <= j <= k && Fall(pnl, i, j) == drawdown;
      assert Fall(pnl, i, j) == deepest;
    } else {
      var i :| 0 <= i <= k + 1 && Level(pnl, i) == peak;
      assert Fall(pnl, i, k + 1) == deepest;
    }
  }

  // ---- the longest losing run ----

  function InsertByEntry(sorted: seq<Settlement>, x: Settlement): seq<Settlement> {
    if sorted == [] then [x]
    else if sorted[|sorted| - 1].entryTs <= x.entryTs then sorted + [x]
    else InsertByEntry(sorted[..|sorted| - 1], x) + [sorted[|sorted| - 1]]
  }

  /** A stable sort by entry time. */
  function ByEntry(settlements: seq<Settlement>): seq<Settlement> {
    if settlements == [] then []
    else InsertByEntry(ByEntry(settlements[..|settlements| - 1]), settlements[|settlements| - 1])
  }

  predicate EntryOrdered(s: seq<Settlement>) {
    forall i, j :: 0 <= i < j < |s| ==> s[i].entryTs <= s[j].entryTs
  }

  /** The settlements entered at one time, in order. */
  function EnteredAt(s: seq<Settlement>, ts: int): seq<Settlement> {
    if s == [] then []
    else
      var rest, last := EnteredAt(s[..|s| - 1], ts), s[|s| - 1];
      if last.entryTs == ts then rest + [last] else rest
  }

  lemma {:induction false} EnteredAtAppend(s: seq<Settlement>, x: Settlement, ts: int)
    ensures EnteredAt(s + [x], ts) == if x.entryTs == ts then EnteredAt(s, ts) + [x] else EnteredAt(s, ts)
  {}

  lemma {:induction false} InsertKeepsOrder(s: seq<Settlement>, x: Settlement)
    requires EntryOrdered(s)
    ensures EntryOrdered(InsertByEntry(s, x)) && |InsertByEntry(s, x)| == |s| + 1
    ensures forall i :: 0 <= i <= |s| ==> InsertByEntry(s, x)[i] == x || InsertByEntry(s, x)[i] in s
  {
    if s != [] && s[|s| - 1].entryTs > x.entryTs { InsertKeepsOrder(s[..|s| - 1], x); }
  }

  lemma {:induction false} InsertKeepsTies(s: seq<Settlement>, x: Settlement, ts: int)
    ensures EnteredAt(InsertByEntry(s, x), ts) == if x.entryTs == ts then EnteredAt(s, ts) + [x] else EnteredAt(s, ts)
  {
    EnteredAtAppend(s, x, ts);
    if s != [] && s[|s| - 1].entryTs > x.entryTs {
      var last, front := s[|s| - 1], s[..|s| - 1];
      InsertKeepsTies(front, x, ts);
      EnteredAtAppend(InsertByEntry(front, x), last, ts);
      if x.entryTs == ts { NoneLater(front, last, ts); }
    }
  }

  /** Nothing else is said of an element later than `ts`. */
  lemma NoneLater(front: seq<Settlement>, last: Settlement, ts: int)
    requires last.entryTs > ts
    ensures EnteredAt(front + [last], ts) == EnteredAt(front, ts)
  {}

  /** Sorting orders by entry time and leaves the trades entered at any one time
      exactly as they were, so it is a permutation and a stable one. */
  lemma {:induction false} SortIsStable(s: seq<Settlement>, ts: int)
    ensures EntryOrdered(ByEntry(s)) && |ByEntry(s)| == |s|
    ensures EnteredAt(ByEntry(s), ts) == EnteredAt(s, ts)
  {
    if s != [] {
      SortIsStable(s[..|s| - 1], ts);
      InsertKeepsOrder(ByEntry(s[..|s| - 1]), s[|s| - 1]);
      InsertKeepsTies(ByEntry(s[..|s| - 1]), s[|s| - 1], ts);
    }
  }

  predicate AllLosses(s: seq<Settlement>, lo: nat, hi: nat)
    requires lo <= hi <= |s|
  {
    forall i :: lo <= i < hi ==> !s[i].won
  }

  /** `longest` is the length of the longest contiguous block of losses among the first `n`. */
  ghost predicate IsLongestLosingRun(s: seq<Settlement>, n: nat, longest: nat)
    requires n <= |s|
  {
    && (forall lo: nat, hi: nat :: lo <= hi <= n && AllLosses(s, lo, hi) ==> hi - lo <= longest)
    && longest <= n
    && (exists hi: nat :: longest <= hi <= n && EndsRun(s, longest, hi))
  }

  /** The `length` trades before `hi` are losses. */
  predicate EndsRun(s: seq<Settlement>, length: nat, hi: nat)
    requires length <= hi <= |s|
  {
    AllLosses(s, hi - length, hi)
  }

  /** No longer block than `length` ends at `hi`. */
  ghost predicate NoLonger(s: seq<Settlement>, length: nat, hi: nat)
    requires hi <= |s|
  {
    forall lo: nat :: lo <= hi && AllLosses(s, lo, hi) ==> hi - lo <= length
  }

  method MaxConsecutiveLosses(settlements: seq<Settlement>) returns (longest: nat)
    ensures |ByEntry(settlements)| == |settlements|
    ensures IsLongestLosingRun(ByEntry(settlements), |settlements|, longest)
  {
    hide ByEntry, EndsRun, NoLonger, IsLongestLosingRun;
    var ordered := ByEntry(settlements);
    SortIsStable(settlements, 0);
    longest := 0;
    var current: nat := 0;
    NoRunYet(ordered);
    for k := 0 to |ordered|
      invariant current <= k && EndsRun(ordered, current, k)
      invariant NoLonger(ordered, current, k)
      invariant IsLongestLosingRun(ordered, k, longest)
    {
      RunNext(ordered, k, current, longest);
      if !ordered[k].won {
        current := current + 1;
        if current > longest { longest := current; }
      } else {
        current := 0;
      }
    }
  }

  lemma NoRunYet(s: seq<Settlement>)
    ensures EndsRun(s, 0, 0) && NoLonger(s, 0, 0) && IsLongestLosingRun(s, 0, 0)
  {}

  lemma RunNext(s: seq<Settlement>, k: nat, current: nat, longest: nat)
    requires k < |s| && current <= k && EndsRun(s, current, k) && NoLonger(s, current, k)
    requires IsLongestLosingRun(s, k, longest)
    ensures var next := if s[k].won then 0 else current + 1;
      EndsRun(s, next, k + 1) && NoLonger(s, next, k + 1)
      && IsLongestLosingRun(s, k + 1, if next > longest then next else longest)
  {
    var next := if s[k].won then 0 else current + 1;
    var after := k + 1;
    forall lo: nat | lo <= after && AllLosses(s, lo, after) ensures after - lo <= next {
      if lo <= k { assert AllLosses(s, lo, k) && !s[k].won; }
    }
    if next > longest {
      assert EndsRun(s, next, after);
    } else {
      var hi: nat :| longest <= hi <= k && EndsRun(s, longest, hi);
    }
  }

  // ---- flat sizing ----

  /** One trade restated at a fixed size: its price and whether it won are kept. */
  function FlatNet(x: Settlement, flat: Contracts): int {
    (if x.won then 100 - x.entryPrice else -x.entryPrice) * flat - EntryFee(x.entryPrice, flat)
  }

  function FlatTotal(settlements: seq<Settlement>, flat: Contracts, k: nat): int
    requires k <= |settlements|
  {
    if k == 0 then 0 else FlatTotal(settlements, flat, k - 1) + FlatNet(settlements[k - 1], flat)
  }

  method FlatSizingNet(settlements: seq<Settlement>, flat: Contracts) returns (total: int)
    ensures total == FlatTotal(settlements, flat, |settlements|)
  {
    hide EntryFee;
    total := 0;
    for k := 0 to |settlements|
      invariant total == FlatTotal(settlements, flat, k)
    {
      var x := settlements[k];
      var fee := EntryFee(x.entryPrice, flat);
      var gross := (if x.won then 100 - x.entryPrice else -x.entryPrice) * flat;
      assert gross - fee == FlatNet(x, flat);
      hide FlatNet;
      total := total + (gross - fee);
    }
  }

  /** The total over two samples is the sum of their totals, and a single trade adds
      what it pays at that size less the fee of buying it. */
  lemma {:induction false} FlatTotalAdds(a: seq<Settlement>, b: seq<Settlement>, flat: Contracts, k: nat)
    requires k <= |b|
    ensures FlatTotal(a + b, flat, |a| + k) == FlatTotal(a, flat, |a|) + FlatTotal(b, flat, k)
    ensures k == 1 ==>
      FlatTotal(b, flat, k) == (if b[0].won then 100 * flat else 0) - b[0].entryPrice * flat
                               - EntryFee(b[0].entryPrice, flat)
  {
    hide EntryFee;
    if k > 0 {
      FlatTotalAdds(a, b, flat, k - 1);
      if k == 1 {
        assert FlatTotal(b, flat, 0) == 0;
        WonOrLost(b[0].entryPrice, flat, b[0].won);
      }
    } else {
      FlatTotalOfMore(a, b, flat, |a|);
    }
  }

  lemma WonOrLost(price: int, quantity: int, won: bool)
    ensures (if won then 100 - price else -price) * quantity == (if won then 100 * quantity else 0) - price * quantity
  {}

  lemma {:induction false} FlatTotalOfMore(a: seq<Settlement>, b: seq<Settlement>, flat: Contracts, k: nat)
    requires k <= |a|
    ensures FlatTotal(a + b, flat, k) == FlatTotal(a, flat, k)
  {
    hide FlatNet;
    if k > 0 { FlatTotalOfMore(a, b, flat, k - 1); }
  }

  /** Restating a trade at the size it had gives back its net result when it was
      held to settlement. */
  lemma FlatSizingExactWhenHeld(ticker: string, pos: OpenPosition, resolution: Resolution, ts: int)
    requires pos.quantity > 0 && pos.entryFee == EntryFee(pos.entryPrice, pos.quantity)
    ensures var x := Expiry(ticker, pos, resolution, ts); FlatNet(x, pos.quantity) == x.net
  {
    hide EntryFee;
  }

  /** A trade closed early is restated as if it had settled: that overstates every
      early win below 100, and understates no early loss. */
  lemma FlatSizingMisstatesEarlyExits(ticker: string, pos: OpenPosition, exitPrice: int, ts: int)
    requires pos.quantity > 0 && pos.entryFee == EntryFee(pos.entryPrice, pos.quantity) && 0 <= exitPrice <= 100
    ensures var x := EarlyClose(ticker, pos, exitPrice, ts);
      && FlatNet(x, pos.quantity) - x.net == (if x.won then 100 - exitPrice else -exitPrice) * pos.quantity + x.exitFee
      && (x.won && exitPrice < 100 ==> FlatNet(x, pos.quantity) > x.net)
      && (!x.won ==> FlatNet(x, pos.quantity) <= x.net)
  {
    FeeWithinProceeds(exitPrice, pos.quantity);
    SettledInsteadOfSold(pos.entryPrice, exitPrice, pos.quantity, pos.entryFee, EntryFee(exitPrice, pos.quantity));
  }

  /** So an early close is restated exactly only when it was sold at what it is
      taken to have settled at: 100 for a win, and for a loss nothing, or one
      contract sold for the cent that its fee takes. */
  lemma {:induction false} FlatSizingExactEarlyIff(ticker: string, pos: OpenPosition, exitPrice: int, ts: int)
    requires pos.quantity > 0 && pos.entryFee == EntryFee(pos.entryPrice, pos.quantity) && 0 <= exitPrice <= 100
    ensures var x := EarlyClose(ticker, pos, exitPrice, ts);
      FlatNet(x, pos.quantity) == x.net <==>
        if x.won then exitPrice == 100 else exitPrice == 0 || (exitPrice == 1 && pos.quantity == 1)
  {
    hide EntryFee;
    FlatSizingMisstatesEarlyExits(ticker, pos, exitPrice, ts);
    FeeTakesAll(exitPrice, pos.quantity);
    hide FlatNet;
    if exitPrice < 100 { assert (100 - exitPrice) * pos.quantity > 0; }
  }

  /** The exit fee takes the whole proceeds only of nothing, or of a single cent. */
  lemma {:induction false} FeeTakesAll(price: int, quantity: int)
    requires 0 <= price <= 100 && quantity > 0
    ensures EntryFee(price, quantity) == price * quantity <==> price == 0 || (price == 1 && quantity == 1)
    ensures price == 100 ==> EntryFee(price, quantity) == 0
    ensures EntryFee(price, quantity) >= 0
  {
    var proceeds, fee := price * quantity, EntryFee(price, quantity);
    assert 7 * price * (100 - price) * quantity == 7 * (100 - price) * proceeds;
    hide EntryFee;
    if price > 0 {
      assert proceeds >= 1 && (proceeds == 1 ==> price == 1 && quantity == 1);
      AtMostSevenHundred(price, proceeds);
    }
  }

  lemma AtMostSevenHundred(price: int, proceeds: int)
    requires 1 <= price <= 100 && proceeds >= 0
    ensures 0 <= 7 * (100 - price) * proceeds <= 693 * proceeds
  {}

  /** Bought at 40 and sold at 70, one contract: 26 cents were made, 58 are restated. */
  lemma EarlyWinOverstated()
    ensures var x := EarlyClose("a", OpenPosition(Yes, 1, 40, 0, EntryFee(40, 1)), 70, 1);
            x.net == 26 && FlatNet(x, 1) == 58
  {}

  /** The same trade paid 100 or nothing, against sold at `exit`. */
  lemma SettledInsteadOfSold(entry: int, exit: int, quantity: int, entryFee: int, exitFee: int)
    requires quantity > 0 && 0 <= exit <= 100 && 0 <= exitFee <= exit * quantity
    ensures var won := exit > entry;
            var settled, sold := (if won then 100 - entry else -entry) * quantity - entryFee,
                (exit - entry) * quantity - entryFee - exitFee;
      && settled - sold == (if won then 100 - exit else -exit) * quantity + exitFee
      && (won && exit < 100 ==> settled > sold)
      && (!won ==> settled <= sold)
  {}
}
