/** The composer of a one-second reference series from venue trades: per venue
    and second the last trade, per second the median across venues. */
module SyntheticIndex {
  import opened Wrappers
  import opened Medians

  datatype Instrument = Instrument(constituent: bool, targetIndex: string, quoteCurrency: string)

  datatype Trade = Trade(instrument: Instrument, observedMs: int, price: real)

  /** One venue's stream. The streams come in the order of the source's dictionary. */
  datatype Feed = Feed(venue: string, trades: seq<Trade>)

  datatype RefusalReason = NonConstituentRole | QuoteCurrencyMismatch

  datatype Refusal = Refusal(venue: string, reasons: set<RefusalReason>)

  /** One emitted second, with the venues behind it. */
  datatype Second = Second(observedAt: int, value: real, count: nat, venues: set<string>)

  datatype Composition = Composition(seconds: seq<Second>, refusals: seq<Refusal>, gaps: seq<int>)

  datatype CompositionError = EmptyRange

  predicate DistinctVenues(feeds: seq<Feed>) {
    forall i, j :: 0 <= i < j < |feeds| ==> feeds[i].venue != feeds[j].venue
  }

  // ---- acceptance, decided by the leading trade ----

  function Refused(instrument: Instrument, target: string, currency: string): set<RefusalReason> {
    (if !instrument.constituent || instrument.targetIndex != target then {NonConstituentRole} else {})
    + (if instrument.quoteCurrency != currency then {QuoteCurrencyMismatch} else {})
  }

  function Accepted(feeds: seq<Feed>, target: string, currency: string, k: nat): seq<Feed>
    requires k <= |feeds|
  {
    if k == 0 then []
    else
      var before := Accepted(feeds, target, currency, k - 1);
      var feed := feeds[k - 1];
      if feed.trades == [] || Refused(feed.trades[0].instrument, target, currency) != {} then before
      else before + [feed]
  }

  function Refusals(feeds: seq<Feed>, target: string, currency: string, k: nat): seq<Refusal>
    requires k <= |feeds|
  {
    if k == 0 then []
    else
      var before := Refusals(feeds, target, currency, k - 1);
      var feed := feeds[k - 1];
      if feed.trades == [] then before
      else
        var reasons := Refused(feed.trades[0].instrument, target, currency);
        if reasons == {} then before else before + [Refusal(feed.venue, reasons)]
  }

  // ---- the last trade of a second ----

  function SecondOf(trade: Trade): int { trade.observedMs / 1000 }

  /** A trade of the second replaces one no later than it. */
  function Replace(before: Option<Trade>, trade: Trade, second: int): Option<Trade> {
    if SecondOf(trade) == second && (before.None? || trade.observedMs >= before.value.observedMs) then Some(trade)
    else before
  }

  /** The kept trade after the first `k`. */
  function LatestUpTo(trades: seq<Trade>, second: int, k: nat): Option<Trade>
    requires k <= |trades|
  {
    if k == 0 then None
    else
      Replace(LatestUpTo(trades, second, k - 1), trades[k - 1], second)
  }

  function Latest(trades: seq<Trade>, second: int): Option<Trade> { LatestUpTo(trades, second, |trades|) }

  /** Trade `i` is the last of its second: no other is later, and among equals
      none comes after it in the stream. */
  predicate IsLatest(trades: seq<Trade>, second: int, i: nat) {
    && i < |trades| && SecondOf(trades[i]) == second
    && forall j :: 0 <= j < |trades| && SecondOf(trades[j]) == second ==>
         trades[j].observedMs < trades[i].observedMs || (trades[j].observedMs == trades[i].observedMs && j <= i)
  }

  /** The prices contributed to a second, in venue order. */
  function PricesAt(feeds: seq<Feed>, second: int, k: nat): seq<real>
    requires k <= |feeds|
  {
    if k == 0 then []
    else
      var before := PricesAt(feeds, second, k - 1);
      var latest := Latest(feeds[k - 1].trades, second);
      if latest.Some? then before + [latest.value.price] else before
  }

  function VenuesAt(feeds: seq<Feed>, second: int, k: nat): set<string>
    requires k <= |feeds|
  {
    if k == 0 then {}
    else
      var before := VenuesAt(feeds, second, k - 1);
      if Latest(feeds[k - 1].trades, second).Some? then before + {feeds[k - 1].venue} else before
  }

  function Emitted(feeds: seq<Feed>, second: int): Option<Second> {
    var prices := PricesAt(feeds, second, |feeds|);
    if prices == [] then None
    else Some(Second(second, Median(prices), |prices|, VenuesAt(feeds, second, |feeds|)))
  }

  function Seconds(feeds: seq<Feed>, start: int, k: nat): seq<Second> {
    if k == 0 then []
    else
      var before := Seconds(feeds, start, k - 1);
      var second := Emitted(feeds, start + k - 1);
      if second.Some? then before + [second.value] else before
  }

  function Gaps(feeds: seq<Feed>, start: int, k: nat): seq<int> {
    if k == 0 then []
    else
      var before := Gaps(feeds, start, k - 1);
      if Emitted(feeds, start + k - 1).None? then before + [start + k - 1] else before
  }

  function Composed(feeds: seq<Feed>, target: string, currency: string, start: int, end: int): Composition
    requires start < end
  {
    var accepted := Accepted(feeds, target, currency, |feeds|);
    Composition(Seconds(accepted, start, end - start), Refusals(feeds, target, currency, |feeds|),
                Gaps(accepted, start, end - start))
  }

  // ---- the one-pass composition ----

  /** Per second, per venue: the kept price and its time. */
  type LastBySecond = map<int, map<string, (real, int)>>

  function Kept(last: LastBySecond, second: int, venue: string): Option<(real, int)> {
    if second in last && venue in last[second] then Some(last[second][venue]) else None
  }

  function KeptOf(latest: Option<Trade>): Option<(real, int)> {
    if latest.Some? then Some((latest.value.price, latest.value.observedMs)) else None
  }

  method ValidateInputs(feeds: seq<Feed>, target: string, currency: string)
      returns (accepted: seq<Feed>, refusals: seq<Refusal>)
    ensures accepted == Accepted(feeds, target, currency, |feeds|)
    ensures refusals == Refusals(feeds, target, currency, |feeds|)
  {
    accepted, refusals := [], [];
    for k := 0 to |feeds|
      invariant accepted == Accepted(feeds, target, currency, k)
      invariant refusals == Refusals(feeds, target, currency, k)
    {
      var feed := feeds[k];
      if feed.trades == [] { continue; }
      var instrument := feed.trades[0].instrument;
      var reasons: set<RefusalReason> := {};
      if !instrument.constituent || instrument.targetIndex != target { reasons := reasons + {NonConstituentRole}; }
      if instrument.quoteCurrency != currency { reasons := reasons + {QuoteCurrencyMismatch}; }
      assert reasons == Refused(instrument, target, currency);
      if reasons != {} {
        refusals := refusals + [Refusal(feed.venue, reasons)];
        continue;
      }
      accepted := accepted + [feed];
    }
  }

  /** The table after `k` trades of one venue: its own entries are the last trades
      of its stream so far, everybody else's are as before. */
  function Expected(
      table: LastBySecond, feed: Feed, start: int, end: int, k: nat, second: int,
      venue: string): Option<(real, int)>
    requires k <= |feed.trades|
  {
    if venue == feed.venue && start <= second < end then KeptOf(LatestUpTo(feed.trades, second, k))
    else Kept(table, second, venue)
  }

  lemma LatestNext(trades: seq<Trade>, second: int, k: nat)
    requires k < |trades|
    ensures LatestUpTo(trades, second, k + 1) == Replace(LatestUpTo(trades, second, k), trades[k], second)
  {}

  function Put(last: LastBySecond, second: int, venue: string, entry: (real, int)): (after: LastBySecond)
    ensures forall s, v :: Kept(after, s, v) == if s == second && v == venue then Some(entry) else Kept(last, s, v)
  {
    last[second := (if second in last then last[second] else map[])[venue := entry]]
  }

  /** One venue's pass over the table. */
  method KeepLast(table: LastBySecond, feed: Feed, start: int, end: int) returns (last: LastBySecond)
    requires forall second :: Kept(table, second, feed.venue).None?
    ensures forall second, venue ::
        Kept(last, second, venue) == Expected(table, feed, start, end, |feed.trades|, second, venue)
  {
    last := table;
    for k := 0 to |feed.trades|
      invariant forall second, venue :: Kept(last, second, venue) == Expected(table, feed, start, end, k, second, venue)
    {
      var trade := feed.trades[k];
      var second := trade.observedMs / 1000;
      forall other { LatestNext(feed.trades, other, k); }
      if !(start <= second < end) { continue; }
      var current := Kept(last, second, feed.venue);
      if current.None? || trade.observedMs >= current.value.1 {
        last := Put(last, second, feed.venue, (trade.price, trade.observedMs));
      }
    }
  }

  /** The whole first pass. */
  method KeepAll(feeds: seq<Feed>, start: int, end: int) returns (last: LastBySecond)
    requires DistinctVenues(feeds)
    ensures forall i, second :: 0 <= i < |feeds| && start <= second < end ==>
      Kept(last, second, feeds[i].venue) == KeptOf(Latest(feeds[i].trades, second))
  {
    last := map[];
    for k := 0 to |feeds|
      invariant forall i, second :: 0 <= i < k && start <= second < end ==>
        Kept(last, second, feeds[i].venue) == KeptOf(Latest(feeds[i].trades, second))
      invariant forall second, venue :: Kept(last, second, venue).Some? ==>
          exists i :: 0 <= i < k && feeds[i].venue == venue
    {
      last := KeepLast(last, feeds[k], start, end);
    }
  }

  /** The prices one second's row holds, read in venue order. */
  method ReadRow(last: LastBySecond, feeds: seq<Feed>, second: int) returns (prices: seq<real>, venues: set<string>)
    requires forall i :: 0 <= i < |feeds| ==>
      Kept(last, second, feeds[i].venue) == KeptOf(Latest(feeds[i].trades, second))
    ensures prices == PricesAt(feeds, second, |feeds|) && venues == VenuesAt(feeds, second, |feeds|)
  {
    prices, venues := [], {};
    for k := 0 to |feeds|
      invariant prices == PricesAt(feeds, second, k) && venues == VenuesAt(feeds, second, k)
    {
      var kept := Kept(last, second, feeds[k].venue);
      assert kept == KeptOf(Latest(feeds[k].trades, second));
      if kept.Some? {
        prices := prices + [kept.value.0];
        venues := venues + {feeds[k].venue};
      }
    }
  }

  /** Composes the series over `[start, end)`. */
  method Compose(feeds: seq<Feed>, target: string, currency: string, start: int, end: int)
      returns (r: Result<Composition, CompositionError>)
    requires DistinctVenues(feeds)
    ensures r == if start >= end then Err(EmptyRange) else Ok(Composed(feeds, target, currency, start, end))
  {
    if start >= end { return Err(EmptyRange); }
    var accepted, refusals := ValidateInputs(feeds, target, currency);
    AcceptedDistinct(feeds, target, currency, |feeds|);
    var last := KeepAll(accepted, start, end);
    var seconds, gaps := [], [];
    for second := start to end
      invariant seconds == Seconds(accepted, start, second - start)
      invariant gaps == Gaps(accepted, start, second - start)
    {
      var prices, venues := ReadRow(last, accepted, second);
      assert start + (second - start + 1) - 1 == second;
      if prices == [] {
        gaps := gaps + [second];
        continue;
      }
      seconds := seconds + [Second(second, Median(prices), |prices|, venues)];
    }
    r := Ok(Composition(seconds, refusals, gaps));
  }

  lemma {:induction false} AcceptedDistinct(feeds: seq<Feed>, target: string, currency: string, k: nat)
    requires k <= |feeds| && DistinctVenues(feeds)
    ensures DistinctVenues(Accepted(feeds, target, currency, k))
    ensures forall feed :: feed in Accepted(feeds, target, currency, k) ==> exists i :: 0 <= i < k && feeds[i] == feed
  {
    if k > 0 {
      AcceptedDistinct(feeds, target, currency, k - 1);
      var before := Accepted(feeds, target, currency, k - 1);
      assert forall i :: 0 <= i < |before| ==> before[i] in before;
    }
  }

  // ---- what the composition means ----

  /** The kept trade is the one direct definition picks out, and there is none
      exactly when the venue is silent in that second. */
  lemma {:induction false} LatestIsLast(trades: seq<Trade>, second: int, k: nat)
    requires k <= |trades|
    ensures LatestUpTo(trades, second, k).Some? ==>
      exists i :: 0 <= i < k && IsLatest(trades[..k], second, i) && LatestUpTo(trades, second, k).value == trades[i]
    ensures LatestUpTo(trades, second, k).None? ==> forall j :: 0 <= j < k ==> SecondOf(trades[j]) != second
  {
    if k > 0 {
      LatestIsLast(trades, second, k - 1);
      var before, trade := LatestUpTo(trades, second, k - 1), trades[k - 1];
      if LatestUpTo(trades, second, k) == before && before.Some? {
        var i :| 0 <= i < k - 1 && IsLatest(trades[..k - 1], second, i) && before.value == trades[i];
        LatestExtends(trades, second, k, i);
      } else if LatestUpTo(trades, second, k).Some? {
        if before.Some? {
          var i :| 0 <= i < k - 1 && IsLatest(trades[..k - 1], second, i) && before.value == trades[i];
          LatestReplaced(trades, second, k, i);
        }
        assert IsLatest(trades[..k], second, k - 1);
      }
    }
  }

  lemma LatestExtends(trades: seq<Trade>, second: int, k: nat, i: nat)
    requires 0 < k <= |trades| && i < k - 1 && IsLatest(trades[..k - 1], second, i)
    requires SecondOf(trades[k - 1]) == second ==>
        trades[k - 1].observedMs < trades[i].observedMs || trades[k - 1] == trades[i]
    ensures IsLatest(trades[..k], second, i) || (trades[k - 1] == trades[i] && IsLatest(trades[..k], second, k - 1))
  {}

  lemma LatestReplaced(trades: seq<Trade>, second: int, k: nat, i: nat)
    requires 0 < k <= |trades| && i < k - 1 && IsLatest(trades[..k - 1], second, i)
    requires SecondOf(trades[k - 1]) == second && trades[k - 1].observedMs >= trades[i].observedMs
    ensures IsLatest(trades[..k], second, k - 1)
  {}

  /** Increasing seconds below `end`, each the one emitted for its time. */
  predicate EmittedInOrder(feeds: seq<Feed>, start: int, end: int, seconds: seq<Second>) {
    && (forall i, j :: 0 <= i < j < |seconds| ==> seconds[i].observedAt < seconds[j].observedAt)
    && (forall i :: 0 <= i < |seconds| ==>
          start <= seconds[i].observedAt < end && Emitted(feeds, seconds[i].observedAt) == Some(seconds[i]))
  }

  predicate SilentInOrder(feeds: seq<Feed>, start: int, end: int, gaps: seq<int>) {
    && (forall i, j :: 0 <= i < j < |gaps| ==> gaps[i] < gaps[j])
    && (forall i :: 0 <= i < |gaps| ==> start <= gaps[i] < end && Emitted(feeds, gaps[i]).None?)
  }

  /** Both series come in increasing order: the emitted seconds are ones some
      venue priced, the gaps ones none did. */
  lemma {:induction false} SeriesInOrder(feeds: seq<Feed>, start: int, k: nat)
    ensures EmittedInOrder(feeds, start, start + k, Seconds(feeds, start, k))
    ensures SilentInOrder(feeds, start, start + k, Gaps(feeds, start, k))
  {
    hide Emitted, EmittedInOrder, SilentInOrder;
    if k == 0 {
      NothingInOrder(feeds, start);
    } else {
      SeriesInOrder(feeds, start, k - 1);
      EmittedSecond(feeds, start + k - 1);
      OrderExtends(feeds, start, start + k - 1, Seconds(feeds, start, k - 1), Gaps(feeds, start, k - 1));
    }
  }

  lemma NothingInOrder(feeds: seq<Feed>, start: int)
    ensures EmittedInOrder(feeds, start, start, []) && SilentInOrder(feeds, start, start, [])
  {}

  lemma EmittedSecond(feeds: seq<Feed>, second: int)
    ensures Emitted(feeds, second).Some? ==> Emitted(feeds, second).value.observedAt == second
  {}

  lemma OrderExtends(feeds: seq<Feed>, start: int, t: int, seconds: seq<Second>, gaps: seq<int>)
    requires EmittedInOrder(feeds, start, t, seconds) && SilentInOrder(feeds, start, t, gaps) && start <= t
    requires Emitted(feeds, t).Some? ==> Emitted(feeds, t).value.observedAt == t
    ensures var next := if Emitted(feeds, t).Some? then seconds + [Emitted(feeds, t).value] else seconds;
            EmittedInOrder(feeds, start, t + 1, next)
    ensures SilentInOrder(feeds, start, t + 1, if Emitted(feeds, t).None? then gaps + [t] else gaps)
  {
    hide Emitted;
  }

  /** Every second of the range is emitted once or recorded as a gap once. */
  lemma {:induction false} SecondsAndGapsPartition(feeds: seq<Feed>, start: int, k: nat)
    ensures |Seconds(feeds, start, k)| + |Gaps(feeds, start, k)| == k
    ensures forall t :: start <= t < start + k ==>
      if Emitted(feeds, t).Some? then Emitted(feeds, t).value in Seconds(feeds, start, k) && t !in Gaps(feeds, start, k)
      else t in Gaps(feeds, start, k)
  {
    hide Emitted;
    SeriesInOrder(feeds, start, k);
    if k > 0 {
      SecondsAndGapsPartition(feeds, start, k - 1);
      var before, after := Seconds(feeds, start, k - 1), Seconds(feeds, start, k);
      assert forall x :: x in before ==> x in after;
      assert forall t :: t in Gaps(feeds, start, k - 1) ==> t in Gaps(feeds, start, k);
      assert Emitted(feeds, start + k - 1).Some? ==> after[|after| - 1] == Emitted(feeds, start + k - 1).value;
    }
  }

  // ---- the composition, said of trades and their times ----

  /** Trade `i` is of the second, in milliseconds, and the last of it. */
  predicate LastIn(trades: seq<Trade>, second: int, i: int) {
    && 0 <= i < |trades| && 1000 * second <= trades[i].observedMs < 1000 * second + 1000
    && forall j :: 0 <= j < |trades| && 1000 * second <= trades[j].observedMs < 1000 * second + 1000 ==>
         trades[j].observedMs < trades[i].observedMs || (trades[j].observedMs == trades[i].observedMs && j <= i)
  }

  lemma KeptTradeIs(trades: seq<Trade>, second: int)
    ensures Latest(trades, second).None? <==>
      forall j :: 0 <= j < |trades| ==> !(1000 * second <= trades[j].observedMs < 1000 * second + 1000)
    ensures forall i :: LastIn(trades, second, i) ==> Latest(trades, second) == Some(trades[i])
    ensures Latest(trades, second).Some? ==> exists i :: LastIn(trades, second, i)
  {
    LatestIsLast(trades, second, |trades|);
    assert trades[..|trades|] == trades;
    assert forall t: Trade :: SecondOf(t) == second <==> 1000 * second <= t.observedMs < 1000 * second + 1000;
    if Latest(trades, second).Some? {
      var i :| 0 <= i < |trades| && IsLatest(trades, second, i) && Latest(trades, second).value == trades[i];
      assert LastIn(trades, second, i);
      forall j | LastIn(trades, second, j) ensures j == i {}
    }
  }

  /** A second takes one price from each venue that traded in it, that of its last
      trade, in the order of the venues; and names those venues. */
  lemma PricesAre(feeds: seq<Feed>, second: int, k: nat)
    requires k < |feeds|
    ensures PricesAt(feeds, second, 0) == []
    ensures (forall i :: !LastIn(feeds[k].trades, second, i)) ==>
      PricesAt(feeds, second, k + 1) == PricesAt(feeds, second, k)
    ensures forall i :: LastIn(feeds[k].trades, second, i) ==>
      PricesAt(feeds, second, k + 1) == PricesAt(feeds, second, k) + [feeds[k].trades[i].price]
  {
    KeptTradeIs(feeds[k].trades, second);
  }

  lemma {:induction false} VenuesAre(feeds: seq<Feed>, second: int, k: nat, venue: string)
    requires k <= |feeds|
    ensures venue in VenuesAt(feeds, second, k) <==>
      exists i :: 0 <= i < k && feeds[i].venue == venue && TradedIn(feeds[i], second)
  {
    hide Latest;
    if k > 0 {
      VenuesAre(feeds, second, k - 1, venue);
      KeptTradeIs(feeds[k - 1].trades, second);
    }
  }

  predicate TradedIn(feed: Feed, second: int) {
    exists j :: 0 <= j < |feed.trades| && 1000 * second <= feed.trades[j].observedMs < 1000 * second + 1000
  }

  /** What is emitted for a second: the median of its prices, how many there are, and
      the venues behind them; nothing when no venue traded in it. */
  lemma EmittedIs(feeds: seq<Feed>, second: int)
    ensures var (emitted, prices) := (Emitted(feeds, second), PricesAt(feeds, second, |feeds|));
      if prices == [] then emitted == None
      else emitted == Some(Second(second, Median(prices), |prices|, VenuesAt(feeds, second, |feeds|)))
  {}

  /** A venue is composed when its leading trade is of a constituent of the target index
      in the index's currency, and refused for what it is not otherwise; one without
      trades is neither. */
  lemma AcceptedIs(feeds: seq<Feed>, target: string, currency: string, k: nat)
    requires k < |feeds|
    ensures Accepted(feeds, target, currency, 0) == [] && Refusals(feeds, target, currency, 0) == []
    ensures var feed := feeds[k];
      var (accepted, refusals) := (Accepted(feeds, target, currency, k), Refusals(feeds, target, currency, k));
      var (acceptedNext, refusalsNext) :=
        (Accepted(feeds, target, currency, k + 1), Refusals(feeds, target, currency, k + 1));
      if feed.trades == [] then acceptedNext == accepted && refusalsNext == refusals
      else
        var leading := feed.trades[0].instrument;
        var member := leading.constituent && leading.targetIndex == target;
        var reasons: set<RefusalReason> :=
          (if member then {} else {NonConstituentRole})
          + (if leading.quoteCurrency == currency then {} else {QuoteCurrencyMismatch});
        if member && leading.quoteCurrency == currency
        then acceptedNext == accepted + [feed] && refusalsNext == refusals
        else acceptedNext == accepted && refusalsNext == refusals + [Refusal(feed.venue, reasons)]
  {}

  /** The whole composition: every second of the range is emitted from the accepted
      venues or is a gap, in order, and every refusal is reported. */
  lemma CompositionCovers(feeds: seq<Feed>, target: string, currency: string, start: int, end: int)
    requires start < end
    ensures var (accepted, c) :=
        (Accepted(feeds, target, currency, |feeds|), Composed(feeds, target, currency, start, end));
      && EmittedInOrder(accepted, start, end, c.seconds) && SilentInOrder(accepted, start, end, c.gaps)
      && |c.seconds| + |c.gaps| == end - start
      && (forall t :: start <= t < end ==>
            if Emitted(accepted, t).Some? then Emitted(accepted, t).value in c.seconds && t !in c.gaps else t in c.gaps)
      && c.refusals == Refusals(feeds, target, currency, |feeds|)
  {
    hide Emitted, EmittedInOrder, SilentInOrder;
    var accepted := Accepted(feeds, target, currency, |feeds|);
    SeriesInOrder(accepted, start, end - start);
    SecondsAndGapsPartition(accepted, start, end - start);
  }

  // ---- robustness and order ----

  /** Two feeds of the same venue that contribute to the same seconds. */
  predicate SameSchedule(a: Feed, b: Feed, second: int) {
    a.venue == b.venue && Latest(a.trades, second).Some? == Latest(b.trades, second).Some?
  }

  lemma {:induction false} SameContributors(a: seq<Feed>, b: seq<Feed>, second: int, k: nat)
    requires |a| == |b| && k <= |a| && forall i :: 0 <= i < k ==> SameSchedule(a[i], b[i], second)
    ensures |PricesAt(a, second, k)| == |PricesAt(b, second, k)|
    ensures VenuesAt(a, second, k) == VenuesAt(b, second, k)
  {
    if k > 0 {
      SameContributors(a, b, second, k - 1);
      assert SameSchedule(a[k - 1], b[k - 1], second);
    }
  }

  /** Fewer than half of the prices differ, and the rest lie in `[lo, hi]`. */
  predicate FewCorrupted(xs: seq<real>, ys: seq<real>, lo: real, hi: real) {
    && |xs| == |ys| && 2 * Changed(xs, ys) < |xs|
    && forall i :: 0 <= i < |xs| && xs[i] == ys[i] ==> lo <= xs[i] <= hi
  }

  /** Corrupting the prices of fewer than half of the venues behind a second
      leaves its emitted value between the least and the greatest price of the
      venues left alone, with the same venues named behind it. */
  lemma EmittedValueRobust(a: seq<Feed>, b: seq<Feed>, second: int, lo: real, hi: real)
    requires |a| == |b| && forall i :: 0 <= i < |a| ==> SameSchedule(a[i], b[i], second)
    requires FewCorrupted(PricesAt(a, second, |a|), PricesAt(b, second, |b|), lo, hi)
    ensures Emitted(a, second).Some? && Emitted(b, second).Some?
    ensures lo <= Emitted(b, second).value.value <= hi
    ensures Emitted(b, second).value.venues == Emitted(a, second).value.venues
    ensures Emitted(b, second).value.count == Emitted(a, second).value.count
  {
    SameContributors(a, b, second, |a|);
    MedianRobust(PricesAt(a, second, |a|), PricesAt(b, second, |b|), lo, hi);
  }

  /** Two streams that differ only in order, with no two trades at one time. */
  predicate Reordered(a: seq<Trade>, b: seq<Trade>) {
    multiset(a) == multiset(b)
    && forall i, j :: 0 <= i < j < |a| ==> a[i].observedMs != a[j].observedMs
  }

  lemma SameMembers(a: seq<Trade>, b: seq<Trade>)
    requires multiset(a) == multiset(b)
    ensures forall x :: x in a <==> x in b
  {
    forall x ensures x in a <==> x in b {
      assert x in a <==> x in multiset(a);
      assert x in b <==> x in multiset(b);
    }
  }

  lemma LatestAmong(trades: seq<Trade>, second: int)
    ensures forall x :: x in trades && SecondOf(x) == second ==>
      Latest(trades, second).Some? && x.observedMs <= Latest(trades, second).value.observedMs
    ensures Latest(trades, second).Some? ==>
      Latest(trades, second).value in trades && SecondOf(Latest(trades, second).value) == second
  {
    LatestIsLast(trades, second, |trades|);
    assert trades[..|trades|] == trades;
  }

  /** Reordering a stream keeps the last trade of every second. */
  lemma LatestIgnoresOrder(a: seq<Trade>, b: seq<Trade>, second: int)
    requires Reordered(a, b)
    ensures Latest(a, second) == Latest(b, second)
  {
    hide Latest;
    SameMembers(a, b);
    LatestAmong(a, second);
    LatestAmong(b, second);
    if Latest(a, second).Some? {
      var x, y := Latest(a, second).value, Latest(b, second).value;
      assert x in a && y in a && x.observedMs == y.observedMs;
    }
  }

  /** The same venues with the same streams up to order. */
  predicate ReorderedFeeds(a: seq<Feed>, b: seq<Feed>) {
    |a| == |b| && forall i :: 0 <= i < |a| ==> a[i].venue == b[i].venue && Reordered(a[i].trades, b[i].trades)
  }

  /** The two leading trades are refused for the same reasons, or both accepted. */
  predicate SameLeaders(a: Feed, b: Feed, target: string, currency: string) {
    a.trades != [] && b.trades != [] ==>
      Refused(a.trades[0].instrument, target, currency) == Refused(b.trades[0].instrument, target, currency)
  }

  lemma {:induction false} SameAcceptance(a: seq<Feed>, b: seq<Feed>, target: string, currency: string, k: nat)
    requires ReorderedFeeds(a, b) && k <= |a| && forall i :: 0 <= i < k ==> SameLeaders(a[i], b[i], target, currency)
    ensures Refusals(a, target, currency, k) == Refusals(b, target, currency, k)
    ensures ReorderedFeeds(Accepted(a, target, currency, k), Accepted(b, target, currency, k))
  {
    hide Refused;
    if k > 0 {
      SameAcceptance(a, b, target, currency, k - 1);
      assert SameLeaders(a[k - 1], b[k - 1], target, currency);
      assert |multiset(a[k - 1].trades)| == |multiset(b[k - 1].trades)|;
    }
  }

  lemma {:induction false} SamePrices(a: seq<Feed>, b: seq<Feed>, second: int, k: nat)
    requires ReorderedFeeds(a, b) && k <= |a|
    ensures PricesAt(a, second, k) == PricesAt(b, second, k) && VenuesAt(a, second, k) == VenuesAt(b, second, k)
  {
    if k > 0 {
      SamePrices(a, b, second, k - 1);
      LatestIgnoresOrder(a[k - 1].trades, b[k - 1].trades, second);
    }
  }

  lemma {:induction false} SameSeries(a: seq<Feed>, b: seq<Feed>, start: int, k: nat)
    requires ReorderedFeeds(a, b)
    ensures Seconds(a, start, k) == Seconds(b, start, k) && Gaps(a, start, k) == Gaps(b, start, k)
  {
    hide PricesAt, VenuesAt;
    if k > 0 {
      SameSeries(a, b, start, k - 1);
      SamePrices(a, b, start + k - 1, |a|);
    }
  }

  /** A venue's refusal names its leading trade's reasons, and is there exactly
      when it has any. */
  lemma {:induction false} RefusalNames(
      feeds: seq<Feed>, target: string, currency: string, k: nat, i: nat, reasons: set<RefusalReason>)
    requires i < |feeds| && k <= |feeds| && DistinctVenues(feeds) && feeds[i].trades != []
    ensures Refusal(feeds[i].venue, reasons) in Refusals(feeds, target, currency, k) <==>
      i < k && reasons == Refused(feeds[i].trades[0].instrument, target, currency) && reasons != {}
  {
    hide Refused;
    if k > 0 { RefusalNames(feeds, target, currency, k - 1, i, reasons); }
  }

  /** Delivery order matters through the leading trades alone: reordering every
      venue's stream leaves the composition as it was if and only if each venue's
      leading trade stays as acceptable, refused for the same reasons or not at all. */
  lemma CompositionIgnoresOrder(a: seq<Feed>, b: seq<Feed>, target: string, currency: string, start: int, end: int)
    requires start < end && ReorderedFeeds(a, b) && DistinctVenues(a)
    ensures Composed(a, target, currency, start, end) == Composed(b, target, currency, start, end) <==>
      forall i :: 0 <= i < |a| ==> SameLeaders(a[i], b[i], target, currency)
  {
    hide Seconds, Gaps, Refusals, Refused, Accepted;
    if forall i :: 0 <= i < |a| ==> SameLeaders(a[i], b[i], target, currency) {
      SameAcceptance(a, b, target, currency, |a|);
      SameSeries(Accepted(a, target, currency, |a|), Accepted(b, target, currency, |b|), start, end - start);
    }
    if Refusals(a, target, currency, |a|) == Refusals(b, target, currency, |b|) {
      forall i | 0 <= i < |a| ensures SameLeaders(a[i], b[i], target, currency) {
        if a[i].trades != [] && b[i].trades != [] {
          var x := Refused(a[i].trades[0].instrument, target, currency);
          var y := Refused(b[i].trades[0].instrument, target, currency);
          RefusalNames(a, target, currency, |a|, i, x);
          RefusalNames(b, target, currency, |b|, i, x);
          RefusalNames(a, target, currency, |a|, i, y);
          RefusalNames(b, target, currency, |b|, i, y);
        }
      }
    }
  }

  /** The leading trade alone decides acceptance: the same two trades in the other
      order turn an accepted venue into a refused one. */
  lemma LeadingTradeDecides(good: Instrument, bad: Instrument, target: string, currency: string)
    requires Refused(good, target, currency) == {} && Refused(bad, target, currency) != {}
    ensures exists a: seq<Trade>, b: seq<Trade> :: Reordered(a, b)
              && Accepted([Feed("v", a)], target, currency, 1) == [Feed("v", a)]
              && Accepted([Feed("v", b)], target, currency, 1) == []
  {
    var x, y := Trade(good, 0, 1.0), Trade(bad, 1, 1.0);
    assert Reordered([x, y], [y, x]);
    assert Accepted([Feed("v", [x, y])], target, currency, 0) == [];
    assert Accepted([Feed("v", [y, x])], target, currency, 0) == [];
    assert Accepted([Feed("v", [x, y])], target, currency, 1) == [Feed("v", [x, y])];
  }

  // ---- persistence ----

  datatype Observation = Observation(value: string, count: nat, venues: set<string>, composedAt: int, version: string)

  type Table = map<(string, int), Observation>

  function Observed(second: Second, format: real -> string, composedAt: int, version: string): Observation {
    Observation(format(second.value), second.count, second.venues, composedAt, version)
  }

  function Upserted(
      table: Table, target: string, seconds: seq<Second>, format: real -> string, composedAt: int, version: string,
      k: nat): Table
    requires k <= |seconds|
  {
    if k == 0 then table
    else Upserted(table, target, seconds, format, composedAt, version, k - 1)
           [(target, seconds[k - 1].observedAt) := Observed(seconds[k - 1], format, composedAt, version)]
  }

  /** Writes one row per second, updating the row already stored under its key;
      returns how many rows are new. */
  method Persist(
      table: Table, target: string, seconds: seq<Second>, format: real -> string, composedAt: int, version: string)
      returns (after: Table, written: nat)
    ensures after == Upserted(table, target, seconds, format, composedAt, version, |seconds|)
    ensures |after| == |table| + written
  {
    hide Observed;
    after, written := table, 0;
    for k := 0 to |seconds|
      invariant after == Upserted(table, target, seconds, format, composedAt, version, k)
      invariant |after| == |table| + written
    {
      var key := (target, seconds[k].observedAt);
      var row := Observed(seconds[k], format, composedAt, version);
      if key in after {
        assert after[key := row].Keys == after.Keys;
        after := after[key := row];
        continue;
      }
      assert after[key := row].Keys == after.Keys + {key};
      after := after[key := row];
      written := written + 1;
    }
  }

  lemma {:induction false} UpsertedRow(
      table: Table, target: string, seconds: seq<Second>, format: real -> string, composedAt: int, version: string,
      k: nat, key: (string, int))
    requires k <= |seconds| && forall i, j :: 0 <= i < j < |seconds| ==> seconds[i].observedAt < seconds[j].observedAt
    ensures var after := Upserted(table, target, seconds, format, composedAt, version, k);
      && (forall i :: 0 <= i < k && key == (target, seconds[i].observedAt) ==>
            key in after && after[key] == Observed(seconds[i], format, composedAt, version))
      && ((forall i :: 0 <= i < k ==> key != (target, seconds[i].observedAt)) ==>
            (key in after <==> key in table) && (key in after ==> after[key] == table[key]))
  {
    if k > 0 { UpsertedRow(table, target, seconds, format, composedAt, version, k - 1, key); }
  }

  /** A second is stored under the index and its time, with its value as text, its
      venues and how many, and when and by which version it was composed; nothing else
      is stored. */
  lemma PersistedRow(
      table: Table, target: string, seconds: seq<Second>, format: real -> string, composedAt: int, version: string,
      i: nat, key: (string, int))
    requires forall i, j :: 0 <= i < j < |seconds| ==> seconds[i].observedAt < seconds[j].observedAt
    requires i < |seconds|
    ensures var after := Upserted(table, target, seconds, format, composedAt, version, |seconds|);
      && (target, seconds[i].observedAt) in after
      && after[(target, seconds[i].observedAt)]
           == Observation(format(seconds[i].value), seconds[i].count, seconds[i].venues, composedAt, version)
      && ((forall j :: 0 <= j < |seconds| ==> key != (target, seconds[j].observedAt)) ==>
            (key in after <==> key in table) && (key in after ==> after[key] == table[key]))
  {
    UpsertedRow(table, target, seconds, format, composedAt, version, |seconds|, (target, seconds[i].observedAt));
    UpsertedRow(table, target, seconds, format, composedAt, version, |seconds|, key);
  }

  /** Persisting the same composition again adds no row, and changes nothing in
      any row but its composition time. */
  lemma PersistIdempotent(
      table: Table, target: string, seconds: seq<Second>, format: real -> string, first: int, second: int,
      version: string)
    requires forall i, j :: 0 <= i < j < |seconds| ==> seconds[i].observedAt < seconds[j].observedAt
    ensures var once := Upserted(table, target, seconds, format, first, version, |seconds|);
            var twice := Upserted(once, target, seconds, format, second, version, |seconds|);
            twice.Keys == once.Keys
            && forall key :: key in once ==> twice[key].(composedAt := 0) == once[key].(composedAt := 0)
  {
    var once := Upserted(table, target, seconds, format, first, version, |seconds|);
    var twice := Upserted(once, target, seconds, format, second, version, |seconds|);
    forall key: (string, int)
      ensures key in twice <==> key in once
      ensures key in once ==> twice[key].(composedAt := 0) == once[key].(composedAt := 0)
    {
      UpsertedRow(table, target, seconds, format, first, version, |seconds|, key);
      UpsertedRow(once, target, seconds, format, second, version, |seconds|, key);
    }
  }
}
