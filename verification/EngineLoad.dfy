/** What a run loads from the database: ordered, merged and cut to its window.
    The slices are searched by bisection, so the order is what makes them exact,
    and what carries "no look-ahead" from the loaded rows to the stored ones. */
module EngineLoad {
  import opened Broker
  import opened Slices
  import opened Engine
  import opened EngineCausality
  import opened SortedTimes

  /** A stored spot bar. Several exchanges may hold a bar of the same opening time. */
  datatype SpotRow = SpotRow(symbol: string, period: nat, openTs: int, bar: SpotBar)

  /** The tables, in stored order; candles are those of the run's period, index
      readings are keyed by the time they become usable. */
  datatype Database = Database(
    markets: seq<Market>,
    candles: seq<Candle>,
    spot: seq<SpotRow>,
    readings: seq<Row<Reading>>,
    features: seq<Row<Feature>>)

  // ---- ordering ----

  /** The rows of key `key`, in their order. */
  function KeyedAt<V>(rows: seq<Row<V>>, key: int): seq<Row<V>> {
    if rows == [] then []
    else
      var rest := KeyedAt(rows[..|rows| - 1], key);
      if rows[|rows| - 1].key == key then rest + [rows[|rows| - 1]] else rest
  }

  function InsertRow<V>(sorted: seq<Row<V>>, x: Row<V>): (r: seq<Row<V>>)
    requires Sorted(sorted)
    ensures Sorted(r) && |r| == |sorted| + 1
    ensures r[|r| - 1] == x || (sorted != [] && r[|r| - 1] == sorted[|sorted| - 1])
    ensures r[|r| - 1].key >= x.key
  {
    if sorted == [] || sorted[|sorted| - 1].key <= x.key then sorted + [x]
    else InsertRow(sorted[..|sorted| - 1], x) + [sorted[|sorted| - 1]]
  }

  /** The query's ORDER BY, rows of one key in stored order. */
  function OrderBy<V>(rows: seq<Row<V>>): (r: seq<Row<V>>)
    ensures Sorted(r) && |r| == |rows|
  {
    if rows == [] then [] else InsertRow(OrderBy(rows[..|rows| - 1]), rows[|rows| - 1])
  }

  lemma {:induction false} InsertKeepsTies<V>(sorted: seq<Row<V>>, x: Row<V>, key: int)
    requires Sorted(sorted)
    ensures KeyedAt(InsertRow(sorted, x), key) == KeyedAt(sorted + [x], key)
  {
    assert (sorted + [x])[..|sorted|] == sorted;
    if sorted != [] && sorted[|sorted| - 1].key > x.key {
      var front, last := sorted[..|sorted| - 1], sorted[|sorted| - 1];
      InsertKeepsTies(front, x, key);
      assert InsertRow(sorted, x)[..|sorted|] == InsertRow(front, x);
      assert (front + [x])[..|front|] == front;
    }
  }

  /** Ordering loses no row, invents none, and leaves the rows of one key as stored. */
  lemma {:induction false} OrderByKeepsTies<V>(rows: seq<Row<V>>, key: int)
    ensures KeyedAt(OrderBy(rows), key) == KeyedAt(rows, key)
  {
    if rows != [] {
      var front, last := rows[..|rows| - 1], rows[|rows| - 1];
      OrderByKeepsTies(front, key);
      InsertKeepsTies(OrderBy(front), last, key);
      assert (OrderBy(front) + [last])[..|front|] == OrderBy(front);
    }
  }

  lemma KeyedUpToSorted<V>(rows: seq<Row<V>>, limit: int)
    requires Sorted(rows)
    ensures var past := KeyedUpTo(rows, limit);
            Sorted(past) && (rows == [] ==> past == []) && (past != [] ==> past[|past| - 1].key <= rows[|rows| - 1].key)
  {
    KeyedUpToIsPrefix(rows, limit);
    var n := BisectRight(rows, limit, 0, |rows|);
    assert n > 0 ==> rows[..n][n - 1] == rows[n - 1];
  }

  lemma KeyedUpToAppend<V>(rows: seq<Row<V>>, x: Row<V>, limit: int)
    ensures KeyedUpTo(rows + [x], limit)
         == if x.key <= limit then KeyedUpTo(rows, limit) + [x] else KeyedUpTo(rows, limit)
  {
    assert (rows + [x])[..|rows|] == rows;
  }

  lemma InsertBeforeLast<V>(front: seq<Row<V>>, last: Row<V>, x: Row<V>)
    requires Sorted(front) && Sorted(front + [last]) && x.key < last.key
    ensures InsertRow(front + [last], x) == InsertRow(front, x) + [last]
  {
    assert (front + [last])[..|front|] == front;
  }

  lemma InsertLast<V>(sorted: seq<Row<V>>, x: Row<V>)
    requires Sorted(sorted) && (sorted == [] || sorted[|sorted| - 1].key <= x.key)
    ensures InsertRow(sorted, x) == sorted + [x]
  {}

  lemma {:induction false} InsertUpTo<V>(sorted: seq<Row<V>>, x: Row<V>, limit: int)
    requires Sorted(sorted)
    ensures Sorted(KeyedUpTo(sorted, limit))
    ensures KeyedUpTo(InsertRow(sorted, x), limit)
         == if x.key <= limit then InsertRow(KeyedUpTo(sorted, limit), x) else KeyedUpTo(sorted, limit)
  {
    hide KeyedUpTo, InsertRow;
    KeyedUpToSorted(sorted, limit);
    if sorted == [] || sorted[|sorted| - 1].key <= x.key {
      InsertLast(sorted, x);
      KeyedUpToAppend(sorted, x, limit);
      if x.key <= limit { InsertLast(KeyedUpTo(sorted, limit), x); }
    } else {
      var front, last := sorted[..|sorted| - 1], sorted[|sorted| - 1];
      assert sorted == front + [last];
      InsertUpTo(front, x, limit);
      InsertBeforeLast(front, last, x);
      KeyedUpToAppend(front, last, limit);
      KeyedUpToAppend(InsertRow(front, x), last, limit);
      if last.key <= limit { InsertBeforeLast(KeyedUpTo(front, limit), last, x); }
    }
  }

  /** The ordered rows up to a time are the ordering of the stored rows up to it. */
  lemma {:induction false} OrderByUpTo<V>(rows: seq<Row<V>>, limit: int)
    ensures KeyedUpTo(OrderBy(rows), limit) == OrderBy(KeyedUpTo(rows, limit))
  {
    if rows != [] {
      var front, last := rows[..|rows| - 1], rows[|rows| - 1];
      OrderByUpTo(front, limit);
      InsertUpTo(OrderBy(front), last, limit);
      var past := KeyedUpTo(front, limit);
      assert (past + [last])[..|past|] == past;
    }
  }

  // ---- one row per time ----

  /** Python's dictionary assignment, over rows kept in key order. */
  function PutRow<V>(rows: seq<Row<V>>, x: Row<V>): (r: seq<Row<V>>)
    ensures r != [] && r[|r| - 1].key >= x.key
    ensures rows != [] ==> r[|r| - 1].key == if x.key > rows[|rows| - 1].key then x.key else rows[|rows| - 1].key
    ensures rows == [] ==> r[|r| - 1].key == x.key
  {
    if rows == [] || rows[|rows| - 1].key < x.key then rows + [x]
    else if rows[|rows| - 1].key == x.key then rows[..|rows| - 1] + [x]
    else PutRow(rows[..|rows| - 1], x) + [rows[|rows| - 1]]
  }

  /** The last row of every key, in key order. */
  function LastWrites<V>(rows: seq<Row<V>>): seq<Row<V>> {
    if rows == [] then [] else PutRow(LastWrites(rows[..|rows| - 1]), rows[|rows| - 1])
  }

  predicate StrictlySorted<V>(rows: seq<Row<V>>) {
    forall i, j :: 0 <= i < j < |rows| ==> rows[i].key < rows[j].key
  }

  lemma PutAppended<V>(front: seq<Row<V>>, last: Row<V>, x: Row<V>)
    ensures PutRow(front + [last], x)
         == if last.key < x.key then front + [last, x]
            else if last.key == x.key then front + [x]
            else PutRow(front, x) + [last]
  {
    assert (front + [last])[..|front|] == front;
  }

  lemma AppendStaysSorted<V>(rows: seq<Row<V>>, x: Row<V>)
    requires StrictlySorted(rows) && forall y :: y in rows ==> y.key < x.key
    ensures StrictlySorted(rows + [x]) && forall y :: y in rows + [x] <==> y in rows || y == x
  {}

  lemma {:induction false} PutStaysSorted<V>(rows: seq<Row<V>>, x: Row<V>)
    requires StrictlySorted(rows)
    ensures StrictlySorted(PutRow(rows, x))
    ensures forall y :: y in PutRow(rows, x) <==> y == x || (y in rows && y.key != x.key)
  {
    if rows != [] {
      var front, last := rows[..|rows| - 1], rows[|rows| - 1];
      assert rows == front + [last];
      PutStaysSorted(front, x);
      PutAppended(front, last, x);
      hide PutRow;
      AppendStaysSorted(front, last);
      if last.key < x.key {
        AppendStaysSorted(rows, x);
        assert rows + [x] == front + [last, x];
      } else if last.key == x.key {
        AppendStaysSorted(front, x);
      } else {
        AppendStaysSorted(PutRow(front, x), last);
      }
    }
  }

  lemma {:induction false} PutUpTo<V>(rows: seq<Row<V>>, x: Row<V>, limit: int)
    requires StrictlySorted(rows)
    ensures KeyedUpTo(PutRow(rows, x), limit)
         == if x.key <= limit then PutRow(KeyedUpTo(rows, limit), x) else KeyedUpTo(rows, limit)
  {
    hide KeyedUpTo;
    KeyedUpToSorted(rows, limit);
    if rows == [] || rows[|rows| - 1].key < x.key {
      KeyedUpToAppend(rows, x, limit);
    } else {
      var front, last := rows[..|rows| - 1], rows[|rows| - 1];
      assert rows == front + [last];
      PutUpTo(front, x, limit);
      PutAppended(front, last, x);
      KeyedUpToAppend(front, last, limit);
      KeyedUpToAppend(front, x, limit);
      KeyedUpToAppend(PutRow(front, x), last, limit);
      PutAppended(KeyedUpTo(front, limit), last, x);
    }
  }

  lemma {:induction false} LastWritesSorted<V>(rows: seq<Row<V>>)
    ensures StrictlySorted(LastWrites(rows))
  {
    if rows != [] {
      LastWritesSorted(rows[..|rows| - 1]);
      PutStaysSorted(LastWrites(rows[..|rows| - 1]), rows[|rows| - 1]);
    }
  }

  /** A key's one row is the last of its rows as they were stored. */
  lemma {:induction false} LastWriteWins<V>(rows: seq<Row<V>>, x: Row<V>)
    ensures x in LastWrites(rows) <==>
        KeyedAt(rows, x.key) != [] && x == KeyedAt(rows, x.key)[|KeyedAt(rows, x.key)| - 1]
  {
    hide PutRow;
    if rows != [] {
      var front, last := rows[..|rows| - 1], rows[|rows| - 1];
      LastWriteWins(front, x);
      LastWritesSorted(front);
      PutStaysSorted(LastWrites(front), last);
      assert x in LastWrites(rows) <==> x == last || (x in LastWrites(front) && x.key != last.key);
      assert last.key != x.key ==> KeyedAt(rows, x.key) == KeyedAt(front, x.key);
    }
  }

  lemma {:induction false} LastWritesUpTo<V>(rows: seq<Row<V>>, limit: int)
    ensures KeyedUpTo(LastWrites(rows), limit) == LastWrites(KeyedUpTo(rows, limit))
  {
    if rows != [] {
      var front, last := rows[..|rows| - 1], rows[|rows| - 1];
      LastWritesUpTo(front, limit);
      LastWritesSorted(front);
      PutUpTo(LastWrites(front), last, limit);
      var past := KeyedUpTo(front, limit);
      assert (past + [last])[..|past|] == past;
    }
  }

  // ---- the spot series ----

  function StoredBars(spot: seq<SpotRow>, symbol: string, period: nat): seq<Row<SpotBar>> {
    if spot == [] then []
    else
      var last := spot[|spot| - 1];
      var rest := StoredBars(spot[..|spot| - 1], symbol, period);
      if last.symbol == symbol && last.period == period then rest + [Row(last.openTs, last.bar)] else rest
  }

  /** One bar per opening time: of several exchanges' bars, the last stored. */
  function BarsOf(spot: seq<SpotRow>, symbol: string, period: nat): (r: seq<Row<SpotBar>>)
    ensures Sorted(r)
  {
    var rows := OrderBy(StoredBars(spot, symbol, period));
    LastWritesSorted(rows);
    LastWrites(rows)
  }

  function Closes(rows: seq<Row<SpotBar>>): (r: seq<Row<real>>)
    ensures |r| == |rows| && forall i :: 0 <= i < |rows| ==> r[i] == Row(rows[i].key, rows[i].value.close)
  {
    if rows == [] then []
    else Closes(rows[..|rows| - 1]) + [Row(rows[|rows| - 1].key, rows[|rows| - 1].value.close)]
  }

  /** The rows of the dictionary that the source fills, bar by bar. */
  method LoadBars(spot: seq<SpotRow>, symbol: string, period: nat) returns (series: seq<Row<SpotBar>>)
    ensures series == BarsOf(spot, symbol, period)
  {
    hide OrderBy, LastWrites;
    var rows := OrderBy(StoredBars(spot, symbol, period));
    NoWrites<SpotBar>();
    assert rows[..0] == [];
    var byTs: map<int, SpotBar> := map[];
    for i := 0 to |rows|
      invariant forall x :: x in LastWrites(rows[..i]) <==> x.key in byTs && byTs[x.key] == x.value
    {
      NextWrite(rows, i);
      byTs := byTs[rows[i].key := rows[i].value];
    }
    assert rows[..|rows|] == rows;
    var times := SortTimes(byTs.Keys);
    assert forall i :: 0 <= i < |times| ==> times[i] in times;
    series := seq(|times|, i requires 0 <= i < |times| => Row(times[i], byTs[times[i]]));
    TableRows(byTs, times, series);
    LastWritesSorted(rows);
    SameRowsSameOrder(series, LastWrites(rows));
  }

  lemma NoWrites<V>()
    ensures LastWrites<V>([]) == []
  {}

  lemma NextWrite<V>(rows: seq<Row<V>>, i: nat)
    requires i < |rows|
    ensures forall x :: x in LastWrites(rows[..i + 1]) <==>
      x == rows[i] || (x in LastWrites(rows[..i]) && x.key != rows[i].key)
  {
    hide PutRow;
    assert rows[..i + 1][..i] == rows[..i] && rows[..i + 1][i] == rows[i];
    LastWritesSorted(rows[..i]);
    PutStaysSorted(LastWrites(rows[..i]), rows[i]);
  }

  lemma TableRows<V>(byTs: map<int, V>, times: seq<int>, series: seq<Row<V>>)
    requires Increasing(times) && (forall t :: t in times <==> t in byTs) && |series| == |times|
    requires forall i :: 0 <= i < |times| ==> times[i] in byTs && series[i] == Row(times[i], byTs[times[i]])
    ensures StrictlySorted(series)
    ensures forall x :: x in series <==> x.key in byTs && byTs[x.key] == x.value
  {
    forall x: Row<V> | x.key in byTs && byTs[x.key] == x.value ensures x in series {
      var i :| 0 <= i < |times| && times[i] == x.key;
      assert series[i] == x;
    }
  }

  lemma AllButLast<V>(rows: seq<Row<V>>)
    requires StrictlySorted(rows) && rows != []
    ensures StrictlySorted(rows[..|rows| - 1]) && rows[|rows| - 1] in rows
    ensures forall x :: x in rows[..|rows| - 1] <==> x in rows && x != rows[|rows| - 1]
    ensures forall x :: x in rows ==> x == rows[|rows| - 1] || x.key < rows[|rows| - 1].key
  {
    assert rows == rows[..|rows| - 1] + [rows[|rows| - 1]];
  }

  ghost predicate SameRows<V(!new)>(a: seq<Row<V>>, b: seq<Row<V>>) {
    forall x :: x in a <==> x in b
  }

  lemma SameGreatest<V(!new)>(a: seq<Row<V>>, b: seq<Row<V>>)
    requires StrictlySorted(a) && StrictlySorted(b) && SameRows(a, b) && a != [] && b != []
    ensures a[|a| - 1] == b[|b| - 1] && SameRows(a[..|a| - 1], b[..|b| - 1])
  {
    AllButLast(a);
    AllButLast(b);
    hide StrictlySorted;
    var x, y := a[|a| - 1], b[|b| - 1];
    assert x in b && y in a;
    assert x == y;
    var front, other := a[..|a| - 1], b[..|b| - 1];
    forall z ensures z in front <==> z in other {
      assert z in front <==> z in a && z != x;
      assert z in other <==> z in b && z != y;
      assert z in a <==> z in b;
    }
  }

  lemma NoRowsLeft<V(!new)>(a: seq<Row<V>>, b: seq<Row<V>>)
    requires SameRows(a, b)
    ensures a == [] <==> b == []
  {
    assert a != [] ==> a[0] in a;
    assert b != [] ==> b[0] in b;
  }

  /** Strictly ordered rows are determined by which rows they are. */
  lemma {:induction false} SameRowsSameOrder<V(!new)>(a: seq<Row<V>>, b: seq<Row<V>>)
    requires StrictlySorted(a) && StrictlySorted(b) && SameRows(a, b)
    ensures a == b
  {
    NoRowsLeft(a, b);
    if a != [] && b != [] {
      SameGreatest(a, b);
      AllButLast(a);
      AllButLast(b);
      hide StrictlySorted, SameRows;
      SameRowsSameOrder(a[..|a| - 1], b[..|b| - 1]);
      assert a == a[..|a| - 1] + [a[|a| - 1]] && b == b[..|b| - 1] + [b[|b| - 1]];
    }
  }

  // ---- the rows a run selects ----

  function SelectMarkets(markets: seq<Market>, start: int, end: int): (kept: seq<Market>)
    ensures forall m :: m in kept <==> m in markets && start < m.closeTs <= end && !m.resolution.Unresolved?
  {
    if markets == [] then []
    else
      var last := markets[|markets| - 1];
      var rest := SelectMarkets(markets[..|markets| - 1], start, end);
      assert forall m :: m in markets <==> m in markets[..|markets| - 1] || m == last by {
        assert markets == markets[..|markets| - 1] + [last];
      }
      if start < last.closeTs <= end && !last.resolution.Unresolved? then rest + [last] else rest
  }

  function SelectCandles(candles: seq<Candle>, markets: seq<Market>, start: int, end: int): (kept: seq<Candle>)
    ensures forall c :: c in kept <==> c in candles && start <= c.ts <= end && MarketOf(markets, c.ticker).Some?
  {
    if candles == [] then []
    else
      var last := candles[|candles| - 1];
      var rest := SelectCandles(candles[..|candles| - 1], markets, start, end);
      assert forall c :: c in candles <==> c in candles[..|candles| - 1] || c == last by {
        assert candles == candles[..|candles| - 1] + [last];
      }
      if start <= last.ts <= end && MarketOf(markets, last.ticker).Some? then rest + [last] else rest
  }

  const BRTI_LEAD := 3600

  function SelectReadings(rows: seq<Row<Reading>>, start: int, end: int): seq<Row<Reading>> {
    if rows == [] then []
    else
      var last := rows[|rows| - 1];
      var rest := SelectReadings(rows[..|rows| - 1], start, end);
      if start - BRTI_LEAD <= last.value.observedAt <= end then rest + [last] else rest
  }

  lemma {:induction false} SelectedStayDistinct(markets: seq<Market>, start: int, end: int)
    requires DistinctTickers(markets)
    ensures DistinctTickers(SelectMarkets(markets, start, end))
  {
    if markets != [] {
      var shorter := markets[..|markets| - 1];
      SelectedStayDistinct(shorter, start, end);
      forall m | m in SelectMarkets(shorter, start, end) ensures m.ticker != markets[|markets| - 1].ticker {
        var i :| 0 <= i < |shorter| && shorter[i] == m;
      }
      assert forall i :: 0 <= i < |SelectMarkets(shorter, start, end)| ==>
        SelectMarkets(shorter, start, end)[i] in SelectMarkets(shorter, start, end);
    }
  }

  // ---- the load ----

  function Symbols(spot: seq<SpotRow>): set<string> { set r | r in spot :: r.symbol }

  /** What a run over `[start, end]` loads. */
  function Load(db: Database, start: int, end: int): Archive {
    var markets := SelectMarkets(db.markets, start, end);
    Archive(
      markets, SelectCandles(db.candles, markets, start, end),
      map y | y in Symbols(db.spot) :: Closes(BarsOf(db.spot, y, 60)),
      map y | y in Symbols(db.spot) :: Closes(BarsOf(db.spot, y, 1440)),
      map y | y in Symbols(db.spot) :: BarsOf(db.spot, y, 60),
      OrderBy(SelectReadings(db.readings, start, end)),
      db.features)
  }

  /** Only the run's own rows are loaded, and every series that is searched is in order. */
  lemma LoadIsLoaded(db: Database, start: int, end: int)
    requires DistinctTickers(db.markets)
    ensures LoadedFor(Load(db, start, end), start, end)
  {
    SelectedStayDistinct(db.markets, start, end);
    var a := Load(db, start, end);
    assert forall i :: 0 <= i < |a.markets| ==> a.markets[i] in a.markets;
    assert forall i :: 0 <= i < |a.candles| ==> a.candles[i] in a.candles;
  }

  // ---- what a load keeps, row by row ----

  lemma MarketsAppend(markets: seq<Market>, m: Market, start: int, end: int)
    ensures SelectMarkets(markets + [m], start, end)
         == SelectMarkets(markets, start, end)
            + if start < m.closeTs <= end && m.resolution != Unresolved then [m] else []
  {
    assert (markets + [m])[..|markets|] == markets;
  }

  /** Index readings are kept that were observed from an hour before the range to its end. */
  lemma ReadingsAppend(rows: seq<Row<Reading>>, x: Row<Reading>, start: int, end: int)
    ensures SelectReadings([], start, end) == []
    ensures SelectReadings(rows + [x], start, end)
         == SelectReadings(rows, start, end)
            + if start - 3600 <= x.value.observedAt <= end then [x] else []
  {
    assert (rows + [x])[..|rows|] == rows;
  }

  /** The index series holds the rows kept, those of each time as they were stored. */
  lemma LoadedReadings(db: Database, start: int, end: int, key: int)
    ensures var a := Load(db, start, end);
      KeyedAt(a.brti, key) == KeyedAt(SelectReadings(db.readings, start, end), key) && a.features == db.features
  {
    OrderByKeepsTies(SelectReadings(db.readings, start, end), key);
  }

  /** Row `i` is the last stored bar of the symbol and period with its opening time. */
  predicate LastStored(spot: seq<SpotRow>, symbol: string, period: nat, i: int) {
    && 0 <= i < |spot| && spot[i].symbol == symbol && spot[i].period == period
    && forall j :: i < j < |spot| && spot[j].symbol == symbol && spot[j].period == period
         ==> spot[j].openTs != spot[i].openTs
  }

  ghost predicate StoredAs(spot: seq<SpotRow>, symbol: string, period: nat, x: Row<SpotBar>) {
    exists i :: LastStored(spot, symbol, period, i) && x == Row(spot[i].openTs, spot[i].bar)
  }

  lemma LastStoredEarlier(spot: seq<SpotRow>, symbol: string, period: nat, x: Row<SpotBar>)
    requires spot != []
    ensures var last := spot[|spot| - 1];
      StoredAs(spot, symbol, period, x) <==>
        if last.symbol == symbol && last.period == period && last.openTs == x.key then x.value == last.bar
        else StoredAs(spot[..|spot| - 1], symbol, period, x)
  {
    var n := |spot| - 1;
    var front := spot[..n];
    forall i | 0 <= i < n ensures LastStored(spot, symbol, period, i) <==>
      LastStored(front, symbol, period, i)
      && !(spot[n].symbol == symbol && spot[n].period == period && spot[n].openTs == spot[i].openTs) {}
    if spot[n].symbol == symbol && spot[n].period == period { assert LastStored(spot, symbol, period, n); }
  }

  lemma {:induction false} LastKeyedIsStored(spot: seq<SpotRow>, symbol: string, period: nat, x: Row<SpotBar>)
    ensures var rows := KeyedAt(StoredBars(spot, symbol, period), x.key);
      StoredAs(spot, symbol, period, x) <==> rows != [] && x == rows[|rows| - 1]
  {
    hide StoredAs;
    if spot == [] {
      assert !StoredAs([], symbol, period, x) by { NothingStoredAs(symbol, period, x); }
    } else {
      var front, last := spot[..|spot| - 1], spot[|spot| - 1];
      LastKeyedIsStored(front, symbol, period, x);
      LastStoredEarlier(spot, symbol, period, x);
      var rows := StoredBars(front, symbol, period);
      assert (rows + [Row(last.openTs, last.bar)])[..|rows|] == rows;
    }
  }

  lemma NothingStoredAs(symbol: string, period: nat, x: Row<SpotBar>)
    ensures !StoredAs([], symbol, period, x)
  {}

  /** A loaded spot series has one bar for each opening time that was stored for its
      symbol and period, in order: the last one stored. */
  lemma LoadedBarsAre(spot: seq<SpotRow>, symbol: string, period: nat, x: Row<SpotBar>)
    ensures StrictlySorted(BarsOf(spot, symbol, period))
    ensures x in BarsOf(spot, symbol, period) <==> StoredAs(spot, symbol, period, x)
  {
    hide StoredAs, StoredBars, OrderBy, LastWrites, KeyedAt;
    var stored := StoredBars(spot, symbol, period);
    LastWritesSorted(OrderBy(stored));
    LastWriteWins(OrderBy(stored), x);
    OrderByKeepsTies(stored, x.key);
    LastKeyedIsStored(spot, symbol, period, x);
  }

  /** Every series that a run searches is in order. */
  lemma LoadedSeriesSorted(db: Database, start: int, end: int, symbol: string)
    ensures var a := Load(db, start, end);
      && Sorted(SeriesOf(a.spotHourly, symbol)) && Sorted(SeriesOf(a.spotDaily, symbol))
      && Sorted(SeriesOf(a.spotBars, symbol)) && Sorted(a.brti)
  {
    hide StoredBars, OrderBy, LastWrites, SelectReadings, SelectCandles, SelectMarkets;
  }

  // ---- databases with the same past ----

  function SpotUpTo(spot: seq<SpotRow>, limit: int): seq<SpotRow> {
    if spot == [] then []
    else
      var rest := SpotUpTo(spot[..|spot| - 1], limit);
      if spot[|spot| - 1].openTs <= limit then rest + [spot[|spot| - 1]] else rest
  }

  /** Two databases that list the same markets, with the same results for those
      closed by `limit`, and store the same candles, bars, readings and features up
      to `limit`. Whether a later market's result is published may differ. */
  ghost predicate SameStored(a: Database, b: Database, limit: int) {
    && SameListings(a.markets, b.markets, limit)
    && CandlesUpTo(a.candles, limit) == CandlesUpTo(b.candles, limit)
    && SpotUpTo(a.spot, limit) == SpotUpTo(b.spot, limit)
    && KeyedUpTo(a.readings, limit) == KeyedUpTo(b.readings, limit)
    && KeyedUpTo(a.features, limit) == KeyedUpTo(b.features, limit)
  }

  /** Of two listings of the same markets, the same ones that close in the range
      have a published result. */
  predicate SamePublished(a: seq<Market>, b: seq<Market>, start: int, end: int)
    requires |a| == |b|
  {
    forall i :: 0 <= i < |a| && start < a[i].closeTs <= end ==>
      a[i].resolution.Unresolved? == b[i].resolution.Unresolved?
  }

  lemma {:induction false} StoredBarsUpTo(spot: seq<SpotRow>, symbol: string, period: nat, limit: int)
    ensures KeyedUpTo(StoredBars(spot, symbol, period), limit) == StoredBars(SpotUpTo(spot, limit), symbol, period)
  {
    if spot != [] {
      var front, last := spot[..|spot| - 1], spot[|spot| - 1];
      StoredBarsUpTo(front, symbol, period, limit);
      var past := SpotUpTo(front, limit);
      assert (past + [last])[..|past|] == past;
      KeyedUpToAppend(StoredBars(front, symbol, period), Row(last.openTs, last.bar), limit);
    }
  }

  lemma {:induction false} ClosesUpTo(rows: seq<Row<SpotBar>>, limit: int)
    ensures KeyedUpTo(Closes(rows), limit) == Closes(KeyedUpTo(rows, limit))
  {
    if rows != [] {
      var front, last := rows[..|rows| - 1], rows[|rows| - 1];
      ClosesUpTo(front, limit);
      var past := KeyedUpTo(front, limit);
      assert (past + [last])[..|past|] == past;
      KeyedUpToAppend(Closes(front), Row(last.key, last.value.close), limit);
    }
  }

  lemma SameBars(a: seq<SpotRow>, b: seq<SpotRow>, symbol: string, period: nat, limit: int)
    requires SpotUpTo(a, limit) == SpotUpTo(b, limit)
    ensures AgreeUpTo(BarsOf(a, symbol, period), BarsOf(b, symbol, period), limit)
    ensures AgreeUpTo(Closes(BarsOf(a, symbol, period)), Closes(BarsOf(b, symbol, period)), limit)
  {
    hide KeyedUpTo, StoredBars, OrderBy, LastWrites, Closes;
    var x, y := StoredBars(a, symbol, period), StoredBars(b, symbol, period);
    StoredBarsUpTo(a, symbol, period, limit);
    StoredBarsUpTo(b, symbol, period, limit);
    OrderByUpTo(x, limit);
    OrderByUpTo(y, limit);
    LastWritesUpTo(OrderBy(x), limit);
    LastWritesUpTo(OrderBy(y), limit);
    ClosesUpTo(BarsOf(a, symbol, period), limit);
    ClosesUpTo(BarsOf(b, symbol, period), limit);
  }

  lemma {:induction false} UnknownSymbol(spot: seq<SpotRow>, symbol: string, period: nat)
    requires symbol !in Symbols(spot)
    ensures StoredBars(spot, symbol, period) == []
  {
    if spot != [] {
      assert spot[|spot| - 1] in spot;
      assert forall r :: r in spot[..|spot| - 1] ==> r in spot;
      UnknownSymbol(spot[..|spot| - 1], symbol, period);
    }
  }

  /** A symbol without rows loads as an empty series. */
  lemma LoadedSeries(db: Database, start: int, end: int, symbol: string)
    ensures var a := Load(db, start, end);
      && SeriesOf(a.spotHourly, symbol) == Closes(BarsOf(db.spot, symbol, 60))
      && SeriesOf(a.spotDaily, symbol) == Closes(BarsOf(db.spot, symbol, 1440))
      && SeriesOf(a.spotBars, symbol) == BarsOf(db.spot, symbol, 60)
  {
    if symbol !in Symbols(db.spot) {
      UnknownSymbol(db.spot, symbol, 60);
      UnknownSymbol(db.spot, symbol, 1440);
    }
  }

  lemma {:induction false} SelectReadingsUpTo(rows: seq<Row<Reading>>, start: int, end: int, limit: int)
    ensures KeyedUpTo(SelectReadings(rows, start, end), limit) == SelectReadings(KeyedUpTo(rows, limit), start, end)
  {
    if rows != [] {
      var front, last := rows[..|rows| - 1], rows[|rows| - 1];
      SelectReadingsUpTo(front, start, end, limit);
      var past := KeyedUpTo(front, limit);
      assert (past + [last])[..|past|] == past;
      KeyedUpToAppend(SelectReadings(front, start, end), last, limit);
    }
  }

  lemma CandlesUpToAppend(candles: seq<Candle>, c: Candle, limit: int)
    ensures CandlesUpTo(candles + [c], limit)
         == if c.ts <= limit then CandlesUpTo(candles, limit) + [c] else CandlesUpTo(candles, limit)
  {
    assert (candles + [c])[..|candles|] == candles;
  }

  lemma SelectAppend(candles: seq<Candle>, c: Candle, markets: seq<Market>, start: int, end: int)
    ensures var kept := SelectCandles(candles, markets, start, end);
            SelectCandles(candles + [c], markets, start, end)
            == if start <= c.ts <= end && MarketOf(markets, c.ticker).Some? then kept + [c] else kept
  {
    assert (candles + [c])[..|candles|] == candles;
  }

  lemma {:induction false} SelectCandlesUpTo(
      candles: seq<Candle>, markets: seq<Market>, start: int, end: int, limit: int)
    ensures CandlesUpTo(SelectCandles(candles, markets, start, end), limit)
         == SelectCandles(CandlesUpTo(candles, limit), markets, start, end)
  {
    if candles != [] {
      hide CandlesUpTo, SelectCandles, MarketOf;
      var front, last := candles[..|candles| - 1], candles[|candles| - 1];
      assert candles == front + [last];
      SelectCandlesUpTo(front, markets, start, end, limit);
      CandlesUpToAppend(front, last, limit);
      CandlesUpToAppend(SelectCandles(front, markets, start, end), last, limit);
      SelectAppend(front, last, markets, start, end);
      SelectAppend(CandlesUpTo(front, limit), last, markets, start, end);
    }
  }

  lemma {:induction false} SameSelected(a: seq<Market>, b: seq<Market>, start: int, end: int, limit: int)
    requires SameListings(a, b, limit) && SamePublished(a, b, start, end)
    ensures SameListings(SelectMarkets(a, start, end), SelectMarkets(b, start, end), limit)
  {
    if a != [] {
      var m, n := a[|a| - 1], b[|b| - 1];
      assert SameListing(m, n, limit);
      SameSelected(a[..|a| - 1], b[..|b| - 1], start, end, limit);
      var x, y := SelectMarkets(a[..|a| - 1], start, end), SelectMarkets(b[..|b| - 1], start, end);
      var chosen := start < m.closeTs <= end && !m.resolution.Unresolved?;
      assert SelectMarkets(a, start, end) == if chosen then x + [m] else x;
      assert SelectMarkets(b, start, end) == if chosen then y + [n] else y;
      hide SelectMarkets, SameListing;
    }
  }

  /** A market selected from one listing is selected from the other, if the two
      selections list the same. */
  lemma {:induction false} SelectedIsPublished(a: seq<Market>, b: seq<Market>, start: int, end: int, limit: int, i: nat)
    requires SameListings(a, b, limit) && DistinctTickers(b) && i < |a|
    requires SameListings(SelectMarkets(a, start, end), SelectMarkets(b, start, end), limit)
    requires start < a[i].closeTs <= end && !a[i].resolution.Unresolved?
    ensures !b[i].resolution.Unresolved?
  {
    hide SelectMarkets;
    var x, y := SelectMarkets(a, start, end), SelectMarkets(b, start, end);
    assert a[i] in a && a[i] in x;
    var n :| 0 <= n < |x| && x[n] == a[i];
    assert SameListing(x[n], y[n], limit) && SameListing(a[i], b[i], limit);
    assert y[n] in y && y[n] in b;
    hide SameListings;
    var j :| 0 <= j < |b| && b[j] == y[n];
    assert b[j].ticker == b[i].ticker;
  }

  lemma SameListingsSymmetric(a: seq<Market>, b: seq<Market>, limit: int)
    requires SameListings(a, b, limit)
    ensures SameListings(b, a, limit)
    ensures DistinctTickers(a) ==> DistinctTickers(b)
  {
    forall i | 0 <= i < |b| ensures SameListing(b[i], a[i], limit) && a[i].ticker == b[i].ticker {
      assert SameListing(a[i], b[i], limit);
    }
  }

  lemma {:induction false} SameCandleChoice(
      candles: seq<Candle>, a: seq<Market>, b: seq<Market>, start: int, end: int, limit: int)
    requires SameListings(a, b, limit)
    ensures SelectCandles(candles, a, start, end) == SelectCandles(candles, b, start, end)
  {
    if candles != [] {
      SameCandleChoice(candles[..|candles| - 1], a, b, start, end, limit);
      SameMarket(a, b, limit, candles[|candles| - 1].ticker);
    }
  }

  lemma PublishedKeepsPast(a: Database, b: Database, start: int, end: int, limit: int)
    requires SameStored(a, b, limit) && SamePublished(a.markets, b.markets, start, end)
    ensures SamePast(Load(a, start, end), Load(b, start, end), limit)
  {
    hide KeyedUpTo, CandlesUpTo, SelectReadings, OrderBy, SelectCandles, SelectMarkets, BarsOf, Closes, SpotUpTo;
    var x, y := Load(a, start, end), Load(b, start, end);
    SameSelected(a.markets, b.markets, start, end, limit);
    SameCandleChoice(CandlesUpTo(a.candles, limit), x.markets, y.markets, start, end, limit);
    SelectCandlesUpTo(a.candles, x.markets, start, end, limit);
    SelectCandlesUpTo(b.candles, y.markets, start, end, limit);
    forall s: string
      ensures AgreeUpTo(SeriesOf(x.spotHourly, s), SeriesOf(y.spotHourly, s), limit)
      ensures AgreeUpTo(SeriesOf(x.spotDaily, s), SeriesOf(y.spotDaily, s), limit)
      ensures AgreeUpTo(SeriesOf(x.spotBars, s), SeriesOf(y.spotBars, s), limit)
    {
      LoadedSeries(a, start, end, s);
      LoadedSeries(b, start, end, s);
      SameBars(a.spot, b.spot, s, 60, limit);
      SameBars(a.spot, b.spot, s, 1440, limit);
    }
    SelectReadingsUpTo(a.readings, start, end, limit);
    SelectReadingsUpTo(b.readings, start, end, limit);
    OrderByUpTo(SelectReadings(a.readings, start, end), limit);
    OrderByUpTo(SelectReadings(b.readings, start, end), limit);
  }

  /** Databases that store the same up to `limit` load archives with the same past
      if and only if the same markets closing in the run's range have a published
      result, those that close after `limit` included. */
  lemma LoadKeepsPast(a: Database, b: Database, start: int, end: int, limit: int)
    requires SameStored(a, b, limit) && DistinctTickers(a.markets)
    ensures SamePast(Load(a, start, end), Load(b, start, end), limit)
            <==> SamePublished(a.markets, b.markets, start, end)
  {
    if SamePublished(a.markets, b.markets, start, end) { PublishedKeepsPast(a, b, start, end, limit); }
    if SamePast(Load(a, start, end), Load(b, start, end), limit) {
      SameListingsSymmetric(a.markets, b.markets, limit);
      SameListingsSymmetric(SelectMarkets(a.markets, start, end), SelectMarkets(b.markets, start, end), limit);
      forall i | 0 <= i < |a.markets| && start < a.markets[i].closeTs <= end
        ensures a.markets[i].resolution.Unresolved? == b.markets[i].resolution.Unresolved?
      {
        assert SameListing(a.markets[i], b.markets[i], limit);
        if !a.markets[i].resolution.Unresolved? {
          SelectedIsPublished(a.markets, b.markets, start, end, limit, i);
        }
        if !b.markets[i].resolution.Unresolved? {
          SelectedIsPublished(b.markets, a.markets, start, end, limit, i);
        }
      }
    }
  }

  lemma OneMarketSelected(m: Market, start: int, end: int)
    requires start < m.closeTs <= end
    ensures var markets, published := SelectMarkets([m], start, end), !m.resolution.Unresolved?;
            markets == (if published then [m] else []) && (MarketOf(markets, m.ticker).Some? <==> published)
  {
    assert [m][..0] == [] && SelectMarkets([], start, end) == [];
  }

  /** A database of one market and one candle of it is loaded whole or not at all. */
  lemma OneMarketLoaded(m: Market, c: Candle, start: int, end: int)
    requires c.ticker == m.ticker && start < m.closeTs <= end && start <= c.ts <= end
    ensures var a, published := Load(Database([m], [c], [], [], []), start, end), !m.resolution.Unresolved?;
            a.markets == (if published then [m] else []) && a.candles == (if published then [c] else [])
  {
    OneMarketSelected(m, start, end);
    SelectAppend([], c, SelectMarkets([m], start, end), start, end);
    assert SelectCandles([], SelectMarkets([m], start, end), start, end) == [];
    assert [] + [c] == [c];
    hide SelectMarkets, SelectCandles, MarketOf, OrderBy, SelectReadings, BarsOf, Closes;
  }

  lemma ResultHidden(m: Market, c: Candle, limit: int)
    requires limit < m.closeTs
    ensures SameStored(Database([m], [c], [], [], []), Database([m.(resolution := Unresolved)], [c], [], [], []), limit)
  {
    hide CandlesUpTo, SpotUpTo, KeyedUpTo;
  }

  /** A run selects its markets by whether a result was ever published, so a result
      published after `limit` shows in the run before it: with the result the market's
      candle is an event at its time, without it nothing happens at all. */
  lemma LaterPublicationShows(
      m: Market, c: Candle, start: int, end: int, limit: int, tlA: seq<int>, tlB: seq<int>)
    requires !m.resolution.Unresolved? && start < m.closeTs <= end
    requires c.ticker == m.ticker && start <= c.ts <= limit < m.closeTs
    requires IsTimeline(Load(Database([m], [c], [], [], []), start, end), tlA)
    requires IsTimeline(Load(Database([m.(resolution := Unresolved)], [c], [], [], []), start, end), tlB)
    ensures SameStored(Database([m], [c], [], [], []), Database([m.(resolution := Unresolved)], [c], [], [], []), limit)
    ensures tlA != [] && tlA[0] == c.ts && tlB == []
  {
    hide Load, SameStored;
    var hidden := m.(resolution := Unresolved);
    ResultHidden(m, c, limit);
    OneMarketLoaded(m, c, start, end);
    OneMarketLoaded(hidden, c, start, end);
    TwoEvents(Load(Database([m], [c], [], [], []), start, end), m, c);
    hide EventTimes;
    FirstVisit(Load(Database([m], [c], [], [], []), start, end), tlA, c.ts);
    NothingToVisit(Load(Database([hidden], [c], [], [], []), start, end), tlB);
  }

  lemma TwoEvents(a: Archive, m: Market, c: Candle)
    requires a.markets == [m] && a.candles == [c]
    ensures EventTimes(a) == {c.ts, m.closeTs}
  {
    assert c in a.candles && m in a.markets;
  }

  lemma FirstVisit(a: Archive, timeline: seq<int>, first: int)
    requires IsTimeline(a, timeline) && first in EventTimes(a) && forall t :: t in EventTimes(a) ==> first <= t
    ensures timeline != [] && timeline[0] == first
  {
    assert first in timeline;
    assert timeline[0] in timeline;
  }

  lemma NothingToVisit(a: Archive, timeline: seq<int>)
    requires IsTimeline(a, timeline) && a.markets == [] && a.candles == []
    ensures timeline == []
  {
    assert EventTimes(a) == {};
    assert |multiset(timeline)| == |timeline|;
    assert forall t :: t !in timeline ==> multiset(timeline)[t] == 0;
    assert multiset(timeline) == multiset{};
  }

  /** No look-ahead, from the stored rows. The loaded series are in order because the
      load orders them; what is asked besides is that results have been published for
      the same markets of the run's range, without which it fails
      (`LaterPublicationShows`). */
  lemma NoLookAheadFromDatabase(
      cfg: EngineConfig, a: Database, b: Database, start: int, end: int, limit: int,
      startingCash: int, tlA: seq<int>, tlB: seq<int>, k: nat)
    requires SameStored(a, b, limit) && SamePublished(a.markets, b.markets, start, end)
    requires IsTimeline(Load(a, start, end), tlA) && IsTimeline(Load(b, start, end), tlB)
    requires k <= |tlA| && (k > 0 ==> tlA[k - 1] <= limit)
    ensures k <= |tlB| && forall i :: 0 <= i < k ==> tlA[i] == tlB[i]
    ensures Replay(cfg, Load(a, start, end), startingCash, tlA, k)
        == Replay(cfg, Load(b, start, end), startingCash, tlB, k)
  {
    hide Replay, Load, SamePast, SameStored, SamePublished;
    PublishedKeepsPast(a, b, start, end, limit);
    NoLookAhead(cfg, Load(a, start, end), Load(b, start, end), limit, startingCash, tlA, tlB, k);
  }
}
