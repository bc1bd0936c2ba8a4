/** The binary-search slices that feed a strategy's context. Rows are searched
    over the whole loaded history; what a slice may see is decided by its key. */
module Slices {
  import opened Wrappers

  datatype Row<+V> = Row(key: int, value: V)

  predicate Sorted<V>(rows: seq<Row<V>>) {
    forall i, j :: 0 <= i < j < |rows| ==> rows[i].key <= rows[j].key
  }

  /** Python's `bisect_right` over the keys of `rows[lo..hi]`. */
  function BisectRight<V>(rows: seq<Row<V>>, x: int, lo: nat, hi: nat): (r: nat)
    requires lo <= hi <= |rows|
    ensures lo <= r <= hi
    decreases hi - lo
  {
    if lo == hi then lo
    else
      var mid := (lo + hi) / 2;
      if x < rows[mid].key then BisectRight(rows, x, lo, mid) else BisectRight(rows, x, mid + 1, hi)
  }

  /** Python's `bisect_left` over the keys of `rows[lo..hi]`. */
  function BisectLeft<V>(rows: seq<Row<V>>, x: int, lo: nat, hi: nat): (r: nat)
    requires lo <= hi <= |rows|
    ensures lo <= r <= hi
    decreases hi - lo
  {
    if lo == hi then lo
    else
      var mid := (lo + hi) / 2;
      if rows[mid].key < x then BisectLeft(rows, x, mid + 1, hi) else BisectLeft(rows, x, lo, mid)
  }

  lemma {:induction false} BisectRightSplits<V>(rows: seq<Row<V>>, x: int, lo: nat, hi: nat)
    requires lo <= hi <= |rows| && Sorted(rows)
    ensures forall i :: lo <= i < BisectRight(rows, x, lo, hi) ==> rows[i].key <= x
    ensures forall i :: BisectRight(rows, x, lo, hi) <= i < hi ==> x < rows[i].key
    decreases hi - lo
  {
    if lo < hi {
      var mid := (lo + hi) / 2;
      if x < rows[mid].key {
        BisectRightSplits(rows, x, lo, mid);
      } else {
        BisectRightSplits(rows, x, mid + 1, hi);
      }
    }
  }

  lemma {:induction false} BisectLeftSplits<V>(rows: seq<Row<V>>, x: int, lo: nat, hi: nat)
    requires lo <= hi <= |rows| && Sorted(rows)
    ensures forall i :: lo <= i < BisectLeft(rows, x, lo, hi) ==> rows[i].key < x
    ensures forall i :: BisectLeft(rows, x, lo, hi) <= i < hi ==> x <= rows[i].key
    decreases hi - lo
  {
    if lo < hi {
      var mid := (lo + hi) / 2;
      if rows[mid].key < x {
        BisectLeftSplits(rows, x, mid + 1, hi);
      } else {
        BisectLeftSplits(rows, x, lo, mid);
      }
    }
  }

  // ---- the slices ----

  /** The value of the latest row at or before `ts`. */
  function LatestBefore<V>(rows: seq<Row<V>>, ts: int): Option<V> {
    var n := BisectRight(rows, ts, 0, |rows|);
    if n == 0 then None else Some(rows[n - 1].value)
  }

  /** All rows strictly before `ts`. */
  function HistoryBefore<V>(rows: seq<Row<V>>, ts: int): seq<Row<V>> {
    rows[..BisectLeft(rows, ts, 0, |rows|)]
  }

  /** The last `count` rows strictly before `ts`. */
  function LastBefore<V>(rows: seq<Row<V>>, ts: int, count: nat): seq<Row<V>> {
    var n := BisectLeft(rows, ts, 0, |rows|);
    rows[if n < count then 0 else n - count..n]
  }

  /** Rows keyed within `window` before `ts`, `ts` included. */
  function WindowBefore<V>(rows: seq<Row<V>>, ts: int, window: nat): seq<Row<V>> {
    var hi := BisectRight(rows, ts, 0, |rows|);
    rows[BisectLeft(rows, ts - window, 0, hi)..hi]
  }

  /** At cutoff `ts` the search includes row `i` exactly when its key allows it. */
  predicate ExactAt<V>(rows: seq<Row<V>>, ts: int, i: nat)
    requires i < |rows|
  {
    i < BisectRight(rows, ts, 0, |rows|) <==> rows[i].key <= ts
  }

  /** The search agrees with the keys at every cutoff exactly when the keys are
      in order, which is why a run orders what it loads
      (`EngineLoad`). */
  lemma {:induction false} SearchExactIffSorted<V>(rows: seq<Row<V>>)
    ensures Sorted(rows) <==> forall ts: int, i: nat | i < |rows| :: ExactAt(rows, ts, i)
  {
    if Sorted(rows) {
      forall ts: int, i: nat | i < |rows| ensures ExactAt(rows, ts, i) {
        BisectRightSplits(rows, ts, 0, |rows|);
      }
    } else {
      var i, j :| 0 <= i < j < |rows| && rows[i].key > rows[j].key;
      assert !ExactAt(rows, rows[j].key, j) || !ExactAt(rows, rows[j].key, i);
    }
  }

  /** On an ordered index the window is exactly the rows usable in it. */
  lemma WindowHoldsUsableRows<V>(rows: seq<Row<V>>, ts: int, window: nat)
    requires Sorted(rows)
    ensures exists lo, hi :: 0 <= lo <= hi <= |rows| && WindowBefore(rows, ts, window) == rows[lo..hi]
              && forall i :: 0 <= i < |rows| ==> (lo <= i < hi <==> ts - window <= rows[i].key <= ts)
  {
    var hi := BisectRight(rows, ts, 0, |rows|);
    var lo := BisectLeft(rows, ts - window, 0, hi);
    BisectRightSplits(rows, ts, 0, |rows|);
    BisectLeftSplits(rows, ts - window, 0, hi);
    assert WindowBefore(rows, ts, window) == rows[lo..hi];
  }

  /** The latest row at or before `ts` is the one read: there is none exactly when
      every row is later, and otherwise every row after it is. */
  lemma LatestBeforeIs<V>(rows: seq<Row<V>>, ts: int)
    requires Sorted(rows)
    ensures LatestBefore(rows, ts).None? <==> forall i :: 0 <= i < |rows| ==> ts < rows[i].key
    ensures forall v :: LatestBefore(rows, ts) == Some(v) ==> exists i :: IsLatest(rows, ts, i) && rows[i].value == v
    ensures forall i :: IsLatest(rows, ts, i) ==> LatestBefore(rows, ts) == Some(rows[i].value)
  {
    BisectRightSplits(rows, ts, 0, |rows|);
    var n := BisectRight(rows, ts, 0, |rows|);
    if n > 0 { assert IsLatest(rows, ts, n - 1); }
    forall i | IsLatest(rows, ts, i) ensures i == n - 1 {}
  }

  /** Row `i` is usable at `ts` and no row after it is. */
  predicate IsLatest<V>(rows: seq<Row<V>>, ts: int, i: int) {
    0 <= i < |rows| && rows[i].key <= ts && forall j :: i < j < |rows| ==> ts < rows[j].key
  }

  /** The history is the rows before `ts`, all of them and no other. */
  lemma HistoryHoldsEarlierRows<V>(rows: seq<Row<V>>, ts: int)
    requires Sorted(rows)
    ensures HistoryBefore(rows, ts) <= rows
    ensures forall i :: 0 <= i < |rows| ==> (i < |HistoryBefore(rows, ts)| <==> rows[i].key < ts)
  {
    BisectLeftSplits(rows, ts, 0, |rows|);
  }

  /** The last `count` rows are the end of the history, or all of it when it is
      shorter. */
  lemma LastBeforeEndsHistory<V>(rows: seq<Row<V>>, ts: int, count: nat)
    requires Sorted(rows)
    ensures var (last, history) := (LastBefore(rows, ts, count), HistoryBefore(rows, ts));
      && |last| == (if |history| < count then |history| else count)
      && last == history[|history| - |last|..]
  {}

  // ---- agreement up to a time ----

  /** The rows keyed at or before `limit`, in their order. */
  function KeyedUpTo<V>(rows: seq<Row<V>>, limit: int): seq<Row<V>> {
    if rows == [] then []
    else
      var rest := KeyedUpTo(rows[..|rows| - 1], limit);
      if rows[|rows| - 1].key <= limit then rest + [rows[|rows| - 1]] else rest
  }

  lemma CutOfFront<V>(rows: seq<Row<V>>, limit: int)
    requires Sorted(rows) && rows != []
    ensures var front := rows[..|rows| - 1];
            var n := BisectRight(rows, limit, 0, |rows|);
            BisectRight(front, limit, 0, |front|) == (if n == |rows| then n - 1 else n)
            && (n == |rows| <==> rows[|rows| - 1].key <= limit)
  {
    var front := rows[..|rows| - 1];
    BisectRightSplits(rows, limit, 0, |rows|);
    BisectRightSplits(front, limit, 0, |front|);
    var n, m := BisectRight(rows, limit, 0, |rows|), BisectRight(front, limit, 0, |front|);
    assert m < |front| ==> rows[m].key > limit by { assert m < |front| ==> front[m] == rows[m]; }
    assert n < |front| ==> front[n].key > limit by { assert n < |front| ==> front[n] == rows[n]; }
  }

  lemma {:induction false} KeyedUpToIsPrefix<V>(rows: seq<Row<V>>, limit: int)
    requires Sorted(rows)
    ensures KeyedUpTo(rows, limit) == rows[..BisectRight(rows, limit, 0, |rows|)]
  {
    if rows != [] {
      var front := rows[..|rows| - 1];
      KeyedUpToIsPrefix(front, limit);
      CutOfFront(rows, limit);
      KeyedUpToGrows(rows, limit, BisectRight(front, limit, 0, |front|));
    }
  }

  lemma KeyedUpToGrows<V>(rows: seq<Row<V>>, limit: int, m: nat)
    requires rows != [] && m < |rows| && KeyedUpTo(rows[..|rows| - 1], limit) == rows[..|rows| - 1][..m]
    requires rows[|rows| - 1].key <= limit ==> m == |rows| - 1
    ensures KeyedUpTo(rows, limit) == rows[..if rows[|rows| - 1].key <= limit then |rows| else m]
  {}

  /** Two histories that hold the same rows up to `limit`. */
  predicate AgreeUpTo<V(==)>(a: seq<Row<V>>, b: seq<Row<V>>, limit: int) {
    Sorted(a) && Sorted(b) && KeyedUpTo(a, limit) == KeyedUpTo(b, limit)
  }

  lemma AgreementIsCommonPrefix<V>(a: seq<Row<V>>, b: seq<Row<V>>, limit: int) returns (n: nat)
    requires AgreeUpTo(a, b, limit)
    ensures n <= |a| && n <= |b| && a[..n] == b[..n]
    ensures forall i :: 0 <= i < n ==> a[i].key <= limit && b[i].key <= limit
    ensures forall i :: n <= i < |a| ==> limit < a[i].key
    ensures forall i :: n <= i < |b| ==> limit < b[i].key
  {
    KeyedUpToIsPrefix(a, limit);
    KeyedUpToIsPrefix(b, limit);
    n := BisectRight(a, limit, 0, |a|);
    BisectRightSplits(a, limit, 0, |a|);
    BisectRightSplits(b, limit, 0, |b|);
    assert |a[..n]| == n;
    assert |b[..BisectRight(b, limit, 0, |b|)]| == n;
  }

  lemma SameBisectRight<V>(a: seq<Row<V>>, b: seq<Row<V>>, limit: int, x: int)
    requires AgreeUpTo(a, b, limit) && x <= limit
    ensures BisectRight(a, x, 0, |a|) == BisectRight(b, x, 0, |b|)
    ensures var n := BisectRight(a, x, 0, |a|); a[..n] == b[..n]
  {
    var n := AgreementIsCommonPrefix(a, b, limit);
    BisectRightSplits(a, x, 0, |a|);
    BisectRightSplits(b, x, 0, |b|);
    var p, q := BisectRight(a, x, 0, |a|), BisectRight(b, x, 0, |b|);
    assert n < |a| ==> a[n].key > limit;
    assert n < |b| ==> b[n].key > limit;
    assert p < n ==> a[p] == a[..n][p] == b[..n][p] == b[p];
    assert q < n ==> a[q] == a[..n][q] == b[..n][q] == b[q];
    assert p == q;
    assert a[..p] == a[..n][..p] == b[..n][..p] == b[..p];
  }

  /** Integer keys: strictly below x is at most x - 1. */
  lemma LeftIsRightBelow<V>(rows: seq<Row<V>>, x: int, hi: nat)
    requires Sorted(rows) && hi <= |rows|
    ensures BisectLeft(rows, x, 0, hi) == BisectRight(rows, x - 1, 0, hi)
  {
    BisectLeftSplits(rows, x, 0, hi);
    BisectRightSplits(rows, x - 1, 0, hi);
    var p, q := BisectLeft(rows, x, 0, hi), BisectRight(rows, x - 1, 0, hi);
    assert p < hi ==> rows[p].key >= x;
    assert q < hi ==> rows[q].key > x - 1;
  }

  /** Searching inside a prefix that already holds every row at or below `x`
      finds the same place as searching the whole list. */
  lemma SearchInPrefix<V>(rows: seq<Row<V>>, x: int, hi: nat)
    requires Sorted(rows) && BisectRight(rows, x, 0, |rows|) <= hi <= |rows|
    ensures BisectRight(rows, x, 0, hi) == BisectRight(rows, x, 0, |rows|)
  {
    BisectRightSplits(rows, x, 0, hi);
    BisectRightSplits(rows, x, 0, |rows|);
    var p, q := BisectRight(rows, x, 0, hi), BisectRight(rows, x, 0, |rows|);
    assert p < |rows| ==> p < hi || p == hi;
    assert q < |rows| ==> rows[q].key > x;
    assert p < hi ==> rows[p].key > x;
  }

  lemma CutsAreMonotone<V>(rows: seq<Row<V>>, x: int, y: int)
    requires Sorted(rows) && x <= y
    ensures BisectRight(rows, x, 0, |rows|) <= BisectRight(rows, y, 0, |rows|)
  {
    BisectRightSplits(rows, x, 0, |rows|);
    BisectRightSplits(rows, y, 0, |rows|);
    var q := BisectRight(rows, y, 0, |rows|);
    assert q < |rows| ==> rows[q].key > y;
  }

  lemma SameSubrange<V>(a: seq<Row<V>>, b: seq<Row<V>>, n: nat, from: nat)
    requires from <= n <= |a| && n <= |b| && a[..n] == b[..n]
    ensures a[from..n] == b[from..n]
  {}

  lemma SameWindow<V>(a: seq<Row<V>>, b: seq<Row<V>>, limit: int, ts: int, window: nat)
    requires AgreeUpTo(a, b, limit) && ts <= limit
    ensures WindowBefore(a, ts, window) == WindowBefore(b, ts, window)
  {
    SameBisectRight(a, b, limit, ts);
    SameLowerEdge(a, ts, window);
    SameLowerEdge(b, ts, window);
    SameBisectRight(a, b, limit, ts - window - 1);
    var n := BisectRight(a, ts, 0, |a|);
    SameSubrange(a, b, n, BisectLeft(a, ts - window, 0, n));
  }

  lemma SameEarlier<V>(a: seq<Row<V>>, b: seq<Row<V>>, limit: int, ts: int)
    requires AgreeUpTo(a, b, limit) && ts <= limit
    ensures HistoryBefore(a, ts) == HistoryBefore(b, ts)
  {
    LeftIsRightBelow(a, ts, |a|);
    LeftIsRightBelow(b, ts, |b|);
    SameBisectRight(a, b, limit, ts - 1);
  }

  lemma SameTail<V>(a: seq<Row<V>>, b: seq<Row<V>>, limit: int, ts: int, count: nat)
    requires AgreeUpTo(a, b, limit) && ts <= limit
    ensures LastBefore(a, ts, count) == LastBefore(b, ts, count)
  {
    SameEarlier(a, b, limit, ts);
    var m := BisectLeft(a, ts, 0, |a|);
    SameSubrange(a, b, m, if m < count then 0 else m - count);
  }

  lemma SameLatest<V>(a: seq<Row<V>>, b: seq<Row<V>>, limit: int, ts: int)
    requires AgreeUpTo(a, b, limit) && ts <= limit
    ensures LatestBefore(a, ts) == LatestBefore(b, ts)
  {
    SameBisectRight(a, b, limit, ts);
    var n := BisectRight(a, ts, 0, |a|);
    assert n > 0 ==> a[n - 1] == a[..n][n - 1] && b[n - 1] == b[..n][n - 1];
  }

  /** No slice taken at or before `limit` can tell the two histories apart. */
  lemma SlicesAgree<V>(a: seq<Row<V>>, b: seq<Row<V>>, limit: int, ts: int, count: nat, window: nat)
    requires AgreeUpTo(a, b, limit) && ts <= limit
    ensures LatestBefore(a, ts) == LatestBefore(b, ts)
    ensures HistoryBefore(a, ts) == HistoryBefore(b, ts)
    ensures LastBefore(a, ts, count) == LastBefore(b, ts, count)
    ensures WindowBefore(a, ts, window) == WindowBefore(b, ts, window)
  {
    SameLatest(a, b, limit, ts);
    SameEarlier(a, b, limit, ts);
    SameTail(a, b, limit, ts, count);
    SameWindow(a, b, limit, ts, window);
  }

  lemma SameLowerEdge<V>(rows: seq<Row<V>>, ts: int, window: nat)
    requires Sorted(rows)
    ensures BisectLeft(rows, ts - window, 0, BisectRight(rows, ts, 0, |rows|))
         == BisectRight(rows, ts - window - 1, 0, |rows|)
  {
    hide BisectLeft, BisectRight;
    var n := BisectRight(rows, ts, 0, |rows|);
    CutsAreMonotone(rows, ts - window - 1, ts);
    LeftIsRightBelow(rows, ts - window, n);
    SearchInPrefix(rows, ts - window - 1, n);
  }
}
