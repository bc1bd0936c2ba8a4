/** Laws of the order registry: what every operation keeps, and why an
    interrupted reconciliation can simply be run again. */
module TrackerLaws {
  import opened Wrappers
  import opened OrderTracker

  // ---- what every operation keeps ----

  /** Fills lie between nothing and the request, and "filled" means nothing remains. */
  predicate SoundOrder(id: string, o: TrackedOrder) {
    && o.clientId == id
    && 0.0 < o.requested && 0.0 <= o.filled <= o.requested
    && (o.status == Filled <==> Remaining(o) == 0.0)
  }

  predicate SoundOrders(orders: Orders) {
    forall id :: id in orders ==> SoundOrder(id, orders[id])
  }

  /** The same order, with no fill taken back. */
  predicate Progresses(before: TrackedOrder, after: TrackedOrder) {
    && after.clientId == before.clientId && after.brokerId == before.brokerId
    && after.ticker == before.ticker && after.requested == before.requested
    && after.createdAt == before.createdAt
    && before.filled <= after.filled
  }

  predicate OrdersProgress(before: Orders, after: Orders) {
    forall id :: id in before ==> id in after && Progresses(before[id], after[id])
  }

  datatype Operation =
    | RegisterOrder(id: string, ticker: string, requested: real, brokerId: Option<string>, now: int)
    | FillOrder(id: string, quantity: real, price: Option<real>, now: int)
    | CancelOrder(id: string, reason: string, now: int)
    | ReconcileWith(raws: seq<RawOrder>, clock: Clock)

  /** An operation's effect on the registry; one that raises changes nothing.
      Cancelling stale orders is a sequence of `CancelOrder`. */
  function Apply(orders: Orders, op: Operation): Orders {
    match op
    case RegisterOrder(id, ticker, requested, brokerId, now) =>
      if requested <= 0.0 || id in orders then orders
      else orders[id := NewOrder(id, ticker, requested, brokerId, now)]
    case FillOrder(id, quantity, price, now) =>
      if quantity <= 0.0 || id !in orders then orders
      else orders[id := AfterFill(orders[id], quantity, price, now)]
    case CancelOrder(id, reason, now) =>
      if id !in orders then orders else orders[id := AfterCancel(orders[id], reason, now)]
    case ReconcileWith(raws, clock) => Reconciled(orders, raws, clock)
  }

  function After(orders: Orders, ops: seq<Operation>, k: nat): Orders
    requires k <= |ops|
  {
    if k == 0 then orders else Apply(After(orders, ops, k - 1), ops[k - 1])
  }

  lemma MergeSound(id: string, o: TrackedOrder, raw: RawOrder, now: int)
    requires SoundOrder(id, o)
    ensures SoundOrder(id, Merge(o, raw, now)) && Progresses(o, Merge(o, raw, now))
  {}

  lemma {:induction false} ReconcileSound(t: Tracker, raws: seq<RawOrder>, clock: Clock, k: nat)
    requires k <= |raws| && SoundOrders(t.orders)
    ensures SoundOrders(ReconcileUpTo(t, raws, clock, k).orders)
    ensures OrdersProgress(t.orders, ReconcileUpTo(t, raws, clock, k).orders)
  {
    hide Merge;
    if k > 0 {
      ReconcileSound(t, raws, clock, k - 1);
      var before, raw := ReconcileUpTo(t, raws, clock, k - 1), raws[k - 1];
      if Usable(raw) {
        var o := if raw.clientId in before.orders then before.orders[raw.clientId]
            else Adopted(raw, clock.registered(k - 1));
        MergeSound(raw.clientId, o, raw, clock.updated(k - 1));
      }
    }
  }

  lemma StepSound(orders: Orders, op: Operation)
    requires SoundOrders(orders)
    ensures SoundOrders(Apply(orders, op)) && OrdersProgress(orders, Apply(orders, op))
  {
    if op.ReconcileWith? { ReconcileSound(Tracker(orders, orders), op.raws, op.clock, |op.raws|); }
  }

  /** Over any operations fills only grow inside [0, requested], an order is
      "filled" exactly when nothing remains, and its identity never changes. */
  lemma {:induction false} FillsOnlyGrow(orders: Orders, ops: seq<Operation>, j: nat, k: nat)
    requires j <= k <= |ops| && SoundOrders(orders)
    ensures SoundOrders(After(orders, ops, k))
    ensures OrdersProgress(After(orders, ops, j), After(orders, ops, k))
    decreases k
  {
    if j < k {
      FillsOnlyGrow(orders, ops, j, k - 1);
      StepSound(After(orders, ops, k - 1), ops[k - 1]);
    } else if k > 0 {
      FillsOnlyGrow(orders, ops, k - 1, k - 1);
      StepSound(After(orders, ops, k - 1), ops[k - 1]);
    }
  }

  // ---- timestamps aside ----

  function Core(o: TrackedOrder): TrackedOrder { o.(createdAt := 0, updatedAt := 0) }

  function CoreAt(orders: Orders, id: string): Option<TrackedOrder> {
    if id in orders then Some(Core(orders[id])) else None
  }

  /** The same orders, timestamps aside. */
  ghost predicate SameOrders(a: Orders, b: Orders) {
    forall id: string :: CoreAt(a, id) == CoreAt(b, id)
  }

  /** What a pass does to one order's core when the snapshot has a usable record of it. */
  function MergedCore(before: Option<TrackedOrder>, raw: RawOrder): TrackedOrder {
    Core(Merge(if before.Some? then before.value else Core(Adopted(raw, 0)), raw, 0))
  }

  /** Merging the same record twice is merging it once. */
  lemma MergeIdempotent(before: Option<TrackedOrder>, raw: RawOrder)
    ensures MergedCore(Some(MergedCore(before, raw)), raw) == MergedCore(before, raw)
  {}

  // ---- a snapshot with distinct ids ----

  predicate DistinctIds(raws: seq<RawOrder>) {
    forall i, j :: 0 <= i < j < |raws| && Usable(raws[i]) && Usable(raws[j]) ==> raws[i].clientId != raws[j].clientId
  }

  /** The snapshot's record `i` is a usable one of `id`. */
  predicate RecordAt(raws: seq<RawOrder>, id: string, i: nat) {
    i < |raws| && Usable(raws[i]) && raws[i].clientId == id
  }

  lemma ReconcileOneCore(t: Tracker, raw: RawOrder, registered: int, updated: int, id: string)
    ensures var after := ReconcileOne(t, raw, registered, updated);
      if Usable(raw) && raw.clientId == id
      then CoreAt(after.orders, id) == Some(MergedCore(CoreAt(t.orders, id), raw))
           && (after.disk == t.disk || CoreAt(after.disk, id) == Some(Core(Adopted(raw, 0))))
      else CoreAt(after.orders, id) == CoreAt(t.orders, id)
           && (after.disk == t.disk || CoreAt(after.disk, id) == CoreAt(t.orders, id))
  {}

  /** A pass treats every order by itself: each is merged with its own record,
      and anything the snapshot does not name is left alone. */
  lemma {:induction false} ReconcileByOrder(t: Tracker, raws: seq<RawOrder>, clock: Clock, k: nat, id: string)
    requires k <= |raws| && DistinctIds(raws)
    ensures forall i: nat :: RecordAt(raws, id, i) && i < k ==>
      CoreAt(ReconcileUpTo(t, raws, clock, k).orders, id) == Some(MergedCore(CoreAt(t.orders, id), raws[i]))
    ensures (forall i: nat :: RecordAt(raws, id, i) ==> k <= i) ==>
      CoreAt(ReconcileUpTo(t, raws, clock, k).orders, id) == CoreAt(t.orders, id)
  {
    hide MergedCore;
    if k > 0 {
      ReconcileByOrder(t, raws, clock, k - 1, id);
      ReconcileOneCore(ReconcileUpTo(t, raws, clock, k - 1), raws[k - 1], clock.registered(k - 1),
          clock.updated(k - 1), id);
      if RecordAt(raws, id, k - 1) {
        assert forall i: nat :: RecordAt(raws, id, i) ==> i == k - 1;
      }
    }
  }

  /** Reconciling a snapshot with distinct ids a second time changes nothing. */
  lemma ReconcileIdempotent(orders: Orders, raws: seq<RawOrder>, first: Clock, second: Clock)
    requires DistinctIds(raws)
    ensures SameOrders(Reconciled(Reconciled(orders, raws, first), raws, second), Reconciled(orders, raws, first))
  {
    hide MergedCore, ReconcileUpTo;
    var once := Reconciled(orders, raws, first);
    forall id: string ensures CoreAt(Reconciled(once, raws, second), id) == CoreAt(once, id) {
      ReconcileByOrder(Tracker(orders, orders), raws, first, |raws|, id);
      ReconcileByOrder(Tracker(once, once), raws, second, |raws|, id);
      if i: nat :| RecordAt(raws, id, i) {
        MergeIdempotent(CoreAt(orders, id), raws[i]);
      }
    }
  }

  // ---- interruption ----

  /** What a crash can leave of one order on disk: its core before the pass, the
      core of a fresh adoption, or its merged core. */
  lemma {:induction false} DiskByOrder(orders: Orders, raws: seq<RawOrder>, clock: Clock, k: nat, id: string)
    requires k <= |raws| && DistinctIds(raws)
    ensures var onDisk := CoreAt(ReconcileUpTo(Tracker(orders, orders), raws, clock, k).disk, id);
      || onDisk == CoreAt(orders, id)
      || exists i: nat :: RecordAt(raws, id, i) && i < k &&
           ((CoreAt(orders, id).None? && onDisk == Some(Core(Adopted(raws[i], 0))))
            || onDisk == Some(MergedCore(CoreAt(orders, id), raws[i])))
  {
    hide MergedCore;
    if k > 0 {
      DiskByOrder(orders, raws, clock, k - 1, id);
      var t := Tracker(orders, orders);
      var before := ReconcileUpTo(t, raws, clock, k - 1);
      ReconcileByOrder(t, raws, clock, k - 1, id);
      ReconcileOneCore(before, raws[k - 1], clock.registered(k - 1), clock.updated(k - 1), id);
      if RecordAt(raws, id, k - 1) {
        assert forall i: nat :: RecordAt(raws, id, i) ==> i == k - 1;
        AdoptionMeansAbsent(before, raws[k - 1], clock.registered(k - 1), clock.updated(k - 1));
      }
    }
  }

  /** Disk is written mid-pass only for an order that was not there before. */
  lemma AdoptionMeansAbsent(t: Tracker, raw: RawOrder, registered: int, updated: int)
    ensures ReconcileOne(t, raw, registered, updated).disk != t.disk ==> CoreAt(t.orders, raw.clientId).None?
  {}

  /** Recovery from a crash at any point of a pass: reopening the registry on
      whatever had reached the disk and reconciling the same snapshot gives the
      orders an uninterrupted pass would have given. */
  lemma InterruptedPassConverges(
      orders: Orders, raws: seq<RawOrder>, crashed: Clock, rerun: Clock, whole: Clock, k: nat)
    requires DistinctIds(raws) && k <= |raws|
    ensures var onDisk := ReconcileUpTo(Tracker(orders, orders), raws, crashed, k).disk;
            SameOrders(Reconciled(onDisk, raws, rerun), Reconciled(orders, raws, whole))
  {
    hide MergedCore, ReconcileUpTo;
    var onDisk := ReconcileUpTo(Tracker(orders, orders), raws, crashed, k).disk;
    forall id: string
      ensures CoreAt(Reconciled(onDisk, raws, rerun), id) == CoreAt(Reconciled(orders, raws, whole), id)
    {
      DiskByOrder(orders, raws, crashed, k, id);
      ReconcileByOrder(Tracker(onDisk, onDisk), raws, rerun, |raws|, id);
      ReconcileByOrder(Tracker(orders, orders), raws, whole, |raws|, id);
      if CoreAt(onDisk, id) != CoreAt(orders, id) {
        var i: nat :| RecordAt(raws, id, i) && i < k &&
           ((CoreAt(orders, id).None? && CoreAt(onDisk, id) == Some(Core(Adopted(raws[i], 0))))
            || CoreAt(onDisk, id) == Some(MergedCore(CoreAt(orders, id), raws[i])));
        MergeIdempotent(CoreAt(orders, id), raws[i]);
        AdoptedThenMerged(raws[i]);
      }
    }
  }

  lemma AdoptedThenMerged(raw: RawOrder)
    ensures MergedCore(Some(Core(Adopted(raw, 0))), raw) == MergedCore(None, raw)
  {}
}
