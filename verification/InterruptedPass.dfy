/** Recovery from an interrupted reconciliation of any snapshot, repeated order ids
    included. What had reached the disk is the registry as the last adoption found it;
    re-running the pass from there ends alike exactly when no order is unstable at it. */
module InterruptedPass {
  import opened Wrappers
  import opened OrderTracker
  import opened TrackerLaws
  import opened ReconcileTwice

  /** Record `i` is of an order that neither the registry nor an earlier record knows. */
  predicate Adopts(orders: Orders, raws: seq<RawOrder>, i: nat) {
    i < |raws| && Usable(raws[i]) && raws[i].clientId !in orders && FirstRecord(raws, raws[i].clientId, i).None?
  }

  /** The last of the first `k` records to adopt an order, which writes the disk. */
  function LastAdoption(orders: Orders, raws: seq<RawOrder>, k: nat): (r: Option<nat>)
    ensures r.Some? ==> r.value < k && Adopts(orders, raws, r.value)
  {
    if k == 0 then None
    else if Adopts(orders, raws, k - 1) then Some(k - 1)
    else LastAdoption(orders, raws, k - 1)
  }

  /** How many records the disk has seen when a pass stops after `k` of them. */
  function OnDisk(orders: Orders, raws: seq<RawOrder>, k: nat): nat {
    var last := LastAdoption(orders, raws, k);
    if last.Some? then last.value else 0
  }

  lemma {:induction false} FoldExists(before: Option<TrackedOrder>, raws: seq<RawOrder>, id: string, k: nat)
    ensures FoldCore(before, raws, id, k).Some? <==> before.Some? || FirstRecord(raws, id, k).Some?
  {
    hide MergedCore;
    if k > 0 { FoldExists(before, raws, id, k - 1); }
  }

  /** An adoption writes the registry it found, with the new order; nothing else writes. */
  lemma DiskOne(t: Tracker, raw: RawOrder, registered: int, updated: int, id: string)
    ensures var after := ReconcileOne(t, raw, registered, updated);
      if Usable(raw) && raw.clientId !in t.orders
      then CoreAt(after.disk, id) == if id == raw.clientId then Some(Core(Adopted(raw, 0))) else CoreAt(t.orders, id)
      else after.disk == t.disk
  {}

  /** What is on disk of one order when a pass stops after `k` records. */
  lemma {:induction false} DiskFolds(orders: Orders, raws: seq<RawOrder>, clock: Clock, k: nat, id: string)
    requires k <= |raws|
    ensures var last := LastAdoption(orders, raws, k);
      CoreAt(ReconcileUpTo(Tracker(orders, orders), raws, clock, k).disk, id)
        == if last.Some? && raws[last.value].clientId == id then Some(Core(Adopted(raws[last.value], 0)))
           else FoldCore(CoreAt(orders, id), raws, id, OnDisk(orders, raws, k))
  {
    hide FoldCore, ReconcileOne, Core;
    if k == 0 {
      NothingFolded(CoreAt(orders, id), raws, id);
    } else {
      var t := Tracker(orders, orders);
      var before, raw := ReconcileUpTo(t, raws, clock, k - 1), raws[k - 1];
      DiskFolds(orders, raws, clock, k - 1, id);
      DiskOne(before, raw, clock.registered(k - 1), clock.updated(k - 1), id);
      PassFolds(t, raws, clock, k - 1, id);
      PassFolds(t, raws, clock, k - 1, raw.clientId);
      FoldExists(CoreAt(orders, raw.clientId), raws, raw.clientId, k - 1);
      assert Usable(raw) && raw.clientId !in before.orders <==> Adopts(orders, raws, k - 1);
    }
  }

  lemma NothingFolded(before: Option<TrackedOrder>, raws: seq<RawOrder>, id: string)
    ensures FoldCore(before, raws, id, 0) == before
  {}

  lemma {:induction false} DiskSound(t: Tracker, raws: seq<RawOrder>, clock: Clock, k: nat)
    requires k <= |raws| && SoundOrders(t.orders) && SoundOrders(t.disk)
    ensures SoundOrders(ReconcileUpTo(t, raws, clock, k).disk)
  {
    hide Merge;
    if k > 0 {
      DiskSound(t, raws, clock, k - 1);
      ReconcileSound(t, raws, clock, k - 1);
    }
  }

  /** A pass started from the disk starts every order where the records seen by the
      disk had left it. */
  lemma DiskStarts(orders: Orders, raws: seq<RawOrder>, clock: Clock, k: nat, id: string)
    requires k <= |raws| && SoundOrders(orders)
    ensures var (start, again) := (Starting(orders, raws, id),
              Starting(ReconcileUpTo(Tracker(orders, orders), raws, clock, k).disk, raws, id));
      && again == (if start.Some? then Some(Folded(start.value, raws, id, OnDisk(orders, raws, k))) else None)
      && (start.Some? ==> SoundOrder(id, start.value))
  {
    hide ReconcileUpTo, Folded, FoldCore;
    var disk := ReconcileUpTo(Tracker(orders, orders), raws, clock, k).disk;
    var j := OnDisk(orders, raws, k);
    var start := Starting(orders, raws, id);
    DiskFolds(orders, raws, clock, k, id);
    var last := LastAdoption(orders, raws, k);
    if last.Some? { assert RecordAt(raws, raws[last.value].clientId, j); }
    if start.Some? {
      FoldIsFolded(start.value, raws, id, j);
      if id !in orders {
        var first := FirstRecord(raws, id, |raws|).value;
        AdoptedFold(raws, id, first, j);
        if last.Some? && raws[j].clientId == id { assert first == j; }
        assert id in disk ==> Some(Core(disk[id])) == CoreAt(disk, id);
      }
    } else {
      FoldExists(None, raws, id, j);
    }
  }

  /** Re-running an interrupted pass reaches the orders that the uninterrupted one
      reaches, timestamps aside, if and only if no order is unstable at what the disk
      had seen. */
  lemma RerunConvergesIff(
      orders: Orders, raws: seq<RawOrder>, crashed: Clock, rerun: Clock, whole: Clock, k: nat)
    requires SoundOrders(orders) && k <= |raws|
    ensures var disk := ReconcileUpTo(Tracker(orders, orders), raws, crashed, k).disk;
      SameOrders(Reconciled(disk, raws, rerun), Reconciled(orders, raws, whole))
      <==> forall id: string :: !UnstableAt(orders, raws, id, OnDisk(orders, raws, k))
  {
    hide ReconcileUpTo, Reconciled, Folded, ChangedFrom, Starting;
    var disk := ReconcileUpTo(Tracker(orders, orders), raws, crashed, k).disk;
    DiskSound(Tracker(orders, orders), raws, crashed, k);
    forall id: string
      ensures CoreAt(Reconciled(disk, raws, rerun), id) != CoreAt(Reconciled(orders, raws, whole), id)
              <==> UnstableAt(orders, raws, id, OnDisk(orders, raws, k))
    {
      DiskStarts(orders, raws, crashed, k, id);
      PassInClosedForm(orders, raws, whole, id);
      PassInClosedForm(disk, raws, rerun, id);
      var start := Starting(orders, raws, id);
      if start.Some? { FoldedAgain(start.value, raws, id, OnDisk(orders, raws, k)); }
    }
  }

  /** Such an interruption: a cancelled order gets an unknown word and then a fill,
      and the adoption of another order writes that to disk. The uninterrupted pass
      leaves the first order cancelled, a rerun makes it partial. */
  lemma RerunDiverges(crashed: Clock, rerun: Clock, whole: Clock)
    ensures var orders := map["a" := TrackedOrder("a", None, "m", 2.0, 0.0, Cancelled, 0, 0, None, None)];
            var raws := [RawOrder("a", 2.0, "m", None, None, Some(Other)),
                         RawOrder("a", 2.0, "m", None, Some(1.0), None),
                         RawOrder("b", 1.0, "m", None, None, None)];
            !SameOrders(Reconciled(ReconcileUpTo(Tracker(orders, orders), raws, crashed, 3).disk, raws, rerun),
                        Reconciled(orders, raws, whole))
  {
    var orders := map["a" := TrackedOrder("a", None, "m", 2.0, 0.0, Cancelled, 0, 0, None, None)];
    var raws := [RawOrder("a", 2.0, "m", None, None, Some(Other)), RawOrder("a", 2.0, "m", None, Some(1.0), None),
                 RawOrder("b", 1.0, "m", None, None, None)];
    assert RecordAt(raws, "a", 0) && RecordAt(raws, "a", 1) && !RecordAt(raws, "a", 2);
    assert AfterLastWord(raws, "a", 1) == 1 && AfterLastWord(raws, "a", 2) == 1;
    assert Adopts(orders, raws, 2) && OnDisk(orders, raws, 3) == 2;
    assert Largest(raws, "a", 0.0, 1) == 0.0 && Largest(raws, "a", 0.0, 2) == 1.0;
    assert UnstableAt(orders, raws, "a", 2);
    RerunConvergesIff(orders, raws, crashed, rerun, whole, 3);
  }
}
