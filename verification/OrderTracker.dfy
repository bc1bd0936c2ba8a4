/** The persistent order registry: client order ids, fills that only grow, and
    reconciliation against the broker's own view after a restart. */
module OrderTracker {
  import opened Wrappers

  datatype Status = Pending | Partial | Filled | Cancelled | Rejected

  /** The broker's status words that matter; `Other` is any other word. */
  datatype RemoteStatus = RemoteCancelled | RemoteCanceled | RemoteClosed | RemoteRejected | Other

  datatype TrackedOrder = TrackedOrder(
    clientId: string, brokerId: Option<string>, ticker: string, requested: real, filled: real,
    status: Status, createdAt: int, updatedAt: int,
    lastFillPrice: Option<real>, cancelReason: Option<string>)

  /** One order in the broker's snapshot. The empty id stands for a missing one. */
  datatype RawOrder = RawOrder(
    clientId: string, requested: real, ticker: string, orderId: Option<string>,
    filled: Option<real>, status: Option<RemoteStatus>)

  datatype TrackerError = NonPositiveQuantity | ConflictingDetails | UnknownOrder | NegativeAge

  type Orders = map<string, TrackedOrder>

  function Max(x: real, y: real): real { if x >= y then x else y }
  function Min(x: real, y: real): real { if x <= y then x else y }

  function Remaining(o: TrackedOrder): real { Max(0.0, o.requested - o.filled) }

  // ---- single operations ----

  function NewOrder(id: string, ticker: string, requested: real, brokerId: Option<string>, now: int): TrackedOrder {
    TrackedOrder(id, brokerId, ticker, requested, 0.0, Pending, now, now, None, None)
  }

  function AfterFill(o: TrackedOrder, quantity: real, price: Option<real>, now: int): TrackedOrder {
    var grown := o.(filled := Min(o.requested, o.filled + quantity), lastFillPrice := price);
    grown.(status := if Remaining(grown) == 0.0 then Filled else Partial, updatedAt := now)
  }

  function AfterCancel(o: TrackedOrder, reason: string, now: int): TrackedOrder {
    if Remaining(o) > 0.0 then o.(status := Cancelled, cancelReason := Some(reason), updatedAt := now) else o
  }

  predicate IsStale(o: TrackedOrder, now: int, maxAge: int) {
    o.status in {Pending, Partial} && now - o.createdAt >= maxAge && Remaining(o) > 0.0
  }

  // ---- reconciliation ----

  function RemoteOf(status: Status): RemoteStatus {
    match status
    case Cancelled => RemoteCancelled
    case Rejected => RemoteRejected
    case _ => Other
  }

  /** Merges one broker record into the local one. */
  function Merge(o: TrackedOrder, raw: RawOrder, now: int): TrackedOrder {
    var reported := if raw.filled.Some? then raw.filled.value else o.filled;
    var grown := o.(filled := Min(o.requested, Max(o.filled, reported)));
    var remote := if raw.status.Some? then raw.status.value else RemoteOf(o.status);
    var status :=
      if Remaining(grown) == 0.0 then Filled
      else if remote in {RemoteCancelled, RemoteCanceled, RemoteClosed} then Cancelled
      else if remote == RemoteRejected then Rejected
      else if grown.filled > 0.0 then Partial
      else o.status;
    grown.(status := status, updatedAt := now)
  }

  predicate Usable(raw: RawOrder) { raw.clientId != "" && raw.requested > 0.0 }

  function Adopted(raw: RawOrder, now: int): TrackedOrder {
    NewOrder(raw.clientId, raw.ticker, raw.requested, raw.orderId, now)
  }

  /** The registry in memory and its persisted copy. */
  datatype Tracker = Tracker(orders: Orders, disk: Orders)

  /** The clock readings of one reconciliation, by position in the snapshot. */
  datatype Clock = Clock(registered: nat -> int, updated: nat -> int)

  /** Adopting an unknown order writes the whole registry to disk at once; the
      merge that follows is only in memory until the pass ends. */
  function ReconcileOne(t: Tracker, raw: RawOrder, registered: int, updated: int): Tracker {
    if !Usable(raw) then t
    else if raw.clientId in t.orders then
      t.(orders := t.orders[raw.clientId := Merge(t.orders[raw.clientId], raw, updated)])
    else
      var adopted := t.orders[raw.clientId := Adopted(raw, registered)];
      Tracker(adopted[raw.clientId := Merge(adopted[raw.clientId], raw, updated)], adopted)
  }

  function ReconcileUpTo(t: Tracker, raws: seq<RawOrder>, clock: Clock, k: nat): Tracker
    requires k <= |raws|
  {
    if k == 0 then t
    else ReconcileOne(ReconcileUpTo(t, raws, clock, k - 1), raws[k - 1], clock.registered(k - 1), clock.updated(k - 1))
  }

  function Reconciled(orders: Orders, raws: seq<RawOrder>, clock: Clock): Orders {
    ReconcileUpTo(Tracker(orders, orders), raws, clock, |raws|).orders
  }

  // ---- what each operation makes of an order ----

  /** A fill adds its quantity up to the request; what it covers is filled, what it does
      not is partial. */
  lemma FillAdds(o: TrackedOrder, quantity: real, price: Option<real>, now: int)
    requires quantity > 0.0
    ensures var covered := o.filled + quantity >= o.requested;
      AfterFill(o, quantity, price, now)
        == TrackedOrder(o.clientId, o.brokerId, o.ticker, o.requested,
                        if covered then o.requested else o.filled + quantity,
                        if covered then Filled else Partial, o.createdAt, now, price, o.cancelReason)
  {}

  /** An order is cancelled exactly when something of it is left. */
  lemma CancelsIff(o: TrackedOrder, reason: string, now: int)
    ensures if o.filled < o.requested
            then AfterCancel(o, reason, now)
                   == TrackedOrder(o.clientId, o.brokerId, o.ticker, o.requested, o.filled, Cancelled, o.createdAt, now,
                                   o.lastFillPrice, Some(reason))
            else AfterCancel(o, reason, now) == o
  {}

  /** An order is stale when it works, has something left, and is as old as that. */
  lemma StaleIff(o: TrackedOrder, now: int, maxAge: int)
    ensures IsStale(o, now, maxAge) <==>
      (o.status == Pending || o.status == Partial) && o.filled < o.requested && o.createdAt + maxAge <= now
  {}

  /** A new order is pending, with nothing filled; an adopted one is new, as the broker
      describes it. */
  lemma NewIsPending(id: string, ticker: string, requested: real, brokerId: Option<string>, raw: RawOrder, now: int)
    ensures NewOrder(id, ticker, requested, brokerId, now)
         == TrackedOrder(id, brokerId, ticker, requested, 0.0, Pending, now, now, None, None)
    ensures Adopted(raw, now)
         == TrackedOrder(raw.clientId, raw.orderId, raw.ticker, raw.requested, 0.0, Pending, now, now, None, None)
  {}

  /** A record raises the fill to what it reports, within the request; a full order is
      filled whatever its word, else a word that ends it ends it, else a fill makes it
      partial. The merge is stamped, and nothing else changes. */
  lemma MergeIs(o: TrackedOrder, raw: RawOrder, now: int)
    requires 0.0 <= o.filled <= o.requested
    ensures var merged := Merge(o, raw, now);
      && merged == o.(filled := merged.filled, status := merged.status, updatedAt := now)
      && merged.filled == (if raw.filled.None? || raw.filled.value <= o.filled then o.filled
                           else if raw.filled.value >= o.requested then o.requested else raw.filled.value)
      && merged.status == (
           if merged.filled == o.requested then Filled
           else if raw.status in {Some(RemoteCancelled), Some(RemoteCanceled), Some(RemoteClosed)} then Cancelled
           else if raw.status == Some(RemoteRejected) then Rejected
           else if raw.status.None? && o.status in {Cancelled, Rejected} then o.status
           else if merged.filled > 0.0 then Partial
           else o.status)
  {}

  /** A record without an id or with nothing requested is passed over; one of a known
      order is merged into it in memory; one of an unknown order is first registered,
      which writes every order to disk. No other order is touched. */
  lemma RecordIs(t: Tracker, raw: RawOrder, registered: int, updated: int)
    ensures var after := ReconcileOne(t, raw, registered, updated);
            var usable := |raw.clientId| > 0 && raw.requested > 0.0;
            var novel := TrackedOrder(raw.clientId, raw.orderId, raw.ticker, raw.requested, 0.0, Pending, registered,
                                      registered, None, None);
      && (!usable ==> after == t)
      && (usable && raw.clientId in t.orders ==>
            after.disk == t.disk
            && after.orders == t.orders[raw.clientId := Merge(t.orders[raw.clientId], raw, updated)])
      && (usable && raw.clientId !in t.orders ==>
            after.disk == t.orders[raw.clientId := novel]
            && after.orders == t.orders[raw.clientId := Merge(novel, raw, updated)])
  {
    hide Merge;
  }

  class OrderTracker {
    var orders: Orders
    var disk: Orders

    ghost function State(): Tracker
      reads this
    {
      Tracker(orders, disk)
    }

    /** Opens the registry on whatever was persisted. */
    constructor (persisted: Orders)
      ensures State() == Tracker(persisted, persisted)
    {
      orders := persisted;
      disk := persisted;
    }

    method Save()
      modifies this`disk
      ensures disk == orders
    {
      disk := orders;
    }

    /** A retry with the same details returns the existing record. */
    method Register(id: string, ticker: string, requested: real, brokerId: Option<string>, now: int)
        returns (r: Result<TrackedOrder, TrackerError>)
      modifies this
      ensures requested <= 0.0 ==> r == Err(NonPositiveQuantity) && State() == old(State())
      ensures requested > 0.0 && id in old(orders) ==>
        State() == old(State()) &&
        r == if old(orders)[id].ticker == ticker && old(orders)[id].requested == requested
             then Ok(old(orders)[id]) else Err(ConflictingDetails)
      ensures requested > 0.0 && id !in old(orders) ==>
        orders == old(orders)[id := NewOrder(id, ticker, requested, brokerId, now)] && disk == orders &&
        r == Ok(orders[id])
    {
      if requested <= 0.0 { return Err(NonPositiveQuantity); }
      if id in orders {
        var existing := orders[id];
        if existing.ticker != ticker || existing.requested != requested { return Err(ConflictingDetails); }
        return Ok(existing);
      }
      orders := orders[id := NewOrder(id, ticker, requested, brokerId, now)];
      Save();
      r := Ok(orders[id]);
    }

    method RecordFill(id: string, quantity: real, price: Option<real>, now: int)
        returns (r: Result<TrackedOrder, TrackerError>)
      modifies this
      ensures quantity <= 0.0 ==> r == Err(NonPositiveQuantity) && State() == old(State())
      ensures quantity > 0.0 && id !in old(orders) ==> r == Err(UnknownOrder) && State() == old(State())
      ensures quantity > 0.0 && id in old(orders) ==>
        orders == old(orders)[id := AfterFill(old(orders)[id], quantity, price, now)]
        && disk == orders && r == Ok(orders[id])
    {
      if quantity <= 0.0 { return Err(NonPositiveQuantity); }
      if id !in orders { return Err(UnknownOrder); }
      var o := orders[id];
      o := o.(filled := Min(o.requested, o.filled + quantity));
      o := o.(lastFillPrice := price);
      o := o.(status := if Remaining(o) == 0.0 then Filled else Partial);
      o := o.(updatedAt := now);
      orders := orders[id := o];
      Save();
      r := Ok(o);
    }

    method MarkCancelled(id: string, reason: string, now: int) returns (r: Result<TrackedOrder, TrackerError>)
      requires disk == orders
      modifies this
      ensures disk == orders
      ensures id !in old(orders) ==> r == Err(UnknownOrder) && State() == old(State())
      ensures id in old(orders) ==>
        orders == old(orders)[id := AfterCancel(old(orders)[id], reason, now)] && r == Ok(orders[id])
    {
      if id !in orders { return Err(UnknownOrder); }
      var o := orders[id];
      if Remaining(o) > 0.0 {
        o := o.(status := Cancelled, cancelReason := Some(reason), updatedAt := now);
        orders := orders[id := o];
        Save();
      } else {
        assert orders[id := o] == orders;
      }
      r := Ok(o);
    }

    /** The orders still working that are at least `maxAge` seconds old. */
    method StaleOrders(now: int, maxAge: int) returns (r: Result<set<string>, TrackerError>)
      ensures r.Err? <==> maxAge < 0
      ensures r.Ok? ==> forall id :: id in r.value <==> id in orders && IsStale(orders[id], now, maxAge)
    {
      if maxAge < 0 { return Err(NegativeAge); }
      r := Ok(set id | id in orders && IsStale(orders[id], now, maxAge));
    }

    /** Cancels the stale orders in the given order, stopping at the first
        broker call that fails: exactly the ones before it are recorded, and
        when none fails nothing stale is left. */
    method CancelStale(queue: seq<string>, brokerAccepts: string -> bool, now: int, maxAge: nat) returns (done: nat)
      requires disk == orders
      requires forall i, j :: 0 <= i < j < |queue| ==> queue[i] != queue[j]
      requires forall id :: id in queue <==> id in orders && IsStale(orders[id], now, maxAge)
      modifies this
      ensures disk == orders && orders.Keys == old(orders.Keys)
      ensures done <= |queue| && (forall i :: 0 <= i < done ==> brokerAccepts(queue[i]))
      ensures done < |queue| ==> !brokerAccepts(queue[done])
      ensures forall id :: id in old(orders) ==>
        orders[id] == if id in queue[..done] then AfterCancel(old(orders)[id], "stale_order", now) else old(orders)[id]
      ensures done == |queue| ==> forall id :: id in orders ==> !IsStale(orders[id], now, maxAge)
    {
      done := 0;
      while done < |queue|
        invariant done <= |queue| && disk == orders && orders.Keys == old(orders.Keys)
        invariant forall i :: 0 <= i < done ==> brokerAccepts(queue[i])
        invariant forall id :: id in old(orders) ==>
          orders[id] == if id in queue[..done] then AfterCancel(old(orders)[id], "stale_order", now)
              else old(orders)[id]
      {
        var id := queue[done];
        if !brokerAccepts(id) { return; }
        assert id in queue && id !in queue[..done];
        var _ := MarkCancelled(id, "stale_order", now);
        assert queue[..done + 1] == queue[..done] + [id];
        done := done + 1;
      }
      assert queue[..done] == queue;
    }

    /** Merges the broker's snapshot and returns the orders still working. Every
        copy that reaches the disk during the pass is one that `ReconcileUpTo`
        names. */
    method Reconcile(raws: seq<RawOrder>, clock: Clock, now: int) returns (working: set<string>)
      requires disk == orders
      modifies this
      ensures orders == Reconciled(old(orders), raws, clock) && disk == orders
      ensures forall id :: id in working <==> id in orders && IsStale(orders[id], now, 0)
    {
      for k := 0 to |raws|
        invariant State() == ReconcileUpTo(Tracker(old(orders), old(orders)), raws, clock, k)
      {
        var raw := raws[k];
        if raw.clientId == "" { continue; }
        if raw.requested <= 0.0 { continue; }
        var o;
        if raw.clientId in orders {
          o := orders[raw.clientId];
        } else {
          var registered := Register(raw.clientId, raw.ticker, raw.requested, raw.orderId, clock.registered(k));
          o := registered.value;
        }
        var reported := if raw.filled.Some? then raw.filled.value else o.filled;
        var remote := if raw.status.Some? then raw.status.value else RemoteOf(o.status);
        o := o.(filled := Min(o.requested, Max(o.filled, reported)));
        if Remaining(o) == 0.0 {
          o := o.(status := Filled);
        } else if remote in {RemoteCancelled, RemoteCanceled, RemoteClosed, RemoteRejected} {
          o := o.(status := if remote != RemoteRejected then Cancelled else Rejected);
        } else if o.filled > 0.0 {
          o := o.(status := Partial);
        }
        o := o.(updatedAt := clock.updated(k));
        orders := orders[raw.clientId := o];
      }
      Save();
      var stale := StaleOrders(now, 0);
      working := stale.value;
    }
  }
}
