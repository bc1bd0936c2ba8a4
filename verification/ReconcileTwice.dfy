/** Which snapshots can be reconciled twice: the exact condition, read off the
    registry and the snapshot, under which a second pass changes an order. */
module ReconcileTwice {
  import opened Wrappers
  import opened OrderTracker
  import opened TrackerLaws

  // ---- what a snapshot says of one order, in its first `k` records ----

  predicate WordAt(raws: seq<RawOrder>, id: string, i: nat) {
    RecordAt(raws, id, i) && raws[i].status.Some?
  }

  /** A word that ends an order. */
  predicate EndingWordAt(raws: seq<RawOrder>, id: string, i: nat) {
    WordAt(raws, id, i) && raws[i].status != Some(Other)
  }

  predicate Ended(status: Status) { status in {Cancelled, Rejected} }

  function FirstRecord(raws: seq<RawOrder>, id: string, k: nat): (r: Option<nat>)
    ensures r.None? ==> forall i: nat :: RecordAt(raws, id, i) ==> k <= i
    ensures r.Some? ==> r.value < k && RecordAt(raws, id, r.value)
                        && forall i: nat :: RecordAt(raws, id, i) ==> r.value <= i
  {
    if k == 0 then None
    else
      var earlier := FirstRecord(raws, id, k - 1);
      if earlier.None? && RecordAt(raws, id, k - 1) then Some(k - 1) else earlier
  }

  /** The position after the last record that carries a status word, 0 if none does. */
  function AfterLastWord(raws: seq<RawOrder>, id: string, k: nat): (r: nat)
    ensures r <= k && (r > 0 ==> WordAt(raws, id, r - 1))
    ensures forall i: nat :: WordAt(raws, id, i) && i < k ==> i < r
  {
    if k == 0 then 0
    else if WordAt(raws, id, k - 1) then k
    else AfterLastWord(raws, id, k - 1)
  }

  /** What the last ending word makes of the order, its own status if there is none. */
  function Standing(raws: seq<RawOrder>, id: string, status: Status, k: nat): Status {
    if k == 0 then status
    else if EndingWordAt(raws, id, k - 1)
    then if raws[k - 1].status == Some(RemoteRejected) then Rejected else Cancelled
    else Standing(raws, id, status, k - 1)
  }

  /** The largest fill known: the order's own, or one reported. */
  function Largest(raws: seq<RawOrder>, id: string, filled: real, k: nat): (r: real)
    ensures filled <= r
  {
    if k == 0 then filled
    else
      var earlier := Largest(raws, id, filled, k - 1);
      if RecordAt(raws, id, k - 1) && raws[k - 1].filled.Some? then Max(earlier, raws[k - 1].filled.value) else earlier
  }

  /** The order a pass starts from: the registered one, or the one its first record has adopted. */
  function Starting(orders: Orders, raws: seq<RawOrder>, id: string): Option<TrackedOrder> {
    if id in orders then Some(Core(orders[id]))
    else
      var first := FirstRecord(raws, id, |raws|);
      if first.Some? then Some(Core(Adopted(raws[first.value], 0))) else None
  }

  /** Starting again with what the first `k` records left of the order changes its
      end: its last status word ends nothing and came before any fill, a fill
      reported after it is among those records, fills do not cover the request, and
      the word or status standing before had ended the order. */
  predicate UnstableAt(orders: Orders, raws: seq<RawOrder>, id: string, k: nat) {
    var start := Starting(orders, raws, id);
    start.Some? && ChangedFrom(start.value, raws, id, k)
  }

  predicate ChangedFrom(o: TrackedOrder, raws: seq<RawOrder>, id: string, k: nat) {
    var last := AfterLastWord(raws, id, |raws|);
    && last > 0 && !EndingWordAt(raws, id, last - 1)
    && Largest(raws, id, o.filled, last) == 0.0
    && 0.0 < Largest(raws, id, o.filled, k)
    && Largest(raws, id, o.filled, |raws|) < o.requested
    && Ended(Standing(raws, id, o.status, last))
  }

  /** A whole second pass changes the order. */
  predicate Unstable(orders: Orders, raws: seq<RawOrder>, id: string) { UnstableAt(orders, raws, id, |raws|) }

  // ---- a pass, order by order, repeated ids included ----

  /** An order's core after the first `k` records. */
  function FoldCore(before: Option<TrackedOrder>, raws: seq<RawOrder>, id: string, k: nat): Option<TrackedOrder> {
    if k == 0 then before
    else if RecordAt(raws, id, k - 1) then Some(MergedCore(FoldCore(before, raws, id, k - 1), raws[k - 1]))
    else FoldCore(before, raws, id, k - 1)
  }

  lemma {:induction false} PassFolds(t: Tracker, raws: seq<RawOrder>, clock: Clock, k: nat, id: string)
    requires k <= |raws|
    ensures CoreAt(ReconcileUpTo(t, raws, clock, k).orders, id) == FoldCore(CoreAt(t.orders, id), raws, id, k)
  {
    hide MergedCore;
    if k > 0 {
      PassFolds(t, raws, clock, k - 1, id);
      ReconcileOneCore(ReconcileUpTo(t, raws, clock, k - 1), raws[k - 1],
                       clock.registered(k - 1), clock.updated(k - 1), id);
    }
  }

  lemma {:induction false} AdoptedFold(raws: seq<RawOrder>, id: string, first: nat, k: nat)
    requires RecordAt(raws, id, first) && forall i: nat :: RecordAt(raws, id, i) ==> first <= i
    ensures if k <= first then FoldCore(None, raws, id, k) == None
            else FoldCore(None, raws, id, k) == FoldCore(Some(Core(Adopted(raws[first], 0))), raws, id, k)
    ensures k <= first ==>
        FoldCore(Some(Core(Adopted(raws[first], 0))), raws, id, k) == Some(Core(Adopted(raws[first], 0)))
  {
    if k > 0 { AdoptedFold(raws, id, first, k - 1); }
  }

  /** The status after `k` records, the order having been mentioned and not being full. */
  function StatusAfter(o: TrackedOrder, raws: seq<RawOrder>, id: string, k: nat): Status {
    var last := AfterLastWord(raws, id, k);
    var standing := Standing(raws, id, o.status, k);
    if last > 0 && !EndingWordAt(raws, id, last - 1) && Largest(raws, id, o.filled, last) > 0.0 then Partial
    else if Ended(standing) then standing
    else if Largest(raws, id, o.filled, k) > 0.0 then Partial
    else standing
  }

  function Folded(o: TrackedOrder, raws: seq<RawOrder>, id: string, k: nat): TrackedOrder {
    var filled := Min(o.requested, Largest(raws, id, o.filled, k));
    o.(filled := filled,
       status := if FirstRecord(raws, id, k).None? then o.status
                 else if filled == o.requested then Filled
                 else StatusAfter(o, raws, id, k))
  }

  lemma {:induction false} FillsSoFar(raws: seq<RawOrder>, id: string, filled: real, j: nat, k: nat)
    requires j <= k
    ensures Largest(raws, id, filled, j) <= Largest(raws, id, filled, k)
  {
    if j < k { FillsSoFar(raws, id, filled, j, k - 1); }
  }

  lemma {:induction false} NotMentioned(o: TrackedOrder, raws: seq<RawOrder>, id: string, k: nat)
    requires FirstRecord(raws, id, k).None?
    ensures AfterLastWord(raws, id, k) == 0
    ensures Standing(raws, id, o.status, k) == o.status && Largest(raws, id, o.filled, k) == o.filled
  {
    if k > 0 { NotMentioned(o, raws, id, k - 1); }
  }

  /** After its last word an order's standing no longer changes. */
  lemma {:induction false} StandingSettles(raws: seq<RawOrder>, id: string, status: Status, k: nat)
    ensures Standing(raws, id, status, AfterLastWord(raws, id, k)) == Standing(raws, id, status, k)
  {
    if k > 0 && !WordAt(raws, id, k - 1) { StandingSettles(raws, id, status, k - 1); }
  }

  /** What a record makes of the status, given the fill it leaves. */
  function StatusMerged(status: Status, word: Option<RemoteStatus>, filled: real, requested: real): Status {
    var remote := if word.Some? then word.value else RemoteOf(status);
    if filled == requested then Filled
    else if remote == RemoteRejected then Rejected
    else if remote != Other then Cancelled
    else if filled > 0.0 then Partial
    else status
  }

  lemma MergedInto(o: TrackedOrder, raw: RawOrder)
    requires 0.0 <= o.filled <= o.requested && o == Core(o)
    ensures MergedCore(Some(o), raw)
        == var filled := if raw.filled.Some? then Min(o.requested, Max(o.filled, raw.filled.value)) else o.filled;
           o.(filled := filled, status := StatusMerged(o.status, raw.status, filled, o.requested))
  {}

  lemma OneMoreRecord(o: TrackedOrder, raws: seq<RawOrder>, id: string, k: nat)
    requires RecordAt(raws, id, k)
    ensures AfterLastWord(raws, id, k + 1) == if WordAt(raws, id, k) then k + 1 else AfterLastWord(raws, id, k)
    ensures !EndingWordAt(raws, id, k) ==> Standing(raws, id, o.status, k + 1) == Standing(raws, id, o.status, k)
    ensures EndingWordAt(raws, id, k) ==>
      Standing(raws, id, o.status, k + 1) == if raws[k].status == Some(RemoteRejected) then Rejected else Cancelled
    ensures FirstRecord(raws, id, k + 1).Some?
    ensures Largest(raws, id, o.filled, AfterLastWord(raws, id, k)) <= Largest(raws, id, o.filled, k)
    ensures Largest(raws, id, o.filled, k) <= Largest(raws, id, o.filled, k + 1)
  {
    FillsSoFar(raws, id, o.filled, k, k + 1);
    FillsSoFar(raws, id, o.filled, AfterLastWord(raws, id, k), k);
  }

  /** One more record, read off the closed form. */
  lemma StatusStep(o: TrackedOrder, raws: seq<RawOrder>, id: string, k: nat)
    requires SoundOrder(id, o) && RecordAt(raws, id, k)
    ensures var after := Folded(o, raws, id, k + 1);
      after.status == StatusMerged(Folded(o, raws, id, k).status, raws[k].status, after.filled, o.requested)
  {
    hide AfterLastWord, Standing, Largest, FirstRecord;
    OneMoreRecord(o, raws, id, k);
    if FirstRecord(raws, id, k).None? { NotMentioned(o, raws, id, k); }
  }

  /** The pass in closed form. */
  lemma {:induction false} FoldIsFolded(o: TrackedOrder, raws: seq<RawOrder>, id: string, k: nat)
    requires SoundOrder(id, o) && o == Core(o)
    ensures FoldCore(Some(o), raws, id, k) == Some(Folded(o, raws, id, k))
  {
    hide MergedCore, StatusMerged;
    if k > 0 {
      FoldIsFolded(o, raws, id, k - 1);
      if RecordAt(raws, id, k - 1) {
        MergedInto(Folded(o, raws, id, k - 1), raws[k - 1]);
        StatusStep(o, raws, id, k - 1);
      }
    }
  }

  lemma {:induction false} EndingWordStands(raws: seq<RawOrder>, id: string, s: Status, t: Status, k: nat)
    ensures Standing(raws, id, s, k) == Standing(raws, id, t, k)
            || (Standing(raws, id, s, k) == s && Standing(raws, id, t, k) == t)
    ensures Ended(Standing(raws, id, s, k)) || Standing(raws, id, s, k) == s
  {
    if k > 0 { EndingWordStands(raws, id, s, t, k - 1); }
  }

  /** Starting again from the fill that the first `j` records left, capped at the
      request, counts those records besides the ones seen again. */
  lemma {:induction false} LargestAgain(raws: seq<RawOrder>, id: string, filled: real, cap: real, j: nat, k: nat)
    requires filled <= cap
    ensures Min(cap, Largest(raws, id, Min(cap, Largest(raws, id, filled, j)), k))
         == Min(cap, Max(Largest(raws, id, filled, j), Largest(raws, id, filled, k)))
  {
    if k > 0 { LargestAgain(raws, id, filled, cap, j, k - 1); }
  }

  lemma {:induction false} WordsSoFar(raws: seq<RawOrder>, id: string, j: nat, k: nat)
    requires j <= k
    ensures AfterLastWord(raws, id, j) <= AfterLastWord(raws, id, k)
  {
    if j < k { WordsSoFar(raws, id, j, k - 1); }
  }

  /** Either some word decides the standing whatever came before, or no word of the
      first `k` records ends anything. */
  lemma {:induction false} DecidedOrNot(raws: seq<RawOrder>, id: string, s: Status, t: Status, j: nat, k: nat)
    requires j <= k
    ensures || (Ended(Standing(raws, id, s, k)) && Standing(raws, id, s, k) == Standing(raws, id, t, k))
            || (&& Standing(raws, id, s, k) == s && Standing(raws, id, t, k) == t && Standing(raws, id, s, j) == s
                && forall i: nat :: i < k ==> !EndingWordAt(raws, id, i))
  {
    if j < k {
      DecidedOrNot(raws, id, s, t, j, k - 1);
    } else if k > 0 {
      DecidedOrNot(raws, id, s, t, k - 1, k - 1);
    }
  }

  lemma FoldFromStart(orders: Orders, raws: seq<RawOrder>, id: string)
    ensures FoldCore(CoreAt(orders, id), raws, id, |raws|)
            == var start := Starting(orders, raws, id);
               if start.Some? then FoldCore(start, raws, id, |raws|) else None
  {
    if id !in orders {
      var first := FirstRecord(raws, id, |raws|);
      if first.Some? { AdoptedFold(raws, id, first.value, |raws|); }
      else { NeverMentioned(raws, id, |raws|); }
    }
  }

  lemma {:induction false} NeverMentioned(raws: seq<RawOrder>, id: string, k: nat)
    requires k <= |raws| && FirstRecord(raws, id, |raws|).None?
    ensures FoldCore(None, raws, id, k) == None
  {
    if k > 0 { NeverMentioned(raws, id, k - 1); }
  }

  /** A pass over any snapshot, order by order: an order keeps the largest fill
      known of it, up to the request, so that no reported fill is lost, and its
      status is that of the closed form. */
  lemma PassInClosedForm(orders: Orders, raws: seq<RawOrder>, clock: Clock, id: string)
    requires SoundOrders(orders)
    ensures var start := Starting(orders, raws, id);
      CoreAt(Reconciled(orders, raws, clock), id)
        == if start.Some? then Some(Folded(start.value, raws, id, |raws|)) else None
    ensures Starting(orders, raws, id).Some? ==> SoundOrder(id, Starting(orders, raws, id).value)
  {
    hide FoldCore, ReconcileUpTo, Folded;
    PassFolds(Tracker(orders, orders), raws, clock, |raws|, id);
    FoldFromStart(orders, raws, id);
    var start := Starting(orders, raws, id);
    if start.Some? { FoldIsFolded(start.value, raws, id, |raws|); }
  }

  /** The closed form applied to what the first `j` records left. */
  lemma FoldedAgain(o: TrackedOrder, raws: seq<RawOrder>, id: string, j: nat)
    requires SoundOrder(id, o) && j <= |raws|
    ensures Folded(Folded(o, raws, id, j), raws, id, |raws|) != Folded(o, raws, id, |raws|)
            <==> ChangedFrom(o, raws, id, j)
  {
    hide Standing, Largest, AfterLastWord, FirstRecord;
    var n, last := |raws|, AfterLastWord(raws, id, |raws|);
    LargestAgain(raws, id, o.filled, o.requested, j, n);
    LargestAgain(raws, id, o.filled, o.requested, j, last);
    LargestAgain(raws, id, o.filled, o.requested, j, j);
    FillsSoFar(raws, id, o.filled, j, n);
    FillsSoFar(raws, id, o.filled, last, n);
    StandingSettles(raws, id, o.status, n);
    WordsSoFar(raws, id, j, n);
    DecidedOrNot(raws, id, o.status, Folded(o, raws, id, j).status, j, n);
    FillsSoFar(raws, id, o.filled, AfterLastWord(raws, id, j), last);
    if FirstRecord(raws, id, j).None? { NotMentioned(o, raws, id, j); }
    if FirstRecord(raws, id, n).None? { NotMentioned(o, raws, id, n); }
  }

  /** One order is changed by the second pass exactly when it is unstable. */
  lemma SecondPassOnOrder(orders: Orders, raws: seq<RawOrder>, first: Clock, second: Clock, id: string)
    requires SoundOrders(orders)
    ensures var once := Reconciled(orders, raws, first);
            CoreAt(Reconciled(once, raws, second), id) != CoreAt(once, id) <==> Unstable(orders, raws, id)
  {
    hide ReconcileUpTo, Standing, Largest, AfterLastWord, FirstRecord;
    var once := Reconciled(orders, raws, first);
    ReconcileSound(Tracker(orders, orders), raws, first, |raws|);
    PassInClosedForm(orders, raws, first, id);
    PassInClosedForm(once, raws, second, id);
    if Starting(orders, raws, id).Some? { FoldedAgain(Starting(orders, raws, id).value, raws, id, |raws|); }
  }

  /** Reconciling a snapshot a second time changes nothing, timestamps aside, if
      and only if no order is unstable. */
  lemma ReconcileTwiceIff(orders: Orders, raws: seq<RawOrder>, first: Clock, second: Clock)
    requires SoundOrders(orders)
    ensures SameOrders(Reconciled(Reconciled(orders, raws, first), raws, second), Reconciled(orders, raws, first))
            <==> forall id: string :: !Unstable(orders, raws, id)
  {
    hide Reconciled, Unstable;
    forall id: string
      ensures var once := Reconciled(orders, raws, first);
              CoreAt(Reconciled(once, raws, second), id) != CoreAt(once, id) <==> Unstable(orders, raws, id)
    {
      SecondPassOnOrder(orders, raws, first, second, id);
    }
  }

  /** Such a snapshot: a cancelled order, a record with an unknown word and then
      one with a fill and no word. The first pass leaves it cancelled, the second
      makes it partial. */
  lemma RepeatedIdNotIdempotent(first: Clock, second: Clock)
    ensures var orders := map["a" := TrackedOrder("a", None, "m", 2.0, 0.0, Cancelled, 0, 0, None, None)];
            var raws := [RawOrder("a", 2.0, "m", None, None, Some(Other)),
                RawOrder("a", 2.0, "m", None, Some(1.0), None)];
            !SameOrders(Reconciled(Reconciled(orders, raws, first), raws, second), Reconciled(orders, raws, first))
  {
    var orders := map["a" := TrackedOrder("a", None, "m", 2.0, 0.0, Cancelled, 0, 0, None, None)];
    var raws := [RawOrder("a", 2.0, "m", None, None, Some(Other)), RawOrder("a", 2.0, "m", None, Some(1.0), None)];
    assert RecordAt(raws, "a", 0) && RecordAt(raws, "a", 1);
    assert AfterLastWord(raws, "a", 1) == 1 && AfterLastWord(raws, "a", 2) == 1;
    assert Unstable(orders, raws, "a");
    SecondPassOnOrder(orders, raws, first, second, "a");
  }
}
