/** The capacity engine: how many spots an event's bookings consume, how many remain,
    and the global invariant "no event is over capacity" together with the store
    changes that preserve it. */
module Capacity {
  import opened Wrappers
  import opened Records
  import opened Queries

  /** The `total` of the aggregate `$match {eventId: eid}` / `$group {$sum: "$spots"}`:
      the sum of spots over the bookings that reference `eid`. */
  function SpotsFor(bs: seq<Booking>, eid: Id): (total: int)
    ensures NoBookingsFor(bs, eid) ==> total == 0
    ensures (forall i :: 0 <= i < |bs| ==> bs[i].spots >= 0) ==> total >= 0
  {
    if bs == [] then 0
    else
      var n := |bs| - 1;
      SpotsFor(bs[..n], eid) + (if bs[n].eventId == eid then bs[n].spots else 0)
  }

  /** Remaining capacity of `e`: its capacity minus the spots its bookings hold. */
  function Remaining(e: Event, bs: seq<Booking>): int {
    e.capacity - SpotsFor(bs, e.id)
  }

  /** The result of the aggregate pipeline: one group holding the total when `eid`
      has bookings, no group otherwise. */
  function SpotsAggregate(bs: seq<Booking>, eid: Id): seq<int> {
    if NoBookingsFor(bs, eid) then [] else [SpotsFor(bs, eid)]
  }

  /** Every stored event holds at most `capacity` booked spots. */
  predicate WithinCapacity(es: seq<Event>, bs: seq<Booking>) {
    forall k :: 0 <= k < |es| ==> SpotsFor(bs, es[k].id) <= es[k].capacity
  }

  lemma SpotsForAppend(bs: seq<Booking>, b: Booking, eid: Id)
    ensures SpotsFor(bs + [b], eid) == SpotsFor(bs, eid) + (if b.eventId == eid then b.spots else 0)
  {
  }

  /** The total the capacity engine sums is over exactly the bookings the views list. */
  lemma {:induction false} SpotsForIsTotalOf(bs: seq<Booking>, eid: Id)
    ensures SpotsFor(bs, eid) == SpotsFor(BookingsFor(bs, eid), eid)
  {
    if bs != [] {
      var n := |bs| - 1;
      var init := bs[..n];
      SpotsForIsTotalOf(init, eid);
      assert BookingsFor(bs, eid) == BookingsFor(init, eid) + (if bs[n].eventId == eid then [bs[n]] else []);
      SpotsForAppend(BookingsFor(init, eid), bs[n], eid);
      assert BookingsFor(init, eid) + [] == BookingsFor(init, eid);
    }
  }

  /** Removing booking `i` gives back its spots to its own event and to no other. */
  lemma {:induction false} SpotsForRemove(bs: seq<Booking>, i: nat, eid: Id)
    requires i < |bs|
    ensures SpotsFor(RemoveAt(bs, i), eid) == SpotsFor(bs, eid) - (if bs[i].eventId == eid then bs[i].spots else 0)
  {
    var n := |bs| - 1;
    if i == n {
      assert RemoveAt(bs, i) == bs[..n];
    } else {
      var init := bs[..n];
      var rest := RemoveAt(init, i);
      assert RemoveAt(bs, i) == rest + [bs[n]];
      assert SpotsFor(bs, eid) == SpotsFor(init, eid) + (if bs[n].eventId == eid then bs[n].spots else 0);
      SpotsForRemove(init, i, eid);
      SpotsForAppend(rest, bs[n], eid);
      assert init[i] == bs[i];
    }
  }

  /** Appending a booking admitted by `spots <= Remaining` keeps every event within capacity. */
  lemma AdmittedBookingKeepsCapacity(es: seq<Event>, bs: seq<Booking>, k: nat, b: Booking)
    requires UniqueEventIds(es) && WithinCapacity(es, bs)
    requires k < |es| && b.eventId == es[k].id && b.spots <= Remaining(es[k], bs)
    ensures WithinCapacity(es, bs + [b])
  {
  }

  /** Removing a booking with nonnegative spots keeps every event within capacity. */
  lemma RemovedBookingKeepsCapacity(es: seq<Event>, bs: seq<Booking>, i: nat)
    requires WithinCapacity(es, bs)
    requires i < |bs| && bs[i].spots >= 0
    ensures WithinCapacity(es, RemoveAt(bs, i))
  {
    forall j | 0 <= j < |es| ensures SpotsFor(RemoveAt(bs, i), es[j].id) <= es[j].capacity {
      SpotsForRemove(bs, i, es[j].id);
    }
  }

  /** A new event that no booking references, with nonnegative capacity, is within capacity. */
  lemma NewEventKeepsCapacity(es: seq<Event>, bs: seq<Booking>, e: Event)
    requires WithinCapacity(es, bs)
    requires NoBookingsFor(bs, e.id) && e.capacity >= 0
    ensures WithinCapacity(es + [e], bs)
  {
  }

  /** Removing an event leaves the others within capacity. */
  lemma RemovedEventKeepsCapacity(es: seq<Event>, bs: seq<Booking>, k: nat)
    requires WithinCapacity(es, bs) && k < |es|
    ensures WithinCapacity(RemoveAt(es, k), bs)
  {
  }

  lemma WithinCapacityOfOne(e: Event, bs: seq<Booking>)
    ensures WithinCapacity([e], bs) <==> SpotsFor(bs, e.id) <= e.capacity
  {
    assert [e][0] == e;
  }

  /** The handlers never check the sign of `spots`: a -5-spot booking, then a 15-spot
      booking admitted against the 15 spots that leaves, followed by deleting the
      -5-spot booking, overbooks a capacity-10 event. */
  lemma NegativeSpotsOverbook(e: Event, neg: Booking, big: Booking)
    requires e.id == "e1" && e.capacity == 10
    requires neg.eventId == "e1" && neg.spots == -5
    requires big.eventId == "e1" && big.spots == 15
    ensures WithinCapacity([e], [])
    ensures neg.spots <= Remaining(e, [])
    ensures big.spots <= Remaining(e, [neg])
    ensures WithinCapacity([e], [neg, big])
    ensures !WithinCapacity([e], RemoveAt([neg, big], 0))
  {
    SpotsForAppend([], neg, "e1");
    assert [] + [neg] == [neg];
    SpotsForAppend([neg], big, "e1");
    assert [neg] + [big] == [neg, big];
    SpotsForAppend([], big, "e1");
    assert [] + [big] == [big];
    assert RemoveAt([neg, big], 0) == [big];
    WithinCapacityOfOne(e, []);
    WithinCapacityOfOne(e, [neg, big]);
    WithinCapacityOfOne(e, [big]);
  }
}
