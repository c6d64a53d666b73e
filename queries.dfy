/** The store queries the handlers issue, as functions over the two collections:
    lookup of an event by id, the bookings of an event, and the booking lookup
    scoped by (eventId, bookingId) together. */
module Queries {
  import opened Wrappers
  import opened Records

  /** No two stored events share an id (MongoDB's unique `_id` index). */
  predicate UniqueEventIds(es: seq<Event>) {
    forall i, j :: 0 <= i < j < |es| ==> es[i].id != es[j].id
  }

  /** No two stored bookings share an id. */
  predicate UniqueBookingIds(bs: seq<Booking>) {
    forall i, j :: 0 <= i < j < |bs| ==> bs[i].id != bs[j].id
  }

  /** Some stored booking already has id `id`. */
  predicate BookingIdInUse(bs: seq<Booking>, id: Id) {
    exists i :: 0 <= i < |bs| && bs[i].id == id
  }

  /** No stored booking references event `eid`. */
  predicate NoBookingsFor(bs: seq<Booking>, eid: Id) {
    forall i :: 0 <= i < |bs| ==> bs[i].eventId != eid
  }

  /** `Event.findOne({_id: eid})`: the index of the first event with id `eid`. */
  function FindEvent(es: seq<Event>, eid: Id): (r: Option<nat>)
    ensures r.Some? ==> r.value < |es| && es[r.value].id == eid
    ensures r.Some? ==> forall j :: 0 <= j < r.value ==> es[j].id != eid
    ensures r.None? <==> forall j :: 0 <= j < |es| ==> es[j].id != eid
  {
    if es == [] then None
    else if es[0].id == eid then Some(0)
    else match FindEvent(es[1..], eid)
      case None => None
      case Some(k) => Some(k + 1)
  }

  /** Every booking references an event that is stored. */
  predicate ReferencesExist(es: seq<Event>, bs: seq<Booking>) {
    forall i :: 0 <= i < |bs| ==> FindEvent(es, bs[i].eventId).Some?
  }

  /** The joint filter `{eventId: eid, _id: bid}`. */
  predicate Matches(b: Booking, eid: Id, bid: Id) {
    b.eventId == eid && b.id == bid
  }

  /** `Booking.findOne({eventId: eid, _id: bid})`: the index of the first booking that
      matches both ids; a booking id alone never matches. */
  function FindBooking(bs: seq<Booking>, eid: Id, bid: Id): (r: Option<nat>)
    ensures r.Some? ==> r.value < |bs| && bs[r.value].id == bid && bs[r.value].eventId == eid
    ensures r.Some? ==> forall j :: 0 <= j < r.value ==> !Matches(bs[j], eid, bid)
    ensures r.None? <==> forall j :: 0 <= j < |bs| ==> !Matches(bs[j], eid, bid)
  {
    if bs == [] then None
    else if Matches(bs[0], eid, bid) then Some(0)
    else match FindBooking(bs[1..], eid, bid)
      case None => None
      case Some(k) => Some(k + 1)
  }

  /** A booking id that belongs to another event is not found under `eid`. */
  lemma ForeignBookingNotFound(bs: seq<Booking>, eid: Id, k: nat)
    requires UniqueBookingIds(bs)
    requires k < |bs| && bs[k].eventId != eid
    ensures FindBooking(bs, eid, bs[k].id).None?
  {
  }

  /** With unique booking ids, the joint lookup finds exactly the booking with both ids. */
  lemma FindBookingExact(bs: seq<Booking>, k: nat)
    requires UniqueBookingIds(bs)
    requires k < |bs|
    ensures FindBooking(bs, bs[k].eventId, bs[k].id) == Some(k)
  {
  }

  /** `Booking.find({eventId: eid})`: the bookings of event `eid`, in store order. */
  function BookingsFor(bs: seq<Booking>, eid: Id): (r: seq<Booking>)
    ensures |r| <= |bs|
  {
    if bs == [] then []
    else BookingsFor(bs[..|bs| - 1], eid) + (if bs[|bs| - 1].eventId == eid then [bs[|bs| - 1]] else [])
  }

  /** The ids of `bs`, in order. */
  function IdsOf(bs: seq<Booking>): (r: seq<Id>)
    ensures |r| == |bs| && forall i :: 0 <= i < |bs| ==> r[i] == bs[i].id
  {
    seq(|bs|, i requires 0 <= i < |bs| => bs[i].id)
  }

  lemma BookingsForAppend(bs: seq<Booking>, b: Booking, eid: Id)
    ensures BookingsFor(bs + [b], eid) == BookingsFor(bs, eid) + (if b.eventId == eid then [b] else [])
  {
  }

  /** Filtering distributes over concatenation: the result keeps store order. */
  lemma {:induction false} BookingsForConcat(a: seq<Booking>, b: seq<Booking>, eid: Id)
    ensures BookingsFor(a + b, eid) == BookingsFor(a, eid) + BookingsFor(b, eid)
  {
    if b == [] {
      assert a + b == a;
    } else {
      var n := |b| - 1;
      assert a + b == (a + b[..n]) + [b[n]];
      assert b == b[..n] + [b[n]];
      BookingsForConcat(a, b[..n], eid);
      BookingsForAppend(a + b[..n], b[n], eid);
      BookingsForAppend(b[..n], b[n], eid);
    }
  }

  /** A booking is listed for `eid` exactly when it is stored and references `eid`. */
  lemma {:induction false} BookingsForMember(bs: seq<Booking>, eid: Id, b: Booking)
    ensures b in BookingsFor(bs, eid) <==> b in bs && b.eventId == eid
  {
    if bs != [] {
      var n := |bs| - 1;
      assert bs == bs[..n] + [bs[n]];
      BookingsForMember(bs[..n], eid, b);
    }
  }

  /** The bookings of `eid` are empty exactly when no booking references `eid`. */
  lemma {:induction false} BookingsForEmpty(bs: seq<Booking>, eid: Id)
    ensures BookingsFor(bs, eid) == [] <==> NoBookingsFor(bs, eid)
  {
    if bs != [] {
      var n := |bs| - 1;
      var init := bs[..n];
      BookingsForEmpty(init, eid);
      if bs[n].eventId == eid {
        assert |BookingsFor(bs, eid)| == |BookingsFor(init, eid)| + 1;
      } else {
        assert BookingsFor(bs, eid) == BookingsFor(init, eid);
        assert NoBookingsFor(bs, eid) <==> NoBookingsFor(init, eid) by {
          assert forall i :: 0 <= i < n ==> init[i] == bs[i];
        }
      }
    }
  }

  /** Deleting booking `i` removes exactly that booking from its own event's list and
      leaves every other event's list unchanged. */
  lemma BookingsForRemove(bs: seq<Booking>, i: nat, eid: Id)
    requires i < |bs|
    ensures BookingsFor(bs, eid) ==
      BookingsFor(bs[..i], eid) + (if bs[i].eventId == eid then [bs[i]] else []) + BookingsFor(bs[i + 1..], eid)
    ensures BookingsFor(RemoveAt(bs, i), eid) == BookingsFor(bs[..i], eid) + BookingsFor(bs[i + 1..], eid)
    ensures bs[i].eventId != eid ==> BookingsFor(RemoveAt(bs, i), eid) == BookingsFor(bs, eid)
    ensures |BookingsFor(RemoveAt(bs, i), eid)| == |BookingsFor(bs, eid)| - (if bs[i].eventId == eid then 1 else 0)
  {
    assert bs == (bs[..i] + [bs[i]]) + bs[i + 1..];
    BookingsForConcat(bs[..i] + [bs[i]], bs[i + 1..], eid);
    BookingsForAppend(bs[..i], bs[i], eid);
    BookingsForConcat(bs[..i], bs[i + 1..], eid);
  }

  /** A store holding a single booking lists just that booking's id for its event. */
  lemma SingleBookingIds(b: Booking)
    ensures IdsOf(BookingsFor([b], b.eventId)) == [b.id]
  {
    BookingsForAppend([], b, b.eventId);
    assert [] + [b] == [b];
  }

  /** The first stored booking of `eid` heads the id list of the single-event view. */
  lemma FirstBookingHeadsIds(bs: seq<Booking>, eid: Id, k: nat)
    requires k < |bs| && bs[k].eventId == eid
    requires forall j :: 0 <= j < k ==> bs[j].eventId != eid
    ensures |IdsOf(BookingsFor(bs, eid))| > 0 && IdsOf(BookingsFor(bs, eid))[0] == bs[k].id
  {
    assert bs == bs[..k] + ([bs[k]] + bs[k + 1..]);
    BookingsForConcat(bs[..k], [bs[k]] + bs[k + 1..], eid);
    BookingsForConcat([bs[k]], bs[k + 1..], eid);
    BookingsForEmpty(bs[..k], eid);
    BookingsForAppend([], bs[k], eid);
  }
  /** The store's integrity invariant: ids are unique within each collection and every
      booking references a stored event. */
  predicate Integrity(es: seq<Event>, bs: seq<Booking>) {
    UniqueEventIds(es) && UniqueBookingIds(bs) && ReferencesExist(es, bs)
  }

  /** Storing an event under an unused id keeps integrity; no booking references it yet. */
  lemma IntegrityAfterEventAdded(es: seq<Event>, bs: seq<Booking>, e: Event)
    requires Integrity(es, bs) && FindEvent(es, e.id).None?
    ensures Integrity(es + [e], bs)
    ensures NoBookingsFor(bs, e.id)
  {
    forall i | 0 <= i < |bs| ensures FindEvent(es + [e], bs[i].eventId).Some? {
      var k := FindEvent(es, bs[i].eventId).value;
      assert (es + [e])[k].id == bs[i].eventId;
    }
  }

  /** Deleting an event that no booking references keeps integrity. */
  lemma IntegrityAfterEventRemoved(es: seq<Event>, bs: seq<Booking>, k: nat)
    requires Integrity(es, bs) && k < |es| && NoBookingsFor(bs, es[k].id)
    ensures Integrity(RemoveAt(es, k), bs)
  {
    var r := RemoveAt(es, k);
    forall i | 0 <= i < |bs| ensures FindEvent(r, bs[i].eventId).Some? {
      var j := FindEvent(es, bs[i].eventId).value;
      assert j != k;
      var j' := if j < k then j else j - 1;
      assert r[j'].id == bs[i].eventId;
    }
    forall a, b | 0 <= a < b < |r| ensures r[a].id != r[b].id {
      assert r[a] == es[if a < k then a else a + 1];
      assert r[b] == es[if b < k then b else b + 1];
    }
  }

  /** Storing a booking for a stored event under an unused id keeps integrity. */
  lemma IntegrityAfterBookingAdded(es: seq<Event>, bs: seq<Booking>, b: Booking)
    requires Integrity(es, bs) && FindEvent(es, b.eventId).Some? && !BookingIdInUse(bs, b.id)
    ensures Integrity(es, bs + [b])
  {
  }

  /** Deleting a booking keeps integrity. */
  lemma IntegrityAfterBookingRemoved(es: seq<Event>, bs: seq<Booking>, i: nat)
    requires Integrity(es, bs) && i < |bs|
    ensures Integrity(es, RemoveAt(bs, i))
  {
  }
}

