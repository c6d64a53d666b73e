/** A client of the store that replays a capacity walkthrough on a capacity-10 event
    using only the handlers' contracts. */
module Scenario {
  import opened Wrappers
  import opened Records
  import opened Queries
  import opened Capacity
  import opened Handlers

  const TEST_EVENT := Event("e1", "Test Event", 10, 1590840000000, 1590854400000, "", "")
  const FIRST_BOOKING := Booking("b1", "e1", Some("Jane"), Some("Doe"), Some("jane@doe.com"), None, 2)
  const FULL_BOOKING := Booking("b3", "e1", None, None, Some("a@b.com"), None, 10)

  /** A store that accepts every id, holding the test event of capacity 10 and one
      2-spot booking of it: the single-event view lists no booking before it and that
      booking after it, and 8 spots remain. */
  method SeedStore() returns (store: EventStore)
    ensures fresh(store) && store.Valid()
    ensures forall s :: store.validId(s)
    ensures store.events == [TEST_EVENT] && store.bookings == [FIRST_BOOKING]
    ensures IdsOf(BookingsFor(store.bookings, TEST_EVENT.id)) == [FIRST_BOOKING.id]
    ensures Remaining(TEST_EVENT, store.bookings) == 8
  {
    store := new EventStore(_ => true, _ => true);
    var body := EventPayload(None, Some("Test Event"), Some(10), Some(1590840000000), Some(1590854400000), None, None);
    var status, event := store.CreateEvent(body, "e1", false);
    assert status == Created && store.events == [TEST_EVENT];
    assert FindEvent(store.events, "e1") == Some(0);

    var st, view := store.GetEvent("e1", false, false);
    assert st == Ok && view.value.bookings == [];

    var first := BookingPayload(None, None, Some("Jane"), Some("Doe"), Some("jane@doe.com"), None, Some(2));
    var b1;
    st, b1 := store.CreateBooking("e1", first, "b1", false, false, false);
    assert st == Created && store.bookings == [FIRST_BOOKING];
    assert Remaining(TEST_EVENT, store.bookings) == 8;
    SingleBookingIds(FIRST_BOOKING);
  }

  /** On the seeded store: the view lists the booking, a 9-spot request and a request
      without contact are refused, the booked event cannot be deleted, and the booking
      cannot be deleted through another event's path. Nothing changes. */
  method RefusalsChangeNothing(store: EventStore)
    requires store.Valid() && forall s :: store.validId(s)
    requires store.events == [TEST_EVENT] && store.bookings == [FIRST_BOOKING]
    modifies store
    ensures store.Valid()
    ensures store.events == [TEST_EVENT] && store.bookings == [FIRST_BOOKING]
  {
    assert FindEvent(store.events, "e1") == Some(0);
    var st, view := store.GetEvent("e1", false, false);
    assert st == Ok && view.value.bookings == ["b1"];

    assert SpotsFor(store.bookings, "e1") == 2;
    var tooMany := BookingPayload(None, None, None, None, Some("c@d.com"), None, Some(9));
    var b;
    st, b := store.CreateBooking("e1", tooMany, "b2", false, false, false);
    assert st == BadRequest(NotEnoughSpots);

    var noContact := BookingPayload(None, None, None, None, None, None, Some(1));
    st, b := store.CreateBooking("e1", noContact, "b2", false, false, false);
    assert st == BadRequest(MissingContact);

    var dv;
    st, dv := store.DeleteEvent("e1", false, false);
    assert st == BadRequest(EventHasBookings);

    st, b := store.DeleteBooking("e2", "b1", false);
    assert st == NotFound(BookingResource);
  }

  /** On the seeded store: deleting the booking gives all 10 spots back, a 10-spot
      booking then fits exactly and one more spot is refused. */
  method RefillToCapacity(store: EventStore)
    requires store.Valid() && forall s :: store.validId(s)
    requires store.events == [TEST_EVENT] && store.bookings == [FIRST_BOOKING]
    modifies store
    ensures store.Valid() && store.CapacityHolds()
    ensures store.events == [TEST_EVENT] && store.bookings == [FULL_BOOKING]
  {
    assert FindBooking(store.bookings, "e1", "b1") == Some(0);
    var st, gone := store.DeleteBooking("e1", "b1", false);
    assert st == Ok && store.bookings == [];
    assert Remaining(TEST_EVENT, store.bookings) == 10;

    assert FindEvent(store.events, "e1") == Some(0);
    var full := BookingPayload(None, None, None, None, Some("a@b.com"), None, Some(10));
    var b;
    st, b := store.CreateBooking("e1", full, "b3", false, false, false);
    assert st == Created && store.bookings == [FULL_BOOKING];

    assert SpotsFor(store.bookings, "e1") == 10;
    var one := BookingPayload(None, None, None, None, Some("a@b.com"), None, Some(1));
    st, b := store.CreateBooking("e1", one, "b4", false, false, false);
    assert st == BadRequest(NotEnoughSpots);
    assert SpotsFor(store.bookings, TEST_EVENT.id) <= TEST_EVENT.capacity;
  }

  /** The three stages in turn: the event ends fully booked and within capacity. */
  method CapacityWalkthrough() returns (store: EventStore)
    ensures fresh(store) && store.Valid() && store.CapacityHolds()
    ensures store.events == [TEST_EVENT] && store.bookings == [FULL_BOOKING]
    ensures Remaining(TEST_EVENT, store.bookings) == 0
  {
    store := SeedStore();
    RefusalsChangeNothing(store);
    RefillToCapacity(store);
    assert store.CapacityHolds();
  }
}
