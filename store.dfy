/** The request handlers of the REST interface, as methods of a store that holds the
    two collections in memory and serves one request at a time. */
module Handlers {
  import opened Wrappers
  import opened Records
  import opened Queries
  import opened Capacity
  import opened EventCreation

  /** The events and bookings collections. `validId` is the object-id validator and
      `schemaRules` the event schema's rules beyond its required fields; both are
      collaborators whose code is not part of this model. Each handler takes one
      `...Fails` flag per store call it makes, saying whether that call reports an error. */
  class EventStore {
    const validId: Id -> bool
    const schemaRules: EventPayload -> bool
    var events: seq<Event>
    var bookings: seq<Booking>

    ghost predicate Valid()
      reads this
    {
      Integrity(events, bookings)
    }

    /** No event holds more booked spots than its capacity. */
    predicate CapacityHolds()
      reads this
    {
      WithinCapacity(events, bookings)
    }

    /** Whether `new Event(body)` passes schema validation on save. */
    predicate SchemaOk(body: EventPayload) {
      HasRequiredFields(body) && schemaRules(body)
    }

    constructor (validId: Id -> bool, schemaRules: EventPayload -> bool)
      ensures this.validId == validId && this.schemaRules == schemaRules
      ensures events == [] && bookings == []
      ensures Valid() && CapacityHolds()
    {
      this.validId := validId;
      this.schemaRules := schemaRules;
      events := [];
      bookings := [];
    }

    /** `GET /events`: every event in its list view. */
    method ListEvents(queryFails: bool) returns (status: Status, views: seq<EventSummary>)
      ensures queryFails ==> status == InternalError && views == []
      ensures !queryFails ==> status == Ok && |views| == |events|
      ensures !queryFails ==> forall k :: 0 <= k < |events| ==> views[k] == Summary(events[k])
    {
      if queryFails {
        return InternalError, [];
      }
      status, views := Ok, Summaries(events);
    }

    /** `GET /events/:eventId`: the event with the ids of its bookings, in store order. */
    method GetEvent(eventId: Id, lookupFails: bool, bookingQueryFails: bool)
      returns (status: Status, view: Option<EventDetail>)
      ensures view.Some? <==> status == Ok
      ensures !validId(eventId) ==> status == NotFound(EventResource)
      ensures validId(eventId) ==>
        if lookupFails then status == InternalError
        else match FindEvent(events, eventId)
          case None => status == NotFound(EventResource)
          case Some(k) =>
            if bookingQueryFails then status == InternalError
            else status == Ok && view.value == EventDetail(events[k], IdsOf(BookingsFor(bookings, eventId)))
    {
      status, view := NotFound(EventResource), None;
      if !validId(eventId) {
        return;
      }
      if lookupFails {
        status := InternalError;
        return;
      }
      var found := FindEvent(events, eventId);
      if found.None? {
        return;
      }
      if bookingQueryFails {
        status := InternalError;
        return;
      }
      var matching := BookingsFor(bookings, eventId);
      var ids: seq<Id> := [];
      for i := 0 to |matching|
        invariant ids == IdsOf(matching[..i])
      {
        ids := ids + [matching[i].id];
      }
      assert matching[..|matching|] == matching;
      status, view := Ok, Some(EventDetail(events[found.value], ids));
    }

    /** `POST /events`. The status follows `PostEventStatus`, which answers 500 where
        the source answers 201 for a save that failed with a non-validation error. */
    method CreateEvent(body: EventPayload, generatedId: Id, saveFails: bool)
      returns (status: Status, created: Option<Event>)
      requires Valid()
      modifies this
      ensures Valid() && bookings == old(bookings)
      ensures
        var id := body.id.GetOr(generatedId);
        var outcome := SaveEventOutcome(SchemaOk(body), FindEvent(old(events), id).Some?, saveFails);
        status == PostEventStatus(outcome) &&
        if outcome == Saved then
          created == Some(EventFrom(id, body)) && events == old(events) + [created.value]
        else
          created == None && events == old(events)
      ensures old(CapacityHolds()) && (created.Some? ==> created.value.capacity >= 0) ==> CapacityHolds()
    {
      var id := body.id.GetOr(generatedId);
      var outcome := SaveEventOutcome(SchemaOk(body), FindEvent(events, id).Some?, saveFails);
      status, created := PostEventStatus(outcome), None;
      if outcome == Saved {
        var e := EventFrom(id, body);
        IntegrityAfterEventAdded(events, bookings, e);
        if WithinCapacity(events, bookings) && e.capacity >= 0 {
          NewEventKeepsCapacity(events, bookings, e);
        }
        events := events + [e];
        created := Some(e);
      }
    }

    /** `DELETE /events/:eventId`: refused while any booking references the event. */
    method DeleteEvent(eventId: Id, bookingQueryFails: bool, deleteFails: bool)
      returns (status: Status, view: Option<EventDetail>)
      requires Valid()
      modifies this
      ensures Valid() && bookings == old(bookings)
      ensures view.Some? <==> status == Ok
      ensures status != Ok ==> events == old(events)
      ensures !validId(eventId) ==> status == NotFound(EventResource)
      ensures validId(eventId) && bookingQueryFails ==> status == InternalError
      ensures validId(eventId) && !bookingQueryFails && BookingsFor(old(bookings), eventId) != [] ==>
        status == BadRequest(EventHasBookings)
      ensures validId(eventId) && !bookingQueryFails && BookingsFor(old(bookings), eventId) == [] ==>
        match FindEvent(old(events), eventId)
        case None => status == NotFound(EventResource)
        case Some(k) =>
          if deleteFails then status == NotFound(EventResource)
          else status == Ok && view == Some(EventDetail(old(events)[k], [])) && events == RemoveAt(old(events), k)
      ensures old(CapacityHolds()) ==> CapacityHolds()
    {
      status, view := NotFound(EventResource), None;
      if !validId(eventId) {
        return;
      }
      if bookingQueryFails {
        status := InternalError;
        return;
      }
      var matching := BookingsFor(bookings, eventId);
      if |matching| > 0 {
        status := BadRequest(EventHasBookings);
        return;
      }
      var found := FindEvent(events, eventId);
      if deleteFails || found.None? {
        return;
      }
      var k := found.value;
      BookingsForEmpty(bookings, eventId);
      IntegrityAfterEventRemoved(events, bookings, k);
      if WithinCapacity(events, bookings) {
        RemovedEventKeepsCapacity(events, bookings, k);
      }
      var e := events[k];
      events := RemoveAt(events, k);
      status, view := Ok, Some(EventDetail(e, []));
    }

    /** `GET /events/:eventId/bookings`: the event's bookings without their `eventId`.
        The event itself is not looked up. */
    method ListBookings(eventId: Id, queryFails: bool) returns (status: Status, views: seq<BookingSummary>)
      ensures !validId(eventId) ==> status == NotFound(EventResource) && views == []
      ensures validId(eventId) && queryFails ==> status == InternalError && views == []
      ensures validId(eventId) && !queryFails ==> status == Ok && views == BookingViews(BookingsFor(bookings, eventId))
    {
      if !validId(eventId) {
        return NotFound(EventResource), [];
      }
      if queryFails {
        return InternalError, [];
      }
      status, views := Ok, BookingViews(BookingsFor(bookings, eventId));
    }

    /** `GET /events/:eventId/bookings/:bookingId`: the booking that matches both ids. */
    method GetBooking(eventId: Id, bookingId: Id, queryFails: bool)
      returns (status: Status, view: Option<BookingSummary>)
      ensures view.Some? <==> status == Ok
      ensures !validId(eventId) ==> status == NotFound(EventResource)
      ensures validId(eventId) && !validId(bookingId) ==> status == NotFound(BookingResource)
      ensures validId(eventId) && validId(bookingId) ==>
        if queryFails then status == InternalError
        else match FindBooking(bookings, eventId, bookingId)
          case None => status == NotFound(BookingResource)
          case Some(i) => status == Ok && view.value == BookingView(bookings[i])
    {
      status, view := NotFound(EventResource), None;
      if !validId(eventId) {
        return;
      }
      status := NotFound(BookingResource);
      if !validId(bookingId) {
        return;
      }
      if queryFails {
        status := InternalError;
        return;
      }
      var found := FindBooking(bookings, eventId, bookingId);
      if found.Some? {
        status, view := Ok, Some(BookingView(bookings[found.value]));
      }
    }

    /** The remaining capacity the booking handler computes: the event's capacity, less
        the aggregate's total when the event has bookings. */
    method RemainingCapacity(e: Event) returns (remaining: int)
      ensures remaining == e.capacity - SpotsFor(bookings, e.id)
      ensures NoBookingsFor(bookings, e.id) ==> remaining == e.capacity
    {
      var sum := SpotsAggregate(bookings, e.id);
      remaining := e.capacity;
      if |sum| != 0 {
        remaining := remaining - sum[0];
      }
    }

    /** `POST /events/:eventId/bookings`: admitted only if the requested spots fit the
        remaining capacity; the stored booking takes the event id of the path. */
    method CreateBooking(eventId: Id, body: BookingPayload, generatedId: Id,
                         lookupFails: bool, aggregateFails: bool, saveFails: bool)
      returns (status: Status, created: Option<Booking>)
      requires Valid()
      modifies this
      ensures Valid() && events == old(events)
      ensures created.Some? <==> status == Created
      ensures status == Created ==> bookings == old(bookings) + [created.value] && created.value.eventId == eventId
      ensures status != Created ==> bookings == old(bookings)
      ensures !validId(eventId) ==> status == NotFound(EventResource)
      ensures validId(eventId) && lookupFails ==> status == InternalError
      ensures validId(eventId) && !lookupFails ==>
        match FindEvent(old(events), eventId)
        case None => status == NotFound(EventResource)
        case Some(k) =>
          if MissingBookingField(body).Some? then status == BadRequest(MissingBookingField(body).value)
          else if aggregateFails then status == InternalError
          else if body.spots.value > Remaining(old(events)[k], old(bookings)) then status == BadRequest(NotEnoughSpots)
          else
            var b := BookingFrom(body.id.GetOr(generatedId), eventId, body);
            if saveFails || BookingIdInUse(old(bookings), b.id) then status == InternalError
            else status == Created && created == Some(b)
      ensures old(CapacityHolds()) ==> CapacityHolds()
    {
      status, created := NotFound(EventResource), None;
      if !validId(eventId) {
        return;
      }
      if lookupFails {
        status := InternalError;
        return;
      }
      var found := FindEvent(events, eventId);
      if found.None? {
        return;
      }
      var event := events[found.value];
      var missing := MissingBookingField(body);
      if missing.Some? {
        status := BadRequest(missing.value);
        return;
      }
      if aggregateFails {
        status := InternalError;
        return;
      }
      var remaining := RemainingCapacity(event);
      if body.spots.value > remaining {
        status := BadRequest(NotEnoughSpots);
        return;
      }
      var b := BookingFrom(body.id.GetOr(generatedId), eventId, body);
      if saveFails || BookingIdInUse(bookings, b.id) {
        status := InternalError;
        return;
      }
      IntegrityAfterBookingAdded(events, bookings, b);
      if WithinCapacity(events, bookings) {
        AdmittedBookingKeepsCapacity(events, bookings, found.value, b);
      }
      bookings := bookings + [b];
      status, created := Created, Some(b);
    }

    /** `DELETE /events/:eventId/bookings/:bookingId`: removes the booking that matches
        both ids. */
    method DeleteBooking(eventId: Id, bookingId: Id, deleteFails: bool)
      returns (status: Status, deleted: Option<Booking>)
      requires Valid()
      modifies this
      ensures Valid() && events == old(events)
      ensures deleted.Some? <==> status == Ok
      ensures status != Ok ==> bookings == old(bookings)
      ensures !validId(eventId) ==> status == NotFound(EventResource)
      ensures validId(eventId) && !validId(bookingId) ==> status == NotFound(BookingResource)
      ensures validId(eventId) && validId(bookingId) ==>
        if deleteFails then status == InternalError
        else match FindBooking(old(bookings), eventId, bookingId)
          case None => status == NotFound(BookingResource)
          case Some(i) => status == Ok && deleted == Some(old(bookings)[i]) && bookings == RemoveAt(old(bookings), i)
      ensures old(CapacityHolds()) && (deleted.Some? ==> deleted.value.spots >= 0) ==> CapacityHolds()
      ensures status == Ok && |BookingsFor(old(bookings), eventId)| == 1 ==> BookingsFor(bookings, eventId) == []
    {
      status, deleted := NotFound(EventResource), None;
      if !validId(eventId) {
        return;
      }
      status := NotFound(BookingResource);
      if !validId(bookingId) {
        return;
      }
      if deleteFails {
        status := InternalError;
        return;
      }
      var found := FindBooking(bookings, eventId, bookingId);
      if found.None? {
        return;
      }
      var i := found.value;
      IntegrityAfterBookingRemoved(events, bookings, i);
      BookingsForRemove(bookings, i, eventId);
      if WithinCapacity(events, bookings) && bookings[i].spots >= 0 {
        RemovedBookingKeepsCapacity(events, bookings, i);
      }
      var b := bookings[i];
      bookings := RemoveAt(bookings, i);
      status, deleted := Ok, Some(b);
    }
  }
}
