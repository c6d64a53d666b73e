/** The values the event backend stores, receives and sends: events, bookings,
    request bodies, the per-endpoint views and the response statuses. */
module Records {
  import opened Wrappers

  /** A record identifier (a MongoDB object id) as it arrives in a URL path or a body. */
  type Id = string

  /** A stored event. Timestamps are milliseconds since the epoch. */
  datatype Event = Event(
    id: Id,
    name: string,
    capacity: int,
    startDate: int,
    endDate: int,
    description: string,
    location: string)

  /** A stored booking; `eventId` references the event it consumes capacity of. */
  datatype Booking = Booking(
    id: Id,
    eventId: Id,
    firstName: Option<string>,
    lastName: Option<string>,
    email: Option<string>,
    tel: Option<string>,
    spots: int)

  /** The parsed JSON body of `POST /events`; `None` is a field the body leaves undefined. */
  datatype EventPayload = EventPayload(
    id: Option<Id>,
    name: Option<string>,
    capacity: Option<int>,
    startDate: Option<int>,
    endDate: Option<int>,
    description: Option<string>,
    location: Option<string>)

  /** The parsed JSON body of `POST /events/:eventId/bookings`. */
  datatype BookingPayload = BookingPayload(
    id: Option<Id>,
    eventId: Option<Id>,
    firstName: Option<string>,
    lastName: Option<string>,
    email: Option<string>,
    tel: Option<string>,
    spots: Option<int>)

  /** List view of an event (`GET /events`): no description, location or bookings. */
  datatype EventSummary = EventSummary(id: Id, name: string, capacity: int, startDate: int, endDate: int)

  /** Single view of an event: the stored record plus the ids of its bookings. */
  datatype EventDetail = EventDetail(event: Event, bookings: seq<Id>)

  /** View of a booking scoped under its event's URL: everything but `eventId`. */
  datatype BookingSummary = BookingSummary(
    id: Id,
    firstName: Option<string>,
    lastName: Option<string>,
    email: Option<string>,
    tel: Option<string>,
    spots: int)

  /** Which resource a 404 names. */
  datatype Resource = EventResource | BookingResource

  /** Why a request was refused with 400. */
  datatype Reason = MalformedEventBody | MissingContact | MissingSpots | NotEnoughSpots | EventHasBookings

  /** The response status of a handler, with the reason or resource its message names:
      200 `Ok`, 201 `Created`, 400 `BadRequest`, 404 `NotFound`, 500 `InternalError`. */
  datatype Status = Ok | Created | BadRequest(reason: Reason) | NotFound(resource: Resource) | InternalError

  function Summary(e: Event): EventSummary {
    EventSummary(e.id, e.name, e.capacity, e.startDate, e.endDate)
  }

  function Summaries(es: seq<Event>): (r: seq<EventSummary>)
    ensures |r| == |es| && forall i :: 0 <= i < |es| ==> r[i] == Summary(es[i])
  {
    seq(|es|, i requires 0 <= i < |es| => Summary(es[i]))
  }

  function BookingView(b: Booking): BookingSummary {
    BookingSummary(b.id, b.firstName, b.lastName, b.email, b.tel, b.spots)
  }

  function BookingViews(bs: seq<Booking>): (r: seq<BookingSummary>)
    ensures |r| == |bs| && forall i :: 0 <= i < |bs| ==> r[i] == BookingView(bs[i])
  {
    seq(|bs|, i requires 0 <= i < |bs| => BookingView(bs[i]))
  }

  /** The fields the event schema requires: name, capacity, startDate and endDate. */
  predicate HasRequiredFields(p: EventPayload) {
    p.name.Some? && p.capacity.Some? && p.startDate.Some? && p.endDate.Some?
  }

  /** The document `new Event(body)` builds; description and location default to "". */
  function EventFrom(id: Id, p: EventPayload): Event
    requires HasRequiredFields(p)
  {
    Event(id, p.name.value, p.capacity.value, p.startDate.value, p.endDate.value,
          p.description.GetOr(""), p.location.GetOr(""))
  }

  /** The document `new Booking(body)` builds after the handler overwrote `body.eventId`
      with the event id of the URL path. */
  function BookingFrom(id: Id, eventId: Id, p: BookingPayload): (b: Booking)
    requires p.spots.Some?
    ensures b.id == id && b.eventId == eventId && b.spots == p.spots.value
    ensures b.email == p.email && b.tel == p.tel
    ensures b.firstName == p.firstName && b.lastName == p.lastName
  {
    Booking(id, eventId, p.firstName, p.lastName, p.email, p.tel, p.spots.value)
  }

  /** The required-field checks of a booking body, in the order the handler runs them:
      first a contact (email or tel), then spots. */
  function MissingBookingField(p: BookingPayload): (r: Option<Reason>)
    ensures r == Some(MissingContact) <==> p.tel.None? && p.email.None?
    ensures r == Some(MissingSpots) <==> (p.tel.Some? || p.email.Some?) && p.spots.None?
    ensures r.None? <==> (p.tel.Some? || p.email.Some?) && p.spots.Some?
  {
    if p.tel.None? && p.email.None? then Some(MissingContact)
    else if p.spots.None? then Some(MissingSpots)
    else None
  }

  /** The `eventId` a booking body carries has no effect on the stored booking. */
  lemma BookingFromIgnoresBodyEventId(id: Id, eventId: Id, p: BookingPayload, other: Option<Id>)
    requires p.spots.Some?
    ensures BookingFrom(id, eventId, p.(eventId := other)) == BookingFrom(id, eventId, p)
  {
  }

  /** The bookings list and the id list of the single-event view agree entry by entry. */
  lemma BookingViewsKeepIds(bs: seq<Booking>)
    ensures |BookingViews(bs)| == |bs|
    ensures forall i :: 0 <= i < |bs| ==> BookingViews(bs)[i].id == bs[i].id
  {
  }

  /** A body without email and tel is refused for its contact whatever it says about spots. */
  lemma NoContactRefusedWhateverSpots(p: BookingPayload, spots: Option<int>)
    requires p.tel.None? && p.email.None?
    ensures MissingBookingField(p.(spots := spots)) == Some(MissingContact)
  {
  }

  /** `s` without its element at index `i`. */
  function RemoveAt<T>(s: seq<T>, i: nat): (r: seq<T>)
    requires i < |s|
    ensures |r| == |s| - 1
    ensures forall j :: 0 <= j < i ==> r[j] == s[j]
    ensures forall j :: i <= j < |r| ==> r[j] == s[j + 1]
  {
    s[..i] + s[i + 1..]
  }
}
