# Event booking backend: capacity and referential-integrity model

This project models the core of an Express/MongoDB backend that manages **events**
and their **bookings** over REST. The model covers the request handlers for
`/events`, `/events/:eventId`, `/events/:eventId/bookings` and
`/events/:eventId/bookings/:bookingId`. Each handler is a method of the class
`Handlers.EventStore`. The class holds the two collections in memory as
sequences (`events`, `bookings`), serves one request at a time and returns a
response `Status` (200, 201, 400, 404 or 500, with the reason or resource the
message names) plus the view the handler sends.

What is proved:

- **Remaining capacity.** `Capacity.SpotsFor` is the sum of spots over an
  event's bookings. The handler's remaining capacity is the capacity less the
  aggregate total, or the full capacity when there is no group. This equals
  `capacity - SpotsFor`, and it equals `capacity` when the event has no bookings.
  A booking is admitted only if `spots <= remaining`.
- **Capacity invariant.** `Capacity.WithinCapacity` says no event holds more
  spots than its capacity. Under serialized execution every handler preserves
  it, with two conditions. `DeleteBooking` preserves it when the deleted
  booking's spots are nonnegative. `CreateEvent` preserves it when the new
  capacity is nonnegative. The handlers never check the sign of `spots`, so
  the invariant can break: `Capacity.NegativeSpotsOverbook` shows a -5-spot
  booking, then an admitted 15-spot booking, then deleting the -5 booking,
  which overbooks a capacity-10 event.
- **Referential integrity.** Every store change keeps `Queries.Integrity`:
  event ids are unique, booking ids are unique, and every booking references a
  stored event. The delete guard is what keeps the last part: an event with
  bookings cannot be deleted.
- **Required fields.** The contact check (email or tel) runs before the spots
  check, so a body with neither is refused for its contact whatever its spots.
- **Joint scoping.** Booking read and delete match on `(eventId, _id)`
  together. A booking id that belongs to another event is not found.
- **Single-event view.** Its `bookings` field is the ids of the event's
  bookings, in store order.
- **Id gate.** Every handler that takes an id answers 404 for an id the
  validator rejects, whatever any store call would have done. For
  `GetEvent`, `DeleteEvent`, `CreateBooking`, `GetBooking` and `DeleteBooking`,
  that is the same status as for an id that is absent. `ListBookings` answers
  200 with an empty list for a valid id that has no event.

Collaborators whose code is not part of this model are parameters:

- `validId` is the object-id validator (`utility/objectIdChecker` is not part
  of this model).
- `schemaRules` is the event schema's rules beyond its required fields
  (`models/event` and `models/booking` are not part of this model).
- Each store call can fail. A handler takes one `...Fails` flag per store call
  it makes.
- A new record's id is the body's `_id` when the body has one. Otherwise it is a
  `generatedId` parameter. An id that is already taken makes the save fail, as
  a duplicate-key error does.

Where the code departs from the REST contract of status codes and views that
the interface is meant to offer, the model follows the code:

- `GET /events/:eventId/bookings` and `GET /events/:eventId/bookings/:bookingId`
  never look the event up. A valid but absent event id gives 200 with an empty
  list, or 404 for the booking.
- `POST /events` answers with the stored record, which has no `bookings` field.
- No handler checks that `spots` is positive.
- A store error from `findOneAndDelete` in `DELETE /events/:eventId` answers
  404, not 500.

`Scenario` is a client of the store. It replays the capacity-10 walkthrough
using only the handlers' contracts.

## Model

| member | source | states |
|---|---|---|
| `Records.MissingBookingField` | eventBackend/index.js:178-184 | a body is refused for missing contact exactly when it has neither tel nor email; for missing spots exactly when it has a contact but no spots; otherwise it passes |
| `Records.BookingFromIgnoresBodyEventId` | eventBackend/index.js:201-203 | whatever `eventId` the body carries, the stored booking is the same: the path's event id wins |
| `Records.BookingViewsKeepIds` | eventBackend/index.js:140-142 | the bookings list has one entry per booking, in order, each with that booking's id, so it agrees with the id list of the single-event view |
| `Records.NoContactRefusedWhateverSpots` | eventBackend/index.js:178-184 | a body with neither tel nor email is refused for its contact whatever its spots field holds |
| `Queries.FindEvent` | eventBackend/index.js:172-176 | finds the index of the first event with the id, and finds nothing exactly when no event has it |
| `Queries.FindBooking` | eventBackend/index.js:156-160 | finds the first booking whose event id and booking id both match, and finds nothing exactly when none matches both |
| `Queries.ForeignBookingNotFound` | eventBackend/index.js:156-160 | with unique booking ids, a booking id that belongs to another event is not found under this event |
| `Queries.FindBookingExact` | eventBackend/index.js:225-229 | with unique booking ids, the joint lookup by a booking's own two ids finds exactly that booking |
| `Queries.BookingsForAppend` | eventBackend/index.js:85 | a booking added at the end of the store appears at the end of its event's bookings, and no other event's list changes |
| `Queries.BookingsForConcat` | eventBackend/index.js:85 | filtering an event's bookings distributes over concatenation, so the result keeps store order |
| `Queries.BookingsForMember` | eventBackend/index.js:85 | a booking is listed for an event exactly when it is stored and references that event |
| `Queries.BookingsForEmpty` | eventBackend/index.js:115-119 | an event's booking list is empty exactly when no stored booking references it |
| `Queries.BookingsForRemove` | eventBackend/index.js:225-231 | deleting a booking removes exactly that booking from its own event's list, keeping the order of the rest, and leaves every other event's list unchanged |
| `Queries.FirstBookingHeadsIds` | eventBackend/test/index.test.js:82-83 | the first stored booking of an event is the first id of the event's `bookings` field |
| `Queries.IntegrityAfterEventAdded` | eventBackend/index.js:99-100 | storing an event under an unused id keeps unique ids and references, and no booking references the new event |
| `Queries.IntegrityAfterEventRemoved` | eventBackend/index.js:115-127 | deleting an event that no booking references keeps unique ids and every booking's reference |
| `Queries.IntegrityAfterBookingAdded` | eventBackend/index.js:203-205 | storing a booking for a stored event under an unused id keeps integrity |
| `Queries.IntegrityAfterBookingRemoved` | eventBackend/index.js:225 | deleting a booking keeps integrity |
| `Capacity.SpotsFor` | eventBackend/index.js:186-187 | the aggregate total is 0 for an event with no bookings, and nonnegative when all spots are |
| `Capacity.SpotsForIsTotalOf` | eventBackend/index.js:186-187 | the aggregate sums exactly the bookings that the views list for the event |
| `Capacity.NegativeSpotsOverbook` | eventBackend/index.js:182-197 | since only the presence of `spots` is checked, a -5-spot booking, an admitted 15-spot booking and deleting the first leave a capacity-10 event holding 15 spots |
| `Capacity.SpotsForAppend` | eventBackend/index.js:203-205 | a new booking adds its spots to its own event's total and nothing to any other's |
| `Capacity.SpotsForRemove` | eventBackend/index.js:225-231 | a deleted booking gives its spots back to its own event's total and to no other |
| `Capacity.AdmittedBookingKeepsCapacity` | eventBackend/index.js:197-209 | a booking with `spots <= remaining`, appended for an existing event, keeps every event within capacity |
| `Capacity.RemovedBookingKeepsCapacity` | eventBackend/index.js:225-231 | deleting a booking with nonnegative spots keeps every event within capacity |
| `Capacity.NewEventKeepsCapacity` | eventBackend/index.js:99-104 | a new event that no booking references, with nonnegative capacity, keeps every event within capacity |
| `Capacity.RemovedEventKeepsCapacity` | eventBackend/index.js:121-127 | deleting an event keeps the remaining events within capacity |
| `EventCreation.SaveEventOutcome` | eventBackend/index.js:99-101 | an event is saved exactly when it passes the schema, its id is unused and the store works; it is a validation error exactly when the schema rejects it |
| `EventCreation.PostEventStatusAsWritten` | eventBackend/index.js:100-105 | as written, the handler answers 201 for every outcome except a validation error, including a save that stored nothing |
| `EventCreation.DuplicateIdAcknowledgedAsWritten` | eventBackend/index.js:100-105 | a schema-valid body that reuses a stored event's `_id` is not saved, yet the as-written status is 201 |
| `EventCreation.PostEventStatus` | eventBackend/index.js:100-105 | corrected status: 201 exactly when the event was saved, 400 exactly on a validation error, 500 exactly on any other store error |
| `EventCreation.PostEventStatusAgrees` | eventBackend/index.js:100-105 | the corrected and as-written statuses agree exactly on the outcomes that are not store errors |
| `Handlers.EventStore.ListEvents` | eventBackend/index.js:64-69 | answers 200 with one list view per stored event in store order, or 500 if the query fails |
| `Handlers.EventStore.GetEvent` | eventBackend/index.js:71-95 | 404 for an invalid or absent id, 500 if a query fails, or 200 with the event and the ids of its bookings in store order |
| `Handlers.EventStore.CreateEvent` | eventBackend/index.js:98-107 | appends the event built from the body exactly when the save succeeds, with the status that outcome calls for; bookings never change; capacity kept for a nonnegative capacity |
| `Handlers.EventStore.DeleteEvent` | eventBackend/index.js:110-131 | 404 for an invalid id, 500 if the bookings query fails, 400 with nothing changed while any booking references the event, 404 if absent; otherwise removes exactly that event and answers its view with `bookings = []` |
| `Handlers.EventStore.ListBookings` | eventBackend/index.js:135-144 | 404 for an invalid event id, 500 if the query fails, else 200 with the event's bookings without `eventId`, in store order |
| `Handlers.EventStore.GetBooking` | eventBackend/index.js:147-164 | 404 naming the event or the booking for an invalid id, 500 if the query fails, 404 unless a booking matches both ids, else 200 with that booking's view |
| `Handlers.EventStore.RemainingCapacity` | eventBackend/index.js:186-195 | the remaining capacity is the event's capacity minus its bookings' spots, and the full capacity when it has none |
| `Handlers.EventStore.CreateBooking` | eventBackend/index.js:167-213 | runs the id gate, event lookup, contact check, spots check, aggregate and capacity comparison in the source's order; only a 201 appends exactly one booking, under the path's event id; the capacity invariant is kept |
| `Handlers.EventStore.DeleteBooking` | eventBackend/index.js:216-233 | 404 for an invalid id, 500 if the delete fails, 404 unless a booking matches both ids; otherwise removes exactly that booking; capacity kept for nonnegative spots; deleting an event's last booking leaves it with none |
| `Scenario.SeedStore` | eventBackend/test/index.test.js:26-41 | the seeded store holds the capacity-10 test event and Jane Doe's 2-spot booking, the event's booking ids are exactly that booking's id, and 8 spots remain |
| `Scenario.RefusalsChangeNothing` | eventBackend/index.js:178-199 | over-capacity and no-contact bookings, deleting the booked event and deleting the booking through another event's path are all refused, and the store is unchanged |
| `Scenario.CapacityWalkthrough` | eventBackend/index.js:167-233 | after seeding, the refusals and the refill, the store holds the event with one 10-spot booking, no spot remains and capacity holds |
| `Scenario.RefillToCapacity` | eventBackend/index.js:186-231 | deleting the booking frees all 10 spots, a 10-spot booking then fits, one more spot is refused, and capacity holds |

## Left out

- MongoDB connection, `app.listen`, body parsing, CORS and the path constants (eventBackend/index.js:17-37, 256-258): process bootstrap and I/O.
- The basic-auth middleware (eventBackend/index.js:40-59): credential checks happen before the core runs.
- The generic error handler, and the `next(err)` calls where `next` is not in scope (eventBackend/index.js:66, 76, 173, 189, 243-254). The model answers 500 wherever the source calls `next(err)`. As written, such a call throws a reference error instead.
- The `app.route('*')` 405 fallback (eventBackend/index.js:236-238): routing glue.
- The race between the aggregate read and `booking.save`: the model is sequential, so the capacity invariant is stated for serialized execution only.
- JSON serialization: `getPublic` is taken to be the whole stored record. The `-__v` projections are implicit, because the model has no version field.
- Message texts and their JSON keys: a 404 names only its resource. The source's messages for malformed and absent ids differ, in wording and sometimes in key (`message` at eventBackend/index.js:169, `error` at eventBackend/index.js:175); here both are the same status.
- The ObjectId cast: the store compares ids after casting path strings to ObjectIds (eventBackend/index.js:75, 121, 172, 186, 225), so spellings such as upper-case hex name the same record. The model compares ids as strings and assumes path ids arrive in the canonical form the store holds.
- Timestamp casting: `startDate` and `endDate` are integers (milliseconds since the epoch). Bodies may carry ISO date strings, which the schema casts; that cast is not modelled.
- The booking schema: its rejections are folded into the `saveFails` flag of `CreateBooking`.
- JavaScript coercion of `spots` (strings, fractions, `null`): spots are integers, and a field is either present or `undefined`.
- Handlers.EventStore.CreateEvent: answers 500, not the source's 201, when a save fails with a non-validation error (see Findings). It keeps the capacity invariant only for a nonnegative capacity, because the schema's rules are not part of this model.
- Handlers.EventStore.DeleteBooking: keeps the capacity invariant only when the deleted booking's spots are nonnegative, because the handler never checks the sign of `spots`.

## Findings

| source | as written | input that shows it | evidently intended | confidence | as-written member | corrected member |
|---|---|---|---|---|---|---|
| eventBackend/index.js:100-105 | any `event.save` error that is not a `ValidationError` takes the `else` branch and answers 201 with the unsaved event | a schema-valid `POST /events` body whose `_id` equals a stored event's id (duplicate-key error), or a store outage | 500; 201 only when the event was stored | medium, not executed | `EventCreation.PostEventStatusAsWritten` | `EventCreation.PostEventStatus` |
