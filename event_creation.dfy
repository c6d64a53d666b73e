/** `POST /events`: how the outcome of `event.save` becomes a response status. */
module EventCreation {
  import opened Wrappers
  import opened Records
  import opened Queries

  /** What `event.save` reports: stored, a schema `ValidationError`, or any other store
      error (a duplicate `_id`, a lost connection). */
  datatype SaveOutcome = Saved | ValidationFailed | StoreFailed

  /** The outcome of saving a new event: the schema is checked first, then the
      unique `_id` index, then the store itself. */
  function SaveEventOutcome(accepted: bool, idTaken: bool, storeFails: bool): (o: SaveOutcome)
    ensures o == Saved <==> accepted && !idTaken && !storeFails
    ensures o == ValidationFailed <==> !accepted
    ensures o == StoreFailed <==> accepted && (idTaken || storeFails)
  {
    if !accepted then ValidationFailed
    else if idTaken || storeFails then StoreFailed
    else Saved
  }

  /** The status the handler sends as written: 400 for a validation error, 201 for
      everything else, including a save that stored nothing. */
  function PostEventStatusAsWritten(o: SaveOutcome): (s: Status)
    ensures s == Created <==> o != ValidationFailed
    ensures s == BadRequest(MalformedEventBody) <==> o == ValidationFailed
  {
    if o == ValidationFailed then BadRequest(MalformedEventBody) else Created
  }

  /** A body that passes the schema but reuses a stored event's `_id` is not saved,
      yet the as-written handler answers 201. */
  lemma DuplicateIdAcknowledgedAsWritten(es: seq<Event>, p: EventPayload, k: nat)
    requires k < |es| && p.id == Some(es[k].id)
    ensures FindEvent(es, p.id.value).Some?
    ensures SaveEventOutcome(true, FindEvent(es, p.id.value).Some?, false) != Saved
    ensures PostEventStatusAsWritten(SaveEventOutcome(true, FindEvent(es, p.id.value).Some?, false)) == Created
  {
  }

  /** The status the handler evidently intends: 201 exactly when the event was stored,
      400 for a validation error and 500 for any other store error. */
  function PostEventStatus(o: SaveOutcome): (s: Status)
    ensures s == Created <==> o == Saved
    ensures s == BadRequest(MalformedEventBody) <==> o == ValidationFailed
    ensures s == InternalError <==> o == StoreFailed
  {
    match o
    case Saved => Created
    case ValidationFailed => BadRequest(MalformedEventBody)
    case StoreFailed => InternalError
  }

  /** The two agree on every outcome except a store error. */
  lemma PostEventStatusAgrees(o: SaveOutcome)
    ensures PostEventStatus(o) == PostEventStatusAsWritten(o) <==> o != StoreFailed
  {
  }
}
