/**
 * The HTTP endpoints: request validation, the POST normalisation, and the
 * mapping of each service outcome to a status code and JSON payload.
 *
 * Each handler method takes `storeFails`: the store call it would make throws
 * (a database failure, an id the store cannot cast, a search pattern that is
 * not a valid regular expression). The store is then left as it was and the
 * handler's catch arm answers 500.
 */
module Routes {
  import opened JsValues
  import opened MeetupModels
  import opened EventService

  /** Message carried by a simulated store exception; no response depends on it. */
  const StoreErrorMessage := "store error"

  const HealthMessage := "Event Management API is running"
  const RequiredFieldsMessage := "title, description, date and location are required"
  const CreateFailedMessage := "Failed to create event"
  const ListFailedMessage := "Failed to fetch events"
  const FetchFailedMessage := "Failed to fetch event"
  const NotFoundMessage := "Event not found"
  const RsvpFailedMessage := "Failed to add attendee"
  const DeletedMessage := "Event deleted successfully"
  const DeleteFailedMessage := "Failed to delete event"

  // ---------------------------------------------------------------------------
  // Requests and responses.

  /** The `tags` field of a POST body: a JSON array of labels, or anything else (missing included). */
  datatype TagsInput = TagArray(items: seq<string>) | NotAnArray

  /** The fields of a POST /events body that the handler reads. */
  datatype PostBody = PostBody(
    title: Option<string>,
    description: Option<string>,
    date: Option<string>,
    location: Option<string>,
    tags: TagsInput,
    imageUrl: Option<string>)

  datatype Payload =
    | Text(text: string)
    | EventJson(event: Event)
    | EventListJson(events: seq<Event>)
    | ErrorJson(error: string)
    | MessageJson(message: string)

  datatype Response = Response(status: int, payload: Payload)

  // ---------------------------------------------------------------------------
  // GET /

  function HealthCheck(): (resp: Response)
    ensures resp.status == 200 && resp.payload == Text(HealthMessage)
  {
    Response(200, Text(HealthMessage))
  }

  // ---------------------------------------------------------------------------
  // POST /events

  /** Some required field of the body is falsy. */
  predicate MissingRequired(b: PostBody)
  {
    !Truthy(b.title) || !Truthy(b.description) || !Truthy(b.date) || !Truthy(b.location)
  }

  /** The record the handler hands to createEvent for a body that has every required field. */
  function Normalise(b: PostBody): (d: EventData)
    requires !MissingRequired(b)
    ensures d.title == b.title.value && d.description == b.description.value
    ensures d.date == b.date.value && d.location == b.location.value
    ensures !Truthy(b.imageUrl) ==> d.imageUrl == ""
    ensures Truthy(b.imageUrl) ==> d.imageUrl == b.imageUrl.value
    ensures b.tags.NotAnArray? ==> d.tags == []
    ensures b.tags.TagArray? ==> d.tags == b.tags.items
    ensures d.attendees == []
    ensures HasRequiredFields(d)
  {
    EventData(
      b.title.value, b.description.value, b.date.value, b.location.value,
      if Truthy(b.imageUrl) then b.imageUrl.value else "",
      match b.tags
      case TagArray(items) => items
      case NotAnArray => [],
      [])
  }

  /** The body a client would send to recreate `d`. */
  function BodyOf(d: EventData): PostBody
  {
    PostBody(Some(d.title), Some(d.description), Some(d.date), Some(d.location), TagArray(d.tags), Some(d.imageUrl))
  }

  /** Normalisation is a fixed point: posting back a normalised record yields the same record. */
  lemma NormaliseIsStable(b: PostBody)
    requires !MissingRequired(b)
    ensures !MissingRequired(BodyOf(Normalise(b)))
    ensures Normalise(BodyOf(Normalise(b))) == Normalise(b)
  {
  }

  /** What the handler does before touching the store: reject with 400, or create this record. */
  datatype PostPlan = RejectPost(response: Response) | CreateRecord(data: EventData)

  function PlanPost(b: PostBody): (p: PostPlan)
    ensures p.RejectPost? <==> MissingRequired(b)
    ensures p.RejectPost? ==> p.response == Response(400, ErrorJson(RequiredFieldsMessage))
    ensures p.CreateRecord? ==> p.data == Normalise(b)
  {
    if MissingRequired(b) then RejectPost(Response(400, ErrorJson(RequiredFieldsMessage)))
    else CreateRecord(Normalise(b))
  }

  /** The answer once createEvent has returned or thrown. */
  function CreatedResponse(saved: Try<Event>): (resp: Response)
    ensures resp.status == 201 <==> saved.Returned?
    ensures resp.status == 500 <==> saved.Threw?
    ensures saved.Returned? ==> resp.payload == EventJson(saved.value)
    ensures saved.Threw? ==> resp.payload == ErrorJson(CreateFailedMessage)
  {
    match saved
    case Returned(e) => Response(201, EventJson(e))
    case Threw(_) => Response(500, ErrorJson(CreateFailedMessage))
  }

  method HandlePost(store: EventStore, b: PostBody, storeFails: bool) returns (resp: Response)
    requires store.Valid()
    modifies store
    ensures store.Valid()
    ensures MissingRequired(b) ==>
              resp == Response(400, ErrorJson(RequiredFieldsMessage)) && unchanged(store)
    ensures !MissingRequired(b) && storeFails ==>
              resp == Response(500, ErrorJson(CreateFailedMessage)) && unchanged(store)
    ensures !MissingRequired(b) && !storeFails ==>
              && resp.status == 201 && resp.payload.EventJson?
              && Data(resp.payload.event) == Normalise(b)
              && resp.payload.event.id !in old(store.events)
              && store.events == old(store.events)[resp.payload.event.id := resp.payload.event]
    ensures old(store.AttendeesUnique()) ==> store.AttendeesUnique()
  {
    match PlanPost(b)
    case RejectPost(r) =>
      resp := r;
    case CreateRecord(d) =>
      if storeFails {
        resp := CreatedResponse(Threw(StoreErrorMessage));
      } else {
        var saved := store.CreateEvent(d);
        resp := CreatedResponse(Returned(saved));
      }
  }

  // ---------------------------------------------------------------------------
  // GET /events

  function ListedResponse(listed: Try<seq<Event>>): (resp: Response)
    ensures resp.status == 200 <==> listed.Returned?
    ensures resp.status == 500 <==> listed.Threw?
    ensures listed.Returned? ==> resp.payload == EventListJson(listed.value)
    ensures listed.Threw? ==> resp.payload == ErrorJson(ListFailedMessage)
  {
    match listed
    case Returned(es) => Response(200, EventListJson(es))
    case Threw(_) => Response(500, ErrorJson(ListFailedMessage))
  }

  method HandleList(store: EventStore, search: Option<string>, tag: Option<string>, storeFails: bool)
    returns (resp: Response)
    requires store.Valid()
    ensures storeFails ==> resp == Response(500, ErrorJson(ListFailedMessage))
    ensures !storeFails ==>
              && resp.status == 200 && resp.payload.EventListJson?
              && IsListing(store.events, search, tag, resp.payload.events)
  {
    if storeFails {
      resp := ListedResponse(Threw(StoreErrorMessage));
    } else {
      var events := store.GetEvents(search, tag);
      resp := ListedResponse(Returned(events));
    }
  }

  // ---------------------------------------------------------------------------
  // GET /events/:id and the result of PATCH /events/:id/rsvp

  /** A looked-up event: 200 with it, 404 for null, 500 with `failure` when the call threw. */
  function EventOr404(found: Try<Option<Event>>, failure: string): (resp: Response)
    ensures resp.status == 200 <==> found.Returned? && found.value.Some?
    ensures resp.status == 404 <==> found == Returned(None)
    ensures resp.status == 500 <==> found.Threw?
    ensures resp.status == 200 ==> resp.payload == EventJson(found.value.value)
    ensures resp.status == 404 ==> resp.payload == ErrorJson(NotFoundMessage)
    ensures resp.status == 500 ==> resp.payload == ErrorJson(failure)
  {
    match found
    case Returned(Some(e)) => Response(200, EventJson(e))
    case Returned(None) => Response(404, ErrorJson(NotFoundMessage))
    case Threw(_) => Response(500, ErrorJson(failure))
  }

  method HandleGetById(store: EventStore, id: EventId, storeFails: bool) returns (resp: Response)
    requires store.Valid()
    ensures storeFails ==> resp == Response(500, ErrorJson(FetchFailedMessage))
    ensures !storeFails && id !in store.events ==> resp == Response(404, ErrorJson(NotFoundMessage))
    ensures !storeFails && id in store.events ==> resp == Response(200, EventJson(store.events[id]))
  {
    if storeFails {
      resp := EventOr404(Threw(StoreErrorMessage), FetchFailedMessage);
    } else {
      var found := store.GetEventById(id);
      resp := EventOr404(Returned(found), FetchFailedMessage);
    }
  }

  // ---------------------------------------------------------------------------
  // PATCH /events/:id/rsvp

  /** What the handler does before touching the store: reject with 400, or RSVP this attendee. */
  datatype RsvpPlan = RejectRsvp(response: Response) | Rsvp(attendee: string)

  function PlanRsvp(attendee: Option<string>): (p: RsvpPlan)
    ensures p.RejectRsvp? <==> !Truthy(attendee)
    ensures p.RejectRsvp? ==> p.response == Response(400, ErrorJson(AttendeeRequiredMessage))
    ensures p.Rsvp? ==> Some(p.attendee) == attendee && p.attendee != ""
  {
    if Truthy(attendee) then Rsvp(attendee.value)
    else RejectRsvp(Response(400, ErrorJson(AttendeeRequiredMessage)))
  }

  method HandleRsvp(store: EventStore, id: EventId, attendee: Option<string>, storeFails: bool)
    returns (resp: Response)
    requires store.Valid()
    modifies store
    ensures store.Valid()
    ensures !Truthy(attendee) ==>
              resp == Response(400, ErrorJson(AttendeeRequiredMessage)) && unchanged(store)
    ensures Truthy(attendee) && storeFails ==>
              resp == Response(500, ErrorJson(RsvpFailedMessage)) && unchanged(store)
    ensures Truthy(attendee) && !storeFails && id !in old(store.events) ==>
              resp == Response(404, ErrorJson(NotFoundMessage)) && unchanged(store)
    ensures Truthy(attendee) && !storeFails && id in old(store.events) ==>
              && store.events == old(store.events)[id := WithAttendee(old(store.events)[id], attendee.value)]
              && store.clock == old(store.clock)
              && resp == Response(200, EventJson(store.events[id]))
    ensures old(store.AttendeesUnique()) ==> store.AttendeesUnique()
  {
    match PlanRsvp(attendee)
    case RejectRsvp(r) =>
      resp := r;
    case Rsvp(a) =>
      if storeFails {
        resp := EventOr404(Threw(StoreErrorMessage), RsvpFailedMessage);
      } else {
        var updated := store.AddAttendee(id, attendee);
        resp := EventOr404(updated, RsvpFailedMessage);
      }
  }

  // ---------------------------------------------------------------------------
  // DELETE /events/:id

  function DeletedResponse(deleted: Try<Option<Event>>): (resp: Response)
    ensures resp.status == 200 <==> deleted.Returned? && deleted.value.Some?
    ensures resp.status == 404 <==> deleted == Returned(None)
    ensures resp.status == 500 <==> deleted.Threw?
    ensures resp.status == 200 ==> resp.payload == MessageJson(DeletedMessage)
    ensures resp.status == 404 ==> resp.payload == ErrorJson(NotFoundMessage)
    ensures resp.status == 500 ==> resp.payload == ErrorJson(DeleteFailedMessage)
  {
    match deleted
    case Returned(Some(_)) => Response(200, MessageJson(DeletedMessage))
    case Returned(None) => Response(404, ErrorJson(NotFoundMessage))
    case Threw(_) => Response(500, ErrorJson(DeleteFailedMessage))
  }

  method HandleDelete(store: EventStore, id: EventId, storeFails: bool) returns (resp: Response)
    requires store.Valid()
    modifies store
    ensures store.Valid()
    ensures storeFails ==> resp == Response(500, ErrorJson(DeleteFailedMessage)) && unchanged(store)
    ensures !storeFails && id !in old(store.events) ==>
              resp == Response(404, ErrorJson(NotFoundMessage)) && unchanged(store)
    ensures !storeFails && id in old(store.events) ==>
              resp == Response(200, MessageJson(DeletedMessage))
    ensures !storeFails ==> store.events == old(store.events) - {id} && store.clock == old(store.clock)
    ensures old(store.AttendeesUnique()) ==> store.AttendeesUnique()
  {
    if storeFails {
      resp := DeletedResponse(Threw(StoreErrorMessage));
    } else {
      var deleted := store.DeleteEvent(id);
      resp := DeletedResponse(Returned(deleted));
    }
  }

  // ---------------------------------------------------------------------------
  // Request sequences.

  /** Two identical RSVPs: both answer 200, and the attendee is listed exactly once. */
  method RsvpTwice(store: EventStore, id: EventId, attendee: string) returns (first: Response, second: Response)
    requires store.Valid() && store.AttendeesUnique()
    requires id in store.events && attendee != ""
    modifies store
    ensures store.Valid() && store.AttendeesUnique()
    ensures first.status == 200 && second == first
    ensures second.payload.EventJson? && Occurrences(second.payload.event.attendees, attendee) == 1
  {
    ghost var e := store.events[id];
    first := HandleRsvp(store, id, Some(attendee), false);
    second := HandleRsvp(store, id, Some(attendee), false);
    WithAttendeeIdempotent(e, attendee);
    RsvpTwiceOccursOnce(e, attendee);
  }

  /** Deleting an event and then fetching it: 200, then 404. */
  method DeleteThenGet(store: EventStore, id: EventId) returns (deleted: Response, fetched: Response)
    requires store.Valid() && id in store.events
    modifies store
    ensures store.Valid()
    ensures deleted == Response(200, MessageJson(DeletedMessage))
    ensures fetched == Response(404, ErrorJson(NotFoundMessage))
  {
    deleted := HandleDelete(store, id, false);
    fetched := HandleGetById(store, id, false);
  }
}
