# Meetup events backend: a verified model

This project models the core of a small REST backend for community events.
Clients create events, list and search them, fetch one, RSVP to it (add an
attendee), and delete it. The events live in a document collection.

The model has four modules:

- `JsValues` (`js_values.dfy`): an optional request field (`Option`), the
  outcome of a call that may throw (`Try`), and JavaScript truthiness of an
  optional string (`Truthy`).
- `MeetupModels` (`meetup_models.dfy`): the Event schema. `EventData` holds
  the client-supplied fields. `Event` adds the store-assigned id and the
  `createdAt` stamp. The module also defines `NoDuplicates` and
  `Occurrences` on attendee lists.
- `EventService` (`event_service.dfy`): the service helpers of `index.js`.
  - The search/tag filter is a `Query` value that `BuildQuery` assembles
    step by step. `QueryHolds` says what the store selects with it.
    `Selected` gives the same selection stated directly on the event.
  - The collection is the class `EventStore`. Its field `events` maps ids
    to events. Its field `clock` is the creation counter: it gives each new
    event its id and its `createdAt`.
  - `CreateEvent`, `GetEvents`, `GetEventById`, `AddAttendee` and
    `DeleteEvent` are methods on that class.
  - The RSVP rule is the function `WithAttendee`: append the attendee only
    if they are not already listed.
- `Routes` (`routes.dfy`): the five route handlers plus the health check.
  - Each route is split into pure functions and one handler method. The pure
    functions validate the request (`PlanPost`, `PlanRsvp`), normalise the
    POST body (`Normalise`), and map a service outcome to a status code and
    JSON payload (`CreatedResponse`, `ListedResponse`, `EventOr404`,
    `DeletedResponse`).
  - The `Handle*` method validates first, touches the store only when
    validation passes, and answers.
  - Every handler takes a `storeFails` flag. It stands for "the store call
    throws": a database failure, an id the store cannot cast, a search
    that is not a valid regular expression, or a field the schema cannot
    cast, such as an unparseable date. The handler then answers 500 and the
    store is left unchanged.

Main results:

- POST answers 400 and leaves the store unchanged when title, description,
  date or location is falsy. If the save throws (a store failure, or a
  field the schema cannot cast, such as an unparseable date), POST answers
  500 and the store is unchanged. Otherwise it stores the normalised record:
  it answers 201, and the new event has a new id.
- Normalisation fixes each field in one way:
  - `imageUrl` becomes `""` when falsy;
  - `tags` is kept exactly, order and duplicates included, when it is an
    array, and is `[]` otherwise;
  - `attendees` is always `[]`.
  Normalising a normalised record changes nothing.
- A listing holds exactly the events that pass the filter, newest first.
  The filter is an OR of case-insensitive matches on title, description and
  location, ANDed with tag membership. No constraint is added for a falsy
  input. Any two sequences that meet these conditions are equal
  (`ListingIsDetermined`).
- `AddAttendee` checks for a missing event first and returns `None` with the
  store unchanged. For a present event it throws on a falsy attendee. Otherwise
  it replaces only that event, by `WithAttendee`.
  - The attendee list only grows at the end.
  - A duplicate-free list stays duplicate-free.
  - Adding the same attendee twice is the same as adding them once, and they
    are then listed exactly once.
- `DeleteEvent` removes exactly the given id, or changes nothing when the id
  is absent. A later fetch then answers 404.
- Every route answers with the status codes and messages of the source,
  including 500 when its call throws.

## Model

| member | source | states |
|---|---|---|
| `MeetupModels.Persist` | models/meetup.models.js:3-43 | the persisted record keeps every supplied field and carries the id and creation stamp the store assigned |
| `MeetupModels.OccurrencesInUnique` | index.js:71-75 | in a duplicate-free attendee list a value occurs exactly once if present, otherwise zero times |
| `EventService.BuildQuery` | index.js:33-48 | the built filter selects an event exactly when a truthy search hits its title, description or location (case-insensitively) and a truthy tag is among its tags; `$or` is present exactly when search is truthy and has three clauses; `tags` is present exactly when tag is truthy |
| `EventService.EventStore.Find` | index.js:50 | the result holds every stored event that satisfies the filter and nothing else, each as stored, in strictly decreasing `createdAt` |
| `EventService.EventStore.GetEvents` | index.js:33-52 | the result is exactly the stored events that the search/tag selection admits, newest first |
| `EventService.NewestFirstUnique` | index.js:50 | two newest-first sequences with the same members are equal |
| `EventService.ListingIsDetermined` | index.js:50-51 | any two results that meet the listing conditions (`IsListing`) for the same store and parameters are identical |
| `EventService.WithAttendee` | index.js:71-75 | only the attendee list changes; the old list is a prefix of the new one; the new list holds exactly the old attendees plus the new one; it grows by one exactly when the attendee was new; duplicate-freedom is preserved |
| `EventService.WithAttendeeIdempotent` | index.js:71-77 | RSVPing twice with the same value gives the same event as RSVPing once |
| `EventService.RsvpTwiceOccursOnce` | index.js:71-77 | starting from a duplicate-free list, two RSVPs with the same value leave it listed exactly once |
| `EventService.EventStore.CreateEvent` | index.js:26-30 | stores the supplied record under a new id, stamped newer than every stored event; nothing else changes; duplicate-freedom of all attendee lists is kept when the new record's list is duplicate-free |
| `EventService.EventStore.GetEventById` | index.js:55-58 | returns the stored event under the id, or None exactly when the id is absent |
| `EventService.EventStore.AddAttendee` | index.js:61-78 | absent id: None, store unchanged, checked before the attendee; falsy attendee: throws the source's message, store unchanged; otherwise only that event is replaced by `WithAttendee` and returned; every attendee list stays duplicate-free |
| `EventService.EventStore.DeleteEvent` | index.js:81-84 | returns the removed event, or None exactly when the id is absent; the store loses exactly that id |
| `Routes.HealthCheck` | index.js:91-93 | GET / answers 200 with the liveness text |
| `Routes.Normalise` | index.js:106-114 | the four required fields are copied; `imageUrl` is `""` when falsy and kept otherwise; `tags` is `[]` unless the input is an array, in which case it is that exact sequence; `attendees` is `[]`; the record has every required field |
| `Routes.NormaliseIsStable` | index.js:106-114 | posting back a normalised record passes validation and normalises to the same record |
| `Routes.PlanPost` | index.js:98-104 | the POST is rejected with 400 and the required-fields message exactly when title, description, date or location is falsy; otherwise the normalised record is what gets created |
| `Routes.CreatedResponse` | index.js:116-121 | a returned record answers 201 with it; a throw answers 500 with the generic create-failure message |
| `Routes.HandlePost` | index.js:96-122 | invalid body: 400 and the store unchanged (createEvent is never reached); store failure: 500, store unchanged; otherwise 201 with a new event whose fields are the normalised body, added under a fresh id and nothing else changed |
| `Routes.ListedResponse` | index.js:128-133 | a returned list answers 200 with it; a throw answers 500 with the list-failure message |
| `Routes.HandleList` | index.js:125-134 | store failure: 500; otherwise 200 with exactly the selected events, newest first |
| `Routes.EventOr404` | index.js:139-147 | 200 with the event when one was found, 404 with "Event not found" for null, 500 with the route's failure message when the call threw |
| `Routes.HandleGetById` | index.js:137-148 | store failure: 500; absent id: 404; present id: 200 with the stored event |
| `Routes.PlanRsvp` | index.js:153-159 | the RSVP is rejected with 400 and the attendee-required message exactly when the attendee is falsy; otherwise it proceeds with that non-empty value |
| `Routes.HandleRsvp` | index.js:151-172 | falsy attendee: 400, store unchanged (addAttendee never reached); store failure: 500, unchanged; absent id: 404, unchanged; otherwise 200 with the event after `WithAttendee`, and only that event changed |
| `Routes.DeletedResponse` | index.js:178-188 | a found event answers 200 with the deletion message, null answers 404, a throw answers 500 with the delete-failure message |
| `Routes.HandleDelete` | index.js:176-189 | store failure: 500, unchanged; absent id: 404, unchanged; present id: 200 and exactly that event removed |
| `Routes.RsvpTwice` | index.js:151-172 | two identical RSVPs to an existing event both answer 200 with the same event, which lists the attendee exactly once |
| `Routes.DeleteThenGet` | index.js:137-189 | deleting an existing event answers 200, and fetching it afterwards answers 404 |

## Behaviour worth noting

- A malformed id throws inside the handler's `try`, because the store
  cannot cast it (index.js:139, index.js:144-147). The answer is then 500,
  not 404. Ids here are natural numbers, and a malformed id appears only as
  `storeFails` (500).
- For a missing event, addAttendee returns `null`, and PATCH maps that to
  404 (index.js:63-65, index.js:163-165). `AddAttendee` returns
  `Returned(None)`.
- `search` is compiled as a regular expression (index.js:37). It is not a
  literal substring. See the entry under "Left out".
- A successful DELETE answers `{ message: "Event deleted successfully" }`.
  It does not return the deleted document (index.js:184).

## Left out

- Express setup, JSON body parsing, CORS, the database connection, error
  logging and the commented-out `listen` call are framework wiring and I/O.
- Mongoose internals are not modelled: real query execution, the durability
  of `save()`, ObjectId generation and casting, and schema casts. The store
  is an abstract map with a creation counter.
- `EventService.EventStore.CreateEvent` persists whatever record it is
  given. The schema's `required` validation would throw for an empty required
  field. That check is not modelled, because the only caller, POST, has
  already rejected such bodies (`Routes.Normalise` ensures
  `HasRequiredFields`).
- `EventService.ContainsIgnoringCase` treats the search text as a literal
  string and folds only ASCII letters. The source compiles the text as a
  regular expression. Patterns with metacharacters therefore match
  differently, and an invalid pattern (for example `c++`) throws in the
  source, giving 500. The model covers that 500 only through `storeFails`.
- `updatedAt` is not modelled. It is a timestamp the store refreshes on
  save, and no logic here reads it.
- `date` is an opaque string. Date parsing is not modelled. A date the
  schema cannot cast makes the save throw, and the source answers 500. The
  model covers that only through `storeFails`.
- The id and `createdAt` of an event both come from one creation counter.
  Real ids are opaque ObjectIds. Real stamps are millisecond wall-clock
  times set by the schema's `timestamps` option.
- `EventService.ListingIsDetermined`: this lemma, `NewestFirst` and `Find`'s
  strict order rely on every stamp being distinct, which the counter
  guarantees. In the source, two events saved in the same millisecond share
  a `createdAt`, and a clock that steps backwards breaks creation order.
  `sort({ createdAt: -1 })` leaves the order among equal stamps unspecified,
  so in the source a listing is determined only up to the order of such ties.
  The model does not capture ties.
- The race between two concurrent RSVPs (read, modify, write back without a
  guard) is a property of concurrency. Everything here is sequential.
- JavaScript truthiness is modelled only for optional strings (missing or
  empty means falsy). Non-string JSON values in the request fields are not
  modelled, nor are repeated query parameters that Express turns into
  arrays. Neither are non-string elements of `tags`, which the schema would
  cast.
