/** The Event schema: the one entity the collection stores. */
module MeetupModels {

  /** Identifier the store assigns to a persisted event. */
  type EventId = nat

  /** The fields a client supplies to creation: everything except what the store assigns. */
  datatype EventData = EventData(
    title: string,
    description: string,
    date: string,        // opaque: date parsing is not modelled
    location: string,
    imageUrl: string,
    tags: seq<string>,
    attendees: seq<string>)

  /** A persisted event: the supplied fields plus the store-assigned id and creation stamp. */
  datatype Event = Event(
    id: EventId,
    title: string,
    description: string,
    date: string,
    location: string,
    imageUrl: string,
    tags: seq<string>,
    attendees: seq<string>,
    createdAt: nat)

  /** The client-supplied part of a persisted event. */
  function Data(e: Event): EventData
  {
    EventData(e.title, e.description, e.date, e.location, e.imageUrl, e.tags, e.attendees)
  }

  /** The record the store writes for `d` when it assigns `id` and `createdAt`. */
  function Persist(d: EventData, id: EventId, createdAt: nat): (e: Event)
    ensures Data(e) == d
    ensures e.id == id && e.createdAt == createdAt
  {
    Event(id, d.title, d.description, d.date, d.location, d.imageUrl, d.tags, d.attendees, createdAt)
  }

  /** The fields the schema marks `required` are all non-empty. */
  predicate HasRequiredFields(d: EventData)
  {
    d.title != "" && d.description != "" && d.date != "" && d.location != ""
  }

  /** No value occurs twice in `s`. */
  predicate NoDuplicates(s: seq<string>)
  {
    forall i, j | 0 <= i < j < |s| :: s[i] != s[j]
  }

  /** How many times `x` occurs in `s`. */
  function Occurrences(s: seq<string>, x: string): nat
  {
    if s == [] then 0 else Occurrences(s[..|s| - 1], x) + (if s[|s| - 1] == x then 1 else 0)
  }

  /** In a duplicate-free sequence a value occurs once if it is there at all. */
  lemma {:induction false} OccurrencesInUnique(s: seq<string>, x: string)
    requires NoDuplicates(s)
    ensures Occurrences(s, x) == if x in s then 1 else 0
  {
    if s != [] {
      var init, last := s[..|s| - 1], s[|s| - 1];
      assert s == init + [last];
      assert NoDuplicates(init);
      OccurrencesInUnique(init, x);
      assert last !in init by {
        forall i | 0 <= i < |init| ensures init[i] != last {
          assert s[i] != s[|s| - 1];
        }
      }
    }
  }
}
