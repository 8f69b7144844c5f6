/**
 * The event service: the filter that listing builds, the store it runs against,
 * and the five operations over that store (create, list, fetch, RSVP, delete).
 */
module EventService {
  import opened JsValues
  import opened MeetupModels

  /** Message of the error addAttendee throws when the attendee is missing. */
  const AttendeeRequiredMessage := "Attendee name or email is required"

  // ---------------------------------------------------------------------------
  // Case-insensitive text matching (ASCII letters only).

  function LowerChar(c: char): char
  {
    if 'A' <= c <= 'Z' then (c as int + 32) as char else c
  }

  function Lower(s: string): string
  {
    seq(|s|, i requires 0 <= i < |s| => LowerChar(s[i]))
  }

  /** `pattern` occurs in `text` at offset `i`. */
  predicate OccursAt(text: string, pattern: string, i: int)
  {
    0 <= i && i + |pattern| <= |text| && text[i..i + |pattern|] == pattern
  }

  /** `pattern` occurs somewhere in `text`, ignoring the case of ASCII letters. */
  predicate ContainsIgnoringCase(text: string, pattern: string)
  {
    exists i | 0 <= i <= |text| - |pattern| :: OccursAt(Lower(text), Lower(pattern), i)
  }

  // ---------------------------------------------------------------------------
  // The filter document passed to the store, and what it selects.

  datatype TextField = Title | Description | Location

  /** `{ field: /pattern/i }`: a case-insensitive match on one text field. */
  datatype Clause = Clause(field: TextField, pattern: string)

  /**
   * A filter: `$or` over text clauses when `anyOf` is present, and a membership
   * constraint on `tags` when `tags` is present; the two are conjoined.
   */
  datatype Query = Query(anyOf: Option<seq<Clause>>, tags: Option<string>)

  function FieldText(e: Event, f: TextField): string
  {
    match f
    case Title => e.title
    case Description => e.description
    case Location => e.location
  }

  predicate ClauseHolds(c: Clause, e: Event)
  {
    ContainsIgnoringCase(FieldText(e, c.field), c.pattern)
  }

  /** The store's reading of a filter: every present constraint holds of `e`. */
  predicate QueryHolds(q: Query, e: Event)
  {
    && (q.anyOf.None? || exists c | c in q.anyOf.value :: ClauseHolds(c, e))
    && (q.tags.None? || q.tags.value in e.tags)
  }

  /**
   * What listing with `search` and `tag` is meant to select, stated on the event
   * itself: a truthy search must hit the title, description or location, and a
   * truthy tag must be among the event's tags.
   */
  predicate Selected(search: Option<string>, tag: Option<string>, e: Event)
  {
    && (Truthy(search) ==>
          || ContainsIgnoringCase(e.title, search.value)
          || ContainsIgnoringCase(e.description, search.value)
          || ContainsIgnoringCase(e.location, search.value))
    && (Truthy(tag) ==> tag.value in e.tags)
  }

  /** The query getEvents builds, assigning `$or` and then `tags` as the inputs are truthy. */
  method BuildQuery(search: Option<string>, tag: Option<string>) returns (q: Query)
    ensures forall e :: QueryHolds(q, e) <==> Selected(search, tag, e)
    ensures q.anyOf.Some? <==> Truthy(search)
    ensures q.anyOf.Some? ==> |q.anyOf.value| == 3
    ensures q.tags.Some? <==> Truthy(tag)
  {
    q := Query(None, None);
    if Truthy(search) {
      var pattern := search.value;
      q := q.(anyOf := Some([Clause(Title, pattern), Clause(Description, pattern), Clause(Location, pattern)]));
    }
    if Truthy(tag) {
      q := q.(tags := tag);
    }
    forall e ensures QueryHolds(q, e) <==> Selected(search, tag, e) {
      if Truthy(search) {
        var cs := q.anyOf.value;
        assert (exists c | c in cs :: ClauseHolds(c, e)) <==>
               ClauseHolds(cs[0], e) || ClauseHolds(cs[1], e) || ClauseHolds(cs[2], e);
      }
    }
  }

  // ---------------------------------------------------------------------------
  // Ordering of listings.

  /** Strictly decreasing creation stamps: newest first, no event twice. */
  predicate NewestFirst(s: seq<Event>)
  {
    forall i, j | 0 <= i < j < |s| :: s[i].createdAt > s[j].createdAt
  }

  /** `r` is exactly the events of `events` selected by `search` and `tag`, newest first. */
  ghost predicate IsListing(events: map<EventId, Event>, search: Option<string>, tag: Option<string>, r: seq<Event>)
  {
    && (forall e | e in r :: e.id in events && events[e.id] == e && Selected(search, tag, e))
    && (forall id | id in events && Selected(search, tag, events[id]) :: events[id] in r)
    && NewestFirst(r)
  }

  /** The head of a newest-first sequence is its newest event, and the only one with that stamp. */
  lemma NewestFirstHead(s: seq<Event>, e: Event)
    requires NewestFirst(s) && e in s
    ensures e.createdAt <= s[0].createdAt
    ensures e.createdAt == s[0].createdAt ==> e == s[0]
  {
  }

  /** Everything behind the head of a newest-first sequence is strictly older than it. */
  lemma NewestFirstTail(s: seq<Event>, e: Event)
    requires NewestFirst(s) && |s| > 0 && e in s[1..]
    ensures e.createdAt < s[0].createdAt
  {
  }

  /** Names the term `s[0] in s`, so that a membership fact about `s` can be instantiated at its head. */
  lemma HeadIsMember(s: seq<Event>)
    ensures s == [] || s[0] in s
  {
  }

  /** Two newest-first sequences holding the same events are the same sequence. */
  lemma {:induction false} NewestFirstUnique(a: seq<Event>, b: seq<Event>)
    requires NewestFirst(a) && NewestFirst(b)
    requires forall e :: e in a <==> e in b
    ensures a == b
    decreases |a|
  {
    if a == [] {
      HeadIsMember(b);
    } else {
      assert a[0] in b;
      NewestFirstHead(b, a[0]);
      NewestFirstHead(a, b[0]);
      assert a[0] == b[0];
      assert a == [a[0]] + a[1..] && b == [b[0]] + b[1..];
      forall e ensures e in a[1..] <==> e in b[1..] {
        if e in a[1..] {
          NewestFirstTail(a, e);
          assert e in b && e != b[0];
        }
        if e in b[1..] {
          NewestFirstTail(b, e);
          assert e in a && e != a[0];
        }
      }
      NewestFirstUnique(a[1..], b[1..]);
    }
  }

  /** Any two correct answers to the same listing request are identical. */
  lemma ListingIsDetermined(events: map<EventId, Event>, search: Option<string>, tag: Option<string>, r1: seq<Event>, r2: seq<Event>)
    requires IsListing(events, search, tag, r1) && IsListing(events, search, tag, r2)
    ensures r1 == r2
  {
    forall e ensures e in r1 <==> e in r2 {
      if e in r1 { assert events[e.id] == e; }
      if e in r2 { assert events[e.id] == e; }
    }
    NewestFirstUnique(r1, r2);
  }

  // ---------------------------------------------------------------------------
  // RSVP.

  /** The event after `a` RSVPs: `a` is appended unless it is already an attendee. */
  function WithAttendee(e: Event, a: string): (r: Event)
    ensures r == e.(attendees := r.attendees)
    ensures |r.attendees| >= |e.attendees| && r.attendees[..|e.attendees|] == e.attendees
    ensures forall x :: x in r.attendees <==> x in e.attendees || x == a
    ensures |r.attendees| == |e.attendees| + (if a in e.attendees then 0 else 1)
    ensures NoDuplicates(e.attendees) ==> NoDuplicates(r.attendees)
  {
    if a in e.attendees then e else e.(attendees := e.attendees + [a])
  }

  /** RSVPing twice with the same value is the same as RSVPing once. */
  lemma WithAttendeeIdempotent(e: Event, a: string)
    ensures WithAttendee(WithAttendee(e, a), a) == WithAttendee(e, a)
  {
  }

  /** After two RSVPs with the same value, that value is an attendee exactly once. */
  lemma RsvpTwiceOccursOnce(e: Event, a: string)
    requires NoDuplicates(e.attendees)
    ensures Occurrences(WithAttendee(WithAttendee(e, a), a).attendees, a) == 1
  {
    var once := WithAttendee(e, a);
    WithAttendeeIdempotent(e, a);
    OccurrencesInUnique(once.attendees, a);
  }

  // ---------------------------------------------------------------------------
  // The store.

  /**
   * The event collection: persisted events by id, and the creation counter that
   * supplies both the id and the `createdAt` stamp of the next event.
   */
  class EventStore {
    var events: map<EventId, Event>
    var clock: nat

    /** Every event sits under its own id, and was stamped before the counter's current value. */
    ghost predicate Valid()
      reads this
    {
      forall id | id in events :: events[id].id == id && events[id].createdAt == id && id < clock
    }

    /** Every event's attendee list is duplicate-free. */
    ghost predicate AttendeesUnique()
      reads this
    {
      forall id | id in events :: NoDuplicates(events[id].attendees)
    }

    constructor ()
      ensures Valid() && AttendeesUnique()
      ensures events == map[] && clock == 0
    {
      events := map[];
      clock := 0;
    }

    /** createEvent: persist `data` as a new event, newer than every event already stored. */
    method CreateEvent(data: EventData) returns (saved: Event)
      requires Valid()
      modifies this
      ensures Valid()
      ensures Data(saved) == data
      ensures saved.id !in old(events)
      ensures forall id | id in old(events) :: old(events)[id].createdAt < saved.createdAt
      ensures events == old(events)[saved.id := saved]
      ensures clock == old(clock) + 1
      ensures old(AttendeesUnique()) && NoDuplicates(data.attendees) ==> AttendeesUnique()
    {
      saved := Persist(data, clock, clock);
      events := events[clock := saved];
      clock := clock + 1;
    }

    /** Event.find(q).sort({ createdAt: -1 }): the events satisfying `q`, newest first. */
    method Find(q: Query) returns (found: seq<Event>)
      requires Valid()
      ensures forall e | e in found :: e.id in events && events[e.id] == e && QueryHolds(q, e)
      ensures forall id | id in events && QueryHolds(q, events[id]) :: events[id] in found
      ensures NewestFirst(found)
    {
      found := [];
      var k := clock;
      while k > 0
        invariant k <= clock
        invariant forall e | e in found :: e.id in events && events[e.id] == e && QueryHolds(q, e) && k <= e.createdAt
        invariant forall id | id in events && k <= id && QueryHolds(q, events[id]) :: events[id] in found
        invariant NewestFirst(found)
      {
        k := k - 1;
        if k in events && QueryHolds(q, events[k]) {
          assert forall i | 0 <= i < |found| :: found[i] in found;
          found := found + [events[k]];
        }
      }
    }

    /** getEvents: the events selected by `search` and `tag`, newest first. */
    method GetEvents(search: Option<string>, tag: Option<string>) returns (r: seq<Event>)
      requires Valid()
      ensures IsListing(events, search, tag, r)
    {
      var q := BuildQuery(search, tag);
      r := Find(q);
    }

    /** getEventById: the event stored under `id`, or None. */
    method GetEventById(id: EventId) returns (r: Option<Event>)
      requires Valid()
      ensures r.Some? <==> id in events
      ensures r.Some? ==> r.value == events[id] && r.value.id == id
    {
      if id in events {
        r := Some(events[id]);
      } else {
        r := None;
      }
    }

    /**
     * addAttendee: None when no event has `id` (checked first); throws when the
     * attendee is falsy; otherwise records the RSVP and returns the event.
     */
    method AddAttendee(id: EventId, attendee: Option<string>) returns (r: Try<Option<Event>>)
      requires Valid()
      modifies this
      ensures Valid() && clock == old(clock)
      ensures id !in old(events) ==> r == Returned(None) && unchanged(this)
      ensures id in old(events) && !Truthy(attendee) ==>
                r == Threw(AttendeeRequiredMessage) && unchanged(this)
      ensures id in old(events) && Truthy(attendee) ==>
                && events == old(events)[id := WithAttendee(old(events)[id], attendee.value)]
                && r == Returned(Some(events[id]))
      ensures old(AttendeesUnique()) ==> AttendeesUnique()
    {
      if id !in events {
        return Returned(None);
      }
      var event := events[id];
      if !Truthy(attendee) {
        return Threw(AttendeeRequiredMessage);
      }
      var a := attendee.value;
      if a !in event.attendees {
        event := event.(attendees := event.attendees + [a]);
        events := events[id := event];
      }
      r := Returned(Some(event));
    }

    /** deleteEvent: remove the event stored under `id`, returning it, or None when absent. */
    method DeleteEvent(id: EventId) returns (r: Option<Event>)
      requires Valid()
      modifies this
      ensures Valid() && clock == old(clock)
      ensures r.Some? <==> id in old(events)
      ensures r.Some? ==> r.value == old(events)[id]
      ensures events == old(events) - {id}
      ensures id !in old(events) ==> unchanged(this)
      ensures old(AttendeesUnique()) ==> AttendeesUnique()
    {
      if id in events {
        r := Some(events[id]);
        events := events - {id};
      } else {
        r := None;
        assert events == old(events) - {id};
      }
    }
  }
}
