/** The calendar store the sync engine talks to (EventKit's `EKEventStore`), reduced to what
    the engine observes: a sequence of events, range queries, and `remove` / `save` calls that
    either succeed or throw. Whether a call throws is decided by an oracle fixed with the store,
    so every property proved below holds for every pattern of failures. */
module EventKit {
  import opened Wrappers
  import opened Seqs

  type CalendarId = string

  /** An `EKCalendar`: its stable identifier and its display title. */
  datatype Calendar = Calendar(identifier: CalendarId, title: string)

  /** An `EKEvent`, with the fields the engine reads or writes. Times are seconds on one
      time line; `id` stands for the event object's identity. */
  datatype Event = Event(
    id: nat,
    calendar: CalendarId,
    start: int,
    end: int,
    title: string,
    notes: Option<string>)

  /** One store call as it happened: what was passed and whether it succeeded. */
  datatype Op = Removal(event: Event, ok: bool) | Creation(event: Event, ok: bool)

  /** Which `remove` and `save` calls throw. */
  datatype Oracle = Oracle(removeFails: Event -> bool, saveFails: Event -> bool)

  /** An oracle under which no store call ever fails. */
  ghost predicate Reliable(o: Oracle)
  {
    (forall e :: !o.removeFails(e)) && (forall e :: !o.saveFails(e))
  }

  /** The store as a value: its events, the next fresh identity, and every call made so far. */
  datatype Store = Store(events: seq<Event>, nextId: nat, log: seq<Op>)

  /** The store hands out identities in increasing order: every event's identity is below
      `nextId`, and no two events of the store share one. */
  ghost predicate WellFormed(s: Store)
  {
    && (forall e :: e in s.events ==> e.id < s.nextId)
    && DistinctIds(s.events)
  }

  ghost predicate DistinctIds(events: seq<Event>)
  {
    forall i, j :: 0 <= i < j < |events| ==> events[i].id != events[j].id
  }

  /** Leaving events out keeps the identities distinct. */
  lemma {:induction false} FilterKeepsDistinctIds(events: seq<Event>, p: Event -> bool)
    requires DistinctIds(events)
    ensures DistinctIds(Filter(events, p))
  {
    if events != [] {
      var x, t := events[0], events[1..];
      DistinctIdsTail(events);
      FilterKeepsDistinctIds(t, p);
      if p(x) {
        DistinctIdsCons(x, Filter(t, p));
        assert Filter(events, p) == [x] + Filter(t, p);
      } else {
        assert Filter(events, p) == Filter(t, p);
      }
    }
  }

  lemma DistinctIdsTail(events: seq<Event>)
    requires events != [] && DistinctIds(events)
    ensures DistinctIds(events[1..])
    ensures forall y :: y in events[1..] ==> y.id != events[0].id
  {
    var t := events[1..];
    forall i, j | 0 <= i < j < |t| ensures t[i].id != t[j].id {
      assert t[i] == events[i + 1] && t[j] == events[j + 1];
    }
    forall y | y in t ensures y.id != events[0].id {
      var k :| 0 <= k < |t| && t[k] == y;
      assert events[k + 1] == y;
    }
  }

  lemma DistinctIdsCons(x: Event, rest: seq<Event>)
    requires DistinctIds(rest) && forall y :: y in rest ==> y.id != x.id
    ensures DistinctIds([x] + rest)
  {
    var r := [x] + rest;
    forall i, j | 0 <= i < j < |r| ensures r[i].id != r[j].id {
      assert r[j] == rest[j - 1];
      if i > 0 {
        assert r[i] == rest[i - 1];
      }
    }
  }

  /** The query window: the event is on `calendar` and starts in `[lo, hi)`. */
  predicate InWindow(e: Event, calendar: CalendarId, lo: int, hi: int)
  {
    e.calendar == calendar && lo <= e.start < hi
  }

  function InWindowOf(calendar: CalendarId, lo: int, hi: int): Event -> bool
  {
    e => InWindow(e, calendar, lo, hi)
  }

  /** `events(matching: predicateForEvents(withStart: lo, end: hi, calendars: [calendar]))`. */
  function Matching(events: seq<Event>, calendar: CalendarId, lo: int, hi: int): (r: seq<Event>)
    ensures forall e :: e in r <==> e in events && InWindow(e, calendar, lo, hi)
    ensures IsSubsequence(r, events)
    ensures hi <= lo ==> r == []
  {
    FilterIsSubsequence(events, InWindowOf(calendar, lo, hi));
    if hi <= lo then
      FilterKeepsNone(events, InWindowOf(calendar, lo, hi));
      Filter(events, InWindowOf(calendar, lo, hi))
    else Filter(events, InWindowOf(calendar, lo, hi))
  }

  /** The events left after `e` is taken out. */
  function Without(events: seq<Event>, e: Event): (r: seq<Event>)
    ensures forall x :: x in r <==> x in events && x != e
    ensures forall x :: multiset(r)[x] == if x != e then multiset(events)[x] else 0
    ensures IsSubsequence(r, events)
  {
    FilterCount(events, x => x != e);
    FilterIsSubsequence(events, x => x != e);
    Filter(events, x => x != e)
  }

  /** The store after `remove(e)`: the event is gone unless the call throws; the call is logged. */
  function Removed(s: Store, e: Event, o: Oracle): Store
  {
    var ok := !o.removeFails(e);
    Store(if ok then Without(s.events, e) else s.events, s.nextId, s.log + [Removal(e, ok)])
  }

  /** The store after `EKEvent(eventStore:)`: a new event object with a fresh identity. */
  function Allocated(s: Store): Store
  {
    s.(nextId := s.nextId + 1)
  }

  /** The store after `save(e)`: the event is added unless the call throws; the call is logged. */
  function Saved(s: Store, e: Event, o: Oracle): Store
  {
    var ok := !o.saveFails(e);
    Store(if ok then s.events + [e] else s.events, s.nextId, s.log + [Creation(e, ok)])
  }

  /** A removal keeps the store well formed, whether or not it goes through. */
  lemma RemovedWellFormed(s: Store, e: Event, o: Oracle)
    requires WellFormed(s)
    ensures WellFormed(Removed(s, e, o))
  {
    FilterKeepsDistinctIds(s.events, x => x != e);
  }

  /** Saving an event whose identity was handed out and is not in use keeps the store well
      formed. */
  lemma SavedWellFormed(s: Store, e: Event, o: Oracle)
    requires WellFormed(s)
    requires e.id < s.nextId && forall x :: x in s.events ==> x.id != e.id
    ensures WellFormed(Saved(s, e, o))
  {
    var t := s.events + [e];
    forall i, j | 0 <= i < j < |t| ensures t[i].id != t[j].id {
      if j == |s.events| {
        assert t[i] in s.events;
      } else {
        assert t[i] == s.events[i] && t[j] == s.events[j];
      }
    }
  }

  class EventStore {
    var events: seq<Event>
    var nextId: nat
    ghost var log: seq<Op>
    const oracle: Oracle

    ghost function State(): Store
      reads this
    {
      Store(events, nextId, log)
    }

    /** The store is well formed; every method below keeps it so. */
    ghost predicate Valid()
      reads this
    {
      WellFormed(State())
    }

    constructor (events: seq<Event>, nextId: nat, oracle: Oracle)
      requires WellFormed(Store(events, nextId, []))
      ensures State() == Store(events, nextId, []) && this.oracle == oracle
      ensures Valid()
    {
      this.events := events;
      this.nextId := nextId;
      this.log := [];
      this.oracle := oracle;
    }

    /** `remove(e, span: .thisEvent)`; `ok` is false where Swift throws. */
    method Remove(e: Event) returns (ok: bool)
      requires Valid()
      modifies this
      ensures ok == !oracle.removeFails(e)
      ensures State() == Removed(old(State()), e, oracle)
      ensures Valid()
    {
      RemovedWellFormed(State(), e, oracle);
      ok := !oracle.removeFails(e);
      if ok {
        events := Without(events, e);
      }
      log := log + [Removal(e, ok)];
    }

    /** `EKEvent(eventStore:)`: hands out the identity of a new, not yet saved, event. */
    method NewEventId() returns (id: nat)
      requires Valid()
      modifies this
      ensures id == old(nextId)
      ensures State() == Allocated(old(State()))
      ensures forall e :: e in events ==> e.id != id
      ensures id < nextId && Valid()
    {
      id := nextId;
      nextId := nextId + 1;
    }

    /** `save(e, span: .thisEvent)`; `ok` is false where Swift throws. */
    method Save(e: Event) returns (ok: bool)
      requires Valid()
      requires e.id < nextId && forall x :: x in events ==> x.id != e.id
      modifies this
      ensures ok == !oracle.saveFails(e)
      ensures State() == Saved(old(State()), e, oracle)
      ensures Valid()
    {
      SavedWellFormed(State(), e, oracle);
      ok := !oracle.saveFails(e);
      if ok {
        events := events + [e];
      }
      log := log + [Creation(e, ok)];
    }
  }
}
