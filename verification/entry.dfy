/** The settings-driven command line: `run` mirrors every configured sync in turn, `add`
    appends a new sync definition, `remove` drops definitions by identifier. */
module Entry {
  import opened Wrappers
  import opened Seqs
  import opened EventKit
  import opened Settings
  import opened CalendarUtils

  /** How one sync of `run` ended: completed, or the error its `catch` printed. */
  datatype SyncResult =
    | Synced
    | PullCalendarNotFound(identifier: CalendarId)
    | PushCalendarNotFound(identifier: CalendarId)
    | SaveFailed(event: Event)

  /** `calendars.first(where: { $0.calendarIdentifier == identifier })`. */
  function FirstWithIdentifier(calendars: seq<Calendar>, identifier: CalendarId): (r: Option<Calendar>)
    ensures r.None? <==> forall c :: c in calendars ==> c.identifier != identifier
    ensures r.Some? ==> r.value.identifier == identifier
    ensures r.Some? ==> exists i :: 0 <= i < |calendars| && calendars[i] == r.value &&
                                    (forall j :: 0 <= j < i ==> calendars[j].identifier != identifier)
  {
    if calendars == [] then None
    else if calendars[0].identifier == identifier then
      Some(calendars[0])
    else
      var r := FirstWithIdentifier(calendars[1..], identifier);
      if r.Some? then
        var i :| 0 <= i < |calendars[1..]| && calendars[1..][i] == r.value &&
          forall j :: 0 <= j < i ==> calendars[1..][j].identifier != identifier;
        assert calendars[i + 1] == r.value;
        r
      else r
  }

  // ---------------------------------------------------------------------------------------
  // Mirroring, stopping at the first failed save

  /** One save attempt per artifact, in order. */
  function Creations(arts: seq<Event>, o: Oracle): (r: seq<Op>)
    ensures |r| == |arts|
  {
    seq(|arts|, i requires 0 <= i < |arts| => Creation(arts[i], !o.saveFails(arts[i])))
  }

  /** How many artifacts, from the front, are saved before the first save that throws. */
  function SavedPrefix(arts: seq<Event>, o: Oracle): (k: nat)
    ensures k <= |arts|
    ensures forall i :: 0 <= i < k ==> !o.saveFails(arts[i])
    ensures k < |arts| ==> o.saveFails(arts[k])
  {
    if arts == [] then 0
    else
      var k := SavedPrefix(arts[..|arts| - 1], o);
      if k < |arts| - 1 || o.saveFails(arts[|arts| - 1]) then k else k + 1
  }

  /** The copy loop of `run`: one new event per source, saved in turn; the first save that throws
      leaves the loop, and is returned. */
  function CopyUntilFailure(s: Store, sources: seq<Event>, push: Calendar, eventName: string, o: Oracle)
    : (Store, Option<Event>)
    decreases |sources|
  {
    if sources == [] then (s, None)
    else
      var previous := CopyUntilFailure(s, sources[..|sources| - 1], push, eventName, o);
      if previous.1.Some? then previous
      else
        var e := Artifact(sources[|sources| - 1], push, eventName, previous.0.nextId);
        (Saved(Allocated(previous.0), e, o), if o.saveFails(e) then Some(e) else None)
  }

  lemma ArtifactsPrefix(sources: seq<Event>, push: Calendar, eventName: string, firstId: nat, n: nat)
    requires n <= |sources|
    ensures Artifacts(sources[..n], push, eventName, firstId) == Artifacts(sources, push, eventName, firstId)[..n]
  {
  }

  lemma CreationsSnoc(arts: seq<Event>, e: Event, o: Oracle)
    ensures Creations(arts + [e], o) == Creations(arts, o) + [Creation(e, !o.saveFails(e))]
  {
  }

  /** Once a save has failed, later sources change nothing. */
  lemma {:induction false} CopyStopsAtFailure(s: Store, sources: seq<Event>, n: nat, push: Calendar, eventName: string, o: Oracle)
    requires n <= |sources|
    requires CopyUntilFailure(s, sources[..n], push, eventName, o).1.Some?
    ensures CopyUntilFailure(s, sources, push, eventName, o) == CopyUntilFailure(s, sources[..n], push, eventName, o)
    decreases |sources| - n
  {
    if n < |sources| {
      var m := |sources|;
      assert sources[..m - 1][..n] == sources[..n];
      CopyStopsAtFailure(s, sources[..m - 1], n, push, eventName, o);
      CopySkipsAfterFailure(s, sources, push, eventName, o);
    } else {
      assert sources[..n] == sources;
    }
  }

  /** The step of `CopyStopsAtFailure`: after a failure the last source is skipped. */
  lemma CopySkipsAfterFailure(s: Store, sources: seq<Event>, push: Calendar, eventName: string, o: Oracle)
    requires sources != []
    requires CopyUntilFailure(s, sources[..|sources| - 1], push, eventName, o).1.Some?
    ensures CopyUntilFailure(s, sources, push, eventName, o) == CopyUntilFailure(s, sources[..|sources| - 1], push, eventName, o)
  {
  }

  /** `r` is the store and the failure after saving `arts` in turn until a save fails: the saved
      ones are the artifacts before the first failing save, one identity is allocated per attempt,
      nothing is attempted after the failure, and the failure is reported. */
  predicate CopiedUntilFailure(s: Store, arts: seq<Event>, o: Oracle, r: (Store, Option<Event>))
  {
    var k := SavedPrefix(arts, o);
    var tried := if k < |arts| then k + 1 else k;
    && r.0.events == s.events + arts[..k]
    && r.0.nextId == s.nextId + tried
    && r.0.log == s.log + Creations(arts[..tried], o)
    && r.1 == if k < |arts| then Some(arts[k]) else None
  }

  /** The copy loop saves the artifacts of the sources up to the first failing save, attempts
      nothing after it, and reports it. */
  lemma {:induction false} CopyUntilFailureEffect(s: Store, sources: seq<Event>, push: Calendar, eventName: string, o: Oracle)
    ensures CopiedUntilFailure(s, Artifacts(sources, push, eventName, s.nextId), o, CopyUntilFailure(s, sources, push, eventName, o))
    decreases |sources|
  {
    var arts := Artifacts(sources, push, eventName, s.nextId);
    if sources == [] {
      assert s.events + arts[..0] == s.events;
      assert s.log + Creations(arts[..0], o) == s.log;
    } else {
      var n := |sources|;
      CopyUntilFailureEffect(s, sources[..n - 1], push, eventName, o);
      ArtifactsPrefix(sources, push, eventName, s.nextId, n - 1);
      if SavedPrefix(arts[..n - 1], o) == n - 1 {
        CopyAfterSavedPrefix(s, sources, push, eventName, o);
      } else {
        CopyAfterFailedPrefix(s, sources, push, eventName, o);
      }
    }
  }

  /** The step of `CopyUntilFailureEffect` where every earlier save went through. */
  lemma CopyAfterSavedPrefix(s: Store, sources: seq<Event>, push: Calendar, eventName: string, o: Oracle)
    requires sources != []
    requires var arts := Artifacts(sources, push, eventName, s.nextId); var n := |sources|;
      && SavedPrefix(arts[..n - 1], o) == n - 1
      && CopiedUntilFailure(s, arts[..n - 1], o, CopyUntilFailure(s, sources[..n - 1], push, eventName, o))
    ensures CopiedUntilFailure(s, Artifacts(sources, push, eventName, s.nextId), o, CopyUntilFailure(s, sources, push, eventName, o))
  {
    var arts := Artifacts(sources, push, eventName, s.nextId);
    var n := |sources|;
    var artsInit := arts[..n - 1];
    var e := arts[n - 1];
    var previous := CopyUntilFailure(s, sources[..n - 1], push, eventName, o);
    assert artsInit[..n - 1] == artsInit;
    assert previous.0 == Store(s.events + artsInit, s.nextId + n - 1, s.log + Creations(artsInit, o));
    assert e == Artifact(sources[n - 1], push, eventName, previous.0.nextId);
    assert arts[..n] == artsInit + [e];
    CreationsSnoc(artsInit, e, o);
    if o.saveFails(e) {
      assert SavedPrefix(arts, o) == n - 1;
    } else {
      assert SavedPrefix(arts, o) == n;
    }
  }

  /** The step of `CopyUntilFailureEffect` where an earlier save already failed. */
  lemma CopyAfterFailedPrefix(s: Store, sources: seq<Event>, push: Calendar, eventName: string, o: Oracle)
    requires sources != []
    requires var arts := Artifacts(sources, push, eventName, s.nextId); var n := |sources|;
      && SavedPrefix(arts[..n - 1], o) < n - 1
      && CopiedUntilFailure(s, arts[..n - 1], o, CopyUntilFailure(s, sources[..n - 1], push, eventName, o))
    ensures CopiedUntilFailure(s, Artifacts(sources, push, eventName, s.nextId), o, CopyUntilFailure(s, sources, push, eventName, o))
  {
    var n := |sources|;
    var previous := CopyUntilFailure(s, sources[..n - 1], push, eventName, o);
    CopySkipsAfterFailure(s, sources, push, eventName, o);
    FailedPrefixExtends(s, Artifacts(sources, push, eventName, s.nextId), o, previous);
  }

  /** Once a save has failed, one more artifact leaves the outcome as it was. */
  lemma FailedPrefixExtends(s: Store, arts: seq<Event>, o: Oracle, r: (Store, Option<Event>))
    requires arts != []
    requires SavedPrefix(arts[..|arts| - 1], o) < |arts| - 1
    requires CopiedUntilFailure(s, arts[..|arts| - 1], o, r)
    ensures CopiedUntilFailure(s, arts, o, r)
  {
    var artsInit := arts[..|arts| - 1];
    var k := SavedPrefix(artsInit, o);
    assert SavedPrefix(arts, o) == k;
    assert arts[..k] == artsInit[..k];
    assert arts[..k + 1] == artsInit[..k + 1];
    assert arts[k] == artsInit[k];
  }

  // ---------------------------------------------------------------------------------------
  // One sync and the whole run

  /** Teardown of the push window's artifacts, then a copy of every authentic pull event. */
  function Mirror(s: Store, pull: Calendar, push: Calendar, sync: SyncSetting, today: int, o: Oracle)
    : (Store, SyncResult)
  {
    var victims := CalSyncEventsNextXDays(s.events, push, today, sync.numDays);
    var s1 := DeleteAll(s, victims, o);
    var sources := NonCalSyncEventsNextXDays(s1.events, pull, today, sync.numDays);
    var (s2, failed) := CopyUntilFailure(s1, sources, push, sync.eventName, o);
    (s2, if failed.Some? then SaveFailed(failed.value) else Synced)
  }

  /** The body of the `do` block for one sync: resolve both calendars, then mirror. */
  function SyncSpec(s: Store, calendars: seq<Calendar>, sync: SyncSetting, today: int, o: Oracle)
    : (Store, SyncResult)
  {
    match FirstWithIdentifier(calendars, sync.pullCalendarIdentifier)
    case None => (s, PullCalendarNotFound(sync.pullCalendarIdentifier))
    case Some(pull) =>
      match FirstWithIdentifier(calendars, sync.pushCalendarIdentifier)
      case None => (s, PushCalendarNotFound(sync.pushCalendarIdentifier))
      case Some(push) => Mirror(s, pull, push, sync, today, o)
  }

  /** Every sync in settings order, each on the store the previous one left. */
  function RunSpec(s: Store, calendars: seq<Calendar>, syncs: seq<SyncSetting>, today: int, o: Oracle)
    : (Store, seq<SyncResult>)
    decreases |syncs|
  {
    if syncs == [] then (s, [])
    else
      var (s1, results) := RunSpec(s, calendars, syncs[..|syncs| - 1], today, o);
      var (s2, r) := SyncSpec(s1, calendars, syncs[|syncs| - 1], today, o);
      (s2, results + [r])
  }

  /** The loop that creates the new events of one sync; a failed save ends it and is returned. */
  method CopyEvents(store: EventStore, events: seq<Event>, push: Calendar, eventName: string)
    returns (failed: Option<Event>)
    requires store.Valid()
    modifies store
    ensures store.Valid()
    ensures (store.State(), failed) == CopyUntilFailure(old(store.State()), events, push, eventName, store.oracle)
  {
    var i := 0;
    while i < |events|
      invariant 0 <= i <= |events|
      invariant CopyUntilFailure(old(store.State()), events[..i], push, eventName, store.oracle) == (store.State(), None)
      invariant store.Valid()
    {
      ghost var before := store.State();
      var id := store.NewEventId();
      var newEvent := Event(id, push.identifier, events[i].start, events[i].end, eventName, Some(Marker));
      var ok := store.Save(newEvent);
      assert events[..i + 1][..i] == events[..i];
      assert newEvent == Artifact(events[i], push, eventName, before.nextId);
      assert CopyUntilFailure(old(store.State()), events[..i + 1], push, eventName, store.oracle)
          == (store.State(), if ok then None else Some(newEvent));
      if !ok {
        CopyStopsAtFailure(old(store.State()), events, i + 1, push, eventName, store.oracle);
        return Some(newEvent);
      }
      i := i + 1;
    }
    assert events[..i] == events;
    return None;
  }

  /** One iteration of `run`'s loop; a thrown error ends the iteration and is returned. */
  method RunSync(store: EventStore, calendars: seq<Calendar>, sync: SyncSetting, today: int) returns (result: SyncResult)
    requires store.Valid()
    modifies store
    ensures store.Valid()
    ensures (store.State(), result) == SyncSpec(old(store.State()), calendars, sync, today, store.oracle)
  {
    var pull := FirstWithIdentifier(calendars, sync.pullCalendarIdentifier);
    if pull.None? {
      return PullCalendarNotFound(sync.pullCalendarIdentifier);
    }
    var push := FirstWithIdentifier(calendars, sync.pushCalendarIdentifier);
    if push.None? {
      return PushCalendarNotFound(sync.pushCalendarIdentifier);
    }
    var calSyncEvents := CalSyncEventsNextXDays(store.events, push.value, today, sync.numDays);
    DeleteEvents(store, calSyncEvents);
    var events := NonCalSyncEventsNextXDays(store.events, pull.value, today, sync.numDays);
    var failed := CopyEvents(store, events, push.value, sync.eventName);
    result := if failed.Some? then SaveFailed(failed.value) else Synced;
  }

  /** `run`: every configured sync in order; an error in one is caught and the next still runs. */
  method RunSyncs(store: EventStore, calendars: seq<Calendar>, settings: CalSyncSettings, today: int)
    returns (results: seq<SyncResult>)
    requires store.Valid()
    modifies store
    ensures store.Valid()
    ensures (store.State(), results) == RunSpec(old(store.State()), calendars, settings.syncs, today, store.oracle)
  {
    var syncs := settings.syncs;
    results := [];
    var i := 0;
    while i < |syncs|
      invariant 0 <= i <= |syncs|
      invariant (store.State(), results) == RunSpec(old(store.State()), calendars, syncs[..i], today, store.oracle)
      invariant store.Valid()
    {
      var r := RunSync(store, calendars, syncs[i], today);
      assert syncs[..i + 1][..i] == syncs[..i];
      results := results + [r];
      i := i + 1;
    }
    assert syncs[..i] == syncs;
  }

  // ---------------------------------------------------------------------------------------
  // `add` and `remove` on the configured syncs

  /** The predicate of `removeAll(where:)`: a sync goes exactly when an identifier was parsed and
      the sync's own equals it. */
  function KeepsSync(id: Option<Uuid>): SyncSetting -> bool
  {
    (x: SyncSetting) => !(id.Some? && x.id == id.value)
  }

  /** The syncs left by `remove`: the others, in their order; nothing goes when the argument did
      not parse as an identifier. */
  function Remaining(syncs: seq<SyncSetting>, id: Option<Uuid>): (r: seq<SyncSetting>)
    ensures forall x :: x in r <==> x in syncs && (id.None? || x.id != id.value)
    ensures IsSubsequence(r, syncs)
    ensures forall x :: multiset(r)[x] == if id.None? || x.id != id.value then multiset(syncs)[x] else 0
    ensures id.None? ==> r == syncs
  {
    FilterIsSubsequence(syncs, KeepsSync(id));
    FilterCount(syncs, KeepsSync(id));
    if id.None? then
      FilterKeepsAll(syncs, KeepsSync(id));
      Filter(syncs, KeepsSync(id))
    else Filter(syncs, KeepsSync(id))
  }

  /** The configured syncs, as `read_settings` hands them over and `write_settings` stores them. */
  class SettingsFile {
    var syncs: seq<SyncSetting>

    constructor (settings: CalSyncSettings)
      ensures syncs == settings.syncs
    {
      syncs := settings.syncs;
    }

    /** `add`: the prompts of `createSyncSetting`, then the new sync at the end of the list; on a
        setup error the list is left as it was. */
    method Add(calendars: seq<Calendar>, input: seq<string>, id: Uuid)
      returns (r: Result<SyncSetting, SetupError>, rest: seq<string>)
      modifies this
      ensures (r, rest) == NewSetting(calendars, input, id)
      ensures r.Success? ==> syncs == old(syncs) + [r.value]
      ensures r.Failure? ==> syncs == old(syncs)
    {
      r, rest := CreateSyncSetting(calendars, input, id);
      if r.Success? {
        syncs := syncs + [r.value];
      }
    }

    /** `remove`: every sync whose identifier equals the parsed argument goes. */
    method Remove(idText: string)
      modifies this
      ensures syncs == Remaining(old(syncs), ParseUuid(idText))
    {
      syncs := Remaining(syncs, ParseUuid(idText));
    }
  }

  /** Removing by the printed form of an identifier removes exactly the syncs with that
      identifier, and an argument that is not an identifier removes nothing. */
  lemma RemoveByPrintedId(syncs: seq<SyncSetting>, u: Uuid, text: string)
    requires ValidUuid(u)
    ensures forall x :: x in Remaining(syncs, ParseUuid(FormatUuid(u))) <==> x in syncs && x.id != u
    ensures ParseUuid(text).None? ==> Remaining(syncs, ParseUuid(text)) == syncs
  {
    FormatThenParse(u);
  }

  /** `remove` undoes `add`: removing the identifier of a newly added sync, when no earlier sync
      carries it, gives back the list as it was. */
  lemma RemoveUndoesAdd(syncs: seq<SyncSetting>, added: SyncSetting)
    requires ValidUuid(added.id)
    requires forall x :: x in syncs ==> x.id != added.id
    ensures Remaining(syncs + [added], ParseUuid(FormatUuid(added.id))) == syncs
  {
    FormatThenParse(added.id);
    var keep := KeepsSync(Some(added.id));
    FilterConcat(syncs, [added], keep);
    FilterKeepsAll(syncs, keep);
    FilterKeepsNone([added], keep);
  }
}
