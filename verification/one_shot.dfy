/** The older one-shot command line: the user picks a pull and a push calendar, a number of days
    and an event name, and one sync runs at once. Unlike `run`, it copies every event of the pull
    window, artifacts included, and a failed save does not end the copy. */
module OneShot {
  import opened Wrappers
  import opened Seqs
  import opened EventKit
  import opened Console
  import opened Settings
  import opened CalendarUtils
  import opened Entry
  import opened EntryProperties

  /** What the prompts of `main` settle. */
  datatype Plan = Plan(pull: Calendar, push: Calendar, numDays: int, eventName: string)

  /** The prompts of `main`: the push calendar is asked for even when the pull choice failed,
      and nothing happens unless both choices, the number of days and the event name were read. */
  function PromptedPlan(calendars: seq<Calendar>, input: seq<string>): (r: Option<Plan>)
    ensures calendars == [] ==> r == None
    ensures r.Some? ==> r.value.pull in calendars && r.value.push in calendars
  {
    if calendars == [] then None
    else
      var pull := Chosen(calendars, input);
      var push := Chosen(calendars, if pull.Some? then pull.value.1 else []);
      if pull.None? || push.None? then None
      else
        var numDays := Entered(push.value.1);
        if numDays.None? || numDays.value.1 == [] then None
        else Some(Plan(pull.value.0, push.value.0, numDays.value.0, numDays.value.1[0]))
  }

  // ---------------------------------------------------------------------------------------
  // The copy loop, which goes on after a failed save

  /** The save went through. */
  function SaveSucceeds(o: Oracle): Event -> bool
  {
    e => !o.saveFails(e)
  }

  /** The copy loop of `main`: one new event per source; a failed save is reported and the loop
      goes on with the next source. */
  function CopyAll(s: Store, sources: seq<Event>, push: Calendar, eventName: string, o: Oracle): Store
    decreases |sources|
  {
    if sources == [] then s
    else
      var s1 := CopyAll(s, sources[..|sources| - 1], push, eventName, o);
      Saved(Allocated(s1), Artifact(sources[|sources| - 1], push, eventName, s1.nextId), o)
  }

  /** `t` is the store after saving `arts` in turn, going on after failures: the saved ones are
      exactly those whose save goes through, one identity is allocated per artifact, and every
      save is attempted. */
  predicate CopiedAll(s: Store, arts: seq<Event>, o: Oracle, t: Store)
  {
    && t.events == s.events + Filter(arts, SaveSucceeds(o))
    && t.nextId == s.nextId + |arts|
    && t.log == s.log + Creations(arts, o)
  }

  /** Every source gets a new event and a save attempt, in order; the saved ones are exactly
      those whose save goes through. */
  lemma {:induction false} CopyAllEffect(s: Store, sources: seq<Event>, push: Calendar, eventName: string, o: Oracle)
    ensures CopiedAll(s, Artifacts(sources, push, eventName, s.nextId), o, CopyAll(s, sources, push, eventName, o))
    decreases |sources|
  {
    var arts := Artifacts(sources, push, eventName, s.nextId);
    if sources == [] {
      assert s.events + Filter(arts, SaveSucceeds(o)) == s.events;
      assert s.log + Creations(arts, o) == s.log;
    } else {
      var n := |sources|;
      CopyAllEffect(s, sources[..n - 1], push, eventName, o);
      ArtifactsPrefix(sources, push, eventName, s.nextId, n - 1);
      CopyOneMore(s, sources, push, eventName, o);
    }
  }

  /** The step of `CopyAllEffect`: the last source's copy is saved or not, on top of the rest. */
  lemma CopyOneMore(s: Store, sources: seq<Event>, push: Calendar, eventName: string, o: Oracle)
    requires sources != []
    requires var arts := Artifacts(sources, push, eventName, s.nextId);
      CopiedAll(s, arts[..|sources| - 1], o, CopyAll(s, sources[..|sources| - 1], push, eventName, o))
    ensures CopiedAll(s, Artifacts(sources, push, eventName, s.nextId), o, CopyAll(s, sources, push, eventName, o))
  {
    var arts := Artifacts(sources, push, eventName, s.nextId);
    var n := |sources|;
    var artsInit := arts[..n - 1];
    var e := arts[n - 1];
    var previous := CopyAll(s, sources[..n - 1], push, eventName, o);
    assert e == Artifact(sources[n - 1], push, eventName, previous.nextId);
    assert arts == artsInit + [e];
    SaveOneMore(s, artsInit, e, o, previous);
  }

  /** Saving one more artifact on top of `previous` extends the outcome by that artifact. */
  lemma SaveOneMore(s: Store, arts: seq<Event>, e: Event, o: Oracle, previous: Store)
    requires CopiedAll(s, arts, o, previous)
    ensures CopiedAll(s, arts + [e], o, Saved(Allocated(previous), e, o))
  {
    var t := Saved(Allocated(previous), e, o);
    var kept := Filter(arts, SaveSucceeds(o));
    FilterConcat(arts, [e], SaveSucceeds(o));
    CreationsSnoc(arts, e, o);
    assert t.log == (s.log + Creations(arts, o)) + [Creation(e, !o.saveFails(e))];
    if !o.saveFails(e) {
      assert Filter([e], SaveSucceeds(o)) == [e];
      assert t.events == (s.events + kept) + [e];
    } else {
      assert Filter([e], SaveSucceeds(o)) == [];
      assert kept + [] == kept;
    }
  }

  /** The loop of `main` that creates the new events. */
  method CopyEachEvent(store: EventStore, events: seq<Event>, push: Calendar, eventName: string)
    requires store.Valid()
    modifies store
    ensures store.Valid()
    ensures store.State() == CopyAll(old(store.State()), events, push, eventName, store.oracle)
  {
    var i := 0;
    while i < |events|
      invariant 0 <= i <= |events|
      invariant store.State() == CopyAll(old(store.State()), events[..i], push, eventName, store.oracle)
      invariant store.Valid()
    {
      var id := store.NewEventId();
      var newEvent := Event(id, push.identifier, events[i].start, events[i].end, eventName, Some(Marker));
      var _ := store.Save(newEvent);
      assert events[..i + 1][..i] == events[..i];
      i := i + 1;
    }
    assert events[..i] == events;
  }

  // ---------------------------------------------------------------------------------------
  // The sync of `main`

  /** Teardown of the push window's artifacts, then a copy of every event of the pull window
      over the same dates. */
  function OneShotSpec(s: Store, plan: Plan, today: int, o: Oracle): Store
  {
    var victims := CalSyncEventsNextXDays(s.events, plan.push, today, plan.numDays);
    var s1 := DeleteAll(s, victims, o);
    CopyAll(s1, EventsNextXDays(s1.events, plan.pull, today, plan.numDays), plan.push, plan.eventName, o)
  }

  /** The sync part of `main`, once the prompts have settled the plan. */
  method OneShotSync(store: EventStore, plan: Plan, today: int)
    requires store.Valid()
    modifies store
    ensures store.Valid()
    ensures store.State() == OneShotSpec(old(store.State()), plan, today, store.oracle)
  {
    var calSyncEvents := CalSyncEventsNextXDays(store.events, plan.push, today, plan.numDays);
    DeleteEvents(store, calSyncEvents);
    var events := EventsNextXDays(store.events, plan.pull, today, plan.numDays);
    CopyEachEvent(store, events, plan.push, plan.eventName);
  }

  /** The prompts of `main`, over the given input lines. */
  method Prompts(calendars: seq<Calendar>, input: seq<string>) returns (plan: Option<Plan>)
    ensures plan == PromptedPlan(calendars, input)
  {
    var pull, in2 := SelectCalendar(calendars, input);
    var push, in3 := SelectCalendar(calendars, in2);
    if pull.Failure? || push.Failure? {
      return None;
    }
    var numDays, in4 := SelectNumDays(in3);
    if numDays.None? || in4 == [] {
      return None;
    }
    return Some(Plan(pull.value, push.value, numDays.value, in4[0]));
  }

  /** `main` after calendar access is granted: the prompts, then the sync when they succeed. */
  method OneShotSession(store: EventStore, calendars: seq<Calendar>, input: seq<string>, today: int)
    returns (plan: Option<Plan>)
    requires store.Valid()
    modifies store
    ensures store.Valid()
    ensures plan == PromptedPlan(calendars, input)
    ensures plan.None? ==> store.State() == old(store.State())
    ensures plan.Some? ==> store.State() == OneShotSpec(old(store.State()), plan.value, today, store.oracle)
  {
    plan := Prompts(calendars, input);
    if plan.Some? {
      OneShotSync(store, plan.value, today);
    }
  }

  // ---------------------------------------------------------------------------------------
  // Properties of the one-shot sync

  /** What the one-shot sync does: teardown as in `run`, then one save attempt for every event of
      the pull window, artifacts included, whatever earlier saves did. */
  lemma OneShotEffect(s: Store, plan: Plan, today: int, o: Oracle)
    ensures var victims := CalSyncEventsNextXDays(s.events, plan.push, today, plan.numDays);
      var kept := Survivors(s.events, victims, o);
      var sources := EventsNextXDays(kept, plan.pull, today, plan.numDays);
      var arts := Artifacts(sources, plan.push, plan.eventName, s.nextId);
      var t := OneShotSpec(s, plan, today, o);
      && t.events == kept + Filter(arts, SaveSucceeds(o))
      && t.nextId == s.nextId + |sources|
      && t.log == s.log + Removals(victims, o) + Creations(arts, o)
  {
    var victims := CalSyncEventsNextXDays(s.events, plan.push, today, plan.numDays);
    DeleteAllEffect(s, victims, o);
    var s1 := DeleteAll(s, victims, o);
    CopyAllEffect(s1, EventsNextXDays(s1.events, plan.pull, today, plan.numDays), plan.push, plan.eventName, o);
  }

  /** Teardown ends before the first save, and only artifacts of the push window are removed. */
  lemma OneShotTearsDownBeforeCreating(s: Store, plan: Plan, today: int, o: Oracle)
    ensures var t := OneShotSpec(s, plan, today, o);
      |s.log| <= |t.log| && t.log[..|s.log|] == s.log && RemovalsThenCreations(t.log[|s.log|..])
    ensures var t := OneShotSpec(s, plan, today, o);
      forall x :: x in s.events && x !in t.events ==>
        IsCalSyncEvent(x) && InWindow(x, plan.push.identifier, today, EndOfHorizon(today, plan.numDays))
  {
    OneShotEffect(s, plan, today, o);
    var victims := CalSyncEventsNextXDays(s.events, plan.push, today, plan.numDays);
    var kept := Survivors(s.events, victims, o);
    var sources := EventsNextXDays(kept, plan.pull, today, plan.numDays);
    var arts := Artifacts(sources, plan.push, plan.eventName, s.nextId);
    TeardownThenCopyLog(s.log, victims, arts, o);
    var t := OneShotSpec(s, plan, today, o);
    forall x | x in s.events && x !in t.events
      ensures IsCalSyncEvent(x) && InWindow(x, plan.push.identifier, today, EndOfHorizon(today, plan.numDays))
    {
      assert x !in kept;
      assert x in victims;
    }
  }

  /** The new events of the one-shot sync are marked copies on the push calendar of events of the
      pull window, over the same dates as teardown; the source need not be authentic. */
  lemma OneShotCopiesWholeWindow(s: Store, plan: Plan, today: int, o: Oracle)
    ensures var t := OneShotSpec(s, plan, today, o);
      forall x :: x in t.events && x !in s.events ==>
        && x.calendar == plan.push.identifier && x.title == plan.eventName && x.notes == Some(Marker)
        && exists src :: src in s.events && src.start == x.start && src.end == x.end
                         && InWindow(src, plan.pull.identifier, today, EndOfHorizon(today, plan.numDays))
  {
    OneShotEffect(s, plan, today, o);
    var victims := CalSyncEventsNextXDays(s.events, plan.push, today, plan.numDays);
    var kept := Survivors(s.events, victims, o);
    var sources := EventsNextXDays(kept, plan.pull, today, plan.numDays);
    SavedCopiesOfWindow(s.events, kept, sources, plan, today, s.nextId, o);
  }

  lemma SavedCopiesOfWindow(events: seq<Event>, kept: seq<Event>, sources: seq<Event>, plan: Plan, today: int,
                            firstId: nat, o: Oracle)
    requires forall x :: x in kept ==> x in events
    requires forall x :: x in sources ==> x in kept && InWindow(x, plan.pull.identifier, today, EndOfHorizon(today, plan.numDays))
    ensures forall x :: x in kept + Filter(Artifacts(sources, plan.push, plan.eventName, firstId), SaveSucceeds(o)) && x !in events ==>
        && x.calendar == plan.push.identifier && x.title == plan.eventName && x.notes == Some(Marker)
        && exists src :: src in events && src.start == x.start && src.end == x.end
                         && InWindow(src, plan.pull.identifier, today, EndOfHorizon(today, plan.numDays))
  {
    var arts := Artifacts(sources, plan.push, plan.eventName, firstId);
    forall x | x in kept + Filter(arts, SaveSucceeds(o)) && x !in events
      ensures && x.calendar == plan.push.identifier && x.title == plan.eventName && x.notes == Some(Marker)
              && exists src :: src in events && src.start == x.start && src.end == x.end
                               && InWindow(src, plan.pull.identifier, today, EndOfHorizon(today, plan.numDays))
    {
      assert x in arts;
      var i :| 0 <= i < |arts| && arts[i] == x;
      assert sources[i] in sources;
    }
  }

  /** The save attempts appended after teardown's removals. */
  lemma CreationsAfterRemovals(log: seq<Op>, victims: seq<Event>, arts: seq<Event>, o: Oracle)
    ensures var l := log + Removals(victims, o) + Creations(arts, o);
      && |l| == |log| + |victims| + |arts|
      && forall i :: 0 <= i < |arts| ==> l[|log| + |victims| + i] == Creation(arts[i], !o.saveFails(arts[i]))
  {
  }

  /** A failed save is contained: every source of the pull window, including those after a
      failed save, gets its own save attempt, in order. */
  lemma OneShotSaveFailureContained(s: Store, plan: Plan, today: int, o: Oracle)
    ensures var victims := CalSyncEventsNextXDays(s.events, plan.push, today, plan.numDays);
      var kept := Survivors(s.events, victims, o);
      var sources := EventsNextXDays(kept, plan.pull, today, plan.numDays);
      var arts := Artifacts(sources, plan.push, plan.eventName, s.nextId);
      var t := OneShotSpec(s, plan, today, o);
      var first := |s.log| + |victims|;
      && |t.log| == first + |sources|
      && forall i :: 0 <= i < |sources| ==> t.log[first + i] == Creation(arts[i], !o.saveFails(arts[i]))
  {
    OneShotEffect(s, plan, today, o);
    var victims := CalSyncEventsNextXDays(s.events, plan.push, today, plan.numDays);
    var kept := Survivors(s.events, victims, o);
    var sources := EventsNextXDays(kept, plan.pull, today, plan.numDays);
    CreationsAfterRemovals(s.log, victims, Artifacts(sources, plan.push, plan.eventName, s.nextId), o);
  }

  // ---------------------------------------------------------------------------------------
  // The two versions side by side

  /** With pull and push the same calendar, one marked event in the window whose removal fails,
      and saves that go through: `run` keeps the calendar as it is, while the one-shot sync
      copies the leftover artifact onto the same calendar a second time. */
  lemma OneShotRecopiesLeftoverArtifact()
    ensures var today := 0;
      var work := Calendar("work", "Work");
      var artifact := Event(0, "work", 0, 3600, "Busy", Some(Marker));
      var o := Oracle(e => e == artifact, e => false);
      var s := Store([artifact], 1, []);
      var sync := SyncSetting(Uuid(seq(32, _ => 0)), "work", "Work", "work", "Work", "Busy", 1);
      && SyncSpec(s, [work], sync, today, o).0.events == [artifact]
      && OneShotSpec(s, Plan(work, work, 1, "Busy"), today, o).events
           == [artifact, Event(1, "work", 0, 3600, "Busy", Some(Marker))]
  {
    var today := 0;
    var work := Calendar("work", "Work");
    var artifact := Event(0, "work", 0, 3600, "Busy", Some(Marker));
    var o := Oracle(e => e == artifact, e => false);
    var s := Store([artifact], 1, []);
    var sync := SyncSetting(Uuid(seq(32, _ => 0)), "work", "Work", "work", "Work", "Busy", 1);
    assert IsCalSyncEvent(artifact) by {
      assert OccursAt(Marker, Marker, 0);
      ContainsIff(Marker, Marker);
    }
    var window := EventsNextXDays([artifact], work, today, 1);
    assert window == [artifact] by {
      FilterKeepsAll([artifact], InWindowOf("work", today, EndOfHorizon(today, 1)));
    }
    FilterKeepsAll(window, IsCalSyncEvent);
    assert CalSyncEventsNextXDays(s.events, work, today, 1) == [artifact];
    assert Survivors([artifact], [artifact], o) == [artifact] by {
      FilterKeepsAll([artifact], Spared([artifact], o));
    }
    FilterKeepsNone(window, IsAuthentic);
    assert NonCalSyncEventsNextXDays([artifact], work, today, 1) == [];
    MirrorEffect(s, work, work, sync, today, o);
    assert Artifacts([], work, "Busy", 1) == [];
    OneShotEffect(s, Plan(work, work, 1, "Busy"), today, o);
    var copy := Artifact(artifact, work, "Busy", 1);
    assert Artifacts([artifact], work, "Busy", 1) == [copy];
    FilterKeepsAll([copy], SaveSucceeds(o));
  }
}
