/** What `run` guarantees, proved about the specification functions its methods are tied to. */
module EntryProperties {
  import opened Wrappers
  import opened Seqs
  import opened EventKit
  import opened Settings
  import opened CalendarUtils
  import opened Entry

  // ---------------------------------------------------------------------------------------
  // One sync, any pattern of failures

  /** What one sync does to the store: teardown removes the listed artifacts whose removal goes
      through, then the authentic pull events of the window are copied until a save fails; the
      log holds one removal attempt per artifact of the push window, then the save attempts. */
  lemma MirrorEffect(s: Store, pull: Calendar, push: Calendar, sync: SyncSetting, today: int, o: Oracle)
    ensures var victims := CalSyncEventsNextXDays(s.events, push, today, sync.numDays);
      var kept := Survivors(s.events, victims, o);
      var sources := NonCalSyncEventsNextXDays(kept, pull, today, sync.numDays);
      var arts := Artifacts(sources, push, sync.eventName, s.nextId);
      var k := SavedPrefix(arts, o);
      var tried := if k < |arts| then k + 1 else k;
      var m := Mirror(s, pull, push, sync, today, o);
      && m.0.events == kept + arts[..k]
      && m.0.nextId == s.nextId + tried
      && m.0.log == s.log + Removals(victims, o) + Creations(arts[..tried], o)
      && m.1 == if k < |arts| then SaveFailed(arts[k]) else Synced
  {
    var victims := CalSyncEventsNextXDays(s.events, push, today, sync.numDays);
    DeleteAllEffect(s, victims, o);
    var s1 := DeleteAll(s, victims, o);
    CopyUntilFailureEffect(s1, NonCalSyncEventsNextXDays(s1.events, pull, today, sync.numDays), push, sync.eventName, o);
  }

  /** A sync whose pull or push identifier names no live calendar fails before any delete or
      save: the store, its log included, is left as it was. */
  lemma UnresolvedSyncTouchesNothing(s: Store, calendars: seq<Calendar>, sync: SyncSetting, today: int, o: Oracle)
    ensures var (t, r) := SyncSpec(s, calendars, sync, today, o);
      && (r.PullCalendarNotFound? <==> forall c :: c in calendars ==> c.identifier != sync.pullCalendarIdentifier)
      && (r.PushCalendarNotFound? <==>
            (exists c :: c in calendars && c.identifier == sync.pullCalendarIdentifier) &&
            (forall c :: c in calendars ==> c.identifier != sync.pushCalendarIdentifier))
      && (r.PullCalendarNotFound? || r.PushCalendarNotFound? ==> t == s)
  {
    var pull := FirstWithIdentifier(calendars, sync.pullCalendarIdentifier);
    var push := FirstWithIdentifier(calendars, sync.pushCalendarIdentifier);
    if pull.Some? && push.Some? {
      MirrorEffect(s, pull.value, push.value, sync, today, o);
    }
  }

  lemma MirrorRemovesOnlyWindowArtifacts(s: Store, pull: Calendar, push: Calendar, sync: SyncSetting, today: int, o: Oracle)
    ensures var t := Mirror(s, pull, push, sync, today, o).0;
      forall x :: x in s.events && x !in t.events ==>
        IsCalSyncEvent(x) && InWindow(x, push.identifier, today, EndOfHorizon(today, sync.numDays))
  {
    MirrorEffect(s, pull, push, sync, today, o);
    var victims := CalSyncEventsNextXDays(s.events, push, today, sync.numDays);
    var kept := Survivors(s.events, victims, o);
    var t := Mirror(s, pull, push, sync, today, o).0;
    forall x | x in s.events && x !in t.events
      ensures IsCalSyncEvent(x) && InWindow(x, push.identifier, today, EndOfHorizon(today, sync.numDays))
    {
      assert x !in kept;
      assert x in victims;
    }
  }

  /** Only artifacts of the push calendar inside the window ever disappear; in particular no
      authentic event, in any calendar, is removed. */
  lemma SyncRemovesOnlyWindowArtifacts(s: Store, calendars: seq<Calendar>, sync: SyncSetting, today: int, o: Oracle)
    ensures var t := SyncSpec(s, calendars, sync, today, o).0;
      forall x :: x in s.events && x !in t.events ==>
        IsCalSyncEvent(x) && InWindow(x, sync.pushCalendarIdentifier, today, EndOfHorizon(today, sync.numDays))
    ensures var t := SyncSpec(s, calendars, sync, today, o).0;
      forall x :: x in s.events && IsAuthentic(x) ==> x in t.events
  {
    var pull := FirstWithIdentifier(calendars, sync.pullCalendarIdentifier);
    var push := FirstWithIdentifier(calendars, sync.pushCalendarIdentifier);
    if pull.Some? && push.Some? {
      MirrorRemovesOnlyWindowArtifacts(s, pull.value, push.value, sync, today, o);
    }
  }

  /** A copy made by a sync: a marked event on the push calendar, titled with the sync's event
      name, with the start and end of an authentic event of the pull window. */
  ghost predicate IsCopyFrom(x: Event, events: seq<Event>, pull: CalendarId, push: CalendarId, sync: SyncSetting, today: int)
  {
    && x.calendar == push
    && x.title == sync.eventName
    && x.notes == Some(Marker)
    && IsCalSyncEvent(x)
    && exists src :: src in events && IsAuthentic(src) && src.start == x.start && src.end == x.end
                     && InWindow(src, pull, today, EndOfHorizon(today, sync.numDays))
  }

  /** Saved artifacts of authentic window events are copies of events of the original store. */
  lemma SavedArtifactsAreCopies(events: seq<Event>, kept: seq<Event>, sources: seq<Event>, pull: Calendar, push: Calendar,
                                sync: SyncSetting, today: int, firstId: nat, k: nat)
    requires forall x :: x in kept ==> x in events
    requires forall x :: x in sources ==>
      x in kept && IsAuthentic(x) && InWindow(x, pull.identifier, today, EndOfHorizon(today, sync.numDays))
    requires k <= |sources|
    ensures forall x :: x in kept + Artifacts(sources, push, sync.eventName, firstId)[..k] && x !in events ==>
      IsCopyFrom(x, events, pull.identifier, push.identifier, sync, today)
  {
    var arts := Artifacts(sources, push, sync.eventName, firstId);
    forall x | x in kept + arts[..k] && x !in events
      ensures IsCopyFrom(x, events, pull.identifier, push.identifier, sync, today)
    {
      var i :| 0 <= i < k && arts[..k][i] == x;
      var src := sources[i];
      assert src in sources;
      assert x == Artifact(src, push, sync.eventName, firstId + i);
    }
  }

  lemma MirrorCreatesOnlyMarkedCopies(s: Store, pull: Calendar, push: Calendar, sync: SyncSetting, today: int, o: Oracle)
    ensures var t := Mirror(s, pull, push, sync, today, o).0;
      forall x :: x in t.events && x !in s.events ==> IsCopyFrom(x, s.events, pull.identifier, push.identifier, sync, today)
  {
    MirrorEffect(s, pull, push, sync, today, o);
    var victims := CalSyncEventsNextXDays(s.events, push, today, sync.numDays);
    var kept := Survivors(s.events, victims, o);
    var sources := NonCalSyncEventsNextXDays(kept, pull, today, sync.numDays);
    var k := SavedPrefix(Artifacts(sources, push, sync.eventName, s.nextId), o);
    SavedArtifactsAreCopies(s.events, kept, sources, pull, push, sync, today, s.nextId, k);
  }

  /** Every event a sync adds is a marked copy of an authentic event of the pull window, so an
      artifact, even when pull and push are the same calendar, is never the source of a copy. */
  lemma SyncCreatesOnlyMarkedCopies(s: Store, calendars: seq<Calendar>, sync: SyncSetting, today: int, o: Oracle)
    ensures var t := SyncSpec(s, calendars, sync, today, o).0;
      forall x :: x in t.events && x !in s.events ==>
        IsCopyFrom(x, s.events, sync.pullCalendarIdentifier, sync.pushCalendarIdentifier, sync, today)
  {
    var pull := FirstWithIdentifier(calendars, sync.pullCalendarIdentifier);
    var push := FirstWithIdentifier(calendars, sync.pushCalendarIdentifier);
    if pull.Some? && push.Some? {
      MirrorCreatesOnlyMarkedCopies(s, pull.value, push.value, sync, today, o);
    }
  }

  /** Every creation in `ops` comes after every removal. */
  predicate RemovalsThenCreations(ops: seq<Op>)
  {
    forall i, j :: 0 <= i < j < |ops| && ops[i].Creation? ==> ops[j].Creation?
  }

  /** Appending teardown's removals and then the copy's creations to a log. */
  lemma TeardownThenCopyLog(log: seq<Op>, victims: seq<Event>, arts: seq<Event>, o: Oracle)
    ensures var l := log + Removals(victims, o) + Creations(arts, o);
      |log| <= |l| && l[..|log|] == log && RemovalsThenCreations(l[|log|..])
  {
    var removals, creations := Removals(victims, o), Creations(arts, o);
    var l := log + removals + creations;
    assert l[..|log|] == log;
    assert l[|log|..] == removals + creations;
    forall i, j | 0 <= i < j < |removals + creations| && (removals + creations)[i].Creation?
      ensures (removals + creations)[j].Creation?
    {
      assert (removals + creations)[j] == creations[j - |removals|];
    }
  }

  lemma MirrorTearsDownBeforeCreating(s: Store, pull: Calendar, push: Calendar, sync: SyncSetting, today: int, o: Oracle)
    ensures var t := Mirror(s, pull, push, sync, today, o).0;
      |s.log| <= |t.log| && t.log[..|s.log|] == s.log && RemovalsThenCreations(t.log[|s.log|..])
  {
    MirrorEffect(s, pull, push, sync, today, o);
    var victims := CalSyncEventsNextXDays(s.events, push, today, sync.numDays);
    var kept := Survivors(s.events, victims, o);
    var sources := NonCalSyncEventsNextXDays(kept, pull, today, sync.numDays);
    var arts := Artifacts(sources, push, sync.eventName, s.nextId);
    var k := SavedPrefix(arts, o);
    var tried := if k < |arts| then k + 1 else k;
    TeardownThenCopyLog(s.log, victims, arts[..tried], o);
  }

  /** A sync only appends to the log, and within its part every removal comes before every
      creation: teardown is finished before the first new event is saved. */
  lemma SyncTearsDownBeforeCreating(s: Store, calendars: seq<Calendar>, sync: SyncSetting, today: int, o: Oracle)
    ensures var t := SyncSpec(s, calendars, sync, today, o).0;
      |s.log| <= |t.log| && t.log[..|s.log|] == s.log && RemovalsThenCreations(t.log[|s.log|..])
  {
    var pull := FirstWithIdentifier(calendars, sync.pullCalendarIdentifier);
    var push := FirstWithIdentifier(calendars, sync.pushCalendarIdentifier);
    if pull.Some? && push.Some? {
      MirrorTearsDownBeforeCreating(s, pull.value, push.value, sync, today, o);
    } else {
      var t := SyncSpec(s, calendars, sync, today, o).0;
      assert t == s;
      assert t.log[|s.log|..] == [];
    }
  }

  /** The last entry of a log that ends with the save attempts up to a failing one. */
  lemma LastAttemptFailed(log: seq<Op>, arts: seq<Event>, k: nat, o: Oracle)
    requires k < |arts| && o.saveFails(arts[k])
    ensures var l := log + Creations(arts[..k + 1], o); |l| > 0 && l[|l| - 1] == Creation(arts[k], false)
  {
    var l := log + Creations(arts[..k + 1], o);
    assert l[|l| - 1] == Creations(arts[..k + 1], o)[k];
  }

  lemma MirrorSaveFailureIsLast(s: Store, pull: Calendar, push: Calendar, sync: SyncSetting, today: int, o: Oracle)
    ensures var m := Mirror(s, pull, push, sync, today, o);
      m.1.SaveFailed? ==> o.saveFails(m.1.event) && |m.0.log| > 0 && m.0.log[|m.0.log| - 1] == Creation(m.1.event, false)
  {
    MirrorEffect(s, pull, push, sync, today, o);
    var victims := CalSyncEventsNextXDays(s.events, push, today, sync.numDays);
    var kept := Survivors(s.events, victims, o);
    var sources := NonCalSyncEventsNextXDays(kept, pull, today, sync.numDays);
    var arts := Artifacts(sources, push, sync.eventName, s.nextId);
    var k := SavedPrefix(arts, o);
    if k < |arts| {
      LastAttemptFailed(s.log + Removals(victims, o), arts, k, o);
    }
  }

  /** A failed save is the last store call of its sync: the remaining sources are not copied. */
  lemma SaveFailureEndsSync(s: Store, calendars: seq<Calendar>, sync: SyncSetting, today: int, o: Oracle)
    ensures var (t, r) := SyncSpec(s, calendars, sync, today, o);
      r.SaveFailed? ==> o.saveFails(r.event) && |t.log| > 0 && t.log[|t.log| - 1] == Creation(r.event, false)
  {
    var pull := FirstWithIdentifier(calendars, sync.pullCalendarIdentifier);
    var push := FirstWithIdentifier(calendars, sync.pushCalendarIdentifier);
    if pull.Some? && push.Some? {
      MirrorSaveFailureIsLast(s, pull.value, push.value, sync, today, o);
    }
  }

  // ---------------------------------------------------------------------------------------
  // The whole run

  /** The result of each sync is what that sync does on the store left by the ones before it,
      whatever those ended with: an error in one sync never stops the next. */
  lemma {:induction false} RunResultsIndependent(s: Store, calendars: seq<Calendar>, syncs: seq<SyncSetting>, today: int, o: Oracle)
    ensures |RunSpec(s, calendars, syncs, today, o).1| == |syncs|
    ensures forall i :: 0 <= i < |syncs| ==>
      RunSpec(s, calendars, syncs, today, o).1[i] == SyncSpec(RunSpec(s, calendars, syncs[..i], today, o).0, calendars, syncs[i], today, o).1
    decreases |syncs|
  {
    if syncs != [] {
      var n := |syncs|;
      var init := syncs[..n - 1];
      RunResultsIndependent(s, calendars, init, today, o);
      var previous := RunSpec(s, calendars, init, today, o);
      var last := SyncSpec(previous.0, calendars, syncs[n - 1], today, o);
      var results := RunSpec(s, calendars, syncs, today, o).1;
      assert results == previous.1 + [last.1];
      forall i | 0 <= i < n
        ensures results[i] == SyncSpec(RunSpec(s, calendars, syncs[..i], today, o).0, calendars, syncs[i], today, o).1
      {
        if i < n - 1 {
          assert syncs[..i] == init[..i];
          assert syncs[i] == init[i];
          assert results[i] == previous.1[i];
        } else {
          assert syncs[..i] == init;
        }
      }
    }
  }

  /** The result a sync has when the store never fails: decided by calendar resolution alone. */
  function Resolution(calendars: seq<Calendar>, sync: SyncSetting): SyncResult
  {
    if FirstWithIdentifier(calendars, sync.pullCalendarIdentifier).None? then PullCalendarNotFound(sync.pullCalendarIdentifier)
    else if FirstWithIdentifier(calendars, sync.pushCalendarIdentifier).None? then PushCalendarNotFound(sync.pushCalendarIdentifier)
    else Synced
  }

  lemma ReliableSyncResult(s: Store, calendars: seq<Calendar>, sync: SyncSetting, today: int, o: Oracle)
    requires Reliable(o)
    ensures SyncSpec(s, calendars, sync, today, o).1 == Resolution(calendars, sync)
  {
    var pull := FirstWithIdentifier(calendars, sync.pullCalendarIdentifier);
    var push := FirstWithIdentifier(calendars, sync.pushCalendarIdentifier);
    if pull.Some? && push.Some? {
      MirrorEffect(s, pull.value, push.value, sync, today, o);
    }
  }

  /** With a store that never fails, every sync whose calendars resolve completes, whatever the
      others do: of three syncs where the second names a deleted calendar, the first and third
      complete and the second reports that calendar. */
  lemma ReliableRunResults(s: Store, calendars: seq<Calendar>, syncs: seq<SyncSetting>, today: int, o: Oracle)
    requires Reliable(o)
    ensures |RunSpec(s, calendars, syncs, today, o).1| == |syncs|
    ensures forall i :: 0 <= i < |syncs| ==> RunSpec(s, calendars, syncs, today, o).1[i] == Resolution(calendars, syncs[i])
  {
    RunResultsIndependent(s, calendars, syncs, today, o);
    forall i | 0 <= i < |syncs|
      ensures RunSpec(s, calendars, syncs, today, o).1[i] == Resolution(calendars, syncs[i])
    {
      ReliableSyncResult(RunSpec(s, calendars, syncs[..i], today, o).0, calendars, syncs[i], today, o);
    }
  }

  // ---------------------------------------------------------------------------------------
  // Idempotence

  /** The events with their identities blanked out. */
  function Anonymized(events: seq<Event>): (r: seq<Event>)
    ensures |r| == |events|
  {
    seq(|events|, i requires 0 <= i < |events| => events[i].(id := 0))
  }

  /** Title, start and end of each event. */
  function Shapes(events: seq<Event>): (r: seq<(string, int, int)>)
    ensures |r| == |events|
  {
    seq(|events|, i requires 0 <= i < |events| => (events[i].title, events[i].start, events[i].end))
  }

  lemma WindowArtifactsConcat(a: seq<Event>, b: seq<Event>, push: Calendar, today: int, numDays: int)
    ensures CalSyncEventsNextXDays(a + b, push, today, numDays)
         == CalSyncEventsNextXDays(a, push, today, numDays) + CalSyncEventsNextXDays(b, push, today, numDays)
  {
    var window := InWindowOf(push.identifier, today, EndOfHorizon(today, numDays));
    FilterConcat(a, b, window);
    FilterConcat(Filter(a, window), Filter(b, window), IsCalSyncEvent);
  }

  /** Artifacts made from events of the window lie in the push window and are all found by the
      next teardown's query. */
  lemma ArtifactsFoundByTeardown(sources: seq<Event>, push: Calendar, eventName: string, firstId: nat, today: int, numDays: int)
    requires forall src :: src in sources ==> today <= src.start < EndOfHorizon(today, numDays)
    ensures var arts := Artifacts(sources, push, eventName, firstId);
      CalSyncEventsNextXDays(arts, push, today, numDays) == arts
  {
    var arts := Artifacts(sources, push, eventName, firstId);
    var window := InWindowOf(push.identifier, today, EndOfHorizon(today, numDays));
    forall x | x in arts ensures window(x) && IsCalSyncEvent(x) {
      var i :| 0 <= i < |arts| && arts[i] == x;
      assert sources[i] in sources;
    }
    FilterKeepsAll(arts, window);
    FilterKeepsAll(arts, IsCalSyncEvent);
  }

  /** With a store that never fails, teardown leaves no artifact in the push window. */
  lemma NothingLeftToTearDown(events: seq<Event>, push: Calendar, today: int, numDays: int, o: Oracle)
    requires Reliable(o)
    ensures CalSyncEventsNextXDays(Survivors(events, CalSyncEventsNextXDays(events, push, today, numDays), o), push, today, numDays) == []
  {
    var victims := CalSyncEventsNextXDays(events, push, today, numDays);
    var inWindow := EventsNextXDays(Survivors(events, victims, o), push, today, numDays);
    FilterKeepsNone(inWindow, IsCalSyncEvent);
  }

  /** With a store that never fails, a sync leaves the events outside teardown's reach followed by
      one artifact per authentic pull event of the window. */
  lemma ReliableMirror(s: Store, pull: Calendar, push: Calendar, sync: SyncSetting, today: int, o: Oracle)
    requires Reliable(o)
    ensures var victims := CalSyncEventsNextXDays(s.events, push, today, sync.numDays);
      var kept := Survivors(s.events, victims, o);
      var sources := NonCalSyncEventsNextXDays(kept, pull, today, sync.numDays);
      var m := Mirror(s, pull, push, sync, today, o);
      && m.0.events == kept + Artifacts(sources, push, sync.eventName, s.nextId)
      && m.0.nextId == s.nextId + |sources|
      && m.1 == Synced
  {
    MirrorEffect(s, pull, push, sync, today, o);
    var victims := CalSyncEventsNextXDays(s.events, push, today, sync.numDays);
    var kept := Survivors(s.events, victims, o);
    var sources := NonCalSyncEventsNextXDays(kept, pull, today, sync.numDays);
    var arts := Artifacts(sources, push, sync.eventName, s.nextId);
    assert SavedPrefix(arts, o) == |arts|;
    assert arts[..|arts|] == arts;
  }

  /** With a store that never fails, the second teardown of the same sync removes exactly the
      artifacts the first one made. */
  lemma SecondTeardownUndoesFirstCopy(kept: seq<Event>, arts: seq<Event>, push: Calendar, today: int, numDays: int, o: Oracle)
    requires Reliable(o)
    requires CalSyncEventsNextXDays(kept, push, today, numDays) == []
    requires CalSyncEventsNextXDays(arts, push, today, numDays) == arts
    ensures CalSyncEventsNextXDays(kept + arts, push, today, numDays) == arts
    ensures Survivors(kept + arts, arts, o) == kept
  {
    WindowArtifactsConcat(kept, arts, push, today, numDays);
    forall x | x in kept ensures Spared(arts, o)(x) {
      if x in arts {
        assert x in CalSyncEventsNextXDays(arts, push, today, numDays);
        assert x in CalSyncEventsNextXDays(kept, push, today, numDays);
      }
    }
    FilterConcat(kept, arts, Spared(arts, o));
    FilterKeepsAll(kept, Spared(arts, o));
    FilterKeepsNone(arts, Spared(arts, o));
  }

  /** With a store that never fails, mirroring the same sources again over what the first copy
      left removes the first copy's artifacts and makes the same ones again, under new identities. */
  lemma RecopyReplacesCopy(kept: seq<Event>, sources: seq<Event>, push: Calendar, eventName: string,
                           firstId: nat, secondId: nat, today: int, numDays: int, o: Oracle)
    requires Reliable(o)
    requires CalSyncEventsNextXDays(kept, push, today, numDays) == []
    requires forall src :: src in sources ==> today <= src.start < EndOfHorizon(today, numDays)
    ensures var a1 := Artifacts(sources, push, eventName, firstId);
      CalSyncEventsNextXDays(kept + a1, push, today, numDays) == a1 && Survivors(kept + a1, a1, o) == kept
    ensures var a1 := Artifacts(sources, push, eventName, firstId);
      var a2 := Artifacts(sources, push, eventName, secondId);
      && Anonymized(kept + a2) == Anonymized(kept + a1)
      && Shapes(CalSyncEventsNextXDays(kept + a2, push, today, numDays))
         == Shapes(CalSyncEventsNextXDays(kept + a1, push, today, numDays))
  {
    var a1 := Artifacts(sources, push, eventName, firstId);
    var a2 := Artifacts(sources, push, eventName, secondId);
    ArtifactsFoundByTeardown(sources, push, eventName, firstId, today, numDays);
    SecondTeardownUndoesFirstCopy(kept, a1, push, today, numDays, o);
    ArtifactsFoundByTeardown(sources, push, eventName, secondId, today, numDays);
    WindowArtifactsConcat(kept, a2, push, today, numDays);
    SameSourcesSameCopies(kept, sources, push, eventName, firstId, secondId);
  }

  /** Copies of the same sources differ only in their identities. */
  lemma SameSourcesSameCopies(kept: seq<Event>, sources: seq<Event>, push: Calendar, eventName: string, firstId: nat, secondId: nat)
    ensures var a1 := Artifacts(sources, push, eventName, firstId);
      var a2 := Artifacts(sources, push, eventName, secondId);
      Anonymized(kept + a2) == Anonymized(kept + a1) && Shapes(a2) == Shapes(a1)
  {
    var a1 := Artifacts(sources, push, eventName, firstId);
    var a2 := Artifacts(sources, push, eventName, secondId);
    assert forall i :: 0 <= i < |kept + a1| ==> (kept + a2)[i].(id := 0) == (kept + a1)[i].(id := 0);
  }

  /** Running the same sync twice with an unchanged source and a store that never fails leaves
      the same events as running it once, up to the identities of the new artifacts; in
      particular the push window holds the same artifacts, by title, start and end, in the same
      order. */
  lemma MirrorTwiceSameAsOnce(s: Store, pull: Calendar, push: Calendar, sync: SyncSetting, today: int, o: Oracle)
    requires Reliable(o)
    ensures var t1 := Mirror(s, pull, push, sync, today, o).0;
      var t2 := Mirror(t1, pull, push, sync, today, o).0;
      && Anonymized(t2.events) == Anonymized(t1.events)
      && Shapes(CalSyncEventsNextXDays(t2.events, push, today, sync.numDays))
         == Shapes(CalSyncEventsNextXDays(t1.events, push, today, sync.numDays))
  {
    var nd, name := sync.numDays, sync.eventName;
    var victims := CalSyncEventsNextXDays(s.events, push, today, nd);
    var kept := Survivors(s.events, victims, o);
    var sources := NonCalSyncEventsNextXDays(kept, pull, today, nd);
    ReliableMirror(s, pull, push, sync, today, o);
    NothingLeftToTearDown(s.events, push, today, nd, o);
    var t1 := Mirror(s, pull, push, sync, today, o).0;
    RecopyReplacesCopy(kept, sources, push, name, s.nextId, t1.nextId, today, nd, o);
    ReliableMirror(t1, pull, push, sync, today, o);
  }

  /** Idempotence of a whole sync, calendar resolution included. */
  lemma SyncTwiceSameAsOnce(s: Store, calendars: seq<Calendar>, sync: SyncSetting, today: int, o: Oracle)
    requires Reliable(o)
    ensures var t1 := SyncSpec(s, calendars, sync, today, o).0;
      var t2 := SyncSpec(t1, calendars, sync, today, o).0;
      Anonymized(t2.events) == Anonymized(t1.events)
  {
    var pull := FirstWithIdentifier(calendars, sync.pullCalendarIdentifier);
    var push := FirstWithIdentifier(calendars, sync.pushCalendarIdentifier);
    if pull.Some? && push.Some? {
      MirrorTwiceSameAsOnce(s, pull.value, push.value, sync, today, o);
    }
  }
}
