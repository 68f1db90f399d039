/** The helpers of the settings-driven version: the tag matcher that tells CalSync's own
    events from real ones, the window queries, teardown by deletion, the interactive prompts
    and the construction of a new sync definition. */
module CalendarUtils {
  import opened Wrappers
  import opened Seqs
  import opened EventKit
  import opened Console
  import opened Settings

  /** The sentinel written into the notes of every event CalSync creates. */
  const Marker: string := "Made by CalSync"

  const SecondsPerDay: int := 86400

  // ---------------------------------------------------------------------------------------
  // Tag matcher

  predicate OccursAt(s: string, sub: string, i: int)
  {
    0 <= i && i + |sub| <= |s| && s[i..i + |sub|] == sub
  }

  predicate StartsWith(s: string, prefix: string)
  {
    |prefix| <= |s| && s[..|prefix|] == prefix
  }

  /** Case-sensitive substring search, scanning start positions left to right. */
  predicate Contains(s: string, sub: string)
    decreases |s|
  {
    StartsWith(s, sub) || (s != [] && Contains(s[1..], sub))
  }

  /** The scan finds `sub` exactly when it occurs somewhere in `s`. */
  lemma {:induction false} ContainsIff(s: string, sub: string)
    ensures Contains(s, sub) <==> exists i :: OccursAt(s, sub, i)
    decreases |s|
  {
    if StartsWith(s, sub) {
      assert OccursAt(s, sub, 0);
    } else if s == [] {
    } else {
      ContainsIff(s[1..], sub);
      if Contains(s[1..], sub) {
        var i :| OccursAt(s[1..], sub, i);
        assert s[1..][i..i + |sub|] == s[i + 1..i + 1 + |sub|];
        assert OccursAt(s, sub, i + 1);
      }
      forall i | OccursAt(s, sub, i) ensures OccursAt(s[1..], sub, i - 1) {
        assert i != 0;
        assert s[1..][i - 1..i - 1 + |sub|] == s[i..i + |sub|];
      }
    }
  }

  /** `event.notes?.contains("Made by CalSync") == true`: missing notes are not a match. */
  predicate IsCalSyncEvent(e: Event)
  {
    e.notes.Some? && Contains(e.notes.value, Marker)
  }

  predicate IsAuthentic(e: Event)
  {
    !IsCalSyncEvent(e)
  }

  lemma CalSyncEventIff(e: Event)
    ensures IsCalSyncEvent(e) <==> e.notes.Some? && exists i :: OccursAt(e.notes.value, Marker, i)
  {
    if e.notes.Some? {
      ContainsIff(e.notes.value, Marker);
    }
  }

  /** Every event CalSync creates, in either version: the generic title, the marker as its only
      notes, the source's start and end, on the push calendar. */
  function Artifact(source: Event, push: Calendar, eventName: string, id: nat): (r: Event)
    ensures IsCalSyncEvent(r)
  {
    assert StartsWith(Marker, Marker);
    Event(id, push.identifier, source.start, source.end, eventName, Some(Marker))
  }

  /** The artifacts made from `sources` in order, the first with identity `firstId`. */
  function Artifacts(sources: seq<Event>, push: Calendar, eventName: string, firstId: nat): (r: seq<Event>)
    ensures |r| == |sources|
  {
    seq(|sources|, i requires 0 <= i < |sources| => Artifact(sources[i], push, eventName, firstId + i))
  }

  // ---------------------------------------------------------------------------------------
  // Window queries

  /** `Calendar.current.date(byAdding: .day, value: numDays, to: today)` with fixed-length days. */
  function EndOfHorizon(today: int, numDays: int): int
  {
    today + numDays * SecondsPerDay
  }

  /** `getEventsNextXDays`: the calendar's events starting in `[today, today + numDays days)`. */
  function EventsNextXDays(events: seq<Event>, calendar: Calendar, today: int, numDays: int): (r: seq<Event>)
    ensures forall e :: e in r <==>
      e in events && e.calendar == calendar.identifier && today <= e.start < today + numDays * SecondsPerDay
    ensures numDays <= 0 ==> r == []
    ensures IsSubsequence(r, events)
  {
    Matching(events, calendar.identifier, today, EndOfHorizon(today, numDays))
  }

  function CalSyncEvents(events: seq<Event>): seq<Event>
  {
    Filter(events, IsCalSyncEvent)
  }

  function NonCalSyncEvents(events: seq<Event>): seq<Event>
  {
    Filter(events, IsAuthentic)
  }

  /** The two filters split a query result: each keeps the original order, no event is in both,
      and together they hold every event exactly as often as the result does. */
  lemma TagPartition(events: seq<Event>)
    ensures forall e :: e in CalSyncEvents(events) <==> e in events && IsCalSyncEvent(e)
    ensures forall e :: e in NonCalSyncEvents(events) <==> e in events && !IsCalSyncEvent(e)
    ensures multiset(CalSyncEvents(events)) + multiset(NonCalSyncEvents(events)) == multiset(events)
    ensures IsSubsequence(CalSyncEvents(events), events)
    ensures IsSubsequence(NonCalSyncEvents(events), events)
  {
    FilterPartition(events, IsCalSyncEvent, IsAuthentic);
    FilterIsSubsequence(events, IsCalSyncEvent);
    FilterIsSubsequence(events, IsAuthentic);
  }

  /** `getCalSyncEventsNextXDays`. */
  function CalSyncEventsNextXDays(events: seq<Event>, calendar: Calendar, today: int, numDays: int): (r: seq<Event>)
    ensures forall e :: e in r <==>
      e in events && InWindow(e, calendar.identifier, today, EndOfHorizon(today, numDays)) && IsCalSyncEvent(e)
  {
    CalSyncEvents(EventsNextXDays(events, calendar, today, numDays))
  }

  /** `getNonCalSyncEventsNextXDays`. */
  function NonCalSyncEventsNextXDays(events: seq<Event>, calendar: Calendar, today: int, numDays: int): (r: seq<Event>)
    ensures forall e :: e in r <==>
      e in events && InWindow(e, calendar.identifier, today, EndOfHorizon(today, numDays)) && !IsCalSyncEvent(e)
  {
    NonCalSyncEvents(EventsNextXDays(events, calendar, today, numDays))
  }

  /** The artifact and authentic queries split the window of `getEventsNextXDays`: together
      they hold each of its events exactly as often as it does, and each lists its events in
      store order. */
  lemma WindowTagPartition(events: seq<Event>, calendar: Calendar, today: int, numDays: int)
    ensures var window := EventsNextXDays(events, calendar, today, numDays);
      multiset(CalSyncEventsNextXDays(events, calendar, today, numDays))
        + multiset(NonCalSyncEventsNextXDays(events, calendar, today, numDays)) == multiset(window)
    ensures IsSubsequence(CalSyncEventsNextXDays(events, calendar, today, numDays), events)
    ensures IsSubsequence(NonCalSyncEventsNextXDays(events, calendar, today, numDays), events)
  {
    var window := EventsNextXDays(events, calendar, today, numDays);
    TagPartition(window);
    SubsequenceTransitive(CalSyncEvents(window), window, events);
    SubsequenceTransitive(NonCalSyncEvents(window), window, events);
  }

  // ---------------------------------------------------------------------------------------
  // Teardown

  /** `x` is one of the listed events and its removal goes through. */
  predicate Doomed(x: Event, victims: seq<Event>, o: Oracle)
  {
    x in victims && !o.removeFails(x)
  }

  function Spared(victims: seq<Event>, o: Oracle): Event -> bool
  {
    x => !Doomed(x, victims, o)
  }

  function Survivors(events: seq<Event>, victims: seq<Event>, o: Oracle): (r: seq<Event>)
    ensures forall x :: x in r <==> x in events && !Doomed(x, victims, o)
  {
    Filter(events, Spared(victims, o))
  }

  /** One removal attempt per listed event, in list order. */
  function Removals(victims: seq<Event>, o: Oracle): (r: seq<Op>)
    ensures |r| == |victims|
  {
    seq(|victims|, i requires 0 <= i < |victims| => Removal(victims[i], !o.removeFails(victims[i])))
  }

  /** The store after removing each listed event in turn, a failing removal changing nothing. */
  function DeleteAll(s: Store, victims: seq<Event>, o: Oracle): Store
    decreases |victims|
  {
    if victims == [] then s
    else Removed(DeleteAll(s, victims[..|victims| - 1], o), victims[|victims| - 1], o)
  }

  /** Teardown attempts every listed event in order whatever earlier attempts did, removes
      exactly the listed events whose removal succeeds, and touches nothing else. */
  lemma {:induction false} DeleteAllEffect(s: Store, victims: seq<Event>, o: Oracle)
    ensures DeleteAll(s, victims, o) == Store(Survivors(s.events, victims, o), s.nextId, s.log + Removals(victims, o))
    decreases |victims|
  {
    if victims == [] {
      FilterKeepsAll(s.events, Spared(victims, o));
      assert s.log + Removals(victims, o) == s.log;
    } else {
      var n := |victims|;
      var init, v := victims[..n - 1], victims[n - 1];
      DeleteAllEffect(s, init, o);
      assert forall x :: x in victims <==> x in init || x == v by {
        assert victims == init + [v];
      }
      if o.removeFails(v) {
        FilterCongruence(s.events, Spared(init, o), Spared(victims, o));
      } else {
        FilterTwice(s.events, Spared(init, o), x => x != v, Spared(victims, o));
      }
      assert Removals(victims, o) == Removals(init, o) + [Removal(v, !o.removeFails(v))];
    }
  }

  /** `deleteEvents`: removes each listed event; a failed removal is reported and skipped. */
  method DeleteEvents(store: EventStore, events: seq<Event>)
    requires store.Valid()
    modifies store
    ensures store.Valid()
    ensures store.State() == DeleteAll(old(store.State()), events, store.oracle)
  {
    var i := 0;
    while i < |events|
      invariant 0 <= i <= |events|
      invariant store.State() == DeleteAll(old(store.State()), events[..i], store.oracle)
      invariant store.Valid()
    {
      var _ := store.Remove(events[i]);
      assert events[..i + 1][..i] == events[..i];
      i := i + 1;
    }
    assert events[..i] == events;
  }

  // ---------------------------------------------------------------------------------------
  // Interactive prompts

  datatype SetupError =
    | NoCalendars
    | EndOfInput
    | InvalidPullSelection
    | InvalidPushSelection
    | NumDaysNotProvided
    | EventNameNotProvided

  /** The line is an integer `n` with `1 <= n <= count`. */
  predicate IsChoice(line: string, count: nat)
  {
    var n := ParseInt(line);
    n.Some? && 1 <= n.value <= count
  }

  /** The position of the first line that is a valid choice, `|lines|` if there is none. */
  function FirstChoice(lines: seq<string>, count: nat): (k: nat)
    ensures k <= |lines|
    ensures k < |lines| ==> IsChoice(lines[k], count)
    ensures forall j :: 0 <= j < k ==> !IsChoice(lines[j], count)
  {
    if lines == [] then 0
    else if IsChoice(lines[0], count) then 0
    else 1 + FirstChoice(lines[1..], count)
  }

  /** The position of the first line that is an integer, `|lines|` if there is none. */
  function FirstInteger(lines: seq<string>): (k: nat)
    ensures k <= |lines|
    ensures k < |lines| ==> ParseInt(lines[k]).Some?
    ensures forall j :: 0 <= j < k ==> ParseInt(lines[j]).None?
  {
    if lines == [] then 0
    else if ParseInt(lines[0]).Some? then 0
    else 1 + FirstInteger(lines[1..])
  }

  /** What `selectCalendar` settles on a non-empty list: the calendar numbered by the first line
      that is a valid choice, and the lines after it; nothing when no line is a valid choice. */
  function Chosen(calendars: seq<Calendar>, lines: seq<string>): (r: Option<(Calendar, seq<string>)>)
    ensures r.None? <==> forall j :: 0 <= j < |lines| ==> !IsChoice(lines[j], |calendars|)
    ensures r.Some? ==> r.value.0 in calendars
    ensures r.Some? ==>
      exists k :: 0 <= k < |lines| && IsChoice(lines[k], |calendars|)
        && (forall j :: 0 <= j < k ==> !IsChoice(lines[j], |calendars|))
        && r.value == (calendars[ParseInt(lines[k]).value - 1], lines[k + 1..])
  {
    var k := FirstChoice(lines, |calendars|);
    if k < |lines| then
      FirstChoiceWitness(calendars, lines, k);
      Some((calendars[ParseInt(lines[k]).value - 1], lines[k + 1..]))
    else None
  }

  lemma FirstChoiceWitness(calendars: seq<Calendar>, lines: seq<string>, k: nat)
    requires k < |lines| && IsChoice(lines[k], |calendars|)
    requires forall j :: 0 <= j < k ==> !IsChoice(lines[j], |calendars|)
    ensures
      exists i :: 0 <= i < |lines| && IsChoice(lines[i], |calendars|)
        && (forall j :: 0 <= j < i ==> !IsChoice(lines[j], |calendars|))
        && (calendars[ParseInt(lines[k]).value - 1], lines[k + 1..])
           == (calendars[ParseInt(lines[i]).value - 1], lines[i + 1..])
  {
  }

  /** What `selectNumDays` settles: the value of the first line that reads as an integer, and the
      lines after it; nothing when no line does. */
  function Entered(lines: seq<string>): (r: Option<(int, seq<string>)>)
    ensures r.None? <==> forall j :: 0 <= j < |lines| ==> ParseInt(lines[j]).None?
    ensures r.Some? ==>
      exists k :: 0 <= k < |lines| && ParseInt(lines[k]) == Some(r.value.0)
        && (forall j :: 0 <= j < k ==> ParseInt(lines[j]).None?)
        && r.value.1 == lines[k + 1..]
  {
    var k := FirstInteger(lines);
    if k < |lines| then
      var v := ParseInt(lines[k]).value;
      FirstIntegerWitness(lines, k, v);
      Some((v, lines[k + 1..]))
    else None
  }

  lemma FirstIntegerWitness(lines: seq<string>, k: nat, v: int)
    requires k < |lines| && ParseInt(lines[k]) == Some(v)
    requires forall j :: 0 <= j < k ==> ParseInt(lines[j]).None?
    ensures
      exists i :: 0 <= i < |lines| && ParseInt(lines[i]) == Some(v)
        && (forall j :: 0 <= j < i ==> ParseInt(lines[j]).None?)
        && lines[k + 1..] == lines[i + 1..]
  {
  }

  /** `selectCalendar`: with no calendars it fails without reading; otherwise it reads lines
      until one is a number `n` in `1...count` and returns the `n`-th calendar, skipping every
      other line. `rest` is the input left for the next prompt. */
  method SelectCalendar(calendars: seq<Calendar>, input: seq<string>) returns (r: Result<Calendar, SetupError>, rest: seq<string>)
    ensures calendars == [] ==> r == Failure(NoCalendars) && rest == input
    ensures calendars != [] && Chosen(calendars, input).Some? ==>
      r == Success(Chosen(calendars, input).value.0) && rest == Chosen(calendars, input).value.1
    ensures calendars != [] && Chosen(calendars, input).None? ==> r == Failure(EndOfInput) && rest == []
  {
    if calendars == [] {
      return Failure(NoCalendars), input;
    }
    var i := 0;
    while i < |input|
      invariant 0 <= i <= |input|
      invariant forall j :: 0 <= j < i ==> !IsChoice(input[j], |calendars|)
    {
      var n := ParseInt(input[i]);
      if n.Some? && 1 <= n.value <= |calendars| {
        ChosenAt(calendars, input, i);
        return Success(calendars[n.value - 1]), input[i + 1..];
      }
      i := i + 1;
    }
    assert Chosen(calendars, input).None?;
    return Failure(EndOfInput), [];
  }

  /** The first valid line decides the choice. */
  lemma ChosenAt(calendars: seq<Calendar>, lines: seq<string>, i: nat)
    requires i < |lines| && IsChoice(lines[i], |calendars|)
    requires forall j :: 0 <= j < i ==> !IsChoice(lines[j], |calendars|)
    ensures Chosen(calendars, lines) == Some((calendars[ParseInt(lines[i]).value - 1], lines[i + 1..]))
  {
    FirstChoiceAt(lines, |calendars|, i);
  }

  lemma {:induction false} FirstChoiceAt(lines: seq<string>, count: nat, i: nat)
    requires i < |lines| && IsChoice(lines[i], count)
    requires forall j :: 0 <= j < i ==> !IsChoice(lines[j], count)
    ensures FirstChoice(lines, count) == i
  {
    if i > 0 {
      assert !IsChoice(lines[0], count);
      FirstChoiceAt(lines[1..], count, i - 1);
    }
  }

  /** `selectNumDays`: the first line that reads as an integer, with no check of sign or size. */
  method SelectNumDays(input: seq<string>) returns (r: Option<int>, rest: seq<string>)
    ensures Entered(input).Some? ==> r == Some(Entered(input).value.0) && rest == Entered(input).value.1
    ensures Entered(input).None? ==> r == None && rest == []
  {
    var i := 0;
    while i < |input|
      invariant 0 <= i <= |input|
      invariant forall j :: 0 <= j < i ==> ParseInt(input[j]).None?
    {
      var n := ParseInt(input[i]);
      if n.Some? {
        assert FirstInteger(input) == i;
        return n, input[i + 1..];
      }
      i := i + 1;
    }
    return None, [];
  }

  /** What `createSyncSetting` settles: the four prompts in order, each reading from what the
      previous one left. The new definition records the identifier and title of the chosen pull
      and push calendars, the first integer entered and the next line as event name. A prompt
      that finds no answer has read the whole input. */
  function NewSetting(calendars: seq<Calendar>, input: seq<string>, id: Uuid)
    : (r: (Result<SyncSetting, SetupError>, seq<string>))
    ensures calendars == [] ==> r == (Failure(NoCalendars), input)
    ensures calendars != [] && r.0.Failure? ==> r.1 == []
    ensures r.0.Success? ==> r.0.value.id == id
    ensures r.0.Success? ==> Calendar(r.0.value.pullCalendarIdentifier, r.0.value.pullCalendarTitle) in calendars
    ensures r.0.Success? ==> Calendar(r.0.value.pushCalendarIdentifier, r.0.value.pushCalendarTitle) in calendars
  {
    if calendars == [] then (Failure(NoCalendars), input)
    else
      var pull := Chosen(calendars, input);
      if pull.None? then (Failure(InvalidPullSelection), []) else
      var push := Chosen(calendars, pull.value.1);
      if push.None? then (Failure(InvalidPushSelection), []) else
      var numDays := Entered(push.value.1);
      if numDays.None? then (Failure(NumDaysNotProvided), []) else
      var lines := numDays.value.1;
      if lines == [] then (Failure(EventNameNotProvided), []) else
      var p, q := pull.value.0, push.value.0;
      (Success(SyncSetting(id, p.identifier, p.title, q.identifier, q.title, lines[0], numDays.value.0)), lines[1..])
  }

  /** A setting `createSyncSetting` builds takes its pull calendar from the first prompt's
      answer, its push calendar from the second, its day count from the third and its event
      name from the line after that; reading resumes after the event name. */
  lemma NewSettingFromPrompts(calendars: seq<Calendar>, input: seq<string>, id: Uuid)
    requires NewSetting(calendars, input, id).0.Success?
    ensures Chosen(calendars, input).Some?
    ensures Chosen(calendars, Chosen(calendars, input).value.1).Some?
    ensures Entered(Chosen(calendars, Chosen(calendars, input).value.1).value.1).Some?
    ensures var pull := Chosen(calendars, input).value;
      var push := Chosen(calendars, pull.1).value;
      var days := Entered(push.1).value;
      days.1 != [] &&
      NewSetting(calendars, input, id) == (
        Success(SyncSetting(id, pull.0.identifier, pull.0.title, push.0.identifier, push.0.title, days.1[0], days.0)),
        days.1[1..])
  {
  }

  /** On a non-empty list `createSyncSetting` fails at the first prompt that finds no answer,
      with that prompt's error. */
  lemma NewSettingErrors(calendars: seq<Calendar>, input: seq<string>, id: Uuid)
    requires calendars != []
    ensures Chosen(calendars, input).None? ==> NewSetting(calendars, input, id).0 == Failure(InvalidPullSelection)
    ensures Chosen(calendars, input).Some? ==>
      var push := Chosen(calendars, Chosen(calendars, input).value.1);
      push.None? ==> NewSetting(calendars, input, id).0 == Failure(InvalidPushSelection)
    ensures Chosen(calendars, input).Some? ==>
      var push := Chosen(calendars, Chosen(calendars, input).value.1);
      push.Some? ==>
        var days := Entered(push.value.1);
        (days.None? ==> NewSetting(calendars, input, id).0 == Failure(NumDaysNotProvided)) &&
        (days.Some? && days.value.1 == [] ==> NewSetting(calendars, input, id).0 == Failure(EventNameNotProvided))
  {
  }

  /** `createSyncSetting`. */
  method CreateSyncSetting(calendars: seq<Calendar>, input: seq<string>, id: Uuid)
    returns (r: Result<SyncSetting, SetupError>, rest: seq<string>)
    ensures (r, rest) == NewSetting(calendars, input, id)
  {
    if calendars == [] {
      return Failure(NoCalendars), input;
    }
    var pull, in2 := SelectCalendar(calendars, input);
    if pull.Failure? {
      return Failure(InvalidPullSelection), in2;
    }
    var push, in3 := SelectCalendar(calendars, in2);
    if push.Failure? {
      return Failure(InvalidPushSelection), in3;
    }
    var numDays, in4 := SelectNumDays(in3);
    if numDays.None? {
      return Failure(NumDaysNotProvided), in4;
    }
    if in4 == [] {
      return Failure(EventNameNotProvided), in4;
    }
    var eventName := in4[0];
    r := Success(SyncSetting(id, pull.value.identifier, pull.value.title, push.value.identifier,
                             push.value.title, eventName, numDays.value));
    rest := in4[1..];
  }

  // ---------------------------------------------------------------------------------------
  // The calendar-number conversion as written: `Int(input)! - 1` in 64-bit arithmetic.

  datatype Trap = Overflow

  /** `selectedCalendarIndex - 1` followed by the range check; the subtraction traps below
      `Int.min`. */
  function SelectedIndexAsWritten(n: int, count: nat): (r: Result<Option<nat>, Trap>)
    ensures r.Success? && r.value.Some? ==> r.value.value < count
  {
    var index := n - 1;
    if index < IntMin then Failure(Overflow)
    else if 0 <= index < count then Success(Some(index))
    else Success(None)
  }

  /** The line `-9223372036854775808` is a valid `Int`, and subtracting one from it traps. */
  lemma IntMinLineTraps(count: nat)
    ensures var line := "-" + Decimal(-IntMin);
      ParseInt(line) == Some(IntMin) && SelectedIndexAsWritten(ParseInt(line).value, count) == Failure(Overflow)
  {
    DecimalRoundTrip(IntMin);
  }

  /** On every other integer line the written code selects what `IsChoice` selects. */
  lemma AsWrittenAgreesAboveIntMin(line: string, count: nat)
    requires ParseInt(line).Some? && ParseInt(line).value != IntMin
    ensures SelectedIndexAsWritten(ParseInt(line).value, count).Success?
    ensures IsChoice(line, count) <==> SelectedIndexAsWritten(ParseInt(line).value, count).value.Some?
    ensures IsChoice(line, count) ==>
      SelectedIndexAsWritten(ParseInt(line).value, count).value.value == ParseInt(line).value - 1
  {
  }

  // ---------------------------------------------------------------------------------------
  // The prompt loops as written, run for a number of iterations: once the input is exhausted
  // `readLine()` returns `nil` on every call, and the loop prints and goes round again.

  /** Where a `while true` prompt stands after some iterations. */
  datatype LoopState<+T> = Running | Trapped | Returned(value: T, rest: seq<string>)

  /** The line `selectCalendar` as written cannot survive: it reads as `Int.min`. */
  predicate IntMinLine(line: string)
  {
    ParseInt(line) == Some(IntMin)
  }

  /** No `Int.min` line comes before the first valid choice. */
  predicate NoTrapBeforeChoice(lines: seq<string>, count: nat)
  {
    forall j :: 0 <= j < FirstChoice(lines, count) ==> !IntMinLine(lines[j])
  }

  /** `selectCalendar`'s `while true` loop after `steps` iterations, with `selectedCalendarIndex - 1`
      computed in 64-bit arithmetic as written. */
  function SelectCalendarLoop(calendars: seq<Calendar>, input: seq<string>, steps: nat)
    : (r: LoopState<Calendar>)
    ensures r.Returned? ==> r.value in calendars
    decreases steps
  {
    if steps == 0 then Running
    else if input == [] then SelectCalendarLoop(calendars, [], steps - 1)
    else if ParseInt(input[0]).None? then SelectCalendarLoop(calendars, input[1..], steps - 1)
    else
      match SelectedIndexAsWritten(ParseInt(input[0]).value, |calendars|)
      case Failure(_) => Trapped
      case Success(None) => SelectCalendarLoop(calendars, input[1..], steps - 1)
      case Success(Some(index)) => Returned(calendars[index], input[1..])
  }

  /** `selectNumDays`'s `while true` loop after `steps` iterations. */
  function SelectNumDaysLoop(input: seq<string>, steps: nat): (r: LoopState<int>)
    ensures !r.Trapped?
    ensures r.Returned? ==> IntMin <= r.value <= IntMax
    decreases steps
  {
    if steps == 0 then Running
    else if input == [] then SelectNumDaysLoop([], steps - 1)
    else if ParseInt(input[0]).Some? then Returned(ParseInt(input[0]).value, input[1..])
    else SelectNumDaysLoop(input[1..], steps - 1)
  }

  /** With the input exhausted, no number of iterations of either prompt ever returns. */
  lemma {:induction false} ExhaustedInputNeverReturns(calendars: seq<Calendar>, steps: nat)
    ensures SelectCalendarLoop(calendars, [], steps) == Running
    ensures SelectNumDaysLoop([], steps) == Running
  {
    if steps > 0 {
      ExhaustedInputNeverReturns(calendars, steps - 1);
    }
  }

  /** Where `selectCalendar` as written stops on a non-empty list: it traps when an `Int.min`
      line comes before the first valid choice, returns the calendar that choice numbers and
      the lines after it, and is still running when no line is a valid choice. */
  function ChosenAsWritten(calendars: seq<Calendar>, input: seq<string>): LoopState<Calendar>
  {
    var k := FirstChoice(input, |calendars|);
    if !NoTrapBeforeChoice(input, |calendars|) then Trapped
    else if k < |input| then Returned(calendars[ParseInt(input[k]).value - 1], input[k + 1..])
    else Running
  }

  /** The code as written and `Chosen` differ only at an `Int.min` line before the first
      valid choice: otherwise the written code returns the calendar `Chosen` picks, with the
      same lines left, or keeps running where `Chosen` finds none. */
  lemma ChosenAsWrittenIsChosen(calendars: seq<Calendar>, input: seq<string>)
    ensures !NoTrapBeforeChoice(input, |calendars|) ==> ChosenAsWritten(calendars, input) == Trapped
    ensures NoTrapBeforeChoice(input, |calendars|) && Chosen(calendars, input).Some? ==>
      ChosenAsWritten(calendars, input) == Returned(Chosen(calendars, input).value.0, Chosen(calendars, input).value.1)
    ensures NoTrapBeforeChoice(input, |calendars|) && Chosen(calendars, input).None? ==>
      ChosenAsWritten(calendars, input) == Running
  {
    var k := FirstChoice(input, |calendars|);
    if k < |input| {
      ChosenAt(calendars, input, k);
    }
  }

  /** Given one iteration per remaining line, the calendar loop as written ends where
      `ChosenAsWritten` says. */
  lemma {:induction false} LoopAgreesWithChosen(calendars: seq<Calendar>, input: seq<string>, steps: nat)
    requires steps >= |input|
    ensures SelectCalendarLoop(calendars, input, steps) == ChosenAsWritten(calendars, input)
    decreases |input|
  {
    if input == [] {
      ExhaustedInputNeverReturns(calendars, steps);
    } else if IntMinLine(input[0]) {
      LoopStepTraps(calendars, input, steps);
    } else if IsChoice(input[0], |calendars|) {
      LoopStepReturns(calendars, input, steps);
    } else {
      LoopStepSkips(calendars, input, steps);
      LoopAgreesWithChosen(calendars, input[1..], steps - 1);
      ChosenAsWrittenSkips(calendars, input);
    }
  }

  /** A first line that is neither a valid choice nor `Int.min` does not change where the
      written code stops. */
  lemma ChosenAsWrittenSkips(calendars: seq<Calendar>, input: seq<string>)
    requires input != [] && !IsChoice(input[0], |calendars|) && !IntMinLine(input[0])
    ensures ChosenAsWritten(calendars, input) == ChosenAsWritten(calendars, input[1..])
  {
    var count := |calendars|;
    var tail := input[1..];
    NoTrapShift(input, count);
    var k := FirstChoice(tail, count);
    assert FirstChoice(input, count) == k + 1;
    if k < |tail| {
      assert input[k + 1] == tail[k];
      assert input[k + 2..] == tail[k + 1..];
    }
  }

  /** One iteration on the `Int.min` line traps. */
  lemma LoopStepTraps(calendars: seq<Calendar>, input: seq<string>, steps: nat)
    requires steps > 0 && input != [] && IntMinLine(input[0])
    ensures SelectCalendarLoop(calendars, input, steps) == Trapped
    ensures ChosenAsWritten(calendars, input) == Trapped
  {
    assert !IsChoice(input[0], |calendars|);
    assert 0 < FirstChoice(input, |calendars|);
  }

  /** One iteration on a valid choice returns it. */
  lemma LoopStepReturns(calendars: seq<Calendar>, input: seq<string>, steps: nat)
    requires steps > 0 && input != [] && IsChoice(input[0], |calendars|)
    ensures SelectCalendarLoop(calendars, input, steps) == Returned(calendars[ParseInt(input[0]).value - 1], input[1..])
    ensures ChosenAsWritten(calendars, input) == SelectCalendarLoop(calendars, input, steps)
  {
  }

  /** One iteration on any other line goes round again on the next line. */
  lemma LoopStepSkips(calendars: seq<Calendar>, input: seq<string>, steps: nat)
    requires steps > 0 && input != [] && !IsChoice(input[0], |calendars|) && !IntMinLine(input[0])
    ensures SelectCalendarLoop(calendars, input, steps) == SelectCalendarLoop(calendars, input[1..], steps - 1)
  {
    if ParseInt(input[0]).Some? {
      AsWrittenAgreesAboveIntMin(input[0], |calendars|);
    }
  }

  /** Past a first line that is neither a valid choice nor `Int.min`, an `Int.min` line before
      the first choice is one in the rest of the input. */
  lemma NoTrapShift(input: seq<string>, count: nat)
    requires input != [] && !IsChoice(input[0], count) && !IntMinLine(input[0])
    ensures NoTrapBeforeChoice(input, count) <==> NoTrapBeforeChoice(input[1..], count)
  {
    var tail := input[1..];
    assert FirstChoice(input, count) == FirstChoice(tail, count) + 1;
    if !NoTrapBeforeChoice(tail, count) {
      var j :| 0 <= j < FirstChoice(tail, count) && IntMinLine(tail[j]);
      assert input[j + 1] == tail[j];
    }
    if !NoTrapBeforeChoice(input, count) {
      var j :| 0 <= j < FirstChoice(input, count) && IntMinLine(input[j]);
      assert tail[j - 1] == input[j];
    }
  }

  /** Given one iteration per remaining line, the day-count loop as written returns what
      `Entered` describes, and where `Entered` finds nothing it is still running, where
      `SelectNumDays` fails with `EndOfInput`. */
  lemma LoopAgreesWithEntered(input: seq<string>, steps: nat)
    requires steps >= |input|
    ensures Entered(input).Some? ==>
      SelectNumDaysLoop(input, steps) == Returned(Entered(input).value.0, Entered(input).value.1)
    ensures Entered(input).None? ==> SelectNumDaysLoop(input, steps) == Running
  {
    LoopStopsAtFirstInteger(input, steps);
  }

  /** The day-count loop as written stops at the line `FirstInteger` locates. */
  lemma {:induction false} LoopStopsAtFirstInteger(input: seq<string>, steps: nat)
    requires steps >= |input|
    ensures var k := FirstInteger(input);
      k < |input| ==> SelectNumDaysLoop(input, steps) == Returned(ParseInt(input[k]).value, input[k + 1..])
    ensures FirstInteger(input) == |input| ==> SelectNumDaysLoop(input, steps) == Running
    decreases |input|
  {
    if input == [] {
      ExhaustedInputNeverReturns([], steps);
    } else if ParseInt(input[0]).None? {
      var tail := input[1..];
      assert SelectNumDaysLoop(input, steps) == SelectNumDaysLoop(tail, steps - 1);
      LoopStopsAtFirstInteger(tail, steps - 1);
      var k := FirstInteger(tail);
      assert FirstInteger(input) == k + 1;
      if k < |tail| {
        assert input[k + 1] == tail[k];
        assert input[k + 2..] == tail[k + 1..];
      }
    }
  }
}
