# CalSync calendar mirroring, modelled in Dafny

CalSync mirrors one calendar into another without revealing event details. A sync names a
*pull* calendar, a *push* calendar, a window of `numDays` days starting today and a generic
event name. A sync has two phases:

- **Teardown.** It deletes every CalSync *artifact* in the push window. An artifact is an event
  whose notes contain `Made by CalSync`.
- **Copy.** For each event of the pull window it creates a new event on the push calendar. The
  new event has the generic title, the notes set to exactly the marker, and the source's start
  and end.

The program comes in two versions:

- **Settings-driven (`run`, `add`, `remove`).** `run` goes through every configured sync. It
  copies only *authentic* (unmarked) pull events. A failed save ends that sync. An error in one
  sync never stops the next.
- **Older one-shot `main`.** It asks for both calendars, the number of days and the event name,
  then runs one sync. It copies every pull event, artifacts included. It reports a failed save
  and goes on with the next event.

The model keeps the event store as a class. `EventKit.EventStore` holds the events and the next
fresh identity, and a ghost log of every `remove`/`save` call with its outcome, kept only for
the proofs. Which calls throw is
decided by an `Oracle` fixed for the run. The store is well formed (`EventKit.WellFormed`):
every event's identity is below the next fresh one, and no two events share an identity. Every
store method keeps it so, which is what makes a handed-out identity fresh and a removal by value
take out one event.

Every method that works on the store is proved equal to a pure function of the old store
value, and the lemmas are proved about those functions:

| method | function it is proved equal to |
|---|---|
| `DeleteEvents` | `DeleteAll` |
| `CopyEvents` | `CopyUntilFailure` |
| `RunSync` | `SyncSpec` |
| `RunSyncs` | `RunSpec` |
| `CopyEachEvent` | `CopyAll` |
| `OneShotSync` | `OneShotSpec` |

The prompts read input lines and touch no store. `SelectCalendar`, `SelectNumDays` and
`CreateSyncSetting` are proved to end as the functions `Chosen`, `Entered` and `NewSetting`
describe.

Modules:

- `Seqs`: the order-preserving filter the code uses.
- `EventKit`: the store and its calls.
- `Console`: input lines and Swift's `Int(String)`.
- `Settings`: sync definitions and `UUID` text.
- `CalendarUtils`: the tag matcher, window queries, teardown and prompts.
- `Entry`: `run`, `add`, `remove`.
- `EntryProperties`: what `run` guarantees.
- `OneShot`: the older `main`, and the two versions compared.

The interactive prompts in `CalSync/main.swift` (`selectCalendar`, `selectNumDays`) and its
inline removal loop are the same code as `selectCalendar`, `selectNumDays` and `deleteEvents` in
`Sources/CalendarUtils.swift`. The model therefore has one definition of each, used by both
versions. `getCalSyncEvents` in `CalSync/main.swift` is the same filter as
`getCalSyncEventsNextXDays` applied to the push window, and is modelled by
`CalSyncEventsNextXDays`.

`SyncSetting` at `Sources/Settings.swift:11-18` declares no `eventName` field. Its only
constructor call (`Sources/CalendarUtils.swift:43-49`) passes one, and `run` reads one
(`Sources/entry.swift:62`). The model follows the callers and gives `SyncSetting` an
`eventName`.

## Model

| member | source | states |
|---|---|---|
| CalendarUtils.CalSyncEventIff | Sources/CalendarUtils.swift:100-102 | an event is an artifact exactly when its notes exist and contain `Made by CalSync` at some position, case-sensitively; missing notes mean authentic |
| CalendarUtils.ContainsIff | Sources/CalendarUtils.swift:108-110 | `String.contains` holds exactly when the marker occurs at some offset of the notes |
| CalendarUtils.Artifact | Sources/entry.swift:61-66 | a new event built by the copy loop is recognised by the tag matcher as an artifact |
| CalendarUtils.Artifacts | Sources/entry.swift:59-66 | one new event per source, in source order |
| EventKit.Matching | Sources/CalendarUtils.swift:92-94 | the query returns exactly the store's events of that calendar starting in `[today, endOfHorizon)`, listed in store order (see `EventKit.Matching` under Left out); an empty or inverted window yields nothing |
| CalendarUtils.EventsNextXDays | Sources/CalendarUtils.swift:90-96 | `getEventsNextXDays` returns exactly the calendar's events in the half-open window of `numDays` days from today, listed as a subsequence of the store; `numDays <= 0` yields nothing |
| CalendarUtils.TagPartition | Sources/CalendarUtils.swift:98-112 | the artifact and authentic queries split the window: membership is decided by the tag, nothing is in both, their multisets add up to the window's, and each keeps the window's order |
| CalendarUtils.CalSyncEventsNextXDays | Sources/CalendarUtils.swift:106-112 | `getCalSyncEventsNextXDays` returns exactly the artifacts among the calendar's events starting in the `numDays` window |
| CalendarUtils.NonCalSyncEventsNextXDays | Sources/CalendarUtils.swift:98-104 | `getNonCalSyncEventsNextXDays` returns exactly the authentic events among the calendar's events starting in the `numDays` window |
| CalendarUtils.WindowTagPartition | Sources/CalendarUtils.swift:98-112 | the two windowed queries split the `getEventsNextXDays` result: their multisets add up to the window's, and each lists its events in store order |
| EventKit.Without | Sources/CalendarUtils.swift:117 | a successful remove takes out every copy of the event and keeps every other event, as often as it was stored and in store order |
| EventKit.EventStore.Remove | Sources/CalendarUtils.swift:117 | `remove` succeeds unless the oracle says it throws; a throwing remove leaves the events unchanged; the call is logged; the store stays well formed |
| EventKit.EventStore.NewEventId | Sources/entry.swift:61 | `EKEvent(eventStore:)` hands out an identity no event of the store carries, used even when the save then fails; the store stays well formed |
| EventKit.EventStore.Save | Sources/entry.swift:68 | `save` of a new event appends it unless it throws; the call is logged and the store stays well formed |
| EventKit.EventStore.constructor | Sources/entry.swift:35 | a well-formed store over the given events with an empty call log |
| EventKit.RemovedWellFormed | Sources/CalendarUtils.swift:117 | a remove, whether it goes through or throws, keeps identities below the next fresh one and distinct |
| EventKit.SavedWellFormed | Sources/entry.swift:61-68 | saving a new event whose identity was just handed out keeps identities below the next fresh one and distinct |
| CalendarUtils.Survivors | Sources/CalendarUtils.swift:114-121 | after teardown an event remains exactly when it was present and was not both listed and successfully removed |
| CalendarUtils.Removals | Sources/CalendarUtils.swift:115-120 | one removal attempt per listed event, in list order |
| CalendarUtils.DeleteAllEffect | Sources/CalendarUtils.swift:114-121 | `deleteEvents` attempts every listed event in order whatever earlier attempts did, removes exactly the listed events whose removal succeeds, and changes nothing else |
| CalendarUtils.DeleteEvents | Sources/CalendarUtils.swift:114-121 | the loop leaves the store in the state `DeleteAll` describes |
| CalendarUtils.FirstChoice | Sources/CalendarUtils.swift:66-77 | the first line that is an integer `n` with `1 <= n <= count`; every earlier line is not |
| CalendarUtils.FirstInteger | Sources/CalendarUtils.swift:81-87 | the first line that reads as an integer; every earlier line does not |
| CalendarUtils.Chosen | Sources/CalendarUtils.swift:60-78 | no calendar is chosen exactly when no line is a valid choice; otherwise the first valid line `n` picks `calendars[n-1]`, one of the listed calendars, every earlier line is invalid, and reading resumes after that line |
| CalendarUtils.SelectCalendar | Sources/CalendarUtils.swift:60-78 | no calendars: it fails without reading; otherwise it returns `calendars[n-1]` for the first line `n` with `1 <= n <= count`, skipping every other line, and the input after it |
| CalendarUtils.Entered | Sources/CalendarUtils.swift:80-88 | no day count is entered exactly when no line reads as an integer; otherwise the value of the first such line, every earlier line is not an integer, and reading resumes after that line |
| CalendarUtils.SelectNumDays | Sources/CalendarUtils.swift:80-88 | the value of the first integer line, zero and negatives included, and the input after it |
| CalendarUtils.NewSetting | Sources/CalendarUtils.swift:17-51 | `createSyncSetting` fails without reading when there are no calendars, and with the input used up when a later prompt finds no answer; a setting it builds carries the given identifier and the identifiers and titles of two listed calendars |
| CalendarUtils.NewSettingFromPrompts | Sources/CalendarUtils.swift:25-50 | a built setting takes its pull calendar from the first prompt's answer, its push calendar from the second prompt's answer on the lines after it, its day count from the first integer line after that and its event name from the next line; reading resumes after the event name |
| CalendarUtils.NewSettingErrors | Sources/CalendarUtils.swift:25-41 | on a non-empty list the setup fails at the first prompt without an answer: `InvalidPullSelection`, `InvalidPushSelection`, `NumDaysNotProvided` or `EventNameNotProvided` |
| CalendarUtils.CreateSyncSetting | Sources/CalendarUtils.swift:17-51 | the prompts in order, pull calendar, push calendar, day count, event name, end in the result and remaining input `NewSetting` describes |
| CalendarUtils.SelectCalendarLoop | Sources/CalendarUtils.swift:66-77 | the prompt loop as written, run for a number of iterations, `selectedCalendarIndex - 1` in 64-bit arithmetic included: anything it returns is one of the listed calendars |
| CalendarUtils.SelectNumDaysLoop | Sources/CalendarUtils.swift:81-87 | the day-count loop as written, run for a number of iterations: it never traps, and anything it returns is a 64-bit integer |
| CalendarUtils.ExhaustedInputNeverReturns | Sources/CalendarUtils.swift:66-87 | once `readLine()` returns `nil`, neither loop as written returns after any number of iterations |
| CalendarUtils.LoopAgreesWithChosen | Sources/CalendarUtils.swift:66-77 | given one iteration per remaining line, the loop as written traps when a line reading as `Int.min` comes before the first valid choice, otherwise returns the calendar the first valid line numbers and the lines after it, and is still running when there is no valid line |
| CalendarUtils.ChosenAsWrittenIsChosen | Sources/CalendarUtils.swift:66-77 | the loop as written and `Chosen` differ only by the `Int.min` trap: otherwise it returns the calendar and remaining lines `Chosen` describes, and keeps running exactly where `Chosen` finds nothing |
| CalendarUtils.LoopAgreesWithEntered | Sources/CalendarUtils.swift:81-87 | given one iteration per remaining line, the day-count loop as written returns the value and remaining lines `Entered` describes, and is still running where `Entered` finds nothing |
| CalendarUtils.LoopStopsAtFirstInteger | Sources/CalendarUtils.swift:81-87 | the day-count loop as written returns the first line that reads as an integer, and never returns when there is none |
| CalendarUtils.IntMinLineTraps | Sources/CalendarUtils.swift:67-68 | the line `-9223372036854775808` is a valid `Int`, and subtracting one from it overflows |
| CalendarUtils.AsWrittenAgreesAboveIntMin | Sources/CalendarUtils.swift:67-72 | on every other integer line the code as written accepts exactly the lines `IsChoice` accepts, and selects the same index |
| Console.ParseInt | Sources/CalendarUtils.swift:67 | `Int(String)` yields only values in the 64-bit range, and only for non-empty text |
| Console.DecimalRoundTrip | Sources/CalendarUtils.swift:82 | every 64-bit integer written in decimal reads back as itself |
| Settings.ParseUuid | Sources/entry.swift:142 | a parsed identifier has 128 bits |
| Settings.FormatThenParse | Sources/entry.swift:142 | `UUID(uuidString:)` reads back every identifier's printed form as that identifier |
| Entry.FirstWithIdentifier | Sources/entry.swift:44-49 | nothing is found exactly when no calendar has the identifier; otherwise the result is the first calendar carrying it |
| Entry.SavedPrefix | Sources/entry.swift:59-69 | the number of copies saved before the first save that throws |
| Entry.CopyUntilFailureEffect | Sources/entry.swift:59-73 | the copy loop saves the copies up to the first failing save, allocates one identity per attempt, attempts nothing after the failure, and reports the failed event |
| Entry.CopyStopsAtFailure | Sources/entry.swift:68-73 | once a save has thrown, later sources change nothing |
| Entry.CopyEvents | Sources/entry.swift:59-69 | the loop ends in the state, and with the failure, that `CopyUntilFailure` describes |
| Entry.RunSync | Sources/entry.swift:43-73 | one iteration of `run` equals `SyncSpec`: resolution, teardown, then the copy |
| Entry.RunSyncs | Sources/entry.swift:42-74 | the loop over `settings.syncs` equals `RunSpec`: each sync in order on the store left by the previous one |
| Entry.Remaining | Sources/entry.swift:143 | `removeAll(where:)` keeps exactly the syncs whose identifier differs from the parsed one, each as often as it occurred and in order; an unparseable argument keeps all |
| Entry.SettingsFile.constructor | Sources/entry.swift:141 | the settings as read |
| Entry.SettingsFile.Add | Sources/entry.swift:104-127 | the result and remaining input are those of `NewSetting`; on success the new setting is appended at the end and every existing sync is unchanged and in order; on a setup error the list is unchanged |
| Entry.SettingsFile.Remove | Sources/entry.swift:140-145 | the list becomes `Remaining` of the old list for the parsed argument |
| Entry.RemoveByPrintedId | Sources/entry.swift:142-143 | removing by an identifier's printed form drops exactly the syncs with that identifier; text that is not an identifier drops nothing |
| Entry.RemoveUndoesAdd | Sources/entry.swift:113-143 | removing a freshly added sync by its identifier restores the list it was added to |
| EntryProperties.MirrorEffect | Sources/entry.swift:51-73 | closed form of one resolved sync: the events left are the teardown survivors followed by the saved copies of the authentic pull events; the log holds the removal attempts, then the save attempts up to the first failure |
| EntryProperties.UnresolvedSyncTouchesNothing | Sources/entry.swift:44-49 | a sync reports a missing pull or push calendar exactly when that identifier is unknown, and then makes no store call |
| EntryProperties.MirrorRemovesOnlyWindowArtifacts | Sources/entry.swift:51-54 | a resolved sync removes only artifacts of the push calendar in the window |
| EntryProperties.SyncRemovesOnlyWindowArtifacts | Sources/entry.swift:51-57 | every event a sync removes is an artifact of the push calendar in the window; authentic events of any calendar are never removed |
| EntryProperties.SavedArtifactsAreCopies | Sources/entry.swift:57-66 | saved copies of authentic window events are marked copies of events of the original store |
| EntryProperties.MirrorCreatesOnlyMarkedCopies | Sources/entry.swift:57-68 | every event a resolved sync adds is a marked copy |
| EntryProperties.SyncCreatesOnlyMarkedCopies | Sources/entry.swift:57-68 | every added event is on the push calendar, carries the sync's event name and exactly the marker, is recognised as an artifact, and has the start and end of an authentic pull-window event; so an artifact is never copied again, even when pull and push are the same calendar |
| EntryProperties.TeardownThenCopyLog | Sources/entry.swift:54-68 | a log extended by removals and then saves keeps its old part and has no removal after a save |
| EntryProperties.MirrorTearsDownBeforeCreating | Sources/entry.swift:52-68 | in a resolved sync every removal precedes every save |
| EntryProperties.SyncTearsDownBeforeCreating | Sources/entry.swift:51-69 | a sync only appends to the call log, and within its part teardown finishes before the first new event is saved |
| EntryProperties.MirrorSaveFailureIsLast | Sources/entry.swift:68-73 | in a resolved sync a reported save failure is a save that throws, and it is the last call in the log |
| EntryProperties.SaveFailureEndsSync | Sources/entry.swift:68-73 | a sync that reports a failed save made that save as its last store call, and that save threw |
| EntryProperties.RunResultsIndependent | Sources/entry.swift:42-74 | `run` reports one result per sync, and each sync's result is what that sync does on the store left by the previous syncs, whatever they ended with |
| EntryProperties.ReliableSyncResult | Sources/entry.swift:43-73 | with a store that never throws, a sync's result is decided by calendar resolution alone |
| EntryProperties.ReliableRunResults | Sources/entry.swift:42-74 | with a store that never throws, every sync whose calendars resolve completes, whatever the other syncs do |
| EntryProperties.WindowArtifactsConcat | Sources/CalendarUtils.swift:106-112 | the push-window artifact query distributes over concatenation of the event list |
| EntryProperties.ArtifactsFoundByTeardown | Sources/entry.swift:52-66 | copies of window events are exactly what the next teardown's query finds among them |
| EntryProperties.NothingLeftToTearDown | Sources/CalendarUtils.swift:114-121 | when no removal throws, teardown leaves no artifact in the push window |
| EntryProperties.ReliableMirror | Sources/entry.swift:51-69 | when no call throws, a sync leaves the teardown survivors followed by one copy per authentic pull-window event, and completes |
| EntryProperties.SecondTeardownUndoesFirstCopy | Sources/entry.swift:51-54 | when no removal throws, the next teardown removes exactly the copies the last sync made |
| EntryProperties.RecopyReplacesCopy | Sources/entry.swift:51-69 | re-running teardown and copy over the same sources removes the earlier copies and makes the same ones again under new identities |
| EntryProperties.SameSourcesSameCopies | Sources/entry.swift:61-66 | copies of the same sources differ only in identity |
| EntryProperties.MirrorTwiceSameAsOnce | Sources/entry.swift:51-69 | idempotence: with an unchanged source and no failures, a second run of the same sync leaves the same events up to the new identities, and the same (title, start, end) artifacts in the push window, in the same order |
| EntryProperties.SyncTwiceSameAsOnce | Sources/entry.swift:42-69 | idempotence of a whole sync, calendar resolution included |
| OneShot.PromptedPlan | CalSync/main.swift:86-96 | nothing happens without calendars; a planned pull and push calendar are always among the listed ones |
| OneShot.Prompts | CalSync/main.swift:86-96 | the prompts settle exactly `PromptedPlan`; the push calendar is asked for even after a failed pull choice |
| OneShot.CopyAllEffect | CalSync/main.swift:114-128 | every source gets one new identity and one save attempt, in order; the saved copies are exactly those whose save went through |
| OneShot.CopyEachEvent | CalSync/main.swift:114-128 | the loop leaves the store in the state `CopyAll` describes |
| OneShot.OneShotSync | CalSync/main.swift:97-128 | the sync part of `main` equals `OneShotSpec` |
| OneShot.OneShotSession | CalSync/main.swift:86-128 | nothing is removed or copied unless both calendar choices, the day count and the event name were read; then the store ends as `OneShotSpec` says |
| OneShot.OneShotEffect | CalSync/main.swift:97-128 | closed form: teardown as in `run`, then one save attempt for every pull-window event, artifacts included |
| OneShot.OneShotTearsDownBeforeCreating | CalSync/main.swift:102-114 | every removal precedes every save, and only push-window artifacts are removed |
| OneShot.OneShotCopiesWholeWindow | CalSync/main.swift:97-121 | every added event is a marked copy, on the push calendar with the entered name, of a pull event in the same window as teardown's, marked or not |
| OneShot.SavedCopiesOfWindow | CalSync/main.swift:113-121 | saved copies of window events are marked copies of events of the original store |
| OneShot.CreationsAfterRemovals | CalSync/main.swift:104-128 | after teardown's removals come exactly one save attempt per copy, in order |
| OneShot.OneShotSaveFailureContained | CalSync/main.swift:123-127 | a failed save is caught and every later source still gets its own save attempt |
| OneShot.OneShotRecopiesLeftoverArtifact | CalSync/main.swift:113-114 | with pull equal to push and an undeletable artifact, `run` leaves the calendar as it was while the one-shot version copies the artifact a second time |

## Left out

- Calendar access requests, callbacks, `RunLoop.main.run()`, `exit` and `AddCommand.exit` are
  left out. They are asynchronous and process-control plumbing. The model starts where access
  has been granted.
- Printing is left out: the banner, calendar lists, error messages and `list`
  (`printCalSyncSettings`). Each thrown error `run` prints is returned as a `SyncResult`.
- `read_settings` and `write_settings` (JSON files) are not part of this model.
  `Entry.SettingsFile` holds the list they read and write.
- `Sources/CalendarUtils.swift:11` and `CalSync/main.swift:97` compute `today` from the clock,
  so it is a parameter.
- Day arithmetic uses fixed 86400-second days. Time zones, daylight saving, and the force
  unwrap of `date(byAdding:)` failing are not modelled.
- EventKit's `predicateForEvents` matches events that overlap the window. The model uses "on
  the calendar and starting in `[today, endOfHorizon)`", and an inverted window (negative
  `numDays`) is empty.
- Removal is by value. The store's real identity and the `span: .thisEvent` recurrence
  semantics of `remove` and `save` are not modelled.
- A store whose events share identities, or carry identities not yet handed out, is not
  modelled: the constructor requires a well-formed store, and `Save` is only called with a new
  event whose identity was just handed out, as every `save` in the code is.
- Which `remove`/`save` calls throw is fixed per event by the oracle. An outcome that changes
  between calls, and the error text, are not modelled.
- `UUID()` generation (`Sources/Settings.swift:12`) is left out: the new identifier is a
  parameter of `Add`.
- Recurrence rules, alarms, location, URL and availability are not copied by the code and not
  modelled. Only the title, notes, start, end and calendar of a new event are.
- String comparison is on code points. Swift's canonical-equivalence semantics of `contains`
  and `==` are not modelled.
- CalendarUtils.SelectCalendar: at end of input the code as written loops forever (see
  Findings). The model fails with `EndOfInput` instead, so every prompt terminates.
- CalendarUtils.SelectNumDays: at end of input it fails instead of looping forever, for the
  same reason.
- EventKit.Matching: EventKit returns the matching events in an order of its own choosing. The
  model lists them in store order. So the statements that depend on that order hold for store
  order only: which copies precede the first failing save (`CopyUntilFailureEffect`,
  `MirrorEffect`), the order of removal and save attempts in the log, and the "same order" part
  of `MirrorTwiceSameAsOnce`. Which events are matched, removed and copied does not depend on it.
- OneShot.Prompts: an end of input during the prompts ends the session without a sync,
  following the two entries above.
- OneShot.PromptedPlan: its contract states that a plan needs calendars and picks listed
  calendars. It does not restate which lines each prompt consumed. That is the contract of
  `Chosen` and `Entered`, which it calls unchanged.
- EntryProperties.MirrorTwiceSameAsOnce: it assumes a store where nothing throws. With
  failures the second run can differ, because a leftover artifact is removed then.

## Findings

| source | as written | input that shows it | evidently intended | confidence | as-written member | corrected member |
|---|---|---|---|---|---|---|
| Sources/CalendarUtils.swift:67-68 (also CalSync/main.swift:29-30) | `Int(input)` accepts any 64-bit integer, then `selectedCalendarIndex - 1` is computed in checked 64-bit arithmetic | the line `-9223372036854775808` parses to `Int.min`, and subtracting 1 traps, ending the program | a line outside `1...count` is rejected and the prompt repeats | not executed | CalendarUtils.IntMinLineTraps | CalendarUtils.SelectCalendar |
| Sources/CalendarUtils.swift:66-77 (also CalSync/main.swift:28-39) | in `selectCalendar` a `nil` from `readLine()` is handled like an invalid line, inside `while true` | standard input ends before a valid calendar number: every later `readLine()` returns `nil`, and the prompt prints its message and loops forever | the prompt gives up with an error at end of input | not executed | CalendarUtils.ExhaustedInputNeverReturns | CalendarUtils.SelectCalendar |
| Sources/CalendarUtils.swift:81-87 (also CalSync/main.swift:43-49) | in `selectNumDays` a `nil` from `readLine()` is handled like an invalid line, inside `while true` | standard input ends before a line that reads as an integer: every later `readLine()` returns `nil`, and the prompt prints its message and loops forever | the prompt gives up with an error at end of input | not executed | CalendarUtils.ExhaustedInputNeverReturns | CalendarUtils.SelectNumDays |
