# Future-self accountability app: state container and screen logic in Dafny

This project models the business logic of a small personal-accountability web
app. Its core is the shared state container (`AppProvider` in
`src/context/AppContext.tsx`). The container holds:

- the app lock (`isLocked`, `lockUntil`);
- the day's "non-negotiable" tasks, at most three;
- a one-way `tasksLocked` flag;
- an append-only shadow journal;
- a streak counter.

Every mutation writes its slice to the browser's local storage.

The model is functional. A `State` record holds the five slices. The durable
store is a record of five typed slots. Each slot holds one of four things:
nothing, the empty string, unreadable text, or a value. Each container
operation is a pure function `(State, Store, inputs) -> Step`. A `Step`
carries the new state, the store after the operation's writes, and the
notifications ("toasts") it emits. Each toast is a title and a severity. The
clock is an integer number of milliseconds, passed in. Ids are passed in
too, because the source derives them from the clock.

The screens are modelled as small state machines driven by events. Browser
timers become tick events. Media devices become "granted", "refused",
"stopped" and "ended" events. Each screen handler returns the screen's new
state and the list of calls it makes on the container (`AppContext.Call`).
`AppContext.Perform` runs one call. The screens call three members that the
container does not define: `resetLock`, `addVoiceNote`, and `lockApp` with a
duration. For `resetLock` and `addVoiceNote`, `Perform` answers `None`: their
effect is unknown, and the model does not invent one. `lockApp` takes no
parameter in the container, so the screen's requested duration is dropped.
The lock always lasts twelve hours.

Modules, one per source unit:

- `Base`: `Option` and `Result`.
- `Text`: JavaScript `trim`, and decimal rendering of naturals with its inverse.
- `Clock`: the `M:SS` formatter. `ShadowJournal.tsx` and `VoiceNotes.tsx`
  carry identical copies; the model defines it once.
- `AppContext`: the container. It has the operations, the mount-time load
  with lazy lock expiry, and the `Mirrors` relation between state and store.
- `ContextRuns`: properties of arbitrary sequences of container operations.
- `MirrorRoom`, `ShadowJournal`, `VoiceNotes`, `NonNegotiables`: the screens.

Facts about the source that the model keeps as written:

- A slice whose stored text cannot be read makes the load fail.
  `AppContext.tsx` calls `JSON.parse` at lines 101, 107 and 113 with no
  `try`/`catch`, so the remaining slices keep their defaults. The lock key
  has already been reconciled by then (lines 86-95).
- "All Tasks Complete" is emitted on every toggle that leaves the list all
  complete (`AppContext.tsx:203-210`). That includes a task toggled off and
  on again; `ContextRuns.AllCompleteAnnouncedAgain` shows the repeat.
- `lockApp` takes no parameter (`AppContext.tsx:124`). The hours the lock
  screen passes are ignored (`MirrorRoom.LockIgnoresRequestedHours`).
- The container's interface (`AppContext.tsx:17-40`) has no `voiceNotes`,
  `addVoiceNote` or `resetLock`, although the screens use them.

## Model

| member | source | states |
|---|---|---|
| `Text.Trim` | src/components/NonNegotiables.tsx:16-17 | `trim` gives the empty string exactly when the input is all ECMAScript white space. Otherwise the result starts and ends with a non-space character. |
| `Text.TrimIsSlice` | src/components/NonNegotiables.tsx:17 | The trimmed text is a contiguous slice of the input. Only white space lies outside it. |
| `Text.TrimIdempotent` | src/components/NonNegotiables.tsx:16-17 | Trimming an already trimmed text changes nothing. |
| `Text.Decimal` | src/components/ShadowJournal.tsx:37 | `${n}` of a natural is a non-empty run of digits. It is one digit exactly below 10, and two digits from 10 to 99. It starts with `0` only for 0, so there is no leading zero. |
| `Text.DecimalRoundTrip` | src/components/ShadowJournal.tsx:35-37 | Reading the rendered digits back yields the same number. |
| `Clock.SecondsField` | src/components/ShadowJournal.tsx:36-37 | The zero-padded seconds field is always exactly two digits, the tens then the units of the seconds. |
| `Clock.FormatTime` | src/components/ShadowJournal.tsx:34-38 | `formatTime(s)` is minutes, a colon, then two digits. The minutes read back as `s / 60`, with a leading `0` only under one minute. The two digits read back as `s % 60`, which is below 60. |
| `Clock.FormatTimeRoundTrip` | src/components/VoiceNotes.tsx:52-56 | Parsing a label back as `M*60 + SS` gives the original count. The minutes field is not wrapped. |
| `AppContext.WithoutId` | src/context/AppContext.tsx:191 | The filter keeps exactly the tasks whose id differs from the target. An absent id leaves the list unchanged; a present one shortens it. |
| `AppContext.WithoutIdAppend` | src/context/AppContext.tsx:191 | The filter distributes over concatenation, so the surviving tasks keep their order. |
| `AppContext.WithoutIdCounts` | src/context/AppContext.tsx:191 | The filter keeps every other task exactly as many times as it occurs, and no copy of a task with the target id. |
| `AppContext.WithoutIdIdempotent` | src/context/AppContext.tsx:181-194 | Removing the same id twice equals removing it once. |
| `AppContext.ToggleId` | src/context/AppContext.tsx:197-199 | The map keeps length, ids, texts and order. A task's `completed` changes exactly when its id matches. |
| `AppContext.ToggleIdTwice` | src/context/AppContext.tsx:196-201 | Two toggles of the same id restore the original list. |
| `AppContext.CompletedCount` | src/components/Dashboard.tsx:12-13 | The completed count is at most the list length. It equals the length iff every task is complete, and is 0 iff none is. |
| `AppContext.LockApp` | src/context/AppContext.tsx:124-136 | Locks until `now + 43,200,000` ms and writes that time. Nothing else changes. Emits one destructive "App Locked". |
| `AppContext.IncrementStreak` | src/context/AppContext.tsx:242-246 | The streak goes up by exactly one and is written. Silent. |
| `AppContext.UnlockApp` | src/context/AppContext.tsx:138-148 | Clears `isLocked` and `lockUntil` and erases the stored time. Raises the streak by exactly one. Nothing else changes. |
| `AppContext.AddTask` | src/context/AppContext.tsx:151-179 | The locked check comes first, the cap of 3 second. Each refusal leaves state and store untouched and emits only its own toast. Otherwise one open task with the given id and text is appended and written. From at most 3 tasks the result has at most 3. |
| `AppContext.RemoveTask` | src/context/AppContext.tsx:181-194 | While locked: refused, nothing changes. Otherwise the list becomes the filter `WithoutId`, which keeps the other tasks in order and with their multiplicity (`WithoutIdAppend`, `WithoutIdCounts`), and is written. An absent id changes nothing. |
| `AppContext.CompleteTask` | src/context/AppContext.tsx:196-211 | Not gated by the task lock. Flips exactly the matching tasks and keeps ids, texts and length. "All Tasks Complete" is emitted iff every task is now complete, including an empty list. |
| `AppContext.LockTasks` | src/context/AppContext.tsx:213-221 | Sets `tasksLocked` and writes `true`. Nothing else changes. |
| `AppContext.LockTasksIdempotent` | src/context/AppContext.tsx:213-215 | Locking the tasks twice gives the same state and store as once. |
| `AppContext.AddJournalEntry` | src/context/AppContext.tsx:224-239 | Appends exactly one entry: the given id, the content as passed, stamped `now`. Earlier entries are untouched. The journal is written. |
| `AppContext.ResetStreak` | src/context/AppContext.tsx:248-257 | The streak becomes 0 whatever it was, and is written. Emits "Streak Reset". |
| `AppContext.LoadLock` | src/context/AppContext.tsx:85-96 | A stored time strictly after `now` locks with that time. An elapsed time, or a value that is not a date, leaves the app unlocked and erases the key. An absent or empty key changes nothing. |
| `AppContext.Load` | src/context/AppContext.tsx:85-121 | The load fails iff a tasks, task-lock, journal or streak slot is unreadable. A failed load has still reconciled the lock key. Otherwise each slice is the stored value, or its default (`[]`, `false`, `[]`, `0`) when absent. The lock is reconciled as in `LoadLock`. |
| `AppContext.LoadEmptyStore` | src/context/AppContext.tsx:71-82 | The first mount loads the defaults from an empty store, and the two mirror each other. |
| `AppContext.LoadMirrored` | src/context/AppContext.tsx:85-121 | Reloading a store that mirrors a state reproduces that state. Only a lock whose time is not after `now` is lifted, with its key erased. |
| `AppContext.Perform` | src/context/AppContext.tsx:259-278 | Only the members the container exposes have an effect; `resetLock` and `addVoiceNote` do not. A lock request of any duration is the 12-hour `lockApp`. |
| `ContextRuns.ApplyKeepsMirror` | src/context/AppContext.tsx:124-257 | Every operation writes exactly the slices it changes. The store keeps mirroring the state. |
| `ContextRuns.RunKeepsTaskCap` | src/context/AppContext.tsx:151-179 | From at most 3 tasks, no sequence of operations yields more than 3. |
| `ContextRuns.RunKeepsTasksLocked` | src/context/AppContext.tsx:213-215 | Once `tasksLocked` is true, no sequence of operations makes it false. |
| `ContextRuns.RunFreezesLockedTasks` | src/context/AppContext.tsx:151-201 | While tasks are locked, any sequence keeps the number of tasks, their ids and their texts. Only completion may change. |
| `ContextRuns.RunJournalAppendOnly` | src/context/AppContext.tsx:224-233 | The journal before any sequence of operations is a prefix of the journal after it. |
| `ContextRuns.RunKeepsMirror` | src/context/AppContext.tsx:124-257 | After any sequence of operations the store still mirrors the state. |
| `ContextRuns.ReloadAfterRun` | src/context/AppContext.tsx:85-121 | A fresh mount loads the initial state from an empty store. Run any operations from there, then reload at any time: the reload equals the in-memory state, minus an expired lock. |
| `ContextRuns.AllCompleteAnnouncedAgain` | src/context/AppContext.tsx:203-210 | Toggling a completed task off and on announces "All Tasks Complete" each time it ends all complete. |
| `ContextRuns.ExampleDay` | src/context/AppContext.tsx:151-221 | Three adds, a fourth refused at the cap, lock-in, an add refused as locked, three completions: exactly these four toasts in order, the last being "All Tasks Complete". |
| `MirrorRoom.ClampHours` | src/components/MirrorRoom.tsx:100 | The hours are always in [1, 72]. A value already in range is kept, above 72 gives 72, negative gives 1. `NaN` and `0` give 12, because both are falsy before the fallback to 12. |
| `MirrorRoom.ClampHoursFixesRange` | src/components/MirrorRoom.tsx:95-100 | Re-clamping a value the input shows leaves it unchanged. |
| `MirrorRoom.TimeRemaining` | src/components/MirrorRoom.tsx:32 | The remaining time is never negative. It is the exact difference while the unlock time is ahead, and 0 otherwise. |
| `MirrorRoom.HoursMinutes` | src/components/MirrorRoom.tsx:33-34 | Minutes are in [0, 59]. `h*3,600,000 + m*60,000 <= ms < h*3,600,000 + (m+1)*60,000`. |
| `MirrorRoom.Render` | src/components/MirrorRoom.tsx:31-35 | The locked screen is shown iff `isLocked` and `lockUntil` is set. Its hours and minutes bracket the remaining time. |
| `MirrorRoom.ChangeMyself` | src/components/MirrorRoom.tsx:53-60 | The `resetLock` button is offered exactly on the locked screen. Its call has no modelled effect, because the container does not define `resetLock`. |
| `MirrorRoom.GateIsLockFlag` | src/components/MirrorRoom.tsx:31 | When the store mirrors the state, the locked screen shows exactly when `isLocked` holds. |
| `MirrorRoom.Decide` | src/components/MirrorRoom.tsx:14-29 | "I'M HER" calls `unlockApp`. "Not ready" requests `customHours * 3,600,000` ms. |
| `MirrorRoom.LockIgnoresRequestedHours` | src/components/MirrorRoom.tsx:26 | Whatever the input shows, the lock ends `now + 12 h`. The request matches that only when the input shows 12. |
| `MirrorRoom.ImHerUnlocks` | src/components/MirrorRoom.tsx:14-21 | Choosing "I'M HER" unlocks and raises the streak by exactly one. |
| `ShadowJournal.Tick` | src/components/ShadowJournal.tsx:18-31 | A running timer above 0 loses exactly one second. At 0 it stops. A stopped timer stays as it is. The seconds never go below 0, and the text is untouched. |
| `ShadowJournal.Countdown` | src/components/ShadowJournal.tsx:18-31 | From `n >= 0` seconds, `k <= n` firings leave `n - k` with the timer still running. Any further firing leaves 0, stopped. |
| `ShadowJournal.StoppedStaysStopped` | src/components/ShadowJournal.tsx:19 | Once stopped, no number of firings changes the screen. |
| `ShadowJournal.StartCountdown` | src/components/ShadowJournal.tsx:12-13 | The screen mounts at 180 s, running, shown as `3:00`. It reaches 0 after 180 firings and stops after that. |
| `ShadowJournal.HandleSubmit` | src/components/ShadowJournal.tsx:40-45 | A call is made exactly when the text is not all white space. That call is `addJournalEntry` with the text as typed, untrimmed, and the screen then shows the saved view. Otherwise nothing changes. |
| `ShadowJournal.React` | src/components/ShadowJournal.tsx:41-43 | `isDone` becomes true only through a submit while Done is enabled, and stays true. A submit is the only event that calls the container. |
| `ShadowJournal.SubmitAppendsOneEntry` | src/components/ShadowJournal.tsx:40-45 | Through the container, an enabled submit appends one entry with the untrimmed text. White space alone appends nothing. |
| `VoiceNotes.React` | src/components/VoiceNotes.tsx:58-120 | A granted start resets time, the complete flag and the URL, and starts recording; a refused start changes nothing. Stop acts only on a live recorder that is recording. The stop event sets the URL and the complete flag. Ticks count only while recording. Save passes exactly the current URL, only when it is set, then clears it. A click on the playing note stops it; on any other note it plays it. The ended event clears playback. |
| `VoiceNotes.SavedUrlsWereRecorded` | src/components/VoiceNotes.tsx:71-103 | Every `addVoiceNote` call in any event sequence carries a URL the recorder's stop event delivered. |
| `VoiceNotes.MountedSavesOnlyRecordings` | src/components/VoiceNotes.tsx:97-103 | From the mounted screen, every saved note is a recording of that session. |
| `VoiceNotes.TicksWhileRecording` | src/components/VoiceNotes.tsx:36-50 | `k` ticks while recording add exactly `k` seconds. |
| `VoiceNotes.NoteClickToggles` | src/components/VoiceNotes.tsx:234-238 | Clicking a note that is not playing plays it. Clicking it again stops it. |
| `NonNegotiables.Edit` | src/components/NonNegotiables.tsx:46-49 | The input never holds more than 50 characters. Text within the cap is kept as typed. |
| `NonNegotiables.HandleAddTask` | src/components/NonNegotiables.tsx:14-20 | A call is made exactly when the input is not all white space. That call is a single `addTask` with the trimmed text, which is no longer than the input and starts and ends with a non-space character, and the input is cleared. Otherwise nothing changes. |
| `NonNegotiables.HandleNext` | src/components/NonNegotiables.tsx:22-27 | `lockTasks` is called iff the tasks are not yet locked. |
| `NonNegotiables.Render` | src/components/NonNegotiables.tsx:40-142 | The add form is offered iff `addTask` would accept, and remove buttons iff `removeTask` would. Completion is always offered. "Save & Lock In" is enabled only with at least one task. Locked tasks show only "Continue". |
| `NonNegotiables.FormSubmitAdds` | src/components/NonNegotiables.tsx:14-20 | A non-blank submit from the shown form appends one open task with the trimmed text, without a refusal. |
| `NonNegotiables.BlankSubmitChangesNothing` | src/components/NonNegotiables.tsx:16 | A white-space-only input never changes the state, the store or the input. |
| `NonNegotiables.InputClearedOnRefusal` | src/components/NonNegotiables.tsx:17-18 | The input is cleared even when the container refuses the task with one toast. |
| `NonNegotiables.FormTaskText` | src/components/NonNegotiables.tsx:49 | A task added through the form has 1 to 50 characters and no surrounding white space. |
| `NonNegotiables.RemoveShownIsAccepted` | src/components/NonNegotiables.tsx:98-106 | A remove from a shown button is never refused. No task with that id remains. |
| `NonNegotiables.HandleNextOnce` | src/components/NonNegotiables.tsx:22-27 | Moving on locks the tasks and keeps them unchanged. A second call changes neither state nor store. |
| `NonNegotiables.EditLaterLocks` | src/components/NonNegotiables.tsx:133-141 | "Edit Later" runs `handleNext`. While it is shown the list is unlocked, so clicking it locks the list in, keeps the tasks, and removes the add form and remove buttons. |

## Left out

- Storage encoding: JSON texts, ISO-8601 date strings and `parseInt` of the streak are abstracted. Each key holds a typed value, the empty string, or text its reader rejects. A key holding valid JSON of the wrong shape is not represented.
- AppContext.Load: a stored streak that is not a number makes the load fail. The source would instead set the streak to `NaN`, which an integer cannot hold.
- `Date#toISOString` throws for times outside its range; the model's timestamps are unbounded integers.
- Toast descriptions and rendering. Toasts are kept only as title and severity.
- Id uniqueness. The source derives ids from `Date.now()`, so they can collide. Ids are parameters, and no uniqueness is claimed.
- `resetLock`, `voiceNotes`, `addVoiceNote` and the duration argument of `lockApp`: the screens use them, but the container file does not define them. Against this container, `addVoiceNote(audioURL)` (`VoiceNotes.tsx:99`) and `voiceNotes.length` (`VoiceNotes.tsx:217`, `Dashboard.tsx:103`) would throw. The screens are modelled against a container that supplies these members. Their calls return normally and have no modelled effect.
- The one-second delay and the `isDeciding` button disabling in the lock screen: timer and rendering only.
- Navigation (`navigate(...)`) in every screen, and the journal's Continue button, which only navigates.
- Media APIs: `getUserMedia`, `MediaRecorder`, audio chunks, `Blob`, `URL.createObjectURL`, `Audio` and track shutdown. They are device I/O, reduced to events.
- Unmount clean-up of timers and audio in the voice screen. React batching, effect scheduling and stale closures: each handler is one atomic transition.
- MirrorRoom.ClampHours: takes the result of `parseInt` (an integer or `NaN`), not the input's text. Parsing the text is a browser built-in.
- NonNegotiables.Edit: `maxLength` counts UTF-16 code units, while the model counts Unicode scalar values.
- NonNegotiables.Edit: for text over the cap, the model keeps its first 50 characters. A browser refuses a key typed into a full field instead, so the result over the cap is not modelled exactly; only the cap itself is promised.
- The dashboard's floating-point percentage and everything else in `src/components/Dashboard.tsx` apart from the completed count. `src/App.tsx` is provider and routing wiring only.
