# RecordPlayer session controller in Dafny

RecordPlayer is a React Native screen with four buttons: Record, Play, Stop
and Pause. It drives a native audio recorder and a native sound player. The
only logic of its own is the `App` component's recording-session controller,
and this project models it:

- the component state: `recording`, `paused`, `stoppedRecording`,
  `finished`, `audioPath`, `hasPermission` and `currentTime`;
- the permission decision taken when the screen mounts;
- the guarded handlers `record`, `pause` and `stop`;
- the stop-before-play step of `play`;
- the progress handler;
- what `stop()` resolves with, and when a stopped recording is finalised.

Each awaited native call is one atomic step. Its outcome is a parameter:
`startOk`, `pauseOk`, or a `StopOutcome`. Ghost counters record the calls the
component makes into the recorder (prepare, start, pause, stop), so the model
can state that a handler makes no recorder call.

Files:

- `wrappers.dfy`: `Option`. `None` stands for JavaScript's `undefined`.
- `permission.dfy` (module `Permission`): the mapping done by `checkPermission`.
- `controller.dfy` (module `Controller`): the session as a value, one pure
  function per handler, the invariant `Valid` of reachable sessions, and
  `Run`, which handles a sequence of events one at a time. It also holds the
  lemmas about single steps and about every sequence of events.
- `completion.dfy` (module `Completion`): how a stop settles. It contains
  both the code as written and the corrected version (see Findings).
- `app.dfy` (module `RecordPlayer`): class `App`. Its fields are the
  component state and its methods are the handlers. Each method's
  postcondition ties the new state to the `Controller` function applied to
  the old state. The file ends with three scenario methods.

Three behaviours of the code are easy to miss:

- `pause` never clears `recording` (App.js:98), so `record()` while paused is
  rejected as "already recording" (App.js:150-153). A paused session cannot
  be resumed; it can only be stopped (`PausedRecordRejected`,
  `RecordPauseRecordStop`).
- `currentTime` is never reset when a new recording starts: `Record` keeps it.
- On Android `stop()` never finalises a recording and resolves with nothing
  (see Findings). Class `App` uses the corrected completion instead.

## Model

| member | source | states |
|---|---|---|
| Permission.CheckPermission | App.js:61-76 | permission is granted iff the platform is not Android, or the Android request answers `true` or "granted"; off Android no answer is consulted; the result is undefined exactly when the Android request rejects |
| Permission.DeniedAnswersDeny | App.js:71-75 | every Android answer other than `true` and "granted" (e.g. "denied", "never_ask_again") yields `false` |
| Controller.Mount | App.js:41-50 | a rejected check changes nothing; otherwise `hasPermission` is stored; the recorder is prepared and the progress handler installed exactly when permission is granted; no other field changes; the invariant holds after the one-time decision |
| Controller.InitValid | App.js:20-28 | the initial state satisfies the session invariant and shows the Idle phase |
| Controller.Record | App.js:149-171 | the recorder is started iff the session is not recording and permission is `true`; a record while recording (paused or not) or without permission changes nothing at all and makes no call; the start count never drops; an accepted one leaves `recording` set and `paused` clear, re-prepares exactly when `stoppedRecording` is set, and keeps `stoppedRecording`, path and permission; preserves the invariant |
| Controller.Pause | App.js:90-102 | one pause call iff recording; `paused` becomes set iff it was set or the session is recording and the call succeeds; nothing else changes; preserves the invariant |
| Controller.Stop | App.js:105-123 | one stop call iff recording; a recording session (paused or not) ends not recording, not paused and stopped; a non-recording one is unchanged; `stoppedRecording` is never cleared; only those fields change; preserves the invariant |
| Controller.Play | App.js:125-128 | stops first exactly when recording (one stop call then, none otherwise); afterwards the session is not recording, and stopped if it was recording; only the fields `stop` writes can change |
| Controller.WholeSeconds | App.js:49 | the stored time is the largest whole number of seconds not above the reported time |
| Controller.Progress | App.js:48-50 | once the handler is installed a progress report sets `currentTime` to the reported seconds rounded down; before that nothing changes; only `currentTime` ever changes |
| Controller.PausedRecordRejected | App.js:149-153 | in a reachable paused session `record()` changes nothing, so recording cannot be resumed |
| Controller.RecordTwiceStartsOnce | App.js:149-167 | two consecutive `record()` calls start the recorder at most once, and the second changes nothing |
| Controller.OutcomesIgnored | App.js:105-171 | whether start or stop succeeds does not affect the session, for `record`, `stop` and `play` |
| Controller.StepFollowsPhaseEdge | App.js:90-171 | each handled event moves the phase along Idle→Recording, Recording→Paused, Recording/Paused→Stopped, Stopped→Recording or leaves it |
| Controller.StepValid | App.js:90-171 | every handler and progress report preserves the session invariant (`paused ⇒ recording`, recording only with permission, start/stop calls alternate, prepare before every restart) |
| Controller.RunValid | App.js:90-171 | the session invariant holds after any sequence of events handled one at a time |
| Controller.RunKeepsSetup | App.js:26 | no sequence of events changes `audioPath`, `hasPermission`, `finished` or the installed handler |
| Controller.RunStoppedSticky | App.js:111 | once `stoppedRecording` is set no sequence of events clears it; start and stop call counts never decrease |
| Controller.RunWithoutPermission | App.js:155-158 | from a non-recording session without permission, no sequence of events starts or prepares the recorder or sets `recording` |
| Controller.RunFollowsPhaseGraph | App.js:90-171 | every pair of consecutive phases in a run is an edge of the phase graph |
| Controller.DeniedNeverRecords | App.js:41-44 | if the mount-time decision is not `true`, no later sequence of events ever starts the recorder or sets `recording` |
| Completion.StopCompletionAsWritten | App.js:113-122 | as written, `stop()` never finalises; it resolves with the recorder's path iff the stop succeeds off Android |
| Completion.StopCompletion | App.js:113-122 | corrected: `stop()` resolves with the recorder's path iff the stop succeeds; it finalises that path as a success iff on Android |
| Completion.FinishedCallback | App.js:52-57 | the finish callback finalises only on iOS, successful iff the status is "OK", at the reported file URL |
| Completion.AsWrittenAndroidStopLost | App.js:116-118 | as written, a successful stop on Android resolves with nothing and is finalised neither by the stop nor by the callback |
| Completion.FinalizedExactlyOnce | App.js:52-122 | corrected: on Android and iOS a successful stop is finalised exactly once, by the stop result or by the finish callback |
| Completion.CompletionsDifferOnlyOnAndroid | App.js:116-118 | the corrected and as-written stop completions differ exactly on a successful stop on Android |
| RecordPlayer.App.Phase | App.js:181 | the phase read from the fields is the session's phase; in a reachable state the Record button is active (Recording or Paused phase) iff `recording` is set |
| RecordPlayer.App.constructor | App.js:20-28 | the component starts in the initial state with `audioPath` = documents directory + "/test.aac", which satisfies the invariant |
| RecordPlayer.App.PrepareRecordingPath | App.js:30-38 | one prepare call into the recorder |
| RecordPlayer.App.ComponentDidMount | App.js:40-59 | updates the fields as `Controller.Mount` of the permission decision prescribes |
| RecordPlayer.App.Pause | App.js:90-102 | updates the fields as `Controller.Pause` prescribes and keeps the invariant |
| RecordPlayer.App.Stop | App.js:105-123 | updates the fields as `Controller.Stop` prescribes; when recording it resolves with the corrected completion `Completion.StopCompletion`, otherwise with nothing |
| RecordPlayer.App.Play | App.js:125-128 | stops through `Stop` exactly when recording, as `Controller.Play` prescribes |
| RecordPlayer.App.Record | App.js:149-171 | updates the fields as `Controller.Record` prescribes and keeps the invariant |
| RecordPlayer.App.OnProgress | App.js:48-50 | updates `currentTime` as `Controller.Progress` prescribes |
| RecordPlayer.RecordPauseRecordStop | App.js:90-171 | Record, Pause, Record, Stop gives the phases Idle, Recording, Paused, Paused, Stopped |
| RecordPlayer.RecordThenPlay | App.js:125-128 | Record then Play gives Idle, Recording, Stopped, whatever the start and stop outcomes |
| RecordPlayer.DeniedOnAndroid | App.js:155-158 | after an Android denial the session is Idle, and stays Idle after each of Record, Pause and Stop; Stop reports nothing |

## Left out

- Rendering and styles (App.js:78-88, 177-225): UI only. The button handlers
  appear as `Controller.Event`.
- Sound loading and playback in `play`, and its two 100 ms `setTimeout`
  delays (App.js:130-146): timing-based and asynchronous, with no effect on
  the component state.
- The native services `AudioRecorder`, `Sound` and `PermissionsAndroid`:
  foreign calls. Each is a success or failure outcome, and the recorder also
  has a call counter. The recorder configuration passed by
  `prepareRecordingPath` (App.js:31-37) is an argument to a native call and
  is not modelled.
- Interleaving of asynchronous continuations and React's batching of
  `setState`: each handler runs to completion before the next event. For
  example, a `stop()` landing during `pause()`'s await could leave `paused`
  set without `recording`; that case is not modelled.
- `componentDidMount` is taken to run once, as React guarantees.
  `Controller.Mount` keeps the invariant only from an undecided permission.
- RecordPlayer.App.Stop: returns the corrected completion
  (`Completion.StopCompletion`), not the code as written. On Android a
  successful stop therefore resolves with the path and finalises it, where
  App.js:116-122 resolves with nothing. The as-written behaviour is
  `Completion.StopCompletionAsWritten` (see Findings). The flags are the
  same either way, and every caller ignores the value (App.js:127, 187).
- `console` logging, and `_finishRecording`'s log line (App.js:173-175).
  A finalisation is kept only as the values it would log.
- `Math.floor` on floating-point input (App.js:49): the reported time is a
  Dafny `real`, with no floating-point rounding.

## Findings

| source | as written | input that shows it | evidently intended | confidence | as-written member | corrected member |
|---|---|---|---|---|---|---|
| App.js:117 | on Android `stop()` calls `this.finishRecording`, which the component does not define (only `_finishRecording` at App.js:173); the resulting TypeError is swallowed at App.js:120-122 | Android, recording, `stopRecording` resolving with a path: `stop()` resolves with `undefined` and the recording is never finalised | call `_finishRecording(true, filePath)` and resolve with the path, as the comment at App.js:53 describes | high; not executed | Completion.AsWrittenAndroidStopLost | Completion.FinalizedExactlyOnce |
