/**
 * The recording-session controller of the `App` component, on values.
 *
 * A `Session` is the component state of App.js:20-28 together with the part
 * of the native recorder's state the component installs (whether its
 * progress handler is registered) and counters of the calls the component
 * makes into the recorder, so that "no recorder call is made" can be said.
 * Every awaited recorder call is one atomic step that succeeds or fails;
 * the step functions below are what one button press or one progress
 * report does to the session.
 */
module Controller {
  import opened Wrappers

  datatype Session = Session(
    currentTime: int,          // whole seconds last reported by the recorder
    recording: bool,
    paused: bool,
    stoppedRecording: bool,
    finished: bool,            // initialised and never written
    audioPath: string,
    hasPermission: Option<bool>, // None while the permission is undecided
    listening: bool,           // the progress handler is installed
    prepareCalls: nat,         // AudioRecorder.prepareRecordingAtPath
    startCalls: nat,           // AudioRecorder.startRecording
    pauseCalls: nat,           // AudioRecorder.pauseRecording
    stopCalls: nat)            // AudioRecorder.stopRecording

  /** The lifecycle phase a session shows on screen. */
  datatype Phase = Idle | Recording | Paused | Stopped

  /** User intents and recorder events, in the order they are handled. */
  datatype Event =
    | RecordPressed(startOk: bool)
    | PausePressed(pauseOk: bool)
    | StopPressed(stopOk: bool)
    | PlayPressed(stopOk: bool)
    | ProgressReported(seconds: real)

  /** The state the component is constructed with (App.js:20-28). */
  function Init(audioPath: string): Session
  {
    Session(0, false, false, false, false, audioPath, None, false, 0, 0, 0, 0)
  }

  /** JavaScript truthiness of `hasPermission`: only `true` lets recording start. */
  predicate Granted(p: Option<bool>)
  {
    p == Some(true)
  }

  function PhaseOf(s: Session): Phase
  {
    if s.paused then Paused
    else if s.recording then Recording
    else if s.stoppedRecording then Stopped
    else Idle
  }

  /**
   * The invariant of every reachable session: a paused session is still
   * recording, only a permitted session records, start and stop calls
   * alternate, a stop has happened exactly when `stoppedRecording` is set,
   * and the recorder is prepared once at mount and again before every
   * restart after a stop.
   */
  predicate Valid(s: Session)
  {
    && (s.paused ==> s.recording)
    && (s.recording ==> Granted(s.hasPermission))
    && s.startCalls == s.stopCalls + (if s.recording then 1 else 0)
    && (s.stoppedRecording <==> s.stopCalls > 0)
    && (!Granted(s.hasPermission) ==> s.startCalls == 0 && s.prepareCalls == 0)
    && (Granted(s.hasPermission) ==> s.prepareCalls == if s.startCalls == 0 then 1 else s.startCalls)
    && (s.listening <==> Granted(s.hasPermission))
    && (s.pauseCalls > 0 ==> s.startCalls > 0)
    && !s.finished
  }

  /** What no intent changes: the fixed path, the permission and the handlers. */
  predicate SameSetup(s: Session, r: Session)
  {
    r.audioPath == s.audioPath && r.hasPermission == s.hasPermission
    && r.listening == s.listening && r.finished == s.finished
  }

  /**
   * The continuation of `componentDidMount` once `checkPermission()` settles
   * with `decision` (App.js:41-46): a rejected check leaves the session
   * alone; otherwise `hasPermission` is stored and, when it is granted, the
   * recorder is prepared at the audio path and the progress handler installed.
   */
  function Mount(s: Session, decision: Option<bool>): (r: Session)
    ensures decision.None? ==> r == s
    ensures decision.Some? ==> r.hasPermission == decision
    ensures r.prepareCalls == s.prepareCalls + (if decision == Some(true) then 1 else 0)
    ensures r.listening == (s.listening || decision == Some(true))
    ensures r == s.(hasPermission := r.hasPermission, prepareCalls := r.prepareCalls, listening := r.listening)
    ensures Valid(s) && s.hasPermission.None? ==> Valid(r)
  {
    match decision
    case None => s
    case Some(granted) =>
      if granted
      then s.(hasPermission := decision, prepareCalls := s.prepareCalls + 1, listening := true)
      else s.(hasPermission := decision)
  }

  /**
   * `record()` (App.js:149-171): rejected while recording (paused included)
   * and without a granted permission; otherwise re-prepares the path after a
   * stop, marks the session recording and unpaused, and calls the recorder's
   * start, whose outcome `startOk` is swallowed.
   */
  function Record(s: Session, startOk: bool): (r: Session)
    ensures r.startCalls > s.startCalls <==> !s.recording && Granted(s.hasPermission)
    ensures s.startCalls <= r.startCalls <= s.startCalls + 1
    ensures s.recording || !Granted(s.hasPermission) ==> r == s
    ensures r.startCalls > s.startCalls ==>
              r.recording && !r.paused
              && r.prepareCalls == s.prepareCalls + (if s.stoppedRecording then 1 else 0)
    ensures SameSetup(s, r) && r.stoppedRecording == s.stoppedRecording
    ensures r.stopCalls == s.stopCalls && r.pauseCalls == s.pauseCalls && r.currentTime == s.currentTime
    ensures Valid(s) ==> Valid(r)
  {
    if s.recording then s
    else if !Granted(s.hasPermission) then s
    else
      s.(recording := true, paused := false, startCalls := s.startCalls + 1,
         prepareCalls := s.prepareCalls + (if s.stoppedRecording then 1 else 0))
  }

  /**
   * `pause()` (App.js:90-102): rejected unless recording; otherwise calls the
   * recorder's pause and sets `paused` only when that call succeeds.
   */
  function Pause(s: Session, pauseOk: bool): (r: Session)
    ensures r.pauseCalls == s.pauseCalls + (if s.recording then 1 else 0)
    ensures r.paused <==> s.paused || (s.recording && pauseOk)
    ensures r == s.(paused := r.paused, pauseCalls := r.pauseCalls)
    ensures Valid(s) ==> Valid(r)
  {
    if !s.recording then s
    else if pauseOk then s.(paused := true, pauseCalls := s.pauseCalls + 1)
    else s.(pauseCalls := s.pauseCalls + 1)
  }

  /**
   * `stop()` (App.js:105-123): rejected unless recording; otherwise, paused or
   * not, the session is marked stopped before the recorder's stop is awaited,
   * so the flags do not depend on `stopOk`.
   */
  function Stop(s: Session, stopOk: bool): (r: Session)
    ensures r.stopCalls == s.stopCalls + (if s.recording then 1 else 0)
    ensures s.recording ==> !r.recording && !r.paused && r.stoppedRecording
    ensures !s.recording ==> r == s
    ensures s.stoppedRecording ==> r.stoppedRecording
    ensures r == s.(recording := r.recording, paused := r.paused,
                    stoppedRecording := r.stoppedRecording, stopCalls := r.stopCalls)
    ensures Valid(s) ==> Valid(r)
  {
    if !s.recording then s
    else s.(stoppedRecording := true, recording := false, paused := false, stopCalls := s.stopCalls + 1)
  }

  /**
   * The part of `play()` that touches the session (App.js:125-128): a
   * recording session is stopped first; playback itself changes nothing.
   */
  function Play(s: Session, stopOk: bool): (r: Session)
    ensures r.stopCalls == s.stopCalls + (if s.recording then 1 else 0)
    ensures !r.recording
    ensures s.recording ==> !r.paused
    ensures s.recording ==> r.stoppedRecording
    ensures !s.recording ==> r == s
    ensures r == s.(recording := r.recording, paused := r.paused,
                    stoppedRecording := r.stoppedRecording, stopCalls := r.stopCalls)
    ensures Valid(s) ==> Valid(r)
  {
    if s.recording then Stop(s, stopOk) else s
  }

  /** `Math.floor` on a non-integral number of seconds. */
  function WholeSeconds(t: real): (n: int)
    ensures n as real <= t < n as real + 1.0
  {
    t.Floor
  }

  /**
   * The progress handler (App.js:48-50): once installed, it stores the
   * reported time rounded down; before mount nothing receives the report.
   */
  function Progress(s: Session, seconds: real): (r: Session)
    ensures r == s.(currentTime := r.currentTime)
    ensures s.listening ==> r.currentTime as real <= seconds < r.currentTime as real + 1.0
    ensures !s.listening ==> r == s
    ensures Valid(s) ==> Valid(r)
  {
    if s.listening then s.(currentTime := WholeSeconds(seconds)) else s
  }

  function Step(s: Session, e: Event): Session
  {
    match e
    case RecordPressed(ok) => Record(s, ok)
    case PausePressed(ok) => Pause(s, ok)
    case StopPressed(ok) => Stop(s, ok)
    case PlayPressed(ok) => Play(s, ok)
    case ProgressReported(t) => Progress(s, t)
  }

  /** The session after handling `events` one at a time, each to completion. */
  function Run(s: Session, events: seq<Event>): Session
    decreases |events|
  {
    if events == [] then s else Run(Step(s, events[0]), events[1..])
  }

  /** The phases shown before and after each event of `events`. */
  function Phases(s: Session, events: seq<Event>): (p: seq<Phase>)
    ensures |p| == |events| + 1 && p[0] == PhaseOf(s)
    decreases |events|
  {
    if events == [] then [PhaseOf(s)] else [PhaseOf(s)] + Phases(Step(s, events[0]), events[1..])
  }

  /**
   * The phase graph the code implements: Idle to Recording, Recording to
   * Paused, Recording or Paused to Stopped, Stopped to Recording. There is no
   * edge from Paused back to Recording.
   */
  predicate PhaseEdge(a: Phase, b: Phase)
  {
    a == b
    || (a == Idle && b == Recording)
    || (a == Recording && b == Paused)
    || ((a == Recording || a == Paused) && b == Stopped)
    || (a == Stopped && b == Recording)
  }

  // ---------------------------------------------------------------------
  // Properties of single steps

  lemma InitValid(path: string)
    ensures Valid(Init(path)) && PhaseOf(Init(path)) == Idle
  {
  }

  /** A paused session cannot be resumed: `record()` rejects it. */
  lemma PausedRecordRejected(s: Session, startOk: bool)
    requires Valid(s) && s.paused
    ensures Record(s, startOk) == s
  {
  }

  /** Two presses of Record in a row start the recorder at most once. */
  lemma RecordTwiceStartsOnce(s: Session, ok1: bool, ok2: bool)
    ensures Record(Record(s, ok1), ok2).startCalls <= s.startCalls + 1
    ensures Record(Record(s, ok1), ok2) == Record(s, ok1)
  {
  }

  /** The swallowed outcomes of start and stop do not reach the session. */
  lemma OutcomesIgnored(s: Session)
    ensures Record(s, true) == Record(s, false)
    ensures Stop(s, true) == Stop(s, false)
    ensures Play(s, true) == Play(s, false)
  {
  }

  lemma StepFollowsPhaseEdge(s: Session, e: Event)
    requires Valid(s)
    ensures PhaseEdge(PhaseOf(s), PhaseOf(Step(s, e)))
  {
  }

  lemma StepValid(s: Session, e: Event)
    requires Valid(s)
    ensures Valid(Step(s, e))
  {
  }

  // ---------------------------------------------------------------------
  // Properties of every sequence of events

  /** `Valid` holds after any sequence of events handled one at a time. */
  lemma {:induction false} RunValid(s: Session, events: seq<Event>)
    requires Valid(s)
    ensures Valid(Run(s, events))
    decreases |events|
  {
    if events != [] {
      StepValid(s, events[0]);
      RunValid(Step(s, events[0]), events[1..]);
    }
  }

  /** No event changes the path, the permission or the installed handlers. */
  lemma {:induction false} RunKeepsSetup(s: Session, events: seq<Event>)
    ensures SameSetup(s, Run(s, events))
    decreases |events|
  {
    if events != [] {
      RunKeepsSetup(Step(s, events[0]), events[1..]);
    }
  }

  /** Once set, `stoppedRecording` is never cleared, and calls are never undone. */
  lemma {:induction false} RunStoppedSticky(s: Session, events: seq<Event>)
    ensures s.stoppedRecording ==> Run(s, events).stoppedRecording
    ensures Run(s, events).startCalls >= s.startCalls && Run(s, events).stopCalls >= s.stopCalls
    decreases |events|
  {
    if events != [] {
      RunStoppedSticky(Step(s, events[0]), events[1..]);
    }
  }

  /** Without a granted permission the recorder is never prepared or started. */
  lemma {:induction false} RunWithoutPermission(s: Session, events: seq<Event>)
    requires !Granted(s.hasPermission) && !s.recording
    ensures !Run(s, events).recording
    ensures Run(s, events).startCalls == s.startCalls
    ensures Run(s, events).prepareCalls == s.prepareCalls
    decreases |events|
  {
    if events != [] {
      RunWithoutPermission(Step(s, events[0]), events[1..]);
    }
  }

  /** Every pair of consecutive phases of a run is an edge of the phase graph. */
  lemma {:induction false} RunFollowsPhaseGraph(s: Session, events: seq<Event>)
    requires Valid(s)
    ensures forall i :: 0 <= i < |events| ==> PhaseEdge(Phases(s, events)[i], Phases(s, events)[i + 1])
    decreases |events|
  {
    if events != [] {
      var t := Step(s, events[0]);
      StepFollowsPhaseEdge(s, events[0]);
      StepValid(s, events[0]);
      RunFollowsPhaseGraph(t, events[1..]);
      var p := Phases(s, events);
      var q := Phases(t, events[1..]);
      assert p == [PhaseOf(s)] + q;
      forall i | 0 <= i < |events|
        ensures PhaseEdge(p[i], p[i + 1])
      {
        assert p[i + 1] == q[i];
        if i > 0 {
          var j := i - 1;
          assert PhaseEdge(q[j], q[j + 1]);
          assert p[i] == q[j];
        }
      }
    }
  }

  /** A decided denial at mount keeps the recorder unstarted for good. */
  lemma DeniedNeverRecords(path: string, decision: Option<bool>, events: seq<Event>)
    requires decision != Some(true)
    ensures Run(Mount(Init(path), decision), events).startCalls == 0
    ensures !Run(Mount(Init(path), decision), events).recording
  {
    RunWithoutPermission(Mount(Init(path), decision), events);
  }
}
