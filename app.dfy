/**
 * The `App` component (App.js:19-194) as an object whose fields are its
 * component state. Each method does what the handler of the same name does,
 * with the awaited recorder call taken as one atomic step whose outcome is a
 * parameter, and is specified by the `Controller` function for that handler
 * applied to the state before the call.
 */
module RecordPlayer {
  import opened Wrappers
  import opened Permission
  import opened Completion
  import C = Controller

  class App {
    const platform: Platform
    const audioPath: string
    var currentTime: int
    var recording: bool
    var paused: bool
    var stoppedRecording: bool
    var finished: bool
    var hasPermission: Option<bool>
    var listening: bool       // AudioRecorder.onProgress has been installed
    ghost var prepareCalls: nat
    ghost var startCalls: nat
    ghost var pauseCalls: nat
    ghost var stopCalls: nat

    /** The component state as a value. */
    ghost function Snapshot(): C.Session
      reads this
    {
      C.Session(currentTime, recording, paused, stoppedRecording, finished, audioPath,
                hasPermission, listening, prepareCalls, startCalls, pauseCalls, stopCalls)
    }

    ghost predicate Valid()
      reads this
    {
      C.Valid(Snapshot())
    }

    /**
     * The session's phase, read from the fields. In a reachable state the
     * Record button is shown active (App.js:181) exactly in the Recording
     * and Paused phases.
     */
    function Phase(): (p: C.Phase)
      reads this
      ensures p == C.PhaseOf(Snapshot())
      ensures Valid() ==> (p == C.Paused || p == C.Recording <==> recording)
    {
      C.PhaseOf(C.Session(currentTime, recording, paused, stoppedRecording, finished, audioPath,
                          hasPermission, listening, 0, 0, 0, 0))
    }

    /** The initial state (App.js:20-28), the file being `test.aac` in the documents directory. */
    constructor (documentDirectory: string, platform: Platform)
      ensures this.platform == platform
      ensures Snapshot() == C.Init(documentDirectory + "/test.aac")
      ensures Valid()
    {
      this.platform := platform;
      audioPath := documentDirectory + "/test.aac";
      currentTime := 0;
      recording, paused, stoppedRecording, finished := false, false, false, false;
      hasPermission := None;
      listening := false;
      prepareCalls, startCalls, pauseCalls, stopCalls := 0, 0, 0, 0;
    }

    /** `prepareRecordingPath` (App.js:30-38): one call that prepares the recorder at `audioPath`. */
    method PrepareRecordingPath()
      modifies this`prepareCalls
      ensures prepareCalls == old(prepareCalls) + 1
    {
      prepareCalls := prepareCalls + 1;
    }

    /** `componentDidMount` (App.js:40-59) once the permission request settles as `request`. */
    method ComponentDidMount(request: Request)
      modifies this
      ensures Snapshot() == C.Mount(old(Snapshot()), CheckPermission(platform, request))
      ensures old(Valid()) && old(hasPermission) == None ==> Valid()
    {
      var decision := CheckPermission(platform, request);
      if decision.None? {
        return;
      }
      hasPermission := decision;
      if !decision.value {
        return;
      }
      PrepareRecordingPath();
      listening := true;
    }

    /** `pause` (App.js:90-102); `pauseOk` is whether `pauseRecording` resolves. */
    method Pause(pauseOk: bool)
      modifies this
      ensures Snapshot() == C.Pause(old(Snapshot()), pauseOk)
      ensures old(Valid()) ==> Valid()
    {
      if !recording {
        return;
      }
      pauseCalls := pauseCalls + 1;
      if pauseOk {
        paused := true;
      }
    }

    /** `stop` (App.js:105-123); `outcome` is how `stopRecording` settles. */
    method Stop(outcome: StopOutcome) returns (effect: StopEffect)
      modifies this
      ensures Snapshot() == C.Stop(old(Snapshot()), outcome.Resolved?)
      ensures effect == if old(recording) then StopCompletion(platform, outcome) else NoEffect
      ensures old(Valid()) ==> Valid()
    {
      if !recording {
        return NoEffect;
      }
      stoppedRecording, recording, paused := true, false, false;
      stopCalls := stopCalls + 1;
      effect := StopCompletion(platform, outcome);
    }

    /** The state-changing part of `play` (App.js:125-128). */
    method Play(stopOutcome: StopOutcome)
      modifies this
      ensures Snapshot() == C.Play(old(Snapshot()), stopOutcome.Resolved?)
      ensures old(Valid()) ==> Valid()
    {
      if recording {
        var _ := Stop(stopOutcome);
      }
    }

    /** `record` (App.js:149-171); `startOk` is whether `startRecording` resolves. */
    method Record(startOk: bool)
      modifies this
      ensures Snapshot() == C.Record(old(Snapshot()), startOk)
      ensures old(Valid()) ==> Valid()
    {
      if recording {
        return;
      }
      if hasPermission != Some(true) {
        return;
      }
      if stoppedRecording {
        PrepareRecordingPath();
      }
      recording, paused := true, false;
      startCalls := startCalls + 1;
    }

    /** The progress handler installed at App.js:48-50, receiving `data.currentTime`. */
    method OnProgress(seconds: real)
      modifies this
      ensures Snapshot() == C.Progress(old(Snapshot()), seconds)
      ensures old(Valid()) ==> Valid()
    {
      if listening {
        currentTime := C.WholeSeconds(seconds);
      }
    }
  }

  /**
   * Record, Pause, Record, Stop on iOS: the second Record is rejected because
   * a paused session still counts as recording, so the session never
   * returns from Paused to Recording.
   */
  method RecordPauseRecordStop(documentDirectory: string) returns (phases: seq<C.Phase>)
    ensures phases == [C.Idle, C.Recording, C.Paused, C.Paused, C.Stopped]
  {
    var app := new App(documentDirectory, IOS);
    app.ComponentDidMount(Answered(Flag(true)));
    phases := [app.Phase()];
    app.Record(true);
    phases := phases + [app.Phase()];
    app.Pause(true);
    phases := phases + [app.Phase()];
    app.Record(true);
    phases := phases + [app.Phase()];
    var _ := app.Stop(Resolved(app.audioPath));
    phases := phases + [app.Phase()];
  }

  /** Record then Play: the recording is stopped before playback is scheduled. */
  method RecordThenPlay(documentDirectory: string, startOk: bool, stopOutcome: StopOutcome)
    returns (phases: seq<C.Phase>)
    ensures phases == [C.Idle, C.Recording, C.Stopped]
  {
    var app := new App(documentDirectory, Android);
    app.ComponentDidMount(Answered(Status(GRANTED)));
    phases := [app.Phase()];
    app.Record(startOk);
    phases := phases + [app.Phase()];
    app.Play(stopOutcome);
    phases := phases + [app.Phase()];
  }

  /** With the Android permission denied, no button moves the session out of Idle. */
  method DeniedOnAndroid(documentDirectory: string, answer: AndroidAnswer)
    returns (phases: seq<C.Phase>, effect: StopEffect)
    requires answer != Flag(true) && answer != Status(GRANTED)
    ensures phases == [C.Idle, C.Idle, C.Idle, C.Idle]
    ensures effect == NoEffect
  {
    var app := new App(documentDirectory, Android);
    app.ComponentDidMount(Answered(answer));
    phases := [app.Phase()];
    app.Record(true);
    phases := phases + [app.Phase()];
    app.Pause(true);
    phases := phases + [app.Phase()];
    effect := app.Stop(Resolved(app.audioPath));
    phases := phases + [app.Phase()];
  }
}
