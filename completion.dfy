/**
 * What happens once the recorder's stop settles: the value `stop()` resolves
 * with and the call to the finalisation hook `_finishRecording`
 * (App.js:113-122, 173-175), and the recorder's finish callback installed at
 * mount (App.js:52-57). Finalisation is meant to come from the stop result
 * on Android and from the finish callback on iOS.
 */
module Completion {
  import opened Wrappers
  import opened Permission

  /** How `AudioRecorder.stopRecording()` settles. */
  datatype StopOutcome = Resolved(filePath: string) | Failed

  /** One call of `_finishRecording(didSucceed, filePath)`. */
  datatype Finalization = Finalization(didSucceed: bool, filePath: string)

  /** What a stop reports: the value it resolves with and any finalisation. */
  datatype StopEffect = StopEffect(returned: Option<string>, finalized: Option<Finalization>)

  /** What `stop()` reports when it is rejected before calling the recorder. */
  const NoEffect: StopEffect := StopEffect(None, None)

  function Count(f: Option<Finalization>): nat
  {
    if f.Some? then 1 else 0
  }

  /**
   * `stop()` as written: on Android line 117 calls `this.finishRecording`,
   * which the component does not define, so the call throws, the handler at
   * lines 120-122 swallows the error and `stop()` resolves with `undefined`.
   */
  function StopCompletionAsWritten(platform: Platform, outcome: StopOutcome): (e: StopEffect)
    ensures e.finalized == None
    ensures e.returned.Some? <==> outcome.Resolved? && platform != Android
    ensures e.returned.Some? ==> e.returned.value == outcome.filePath
  {
    match outcome
    case Failed => NoEffect
    case Resolved(path) => if platform == Android then NoEffect else StopEffect(Some(path), None)
  }

  /**
   * `stop()` with line 117 calling `_finishRecording`: it resolves with the
   * recorder's file path and, on Android, finalises that path as a success.
   */
  function StopCompletion(platform: Platform, outcome: StopOutcome): (e: StopEffect)
    ensures e.returned == (if outcome.Resolved? then Some(outcome.filePath) else None)
    ensures e.finalized.Some? <==> platform == Android && outcome.Resolved?
    ensures e.finalized.Some? ==> e.finalized.value == Finalization(true, outcome.filePath)
  {
    match outcome
    case Failed => NoEffect
    case Resolved(path) =>
      StopEffect(Some(path), if platform == Android then Some(Finalization(true, path)) else None)
  }

  /** The finish callback: it finalises only on iOS, with success iff the status is "OK". */
  function FinishedCallback(platform: Platform, status: string, audioFileUrl: string): (f: Option<Finalization>)
    ensures f.Some? <==> platform == IOS
    ensures f.Some? ==> f.value.didSucceed == (status == "OK") && f.value.filePath == audioFileUrl
  {
    if platform == IOS then Some(Finalization(status == "OK", audioFileUrl)) else None
  }

  /** As written, a successful stop on Android is never finalised and never reports its path. */
  lemma AsWrittenAndroidStopLost(path: string, status: string, url: string)
    ensures StopCompletionAsWritten(Android, Resolved(path)).returned == None
    ensures Count(StopCompletionAsWritten(Android, Resolved(path)).finalized)
            + Count(FinishedCallback(Android, status, url)) == 0
  {
  }

  /**
   * With the hook named correctly, a successful stop on Android or iOS is
   * finalised exactly once, by the stop result or by the finish callback.
   */
  lemma FinalizedExactlyOnce(platform: Platform, path: string, status: string, url: string)
    requires platform == Android || platform == IOS
    ensures Count(StopCompletion(platform, Resolved(path)).finalized)
            + Count(FinishedCallback(platform, status, url)) == 1
  {
  }

  /** The two completions agree everywhere except a successful stop on Android. */
  lemma CompletionsDifferOnlyOnAndroid(platform: Platform, outcome: StopOutcome)
    ensures StopCompletion(platform, outcome) != StopCompletionAsWritten(platform, outcome)
            <==> platform == Android && outcome.Resolved?
  {
  }
}
