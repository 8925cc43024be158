/**
 * The permission decision taken once when the screen mounts (App.js:61-76).
 * Off Android no question is asked; on Android the runtime permission
 * request is answered either with a boolean (older React Native) or with a
 * status string such as "granted", "denied" or "never_ask_again".
 */
module Permission {
  import opened Wrappers

  /** The value of `Platform.OS` that the component distinguishes. */
  datatype Platform = Android | IOS | OtherOS

  /** What `PermissionsAndroid.request` resolves with. */
  datatype AndroidAnswer = Flag(b: bool) | Status(status: string)

  /** The request's promise either resolves with an answer or rejects. */
  datatype Request = Answered(answer: AndroidAnswer) | Rejected

  /** `PermissionsAndroid.RESULTS.GRANTED`. */
  const GRANTED: string := "granted"

  /**
   * The value `checkPermission()` resolves with, or `None` when its promise
   * rejects (then the continuation in `componentDidMount` never runs).
   * The request outcome is only consulted on Android.
   */
  function CheckPermission(platform: Platform, request: Request): (r: Option<bool>)
    ensures platform != Android ==> r == Some(true)
    ensures r.None? <==> platform == Android && request.Rejected?
    ensures r == Some(true) <==>
              platform != Android
              || request == Answered(Flag(true))
              || request == Answered(Status(GRANTED))
  {
    if platform != Android then Some(true)
    else match request
      case Rejected => None
      case Answered(Flag(b)) => Some(b)
      case Answered(Status(s)) => Some(s == GRANTED)
  }

  /** Every Android answer other than `true` and "granted" denies. */
  lemma DeniedAnswersDeny(a: AndroidAnswer)
    requires a != Flag(true) && a != Status(GRANTED)
    ensures CheckPermission(Android, Answered(a)) == Some(false)
  {
  }
}
