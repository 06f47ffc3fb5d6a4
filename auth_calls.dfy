/** What the forms see of the external authentication client: the calls they
    make, the three ways a call can end, the notifications and navigation they
    cause, and how a message is pulled out of an error value. */
module AuthCalls {

  datatype Option<+T> = None | Some(value: T)

  /** The `error` property of a thrown object, as the probes see it: absent,
      present but falsy or not an object, or an object that may or may not
      have a `message` key (its value already converted with `String`). */
  datatype ErrorProperty =
    | NoErrorProperty
    | NonObjectError
    | ErrorObject(message: Option<string>)

  /** A thrown value: a string, an object (with its `error` property and its
      own `message` key, converted with `String` when present), or anything
      else (`null`, `undefined`, a number, a function, ...). */
  datatype Thrown =
    | ThrownString(text: string)
    | ThrownObject(error: ErrorProperty, message: Option<string>)
    | ThrownOther

  /** How an awaited call to the authentication client ends: it resolves
      without an error, it resolves with `error` set (`message` is `""` when
      the error's message is missing or empty: both are falsy), or it throws. */
  datatype ApiOutcome = Ok | ReturnedError(message: string) | Threw(thrown: Thrown)

  /** The calls the forms make. */
  datatype Call =
    | SignUpEmail(email: string, password: string, name: string)
    | SignInEmail(email: string, password: string)
    | SignInSocial(provider: string, callbackUrl: string)

  datatype ToastKind = SuccessToast | ErrorToast

  /** Everything a handler does outside its own state, in order. */
  datatype Effect =
    | Called(call: Call)
    | Notified(kind: ToastKind, title: string, description: string)
    | Navigated(route: string)

  const DASHBOARD_ROUTE := "/dashboard"
  const VALIDATION_TITLE := "Validation Error"
  const VALIDATION_DESCRIPTION := "Please fix the errors in the form"
  const GITHUB_FAILED := "Failed to continue with GitHub"

  /** An effect after which the page is leaving: a sign-in that succeeded
      navigates to the dashboard, and a GitHub call that resolves without an
      error hands the browser to the client library's redirect. */
  predicate IsLeaving(e: Effect) {
    e == Navigated(DASHBOARD_ROUTE) || e == Called(SignInSocial("github", DASHBOARD_ROUTE))
  }

  /** The message a thrown object's nested `error.message` supplies, if any. */
  function NestedMessage(t: Thrown): Option<string> {
    if t.ThrownObject? && t.error.ErrorObject? then t.error.message else None
  }

  /** A thrown value from which no probe can take a message. */
  predicate CarriesNoMessage(t: Thrown) {
    NestedMessage(t).None? && !(t.ThrownObject? && t.message.Some?) && !t.ThrownString?
  }

  /** The message found by probing a thrown value: the nested
      `error.message`, else the object's own `message`, else the value itself
      when it is a string, else `fallback`. */
  function ThrownMessage(t: Thrown, fallback: string): (m: string)
    ensures NestedMessage(t).Some? ==> m == NestedMessage(t).value
    ensures NestedMessage(t).None? && t.ThrownObject? && t.message.Some? ==> m == t.message.value
    ensures t.ThrownString? ==> m == t.text
    ensures CarriesNoMessage(t) ==> m == fallback
  {
    match t
    case ThrownString(text) => text
    case ThrownObject(error, message) =>
      if error.ErrorObject? && error.message.Some? then error.message.value
      else if message.Some? then message.value
      else fallback
    case ThrownOther => fallback
  }

  /** `response.error.message || fallback`: an empty message falls back. */
  function ReturnedMessage(message: string, fallback: string): (m: string)
    ensures m != "" || fallback == ""
    ensures message != "" ==> m == message
    ensures message == "" ==> m == fallback
  {
    if message != "" then message else fallback
  }

  /** The probes and the returned-error path treat an empty message
      differently: a thrown `""` is shown as it is, a returned `""` falls
      back. */
  lemma EmptyMessageAsymmetry(fallback: string)
    requires fallback != ""
    ensures ThrownMessage(ThrownString(""), fallback) == ""
    ensures ThrownMessage(ThrownObject(ErrorObject(Some("")), None), fallback) == ""
    ensures ReturnedMessage("", fallback) == fallback
  {
  }

  /** The message of a thrown value always comes from the value or is the
      fallback: the probes never invent text. */
  lemma ThrownMessageProvenance(t: Thrown, fallback: string)
    ensures var m := ThrownMessage(t, fallback);
            m == fallback || Some(m) == NestedMessage(t)
            || (t.ThrownObject? && Some(m) == t.message) || (t.ThrownString? && m == t.text)
  {
  }

  /** What follows a call that starts the GitHub sign-in: nothing when it
      resolves without an error (the client library redirects the browser),
      else one failure notice titled `title`. */
  function GitHubReaction(outcome: ApiOutcome, title: string): (r: seq<Effect>)
    ensures r == [] <==> outcome.Ok?
    ensures r != [] ==> |r| == 1 && r[0].Notified? && r[0].kind == ErrorToast && r[0].title == title
    ensures outcome.ReturnedError? ==> r[0].description != ""
    ensures outcome == ReturnedError("") ==> r[0].description == GITHUB_FAILED
    ensures outcome.ReturnedError? && outcome.message != "" ==> r[0].description == outcome.message
    ensures outcome.Threw? ==> r[0].description == ThrownMessage(outcome.thrown, GITHUB_FAILED)
    ensures outcome.Threw? && CarriesNoMessage(outcome.thrown) ==> r[0].description == GITHUB_FAILED
  {
    match outcome
    case Ok => []
    case ReturnedError(m) => [Notified(ErrorToast, title, ReturnedMessage(m, GITHUB_FAILED))]
    case Threw(t) => [Notified(ErrorToast, title, ThrownMessage(t, GITHUB_FAILED))]
  }
}
