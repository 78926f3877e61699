/**
 * The submit pattern the CRUD dialogs share (CreateSchool, CreateSchoolAdmin,
 * EditSchool, EditSchoolAdmin, CreateBus, and the delete in SchoolAdminList and
 * the management components): required fields are checked first, then the
 * token, and the request's result is sorted into saved, sign-in-again (status
 * 401, in the dialogs only) or a failure message.
 */
module Submission {
  import opened Wrappers
  import opened Http
  import opened Navigation
  import JsText

  const NoTokenText := "Authentication required. Please sign in again."
  const SignInAgainText := "Authentication failed. Please sign in again."
  const ConnectionSuffix := ". Please check your connection."

  /** Every required field is non-empty (`!a || !b || …` is false). */
  predicate AllPresent(required: seq<string>) {
    "" !in required
  }

  /**
   * The checks before a dialog's request: the alert it shows instead of sending,
   * or None when it sends.  Missing fields are reported before a missing token.
   */
  function Precheck(required: seq<string>, missingText: string, token: Option<string>): (alert: Option<string>)
    ensures alert.None? <==> AllPresent(required) && JsText.Truthy(token)
    ensures !AllPresent(required) ==> alert == Some(missingText)
    ensures AllPresent(required) && !JsText.Truthy(token) ==> alert == Some(NoTokenText)
  {
    if !AllPresent(required) then Some(missingText)
    else if !JsText.Truthy(token) then Some(NoTokenText)
    else None
  }

  datatype Outcome = Saved | SignInAgain | Failed(text: string)

  /**
   * How a handler reads its request's result: an ok status is saved; status 401
   * means sign in again where the handler checks for it (`on401`); any other
   * status shows the body's message or `fallback`; an exception shows
   * `caughtText`.
   */
  function Classify<T>(r: Response<T>, fallback: string, on401: bool, caughtText: string): (o: Outcome)
    ensures o == Saved <==> Succeeded(r)
    ensures o == SignInAgain <==> on401 && r.Response? && r.status == 401
    ensures r.Threw? ==> o == Failed(caughtText)
    ensures r.Response? && !IsOk(r.status) && !(on401 && r.status == 401) ==>
              o == Failed(JsText.Or(r.message, fallback))
  {
    match r
    case Threw(_) => Failed(caughtText)
    case Response(status, message, _) =>
      if IsOk(status) then Saved
      else if on401 && status == 401 then SignInAgain
      else Failed(JsText.Or(message, fallback))
  }

  /** The dialogs' outcome for their request: 401 handled, exceptions blamed on the connection. */
  function DialogOutcome<T>(r: Response<T>, fallback: string): (o: Outcome)
    ensures o == Saved <==> Succeeded(r)
    ensures o == SignInAgain <==> r.Response? && r.status == 401
    ensures r.Threw? ==> o == Failed(fallback + ConnectionSuffix)
    ensures o.Failed? && r.Response? ==> o.text == JsText.Or(r.message, fallback)
  {
    Classify(r, fallback, true, fallback + ConnectionSuffix)
  }

  /**
   * The outcome in the management components: no 401 handling, and an
   * exception shows the same fallback as a failure without a message.
   */
  function ManagementOutcome<T>(r: Response<T>, fallback: string): (o: Outcome)
    ensures o == Saved <==> Succeeded(r)
    ensures o != SignInAgain
    ensures o.Failed? ==> o.text == (if r.Threw? then fallback else JsText.Or(r.message, fallback))
  {
    Classify(r, fallback, false, fallback)
  }

  /**
   * The outcome in the sign-in and sign-up cards, which throw on a non-ok
   * response and alert in their catch: the body's message or `fallback` for
   * a response, the exception's message or `nonErrorText` for an exception.
   */
  function ThrowingOutcome<T>(r: Response<T>, fallback: string, nonErrorText: string): (o: Outcome)
    ensures o == Saved <==> Succeeded(r)
    ensures o != SignInAgain
    ensures r.Threw? ==> o == Failed(ThrownText(r.error, nonErrorText))
    ensures r.Response? && !IsOk(r.status) ==> o == Failed(JsText.Or(r.message, fallback))
  {
    match r
    case Threw(e) => Failed(ThrownText(e, nonErrorText))
    case Response(_, _, _) => Classify(r, fallback, false, "")
  }

  /**
   * A management component's delete handler: no request without a token and
   * the user's confirmation; then `onSaved` on success, and otherwise one
   * alert with the body's message or `fallback`, or `fallback` for an
   * exception.
   */
  function DeleteEffects<T>(token: Option<string>, confirmed: bool, r: Response<T>, fallback: string, onSaved: seq<Effect>)
    : (effects: seq<Effect>)
    ensures !(JsText.Truthy(token) && confirmed) ==> effects == []
    ensures JsText.Truthy(token) && confirmed && Succeeded(r) ==> effects == onSaved
    ensures JsText.Truthy(token) && confirmed && !Succeeded(r) ==>
              effects == [Alert(if r.Threw? then fallback else JsText.Or(r.message, fallback))]
  {
    if !JsText.Truthy(token) || !confirmed then []
    else
      var outcome := ManagementOutcome(r, fallback);
      if outcome == Saved then onSaved else [Alert(outcome.text)]
  }

  /** The select value that stands for "no bus" / "no driver" / "no route". */
  const NoneChoice := "none"

  /** `v === "none" ? undefined : v`: the sentinel is omitted, every other value is sent as it is. */
  function EncodeChoice(v: string): (sent: Option<string>)
    ensures sent.None? <==> v == NoneChoice
    ensures sent.Some? ==> sent.value == v
  {
    if v == NoneChoice then None else Some(v)
  }

  /** `stored || "none"`: an edit dialog's select starts at the stored id, or at the sentinel. */
  function PrefillChoice(stored: Option<string>): (v: string)
    ensures JsText.Truthy(stored) ==> v == stored.value
    ensures !JsText.Truthy(stored) ==> v == NoneChoice
  {
    JsText.Or(stored, NoneChoice)
  }

  /**
   * Prefilling a select and sending it unchanged gives back the stored id
   * exactly when that id is neither empty nor the sentinel itself.
   */
  lemma ChoiceRoundTrip(stored: Option<string>)
    ensures EncodeChoice(PrefillChoice(stored)) == stored <==> stored != Some("") && stored != Some(NoneChoice)
  {
  }

  /**
   * What a dialog does after its request: on success it alerts, closes and
   * notifies its parent, in that order; on 401 it alerts and leaves for the
   * entry page; otherwise it only alerts.
   */
  function DialogEffects(o: Outcome, savedText: string): (effects: seq<Effect>)
    ensures |effects| >= 1 && effects[0].Alert?
    ensures forall k :: 1 <= k < |effects| ==> !effects[k].Alert?
    ensures o.Failed? ==> effects == [Alert(o.text)]
    ensures CloseDialog in effects <==> o == Saved
    ensures NotifySuccess in effects <==> o == Saved
    ensures Assign(Root) in effects <==> o == SignInAgain
  {
    match o
    case Saved => [Alert(savedText), CloseDialog, NotifySuccess]
    case SignInAgain => [Alert(SignInAgainText), Assign(Root)]
    case Failed(text) => [Alert(text)]
  }

  /** A dialog's result never both keeps the dialog open and sends the browser away, and only a 401 leaves the page. */
  lemma DialogLeavesOnlyOn401<T>(r: Response<T>, fallback: string, savedText: string)
    ensures Assign(Root) in DialogEffects(DialogOutcome(r, fallback), savedText) <==> r.Response? && r.status == 401
    ensures CloseDialog in DialogEffects(DialogOutcome(r, fallback), savedText) <==> Succeeded(r)
  {
  }
}
