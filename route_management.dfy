/**
 * The school administrator's route list (components/RouteManagement.tsx): the
 * form behind the create and edit dialogs, how it is encoded into a request
 * body (stops as a comma-separated text, the bus as a select with a "none"
 * sentinel), how a stored route prefills it, and the create, edit and delete
 * handlers.  The refetch after a change is the `Reload` effect.
 */
module RouteManagement {
  import opened Wrappers
  import opened Types
  import opened Http
  import opened Navigation
  import JsText
  import Submission

  const CreatedText := "Route created successfully"
  const CreateFailedText := "Failed to create route"
  const UpdateFailedText := "Failed to update route"
  const DeleteFailedText := "Failed to delete route"

  datatype RouteForm = RouteForm(
    name: string, description: string, startStop: string, endStop: string,
    stops: string, busId: string, schoolId: string, schoolAdminId: string)

  /** The form as the page starts and as every successful save leaves it. */
  const BlankForm := RouteForm("", "", "", "", "", Submission.NoneChoice, "", "")

  /** The JSON body of a create or edit; None is a field `JSON.stringify` leaves out. */
  datatype RoutePayload = RoutePayload(
    name: string, description: string, startStop: string, endStop: string,
    stops: Option<seq<string>>, busId: Option<string>, schoolId: string, schoolAdminId: string)

  /**
   * The stops field of the body: omitted for an empty text; otherwise the text
   * split on "," with each piece trimmed, one stop more than there are commas.
   */
  function EncodeStops(text: string): (stops: Option<seq<string>>)
    ensures stops.None? <==> text == ""
    ensures stops.Some? ==> |stops.value| == JsText.Count(text, ',') + 1
    ensures stops.Some? ==> forall i :: 0 <= i < |stops.value| ==>
              JsText.IsTrimmed(stops.value[i]) && ',' !in stops.value[i]
    ensures stops.Some? ==> forall i :: 0 <= i < |stops.value| ==>
              stops.value[i] == JsText.Trim(JsText.Split(text, ',')[i])
  {
    if text == "" then None
    else
      var pieces := JsText.Split(text, ',');
      var stops := JsText.TrimEach(pieces);
      assert forall i :: 0 <= i < |stops| ==> ',' !in stops[i] by {
        forall i | 0 <= i < |stops|
          ensures ',' !in stops[i]
        {
          TrimIsInfix(pieces[i]);
        }
      }
      Some(stops)
  }

  /** Trimming only removes characters, so it adds no comma. */
  lemma TrimIsInfix(s: string)
    ensures forall c :: c in JsText.Trim(s) ==> c in s
  {
    var t := JsText.TrimStart(s);
    assert forall c :: c in t ==> c in s by {
      assert t == s[|s| - |t|..];
    }
    var u := JsText.TrimEnd(t);
    assert u == t[..|u|];
    assert forall c :: c in u ==> c in t;
  }

  /** How the edit dialog shows a route's stops: joined by ", ", or empty when there are none. */
  function PrintStops(stops: Option<seq<string>>): string {
    if stops.Some? then JsText.Join(stops.value, ", ") else ""
  }

  /** Stops that survive being printed and read back: trimmed, comma-free, and not the empty list or `[""]`. */
  predicate PrintableStops(stops: Option<seq<string>>) {
    stops.Some? ==>
      stops.value != [] && stops.value != [""] &&
      forall i :: 0 <= i < |stops.value| ==> JsText.IsTrimmed(stops.value[i]) && ',' !in stops.value[i]
  }

  /** Printing stops into the form and encoding the form again gives the same stops back. */
  lemma StopsRoundTrip(stops: Option<seq<string>>)
    requires PrintableStops(stops)
    ensures EncodeStops(PrintStops(stops)) == stops
  {
    if stops.Some? {
      var xs := stops.value;
      if |xs| == 1 {
        assert JsText.Join(xs, ", ") == xs[0];
        assert xs[0] != "";
      } else {
        assert JsText.Join(xs, ", ") == xs[0] + ", " + JsText.Join(xs[1..], ", ");
      }
      JsText.TrimEachOfCommaBlankSplit(xs);
    }
  }

  /** The two lists that do not survive: they print as the empty text, which sends no stops. */
  lemma EmptyStopsAreDropped()
    ensures EncodeStops(PrintStops(Some([]))) == None
    ensures EncodeStops(PrintStops(Some([""]))) == None
  {
    assert JsText.Join([""], ", ") == "";
  }

  /**
   * The request body: the form's text fields as typed; the stops left out
   * exactly when their text is empty, else one per comma-separated piece;
   * the bus left out exactly when the select shows the sentinel.
   */
  function Payload(f: RouteForm): (p: RoutePayload)
    ensures p.name == f.name && p.description == f.description && p.startStop == f.startStop && p.endStop == f.endStop
    ensures p.schoolId == f.schoolId && p.schoolAdminId == f.schoolAdminId
    ensures p.stops.None? <==> f.stops == ""
    ensures p.stops == EncodeStops(f.stops)
    ensures p.stops.Some? ==> |p.stops.value| == JsText.Count(f.stops, ',') + 1
    ensures p.busId.None? <==> f.busId == Submission.NoneChoice
    ensures p.busId.Some? ==> p.busId.value == f.busId
  {
    RoutePayload(f.name, f.description, f.startStop, f.endStop,
                 EncodeStops(f.stops), Submission.EncodeChoice(f.busId), f.schoolId, f.schoolAdminId)
  }

  /**
   * `openEditDialog`'s form: missing description, school and school admin
   * become "", missing stops the empty text, a missing bus the sentinel.
   */
  function Prefill(r: Route): (f: RouteForm)
    ensures f.name == r.name && f.startStop == r.startStop && f.endStop == r.endStop
    ensures f.description == JsText.Or(r.description, "")
    ensures f.stops == PrintStops(r.stops)
    ensures f.busId == Submission.PrefillChoice(r.busId)
    ensures f.schoolId == JsText.Or(r.schoolId, "") && f.schoolAdminId == JsText.Or(r.schoolAdminId, "")
  {
    RouteForm(r.name, JsText.Or(r.description, ""), r.startStop, r.endStop, PrintStops(r.stops),
              Submission.PrefillChoice(r.busId), JsText.Or(r.schoolId, ""), JsText.Or(r.schoolAdminId, ""))
  }

  /**
   * Opening a route for editing and saving it untouched sends the route's own
   * stops and bus, as long as those can be shown in the form.
   */
  lemma UntouchedEditResendsRoute(r: Route)
    requires PrintableStops(r.stops)
    requires r.busId != Some("") && r.busId != Some(Submission.NoneChoice)
    ensures Payload(Prefill(r)) ==
            RoutePayload(r.name, JsText.Or(r.description, ""), r.startStop, r.endStop, r.stops, r.busId,
                         JsText.Or(r.schoolId, ""), JsText.Or(r.schoolAdminId, ""))
  {
    StopsRoundTrip(r.stops);
    Submission.ChoiceRoundTrip(r.busId);
  }

  /** A create needs a token and a signed-in user with a school. */
  predicate CanCreate(token: Option<string>, user: Option<User>) {
    JsText.Truthy(token) && user.Some? && JsText.Truthy(user.value.schoolId)
  }

  /**
   * The form after create stamps the user's school and id into it, before
   * sending: the body carries them and is otherwise the form's own.
   */
  function Stamped(f: RouteForm, u: User): (g: RouteForm)
    requires u.schoolId.Some?
    ensures Payload(g) == Payload(f).(schoolId := u.schoolId.value, schoolAdminId := u.id)
  {
    f.(schoolId := u.schoolId.value, schoolAdminId := u.id)
  }

  class Manager {
    var routes: seq<Route>
    var buses: seq<Bus>
    var form: RouteForm
    var createOpen: bool
    var editOpen: bool
    var selected: Option<Route>

    constructor ()
      ensures routes == [] && buses == [] && form == BlankForm
      ensures !createOpen && !editOpen && selected == None
    {
      routes, buses, form := [], [], BlankForm;
      createOpen, editOpen, selected := false, false, None;
    }

    method FetchRoutes(token: Option<string>, r: Response<Option<seq<Route>>>)
      modifies this
      ensures routes == ListAfterFetch(old(routes), token, r)
      ensures buses == old(buses) && form == old(form) && selected == old(selected)
      ensures createOpen == old(createOpen) && editOpen == old(editOpen)
    {
      routes := ListAfterFetch(routes, token, r);
    }

    method FetchBuses(token: Option<string>, r: Response<Option<seq<Bus>>>)
      modifies this
      ensures buses == ListAfterFetch(old(buses), token, r)
      ensures routes == old(routes) && form == old(form) && selected == old(selected)
      ensures createOpen == old(createOpen) && editOpen == old(editOpen)
    {
      buses := ListAfterFetch(buses, token, r);
    }

    /**
     * `handleCreateRoute`: without a token or a school nothing happens.
     * Otherwise the form is stamped with the user's school and id and sent;
     * success closes the dialog, alerts, blanks the form and reloads; failure
     * alerts and keeps the stamped form.
     */
    method HandleCreate(token: Option<string>, user: Option<User>, r: Response<()>)
      returns (sent: Option<RoutePayload>, effects: seq<Effect>)
      modifies this
      ensures sent.Some? <==> CanCreate(token, user)
      ensures !CanCreate(token, user) ==> effects == [] && form == old(form) && createOpen == old(createOpen)
      ensures CanCreate(token, user) ==> sent == Some(Payload(Stamped(old(form), user.value)))
      ensures CanCreate(token, user) && Succeeded(r) ==>
                form == BlankForm && !createOpen && effects == [Alert(CreatedText), Reload]
      ensures CanCreate(token, user) && !Succeeded(r) ==>
                form == Stamped(old(form), user.value) && createOpen == old(createOpen) &&
                effects == [Alert(Submission.ManagementOutcome(r, CreateFailedText).text)]
      ensures routes == old(routes) && buses == old(buses) && selected == old(selected) && editOpen == old(editOpen)
    {
      sent, effects := None, [];
      if !JsText.Truthy(token) || user.None? || !JsText.Truthy(user.value.schoolId) {
        return;
      }
      form := form.(schoolId := user.value.schoolId.value, schoolAdminId := user.value.id);
      sent := Some(Payload(form));
      var outcome := Submission.ManagementOutcome(r, CreateFailedText);
      if outcome == Submission.Saved {
        createOpen := false;
        form := BlankForm;
        effects := [Alert(CreatedText), Reload];
      } else {
        effects := [Alert(outcome.text)];
      }
    }

    /**
     * `handleEditRoute`: needs a token, a selected route and a user with a
     * school; sends the form as it is.  Success closes the dialog, drops the
     * selection, blanks the form and reloads; failure only alerts.
     */
    method HandleEdit(token: Option<string>, user: Option<User>, r: Response<()>)
      returns (sent: Option<(string, RoutePayload)>, effects: seq<Effect>)
      modifies this
      ensures var can := JsText.Truthy(token) && old(selected).Some? && user.Some? && JsText.Truthy(user.value.schoolId);
              (sent.Some? <==> can) &&
              (!can ==> effects == [] && form == old(form) && selected == old(selected) && editOpen == old(editOpen)) &&
              (can ==> sent == Some((old(selected).value.id, Payload(old(form))))) &&
              (can && Succeeded(r) ==> form == BlankForm && selected == None && !editOpen && effects == [Reload]) &&
              (can && !Succeeded(r) ==> form == old(form) && selected == old(selected) && editOpen == old(editOpen) &&
                                        effects == [Alert(Submission.ManagementOutcome(r, UpdateFailedText).text)])
      ensures routes == old(routes) && buses == old(buses) && createOpen == old(createOpen)
    {
      sent, effects := None, [];
      if !JsText.Truthy(token) || selected.None? || user.None? || !JsText.Truthy(user.value.schoolId) {
        return;
      }
      sent := Some((selected.value.id, Payload(form)));
      var outcome := Submission.ManagementOutcome(r, UpdateFailedText);
      if outcome == Submission.Saved {
        editOpen, selected, form := false, None, BlankForm;
        effects := [Reload];
      } else {
        effects := [Alert(outcome.text)];
      }
    }

    /** `openEditDialog`: select the route, prefill the form from it, open the edit dialog. */
    method OpenEditDialog(route: Route)
      modifies this
      ensures selected == Some(route) && form == Prefill(route) && editOpen
      ensures routes == old(routes) && buses == old(buses) && createOpen == old(createOpen)
    {
      selected, form, editOpen := Some(route), Prefill(route), true;
    }
  }

  /**
   * `handleDeleteRoute`: sent only with a token and the user's confirmation;
   * success reloads without an alert, failure alerts.
   */
  function DeleteEffects(token: Option<string>, confirmed: bool, r: Response<()>): (effects: seq<Effect>)
    ensures !(JsText.Truthy(token) && confirmed) ==> effects == []
    ensures JsText.Truthy(token) && confirmed && Succeeded(r) ==> effects == [Reload]
    ensures JsText.Truthy(token) && confirmed && !Succeeded(r) ==>
              effects == [Alert(if r.Threw? then DeleteFailedText else JsText.Or(r.message, DeleteFailedText))]
  {
    Submission.DeleteEffects(token, confirmed, r, DeleteFailedText, [Reload])
  }
}
