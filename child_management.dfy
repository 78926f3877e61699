/**
 * The school administrator's child list (components/ChildManagement.tsx):
 * the child form with two selects that use the "none" sentinel (bus and
 * route), the edit prefill, and the create, edit and delete handlers.
 */
module ChildManagement {
  import opened Wrappers
  import opened Types
  import opened Http
  import opened Navigation
  import JsText
  import Submission

  const CreatedText := "Child created successfully"
  const UpdatedText := "Child updated successfully"
  const DeletedText := "Child deleted successfully"
  const CreateFailedText := "Failed to create child"
  const UpdateFailedText := "Failed to update child"
  const DeleteFailedText := "Failed to delete child"

  /** The form; the source's field `class` is `className` here. */
  datatype ChildForm = ChildForm(
    name: string, className: string, pickupStop: string, dropStop: string,
    parentId: string, busId: string, routeId: string)

  /** The form as the page starts and as every successful save leaves it. */
  const BlankForm := ChildForm("", "", "", "", "", Submission.NoneChoice, Submission.NoneChoice)

  datatype ChildPayload = ChildPayload(
    name: string, className: string, pickupStop: string, dropStop: string,
    parentId: string, busId: Option<string>, routeId: Option<string>)

  /** The request body: the five text fields as typed, a sentinel bus or route left out. */
  function Payload(f: ChildForm): (p: ChildPayload)
    ensures p.name == f.name && p.className == f.className && p.pickupStop == f.pickupStop
    ensures p.dropStop == f.dropStop && p.parentId == f.parentId
    ensures p.busId.None? <==> f.busId == Submission.NoneChoice
    ensures p.busId.Some? ==> p.busId.value == f.busId
    ensures p.routeId.None? <==> f.routeId == Submission.NoneChoice
    ensures p.routeId.Some? ==> p.routeId.value == f.routeId
  {
    ChildPayload(f.name, f.className, f.pickupStop, f.dropStop, f.parentId,
                 Submission.EncodeChoice(f.busId), Submission.EncodeChoice(f.routeId))
  }

  /** `openEditDialog`'s form: the five text fields verbatim, a missing bus or route the sentinel. */
  function Prefill(c: Child): (f: ChildForm)
    ensures f.name == c.name && f.className == c.className && f.pickupStop == c.pickupStop
    ensures f.dropStop == c.dropStop && f.parentId == c.parentId
    ensures f.busId == Submission.PrefillChoice(c.busId) && f.routeId == Submission.PrefillChoice(c.routeId)
  {
    ChildForm(c.name, c.className, c.pickupStop, c.dropStop, c.parentId,
              Submission.PrefillChoice(c.busId), Submission.PrefillChoice(c.routeId))
  }

  /** A stored id that the prefill and the encoding carry through unchanged. */
  predicate Kept(id: Option<string>) {
    id != Some("") && id != Some(Submission.NoneChoice)
  }

  /**
   * Opening a child for editing and saving it untouched sends the child's own
   * record back, bus and route included, unless an id is stored as "" or
   * "none"; and only then.
   */
  lemma UntouchedEditResendsChild(c: Child)
    ensures Payload(Prefill(c)) == ChildPayload(c.name, c.className, c.pickupStop, c.dropStop, c.parentId, c.busId, c.routeId)
            <==> Kept(c.busId) && Kept(c.routeId)
  {
    Submission.ChoiceRoundTrip(c.busId);
    Submission.ChoiceRoundTrip(c.routeId);
  }

  class Manager {
    var children: seq<Child>
    var form: ChildForm
    var createOpen: bool
    var editOpen: bool
    var selected: Option<Child>

    constructor ()
      ensures children == [] && form == BlankForm && !createOpen && !editOpen && selected == None
    {
      children, form := [], BlankForm;
      createOpen, editOpen, selected := false, false, None;
    }

    /** `fetchChildren` (the parent, bus and route lists load by the same rule). */
    method FetchChildren(token: Option<string>, r: Response<Option<seq<Child>>>)
      modifies this
      ensures children == ListAfterFetch(old(children), token, r)
      ensures form == old(form) && selected == old(selected) && createOpen == old(createOpen) && editOpen == old(editOpen)
    {
      children := ListAfterFetch(children, token, r);
    }

    /**
     * `handleCreateChild`: needs a token.  Success closes the dialog, alerts,
     * blanks the form and reloads; failure alerts.
     */
    method HandleCreate(token: Option<string>, r: Response<()>)
      returns (sent: Option<ChildPayload>, effects: seq<Effect>)
      modifies this
      ensures !JsText.Truthy(token) ==> sent == None && effects == [] && form == old(form) && createOpen == old(createOpen)
      ensures JsText.Truthy(token) ==> sent == Some(Payload(old(form)))
      ensures JsText.Truthy(token) && Succeeded(r) ==>
                form == BlankForm && !createOpen && effects == [Alert(CreatedText), Reload]
      ensures JsText.Truthy(token) && !Succeeded(r) ==>
                form == old(form) && createOpen == old(createOpen) &&
                effects == [Alert(Submission.ManagementOutcome(r, CreateFailedText).text)]
      ensures children == old(children) && selected == old(selected) && editOpen == old(editOpen)
    {
      sent, effects := None, [];
      if !JsText.Truthy(token) {
        return;
      }
      sent := Some(Payload(form));
      var outcome := Submission.ManagementOutcome(r, CreateFailedText);
      if outcome == Submission.Saved {
        createOpen, form := false, BlankForm;
        effects := [Alert(CreatedText), Reload];
      } else {
        effects := [Alert(outcome.text)];
      }
    }

    /**
     * `handleEditChild`: needs a token and a selected child.  Success closes
     * the dialog, drops the selection, alerts, blanks the form and reloads;
     * failure alerts.
     */
    method HandleEdit(token: Option<string>, r: Response<()>)
      returns (sent: Option<(string, ChildPayload)>, effects: seq<Effect>)
      modifies this
      ensures var can := JsText.Truthy(token) && old(selected).Some?;
              (!can ==> sent == None && effects == [] && form == old(form) && selected == old(selected) && editOpen == old(editOpen)) &&
              (can ==> sent == Some((old(selected).value.id, Payload(old(form))))) &&
              (can && Succeeded(r) ==> form == BlankForm && selected == None && !editOpen && effects == [Alert(UpdatedText), Reload]) &&
              (can && !Succeeded(r) ==> form == old(form) && selected == old(selected) && editOpen == old(editOpen) &&
                                        effects == [Alert(Submission.ManagementOutcome(r, UpdateFailedText).text)])
      ensures children == old(children) && createOpen == old(createOpen)
    {
      sent, effects := None, [];
      if !JsText.Truthy(token) || selected.None? {
        return;
      }
      sent := Some((selected.value.id, Payload(form)));
      var outcome := Submission.ManagementOutcome(r, UpdateFailedText);
      if outcome == Submission.Saved {
        editOpen, selected, form := false, None, BlankForm;
        effects := [Alert(UpdatedText), Reload];
      } else {
        effects := [Alert(outcome.text)];
      }
    }

    method OpenEditDialog(c: Child)
      modifies this
      ensures selected == Some(c) && form == Prefill(c) && editOpen
      ensures children == old(children) && createOpen == old(createOpen)
    {
      selected, form, editOpen := Some(c), Prefill(c), true;
    }
  }

  /** `handleDeleteChild`: sent only with a token and confirmation; success alerts and reloads, failure alerts. */
  function DeleteEffects(token: Option<string>, confirmed: bool, r: Response<()>): (effects: seq<Effect>)
    ensures !(JsText.Truthy(token) && confirmed) ==> effects == []
    ensures JsText.Truthy(token) && confirmed && Succeeded(r) ==> effects == [Alert(DeletedText), Reload]
    ensures JsText.Truthy(token) && confirmed && !Succeeded(r) ==>
              effects == [Alert(if r.Threw? then DeleteFailedText else JsText.Or(r.message, DeleteFailedText))]
  {
    Submission.DeleteEffects(token, confirmed, r, DeleteFailedText, [Alert(DeletedText), Reload])
  }
}
