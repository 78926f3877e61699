/**
 * The school administrator's bus list (components/BusManagement.tsx): the
 * bus form, its encoding (capacity through `parseInt`, the driver through a
 * select with a "none" sentinel), the edit prefill (capacity through
 * `toString`), the create dialog's driver picker, and the create, edit and
 * delete handlers.
 */
module BusManagement {
  import opened Wrappers
  import opened Types
  import opened Http
  import opened Navigation
  import JsText
  import Submission

  const CreateFailedText := "Failed to create bus"
  const UpdateFailedText := "Failed to update bus"
  const DeleteFailedText := "Failed to delete bus"

  datatype BusForm = BusForm(busNumber: string, capacity: string, model: string, plateNumber: string, driverId: string)

  /** The form as the page starts, and as a successful edit leaves it. */
  const BlankForm := BusForm("", "", "", "", Submission.NoneChoice)

  /** The form a successful create leaves: its driver is "", not the sentinel. */
  const AfterCreateForm := BusForm("", "", "", "", "")

  /** The JSON body; a capacity `parseInt` cannot read is `NaN`, sent as null (None). */
  datatype BusPayload = BusPayload(
    busNumber: string, capacity: Option<int>, model: string, plateNumber: string, driverId: Option<string>)

  /**
   * The request body: the text fields as typed, the capacity as `parseInt`
   * reads it (a blank text is `NaN`), the driver left out exactly when the
   * select shows the sentinel.
   */
  function Payload(f: BusForm): (p: BusPayload)
    ensures p.busNumber == f.busNumber && p.model == f.model && p.plateNumber == f.plateNumber
    ensures p.capacity == JsText.ParseInt(f.capacity)
    ensures JsText.TrimStart(f.capacity) == "" ==> p.capacity.None?
    ensures p.driverId.None? <==> f.driverId == Submission.NoneChoice
    ensures p.driverId.Some? ==> p.driverId.value == f.driverId
  {
    BusPayload(f.busNumber, JsText.ParseInt(f.capacity), f.model, f.plateNumber, Submission.EncodeChoice(f.driverId))
  }

  /** `openEditDialog`'s form: the capacity printed, a missing model "", a missing driver the sentinel. */
  function Prefill(b: Bus): (f: BusForm)
    ensures f.busNumber == b.busNumber && f.plateNumber == b.plateNumber
    ensures f.capacity == JsText.NumberToString(b.capacity)
    ensures f.model == JsText.Or(b.model, "")
    ensures f.driverId == Submission.PrefillChoice(b.driverId)
  {
    BusForm(b.busNumber, JsText.NumberToString(b.capacity), JsText.Or(b.model, ""), b.plateNumber,
            Submission.PrefillChoice(b.driverId))
  }

  /**
   * Opening a bus for editing and saving it untouched sends its own capacity
   * back, and its driver unless that is stored as "" or "none".
   */
  lemma UntouchedEditResendsBus(b: Bus)
    ensures Payload(Prefill(b)).capacity == Some(b.capacity)
    ensures Payload(Prefill(b)).driverId == b.driverId <==> b.driverId != Some("") && b.driverId != Some(Submission.NoneChoice)
    ensures Payload(Prefill(b)).model == JsText.Or(b.model, "")
  {
    JsText.ParseIntOfNumberToString(b.capacity);
    Submission.ChoiceRoundTrip(b.driverId);
  }

  /**
   * After a successful create the next create, with the driver select left
   * alone, sends an empty driver id instead of leaving it out.
   */
  lemma CreateResetSendsEmptyDriver()
    ensures Payload(AfterCreateForm).driverId == Some("")
    ensures Payload(BlankForm).driverId == None
  {
  }

  /** The drivers the create dialog offers: those without an assigned bus, in list order. */
  function CreatePicker(drivers: seq<Driver>): (offered: seq<Driver>)
    ensures |offered| <= |drivers|
    ensures forall d :: d in offered <==> d in drivers && d.assignedBus.None?
  {
    if drivers == [] then []
    else
      var rest := CreatePicker(drivers[1..]);
      assert drivers == [drivers[0]] + drivers[1..];
      if drivers[0].assignedBus.Some? then rest else [drivers[0]] + rest
  }

  /**
   * The picker keeps the list's order: filtering a list made of two parts
   * filters each part and keeps the first part's drivers first.
   */
  lemma {:induction false} CreatePickerKeepsOrder(a: seq<Driver>, b: seq<Driver>)
    ensures CreatePicker(a + b) == CreatePicker(a) + CreatePicker(b)
  {
    if a == [] {
      assert a + b == b;
    } else {
      assert (a + b)[1..] == a[1..] + b;
      CreatePickerKeepsOrder(a[1..], b);
    }
  }

  /** The edit dialog offers every driver, so it offers everything the create dialog does. */
  lemma EditPickerCoversCreate(drivers: seq<Driver>)
    ensures forall d :: d in CreatePicker(drivers) ==> d in drivers
    ensures CreatePicker(drivers) == drivers <==> forall i :: 0 <= i < |drivers| ==> drivers[i].assignedBus.None?
  {
    if forall i :: 0 <= i < |drivers| ==> drivers[i].assignedBus.None? {
      NoneAssignedKeepsAll(drivers);
    } else {
      var i :| 0 <= i < |drivers| && drivers[i].assignedBus.Some?;
      assert drivers[i] !in CreatePicker(drivers);
    }
  }

  lemma {:induction false} NoneAssignedKeepsAll(drivers: seq<Driver>)
    requires forall i :: 0 <= i < |drivers| ==> drivers[i].assignedBus.None?
    ensures CreatePicker(drivers) == drivers
  {
    if drivers != [] {
      NoneAssignedKeepsAll(drivers[1..]);
    }
  }

  class Manager {
    var buses: seq<Bus>
    var drivers: seq<Driver>
    var form: BusForm
    var createOpen: bool
    var editOpen: bool
    var selected: Option<Bus>

    constructor ()
      ensures buses == [] && drivers == [] && form == BlankForm
      ensures !createOpen && !editOpen && selected == None
    {
      buses, drivers, form := [], [], BlankForm;
      createOpen, editOpen, selected := false, false, None;
    }

    method FetchBuses(token: Option<string>, r: Response<Option<seq<Bus>>>)
      modifies this
      ensures buses == ListAfterFetch(old(buses), token, r)
      ensures drivers == old(drivers) && form == old(form) && selected == old(selected)
      ensures createOpen == old(createOpen) && editOpen == old(editOpen)
    {
      buses := ListAfterFetch(buses, token, r);
    }

    method FetchDrivers(token: Option<string>, r: Response<Option<seq<Driver>>>)
      modifies this
      ensures drivers == ListAfterFetch(old(drivers), token, r)
      ensures buses == old(buses) && form == old(form) && selected == old(selected)
      ensures createOpen == old(createOpen) && editOpen == old(editOpen)
    {
      drivers := ListAfterFetch(drivers, token, r);
    }

    /**
     * `handleCreateBus`: needs a token; sends the encoded form.  Success
     * closes the dialog, resets the form (driver "") and reloads, with no
     * alert; failure alerts.
     */
    method HandleCreate(token: Option<string>, r: Response<()>)
      returns (sent: Option<BusPayload>, effects: seq<Effect>)
      modifies this
      ensures !JsText.Truthy(token) ==> sent == None && effects == [] && form == old(form) && createOpen == old(createOpen)
      ensures JsText.Truthy(token) ==> sent == Some(Payload(old(form)))
      ensures JsText.Truthy(token) && Succeeded(r) ==> form == AfterCreateForm && !createOpen && effects == [Reload]
      ensures JsText.Truthy(token) && !Succeeded(r) ==>
                form == old(form) && createOpen == old(createOpen) &&
                effects == [Alert(Submission.ManagementOutcome(r, CreateFailedText).text)]
      ensures buses == old(buses) && drivers == old(drivers) && selected == old(selected) && editOpen == old(editOpen)
    {
      sent, effects := None, [];
      if !JsText.Truthy(token) {
        return;
      }
      sent := Some(Payload(form));
      var outcome := Submission.ManagementOutcome(r, CreateFailedText);
      if outcome == Submission.Saved {
        createOpen, form := false, AfterCreateForm;
        effects := [Reload];
      } else {
        effects := [Alert(outcome.text)];
      }
    }

    /**
     * `handleEditBus`: needs a token and a selected bus.  Success closes the
     * dialog, drops the selection, resets the form (driver "none") and
     * reloads; failure alerts.
     */
    method HandleEdit(token: Option<string>, r: Response<()>)
      returns (sent: Option<(string, BusPayload)>, effects: seq<Effect>)
      modifies this
      ensures var can := JsText.Truthy(token) && old(selected).Some?;
              (!can ==> sent == None && effects == [] && form == old(form) && selected == old(selected) && editOpen == old(editOpen)) &&
              (can ==> sent == Some((old(selected).value.id, Payload(old(form))))) &&
              (can && Succeeded(r) ==> form == BlankForm && selected == None && !editOpen && effects == [Reload]) &&
              (can && !Succeeded(r) ==> form == old(form) && selected == old(selected) && editOpen == old(editOpen) &&
                                        effects == [Alert(Submission.ManagementOutcome(r, UpdateFailedText).text)])
      ensures buses == old(buses) && drivers == old(drivers) && createOpen == old(createOpen)
    {
      sent, effects := None, [];
      if !JsText.Truthy(token) || selected.None? {
        return;
      }
      sent := Some((selected.value.id, Payload(form)));
      var outcome := Submission.ManagementOutcome(r, UpdateFailedText);
      if outcome == Submission.Saved {
        editOpen, selected, form := false, None, BlankForm;
        effects := [Reload];
      } else {
        effects := [Alert(outcome.text)];
      }
    }

    method OpenEditDialog(b: Bus)
      modifies this
      ensures selected == Some(b) && form == Prefill(b) && editOpen
      ensures buses == old(buses) && drivers == old(drivers) && createOpen == old(createOpen)
    {
      selected, form, editOpen := Some(b), Prefill(b), true;
    }
  }

  /** `handleDeleteBus`: sent only with a token and confirmation; success reloads, failure alerts. */
  function DeleteEffects(token: Option<string>, confirmed: bool, r: Response<()>): (effects: seq<Effect>)
    ensures !(JsText.Truthy(token) && confirmed) ==> effects == []
    ensures JsText.Truthy(token) && confirmed && Succeeded(r) ==> effects == [Reload]
    ensures JsText.Truthy(token) && confirmed && !Succeeded(r) ==>
              effects == [Alert(if r.Threw? then DeleteFailedText else JsText.Or(r.message, DeleteFailedText))]
  {
    Submission.DeleteEffects(token, confirmed, r, DeleteFailedText, [Reload])
  }
}
