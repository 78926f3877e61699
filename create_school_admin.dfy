/**
 * The create-school-admin dialog (components/CreateSchoolAdmin.tsx): name,
 * email, password and school are required, contact number and address are
 * not; then a token.  Success clears all six fields.
 */
module CreateSchoolAdmin {
  import opened Wrappers
  import opened Http
  import opened Navigation
  import JsText
  import Submission

  const MissingText := "Name, email, password, and school are required"
  const SavedText := "School admin created successfully!"
  const FailedText := "Failed to create school admin"

  datatype AdminForm = AdminForm(
    name: string, email: string, password: string, contactNumber: string, address: string, schoolId: string)

  const BlankForm := AdminForm("", "", "", "", "", "")

  /** The fields the dialog insists on, in the order it tests them. */
  function Required(f: AdminForm): seq<string> {
    [f.name, f.email, f.password, f.schoolId]
  }

  class Dialog {
    var form: AdminForm
    var isLoading: bool

    constructor ()
      ensures form == BlankForm && !isLoading
    {
      form, isLoading := BlankForm, false;
    }

    /** Submitting: the checks; when they pass `isLoading` is set and the six fields are posted. */
    method Submit(token: Option<string>) returns (alert: Option<string>, body: Option<AdminForm>)
      modifies this
      ensures alert == Submission.Precheck(Required(old(form)), MissingText, token)
      ensures alert.Some? ==> body == None
      ensures alert.None? ==> body == Some(old(form))
      ensures isLoading == (alert.None? || old(isLoading))
      ensures form == old(form)
    {
      alert := Submission.Precheck(Required(form), MissingText, token);
      body := None;
      if alert.None? {
        isLoading := true;
        body := Some(form);
      }
    }

    /** The response arrives: the dialog outcome; all six fields cleared on success; `isLoading` false. */
    method Settle(r: Response<()>) returns (effects: seq<Effect>)
      modifies this
      ensures effects == Submission.DialogEffects(Submission.DialogOutcome(r, FailedText), SavedText)
      ensures !isLoading
      ensures form == (if Succeeded(r) then BlankForm else old(form))
    {
      var outcome := Submission.DialogOutcome(r, FailedText);
      effects := Submission.DialogEffects(outcome, SavedText);
      if outcome == Submission.Saved {
        form := BlankForm;
      }
      isLoading := false;
    }
  }

  /**
   * A dialog whose fields were typed as `f`, submitted: it is sent exactly
   * when name, email, password and school are non-empty and there is a
   * token, whatever the contact number and address hold, and the body is
   * then `f` with the optional fields as typed, empty ones included.
   */
  method TypedFormSubmits(f: AdminForm, token: Option<string>) returns (alert: Option<string>, body: Option<AdminForm>)
    ensures alert.None? <==> f.name != "" && f.email != "" && f.password != "" && f.schoolId != "" && JsText.Truthy(token)
    ensures alert.Some? ==> body == None
    ensures alert.None? ==> body == Some(f)
  {
    var dialog := new Dialog();
    dialog.form := f;
    alert, body := dialog.Submit(token);
  }
}
