/**
 * The edit-school dialog (components/EditSchool.tsx): the form is prefilled
 * from the school it is given; only the name is required, then a token; a
 * successful save closes the dialog without clearing the form.
 */
module EditSchool {
  import opened Wrappers
  import opened Types
  import opened Http
  import opened Navigation
  import JsText
  import Submission

  const MissingText := "School name is required"
  const SavedText := "School updated successfully!"
  const FailedText := "Failed to update school"

  class Dialog {
    var name: string
    var address: string
    var contact: string
    var isLoading: bool

    constructor ()
      ensures name == "" && address == "" && contact == "" && !isLoading
    {
      name, address, contact, isLoading := "", "", "", false;
    }

    /** The prefill effect: a given school overwrites the three fields; no school leaves them. */
    method Prefill(school: Option<School>)
      modifies this
      ensures school.Some? ==> name == school.value.name && address == school.value.address && contact == school.value.contact
      ensures school.None? ==> name == old(name) && address == old(address) && contact == old(contact)
      ensures isLoading == old(isLoading)
    {
      if school.Some? {
        name, address, contact := school.value.name, school.value.address, school.value.contact;
      }
    }

    /**
     * Submitting for the school with id `schoolId`: only the name is checked,
     * then the token; address and contact may be empty.  When sent, the body
     * is the three fields as they stand, under that id.
     */
    method Submit(schoolId: string, token: Option<string>) returns (alert: Option<string>, sent: Option<(string, SchoolPayload)>)
      modifies this
      ensures alert == Submission.Precheck([old(name)], MissingText, token)
      ensures sent.Some? <==> alert.None?
      ensures sent.Some? ==> sent.value == (schoolId, SchoolPayload(old(name), old(address), old(contact)))
      ensures isLoading == (alert.None? || old(isLoading))
      ensures name == old(name) && address == old(address) && contact == old(contact)
    {
      alert, sent := Submission.Precheck([name], MissingText, token), None;
      if alert.None? {
        isLoading := true;
        sent := Some((schoolId, SchoolPayload(name, address, contact)));
      }
    }

    /** The response arrives: the dialog outcome; the fields are kept on every path; `isLoading` false. */
    method Settle(r: Response<()>) returns (effects: seq<Effect>)
      modifies this
      ensures effects == Submission.DialogEffects(Submission.DialogOutcome(r, FailedText), SavedText)
      ensures !isLoading
      ensures name == old(name) && address == old(address) && contact == old(contact)
    {
      effects := Submission.DialogEffects(Submission.DialogOutcome(r, FailedText), SavedText);
      isLoading := false;
    }
  }

  /**
   * Opening the dialog on a school and saving it untouched: it is sent
   * exactly when the school has a name and there is a token, and then the
   * body is the school's own three fields under its own id.
   */
  method PrefilledSchoolSubmits(school: School, token: Option<string>)
    returns (alert: Option<string>, sent: Option<(string, SchoolPayload)>)
    ensures alert.None? <==> school.name != "" && JsText.Truthy(token)
    ensures sent.Some? <==> alert.None?
    ensures sent.Some? ==> sent.value == (school.id, SchoolPayload(school.name, school.address, school.contact))
    ensures school.name == "" ==> alert == Some(MissingText)
  {
    var dialog := new Dialog();
    dialog.Prefill(Some(school));
    alert, sent := dialog.Submit(school.id, token);
  }
}
