/**
 * The edit-school-admin dialog (components/EditSchoolAdmin.tsx): the form is
 * prefilled from the account it is given, the school list loads whenever the
 * dialog is open, and a save needs name, email and school, then a token.
 */
module EditSchoolAdmin {
  import opened Wrappers
  import opened Types
  import opened Http
  import opened Navigation
  import JsText
  import Submission

  const MissingText := "Name, email, and school are required"
  const SavedText := "School admin updated successfully!"
  const FailedText := "Failed to update school admin"

  datatype AdminPayload = AdminPayload(name: string, email: string, phone: string, address: string, schoolId: string)

  class Dialog {
    var name: string
    var email: string
    var phone: string
    var address: string
    var schoolId: string
    var schools: seq<School>
    var isLoading: bool

    function Form(): AdminPayload
      reads this
    {
      AdminPayload(name, email, phone, address, schoolId)
    }

    constructor ()
      ensures Form() == AdminPayload("", "", "", "", "") && schools == [] && !isLoading
    {
      name, email, phone, address, schoolId := "", "", "", "", "";
      schools, isLoading := [], false;
    }

    /** The prefill effect: a given account overwrites the five fields, a missing phone or address as "". */
    method Prefill(admin: Option<SchoolAdminAccount>)
      modifies this
      ensures admin.Some? ==>
                Form() == AdminPayload(admin.value.name, admin.value.email, JsText.Or(admin.value.phone, ""),
                                       JsText.Or(admin.value.address, ""), admin.value.schoolId)
      ensures admin.None? ==> Form() == old(Form())
      ensures schools == old(schools) && isLoading == old(isLoading)
    {
      if admin.Some? {
        name, email, schoolId := admin.value.name, admin.value.email, admin.value.schoolId;
        phone, address := JsText.Or(admin.value.phone, ""), JsText.Or(admin.value.address, "");
      }
    }

    /**
     * The school-list effect: it requests only while the dialog is open, and
     * without testing the token; an ok response replaces the list (`data || []`),
     * anything else leaves it.
     */
    method FetchSchools(open: bool, r: Response<Option<seq<School>>>) returns (requested: bool)
      modifies this
      ensures requested == open
      ensures schools == (if open && Succeeded(r) then r.data.GetOr([]) else old(schools))
      ensures Form() == old(Form()) && isLoading == old(isLoading)
    {
      requested := open;
      if open && Succeeded(r) {
        schools := r.data.GetOr([]);
      }
    }

    /** Submitting: name, email and school are checked, then the token; the five fields are sent under the account's id. */
    method Submit(adminId: string, token: Option<string>) returns (alert: Option<string>, body: Option<(string, AdminPayload)>)
      modifies this
      ensures alert == Submission.Precheck([old(name), old(email), old(schoolId)], MissingText, token)
      ensures alert.Some? ==> body == None
      ensures alert.None? ==> body == Some((adminId, old(Form())))
      ensures isLoading == (alert.None? || old(isLoading))
      ensures Form() == old(Form()) && schools == old(schools)
    {
      alert := Submission.Precheck([name, email, schoolId], MissingText, token);
      body := None;
      if alert.None? {
        isLoading := true;
        body := Some((adminId, Form()));
      }
    }

    /** The response arrives: the dialog outcome; the fields are kept on every path; `isLoading` false. */
    method Settle(r: Response<()>) returns (effects: seq<Effect>)
      modifies this
      ensures effects == Submission.DialogEffects(Submission.DialogOutcome(r, FailedText), SavedText)
      ensures !isLoading
      ensures Form() == old(Form()) && schools == old(schools)
    {
      effects := Submission.DialogEffects(Submission.DialogOutcome(r, FailedText), SavedText);
      isLoading := false;
    }
  }

  /**
   * Opening the dialog on an account and saving it untouched: it is sent
   * exactly when the account's name, email and school are non-empty and
   * there is a token, whatever its phone and address; the body is then the
   * account's own fields (a missing phone or address as "") under its own id.
   */
  method PrefilledAccountSubmits(admin: SchoolAdminAccount, token: Option<string>)
    returns (alert: Option<string>, body: Option<(string, AdminPayload)>)
    ensures alert.None? <==> admin.name != "" && admin.email != "" && admin.schoolId != "" && JsText.Truthy(token)
    ensures alert.Some? ==> body == None
    ensures alert.None? ==>
              body == Some((admin.id, AdminPayload(admin.name, admin.email, JsText.Or(admin.phone, ""),
                                                   JsText.Or(admin.address, ""), admin.schoolId)))
  {
    var dialog := new Dialog();
    dialog.Prefill(Some(admin));
    alert, body := dialog.Submit(admin.id, token);
  }
}
