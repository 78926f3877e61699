/**
 * The create-school dialog (components/CreateSchool.tsx): all three fields are
 * required, then a token; the handler is modelled as its part before the
 * `await` (Submit) and its part after (Settle).
 */
module CreateSchool {
  import opened Wrappers
  import opened Types
  import opened Http
  import opened Navigation
  import Submission

  const MissingText := "All fields are required"
  const SavedText := "School created successfully!"
  const FailedText := "Failed to create school"

  class Dialog {
    var schoolName: string
    var address: string
    var contact: string
    var isLoading: bool

    constructor ()
      ensures schoolName == "" && address == "" && contact == "" && !isLoading
    {
      schoolName, address, contact, isLoading := "", "", "", false;
    }

    /**
     * Submitting: the alert shown instead of sending (missing fields are
     * reported before a missing token), or None when the request goes out
     * and `isLoading` is set; the body sent is the three fields as typed.
     * The fields are untouched.
     */
    method Submit(token: Option<string>) returns (alert: Option<string>, body: Option<SchoolPayload>)
      modifies this
      ensures alert == Submission.Precheck([old(schoolName), old(address), old(contact)], MissingText, token)
      ensures body.Some? <==> alert.None?
      ensures body.Some? ==> body.value == SchoolPayload(old(schoolName), old(address), old(contact))
      ensures isLoading == (alert.None? || old(isLoading))
      ensures schoolName == old(schoolName) && address == old(address) && contact == old(contact)
    {
      alert, body := Submission.Precheck([schoolName, address, contact], MissingText, token), None;
      if alert.None? {
        isLoading := true;
        body := Some(SchoolPayload(schoolName, address, contact));
      }
    }

    /**
     * The response arrives: success alerts, closes, notifies the parent and
     * clears the three fields; 401 alerts and leaves for "/"; other failures
     * alert.  `isLoading` ends false on every path.
     */
    method Settle(r: Response<()>) returns (effects: seq<Effect>)
      modifies this
      ensures effects == Submission.DialogEffects(Submission.DialogOutcome(r, FailedText), SavedText)
      ensures !isLoading
      ensures Succeeded(r) ==> schoolName == "" && address == "" && contact == ""
      ensures !Succeeded(r) ==> schoolName == old(schoolName) && address == old(address) && contact == old(contact)
    {
      var outcome := Submission.DialogOutcome(r, FailedText);
      effects := Submission.DialogEffects(outcome, SavedText);
      if outcome == Submission.Saved {
        schoolName, address, contact := "", "", "";
      }
      isLoading := false;
    }
  }
}
