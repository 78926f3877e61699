/**
 * The super administrator's create-bus dialog (components/CreateBus.tsx): the
 * bus number and capacity are required, then a token; the capacity is sent as
 * `parseInt` of its text.
 */
module CreateBus {
  import opened Wrappers
  import opened Http
  import opened Navigation
  import JsText
  import Submission

  const MissingText := "All fields are required"
  const SavedText := "Bus created successfully!"
  const FailedText := "Failed to create bus"

  /** The JSON body; a capacity `parseInt` cannot read is `NaN`, sent as null (None). */
  datatype BusBody = BusBody(busNumber: string, capacity: Option<int>)

  class Dialog {
    var busNumber: string
    var capacity: string
    var isLoading: bool

    constructor ()
      ensures busNumber == "" && capacity == "" && !isLoading
    {
      busNumber, capacity, isLoading := "", "", false;
    }

    /** Submitting: the checks, then the body sent with the parsed capacity. */
    method Submit(token: Option<string>) returns (alert: Option<string>, body: Option<BusBody>)
      modifies this
      ensures alert == Submission.Precheck([old(busNumber), old(capacity)], MissingText, token)
      ensures alert.Some? ==> body == None
      ensures alert.None? ==> body == Some(BusBody(old(busNumber), JsText.ParseInt(old(capacity))))
      ensures isLoading == (alert.None? || old(isLoading))
      ensures busNumber == old(busNumber) && capacity == old(capacity)
    {
      alert := Submission.Precheck([busNumber, capacity], MissingText, token);
      body := None;
      if alert.None? {
        isLoading := true;
        body := Some(BusBody(busNumber, JsText.ParseInt(capacity)));
      }
    }

    /** The response arrives: the dialog outcome; both fields cleared on success; `isLoading` false. */
    method Settle(r: Response<()>) returns (effects: seq<Effect>)
      modifies this
      ensures effects == Submission.DialogEffects(Submission.DialogOutcome(r, FailedText), SavedText)
      ensures !isLoading
      ensures Succeeded(r) ==> busNumber == "" && capacity == ""
      ensures !Succeeded(r) ==> busNumber == old(busNumber) && capacity == old(capacity)
    {
      var outcome := Submission.DialogOutcome(r, FailedText);
      effects := Submission.DialogEffects(outcome, SavedText);
      if outcome == Submission.Saved {
        busNumber, capacity := "", "";
      }
      isLoading := false;
    }
  }

  /**
   * A capacity typed as a decimal numeral, possibly after blanks, is sent as
   * that number; an empty text would be sent as null, but it is refused first.
   */
  lemma CapacityParsing(n: int, blanks: nat)
    ensures JsText.ParseInt(seq(blanks, _ => ' ') + JsText.NumberToString(n)) == Some(n)
    ensures JsText.ParseInt("") == None
  {
    JsText.ParseIntOfNumberToString(n);
    JsText.ParseIntSkipsBlanks(JsText.NumberToString(n), blanks);
    JsText.ParseIntOfEmpty();
  }
}
