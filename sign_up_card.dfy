/**
 * The super administrator sign-up card (components/sign-up-card.tsx): all four
 * fields are required; a successful registration signs the store in, clears
 * the form and sends the browser to the super administrator's dashboard.
 */
module SignUpCard {
  import opened Wrappers
  import opened Types
  import opened Http
  import opened Navigation
  import opened AuthStore
  import JsText
  import Submission

  const MissingText := "All fields are required including the secret key"
  const FailedText := "Registration failed"

  class Card {
    var name: string
    var email: string
    var password: string
    var secretKey: string
    var isLoading: bool
    var showPassword: bool
    var showSecretKey: bool

    constructor ()
      ensures name == "" && email == "" && password == "" && secretKey == ""
      ensures !isLoading && !showPassword && !showSecretKey
    {
      name, email, password, secretKey := "", "", "", "";
      isLoading, showPassword, showSecretKey := false, false, false;
    }

    /**
     * Submitting with any field empty alerts and changes nothing (`isLoading`
     * included); otherwise `isLoading` is set and the four fields are posted.
     */
    method Submit() returns (alert: Option<string>, body: Option<(string, string, string, string)>)
      modifies this
      ensures alert.None? <==> Submission.AllPresent([old(name), old(email), old(password), old(secretKey)])
      ensures alert.Some? ==> alert == Some(MissingText) && body == None && isLoading == old(isLoading)
      ensures alert.None? ==> body == Some((old(name), old(email), old(password), old(secretKey))) && isLoading
      ensures name == old(name) && email == old(email) && password == old(password) && secretKey == old(secretKey)
      ensures showPassword == old(showPassword) && showSecretKey == old(showSecretKey)
    {
      if name == "" || email == "" || password == "" || secretKey == "" {
        return Some(MissingText), None;
      }
      isLoading := true;
      alert, body := None, Some((name, email, password, secretKey));
    }

    /**
     * The response arrives: on success the store is signed in, the four fields
     * are cleared, both visibility toggles are off and the browser goes to
     * "/dashboard"; otherwise the store and the form are untouched and the
     * card alerts.  Either way `isLoading` ends false.
     */
    method Settle(r: Response<LoginResult>, store: Store) returns (effects: seq<Effect>)
      modifies this, store
      ensures !isLoading
      ensures Succeeded(r) ==>
                store.State() == old(store.State()).(user := Some(r.data.user), isAuthenticated := true,
                                                     accessToken := Some(r.data.accessToken),
                                                     refreshToken := JsText.OrNull(r.data.refreshToken))
                && name == "" && email == "" && password == "" && secretKey == ""
                && !showPassword && !showSecretKey
                && effects == [Assign(SuperAdminHome)]
      ensures !Succeeded(r) ==>
                store.State() == old(store.State()) &&
                name == old(name) && email == old(email) && password == old(password) && secretKey == old(secretKey) &&
                showPassword == old(showPassword) && showSecretKey == old(showSecretKey) &&
                effects == [Alert(Submission.ThrowingOutcome(r, FailedText, FailedText).text)]
    {
      var outcome := Submission.ThrowingOutcome(r, FailedText, FailedText);
      if outcome == Submission.Saved {
        store.Login(r.data.user, r.data.accessToken, r.data.refreshToken);
        name, email, password, secretKey := "", "", "", "";
        showPassword, showSecretKey := false, false;
        isLoading := false;
        effects := [Assign(SuperAdminHome)];
      } else {
        effects := [Alert(outcome.text)];
        isLoading := false;
      }
    }
  }
}
