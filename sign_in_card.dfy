/**
 * The sign-in card (components/sign-in-card.tsx): it posts the credentials to
 * the login endpoint of the role chosen on the auth screen, signs the store in
 * from the response, and sends the browser to that role's dashboard; a
 * failure only alerts.  The submit handler is modelled as its part before the
 * `await` (Submit) and its part after (Settle).
 */
module SignInCard {
  import opened Wrappers
  import opened Types
  import opened Http
  import opened Navigation
  import opened AuthStore
  import JsText
  import Submission
  import Routing

  const InvalidCredentialsText := "Invalid credentials"
  const NonErrorText := "Invalid email or password"

  const SuperAdminLogin := "/super-admin/login"
  const SchoolAdminLogin := "/school-admin/login"

  /** The login endpoint for the chosen role. */
  function EndpointFor(role: UserRole): (endpoint: string)
    ensures endpoint == SuperAdminLogin <==> role.SuperAdmin?
    ensures endpoint == SchoolAdminLogin <==> role.SchoolAdmin?
  {
    if role.SuperAdmin? then SuperAdminLogin else SchoolAdminLogin
  }

  class Card {
    const role: UserRole
    var email: string
    var password: string
    var isLoading: bool
    var showPassword: bool

    constructor (role: UserRole)
      ensures this.role == role && email == "" && password == "" && !isLoading && !showPassword
    {
      this.role := role;
      email, password, isLoading, showPassword := "", "", false, false;
    }

    /** Submitting sets `isLoading` and posts `{ email, password }` to the role's endpoint. */
    method Submit() returns (endpoint: string, body: (string, string))
      modifies this
      ensures endpoint == EndpointFor(role) && body == (old(email), old(password))
      ensures isLoading
      ensures email == old(email) && password == old(password) && showPassword == old(showPassword)
    {
      isLoading := true;
      endpoint := EndpointFor(role);
      body := (email, password);
    }

    /**
     * The response arrives: on success the store is signed in with the
     * returned user and tokens and the browser goes to the chosen role's
     * dashboard; otherwise the store is untouched and the card alerts.
     * Either way `isLoading` ends false.
     */
    method Settle(r: Response<LoginResult>, store: Store) returns (effects: seq<Effect>)
      modifies this, store
      ensures !isLoading && email == old(email) && password == old(password) && showPassword == old(showPassword)
      ensures Succeeded(r) ==>
                store.State() == old(store.State()).(user := Some(r.data.user), isAuthenticated := true,
                                                     accessToken := Some(r.data.accessToken),
                                                     refreshToken := JsText.OrNull(r.data.refreshToken))
                && effects == [Assign(HomeFor(role))]
      ensures !Succeeded(r) ==>
                store.State() == old(store.State()) &&
                effects == [Alert(Submission.ThrowingOutcome(r, InvalidCredentialsText, NonErrorText).text)]
    {
      var outcome := Submission.ThrowingOutcome(r, InvalidCredentialsText, NonErrorText);
      if outcome == Submission.Saved {
        store.Login(r.data.user, r.data.accessToken, r.data.refreshToken);
        isLoading := false;
        effects := [Assign(HomeFor(role))];
      } else {
        effects := [Alert(outcome.text)];
        isLoading := false;
      }
    }
  }

  /**
   * The card redirects by the role chosen on the screen, not by the role the
   * server returns: the dashboard it lands on fetches for the signed-in
   * session exactly when the two agree, and bounces the user on otherwise.
   */
  lemma RedirectFollowsChosenRole(s: Session, role: UserRole, result: LoginResult)
    requires s.isInitialized && result.accessToken != ""
    ensures var after := s.(user := Some(result.user), isAuthenticated := true,
                            accessToken := Some(result.accessToken),
                            refreshToken := JsText.OrNull(result.refreshToken));
            after.Consistent() &&
            (Routing.GuardAt(HomeFor(role), after) == Fetch <==> result.user.role == role)
  {
  }
}
