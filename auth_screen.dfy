/**
 * The auth screen (components/auth-screen.tsx): which card is shown and which
 * role is selected, and what the screen shows around the card.  The sign-up
 * card takes no role; only the screen's own sign-up button resets the
 * selection to the super administrator.
 */
module AuthScreen {
  import opened Types

  datatype Flow = SignIn | SignUp

  datatype CardShown = SignInCardFor(role: UserRole) | SignUpCardShown

  /** What the screen shows: the role picker, the card, and the notice for school administrators. */
  datatype Screen = Screen(rolePicker: bool, card: CardShown, schoolAdminNotice: bool)

  function View(flow: Flow, role: UserRole): (s: Screen)
    ensures s.rolePicker <==> flow == SignIn
    ensures s.schoolAdminNotice <==> flow == SignIn && role == SchoolAdmin
    ensures flow == SignIn ==> s.card == SignInCardFor(role)
    ensures flow == SignUp ==> s.card == SignUpCardShown
  {
    if flow == SignIn then Screen(true, SignInCardFor(role), role == SchoolAdmin)
    else Screen(false, SignUpCardShown, false)
  }

  class State {
    var authState: Flow
    var selectedRole: UserRole

    constructor ()
      ensures authState == SignIn && selectedRole == SuperAdmin
    {
      authState, selectedRole := SignIn, SuperAdmin;
    }

    /** A role radio button; the picker exists only in the sign-in flow. */
    method SelectRole(role: UserRole)
      requires authState == SignIn
      modifies this
      ensures authState == SignIn && selectedRole == role
    {
      selectedRole := role;
    }

    /** The screen's "Sign up as Super Admin": switch to sign-up and force the super administrator role. */
    method ShowSignUp()
      modifies this
      ensures authState == SignUp && selectedRole == SuperAdmin
    {
      authState := SignUp;
      selectedRole := SuperAdmin;
    }

    /** The sign-in card's own "Sign up" link: it sets only the flow, so the selected role stays. */
    method CardSignUp()
      requires authState == SignIn
      modifies this
      ensures authState == SignUp && selectedRole == old(selectedRole)
    {
      authState := SignUp;
    }

    /** "Sign in", on the screen or on the sign-up card: switch back to sign-in, keeping the role. */
    method ShowSignIn()
      modifies this
      ensures authState == SignIn && selectedRole == old(selectedRole)
    {
      authState := SignIn;
    }
  }

  /** Through the screen's button, going to sign-up and back leaves the super administrator selected. */
  method SignUpAndBack(role: UserRole) returns (shown: Screen)
    ensures shown == Screen(true, SignInCardFor(SuperAdmin), false)
  {
    var screen := new State();
    screen.SelectRole(role);
    screen.ShowSignUp();
    screen.ShowSignIn();
    shown := View(screen.authState, screen.selectedRole);
  }

  /**
   * Through the sign-in card's link, going to sign-up and back shows the card
   * and the notice of the role picked before.
   */
  method CardSignUpAndBack(role: UserRole) returns (shown: Screen)
    ensures shown == Screen(true, SignInCardFor(role), role == SchoolAdmin)
    ensures role == SchoolAdmin ==> shown.schoolAdminNotice
  {
    var screen := new State();
    screen.SelectRole(role);
    screen.CardSignUp();
    screen.ShowSignIn();
    shown := View(screen.authState, screen.selectedRole);
  }
}
