/**
 * The entry page (app/page.tsx): an effect that sends a signed-in user to the
 * dashboard of their role at most once per sign-in, remembered in the
 * `hasRedirected` ref, and a three-way choice of what to show.
 */
module LandingPage {
  import opened Wrappers
  import opened Navigation
  import opened AuthStore
  import JsText

  /** The latch after one run of the effect, and the `router.push` it issued. */
  datatype Step = Step(latch: bool, push: Option<string>)

  /**
   * One run of the effect on the session `s` with the latch at `latch`.  A
   * session that is not signed in clears the latch; an initialised signed-in
   * session with the latch clear sets it and pushes the role's dashboard;
   * otherwise nothing happens.
   */
  function EffectStep(s: Session, latch: bool): (st: Step)
    ensures !s.SignedIn() ==> st == Step(false, None)
    ensures s.SignedIn() && s.isInitialized && !latch ==> st == Step(true, Some(HomeFor(s.user.value.role)))
    ensures s.SignedIn() && (latch || !s.isInitialized) ==> st == Step(latch, None)
    ensures st.push.Some? <==> s.SignedIn() && s.isInitialized && !latch
  {
    if !s.SignedIn() then Step(false, None)
    else if s.isInitialized && !latch then Step(true, Some(HomeFor(s.user.value.role)))
    else Step(latch, None)
  }

  /** The pushes issued by the effect over successive sessions, starting from `latch`. */
  function Pushes(trace: seq<Session>, latch: bool): seq<string>
    decreases |trace|
  {
    if trace == [] then []
    else
      var st := EffectStep(trace[0], latch);
      (if st.push.Some? then [st.push.value] else []) + Pushes(trace[1..], st.latch)
  }

  predicate SignedInThroughout(trace: seq<Session>) {
    forall i :: 0 <= i < |trace| ==> trace[i].SignedIn()
  }

  predicate InitializedSomewhere(trace: seq<Session>) {
    exists i :: 0 <= i < |trace| && trace[i].isInitialized
  }

  lemma InitializedSomewhereSplit(trace: seq<Session>)
    requires trace != []
    ensures InitializedSomewhere(trace) <==> trace[0].isInitialized || InitializedSomewhere(trace[1..])
  {
    if InitializedSomewhere(trace) && !trace[0].isInitialized {
      var i :| 0 <= i < |trace| && trace[i].isInitialized;
      assert trace[1..][i - 1] == trace[i];
    }
    if InitializedSomewhere(trace[1..]) {
      var j :| 0 <= j < |trace[1..]| && trace[1..][j].isInitialized;
      assert trace[j + 1] == trace[1..][j];
    }
  }

  /**
   * While the session stays signed in, the page pushes exactly once if the
   * latch starts clear and the session is initialised at some point, and
   * never otherwise; a set latch suppresses every push.
   */
  lemma {:induction false} AtMostOnePushPerSignIn(trace: seq<Session>, latch: bool)
    requires SignedInThroughout(trace)
    ensures latch ==> Pushes(trace, latch) == []
    ensures !latch ==> |Pushes(trace, latch)| == (if InitializedSomewhere(trace) then 1 else 0)
    decreases |trace|
  {
    if trace != [] {
      var st := EffectStep(trace[0], latch);
      assert SignedInThroughout(trace[1..]) by {
        forall i | 0 <= i < |trace[1..]|
          ensures trace[1..][i].SignedIn()
        {
          assert trace[1..][i] == trace[i + 1];
        }
      }
      AtMostOnePushPerSignIn(trace[1..], st.latch);
      InitializedSomewhereSplit(trace);
    }
  }

  /** The page's own latch, a ref that survives re-renders. */
  class Landing {
    var hasRedirected: bool

    constructor ()
      ensures !hasRedirected
    {
      hasRedirected := false;
    }

    method RunEffect(s: Session) returns (push: Option<string>)
      modifies this
      ensures Step(hasRedirected, push) == EffectStep(s, old(hasRedirected))
    {
      if !s.isAuthenticated || s.user.None? || !JsText.Truthy(s.accessToken) {
        hasRedirected := false;
        return None;
      }
      push := None;
      if s.isInitialized && !hasRedirected {
        hasRedirected := true;
        push := Some(HomeFor(s.user.value.role));
      }
    }
  }

  datatype View = Initializing | Redirecting | SignInScreen

  /** Loading first, then the redirect spinner for a signed-in session, else the auth screen. */
  function Render(s: Session): (v: View)
    ensures v == Initializing <==> s.Bootstrapping()
    ensures v == Redirecting <==> !s.Bootstrapping() && s.SignedIn()
    ensures v == SignInScreen <==> !s.Bootstrapping() && !s.SignedIn()
  {
    if !s.isInitialized || s.isLoading then Initializing
    else if s.isAuthenticated && s.user.Some? && JsText.Truthy(s.accessToken) then Redirecting
    else SignInScreen
  }

  /** Whenever the redirect spinner shows with the latch clear, the effect pushes the role's dashboard. */
  lemma RedirectingPushes(s: Session, latch: bool)
    requires Render(s) == Redirecting && !latch
    ensures EffectStep(s, latch) == Step(true, Some(HomeFor(s.user.value.role)))
  {
  }
}
