/**
 * The session store (store/authStore.ts): one record of six fields, the
 * setters that overwrite some of them, `login`, `logout`, and the bootstrap
 * `initializeAuth`, which validates a stored token against `/auth/me`.  The
 * bootstrap is asynchronous; it is modelled as its part before the `await`
 * (BeginInitialize) and its part after (CompleteInitialize), with the
 * `/auth/me` result as an input.  Persistence is modelled by `partialize` and
 * by rehydration, which copies the persisted record into a fresh store.
 */
module AuthStore {
  import opened Wrappers
  import opened Types
  import opened Http
  import JsText

  /** A snapshot of the store's six fields: what a component's `useAuthStore()` reads. */
  datatype Session = Session(
    user: Option<User>,
    isAuthenticated: bool,
    isLoading: bool,
    isInitialized: bool,
    accessToken: Option<string>,
    refreshToken: Option<string>)
  {
    /** The session invariant: an authenticated session holds a user and a token. */
    predicate Consistent() {
      isAuthenticated ==> user.Some? && accessToken.Some?
    }

    /** `isAuthenticated && user && accessToken`, the test the pages apply (an empty token is falsy). */
    predicate SignedIn() {
      isAuthenticated && user.Some? && JsText.Truthy(accessToken)
    }

    /** `!isInitialized || isLoading`: while this holds the pages and the provider show "Initializing...". */
    predicate Bootstrapping() {
      !isInitialized || isLoading
    }
  }

  /** The store as created, before rehydration. */
  const Initial := Session(None, false, false, false, None, None)

  /** The state every failed validation ends in: credentials gone, bootstrap finished. */
  const Rejected := Session(None, false, false, true, None, None)

  /** The record `partialize` hands to the persistence layer. */
  datatype Persisted = Persisted(
    user: Option<User>,
    isAuthenticated: bool,
    accessToken: Option<string>,
    refreshToken: Option<string>)

  function Partialize(s: Session): Persisted {
    Persisted(s.user, s.isAuthenticated, s.accessToken, s.refreshToken)
  }

  /**
   * A fresh store with the persisted record copied over it: what a reload
   * starts from.  It persists the same record again, and it is neither
   * initialised nor loading, so the bootstrap has still to run.
   */
  function Rehydrate(p: Persisted): (s: Session)
    ensures Partialize(s) == p
    ensures !s.isInitialized && !s.isLoading
    ensures s.Consistent() <==> (p.isAuthenticated ==> p.user.Some? && p.accessToken.Some?)
  {
    Initial.(user := p.user, isAuthenticated := p.isAuthenticated,
             accessToken := p.accessToken, refreshToken := p.refreshToken)
  }

  /**
   * Exactly user, isAuthenticated and the two tokens are persisted: the record
   * does not depend on the two flags, and a reload restores the four fields
   * with both flags false.
   */
  lemma PersistedSubset(s: Session, loading: bool, initialized: bool)
    ensures Partialize(s.(isLoading := loading, isInitialized := initialized)) == Partialize(s)
    ensures Rehydrate(Partialize(s)) == s.(isLoading := false, isInitialized := false)
    ensures Partialize(Rehydrate(Partialize(s))) == Partialize(s)
  {
  }

  /**
   * `/auth/me` accepted the token and named a user.  An ok response without a
   * `user` throws when the role is logged and so ends like a rejection.
   */
  predicate Accepts(me: Response<Option<User>>) {
    Succeeded(me) && me.data.Some?
  }

  class Store {
    var user: Option<User>
    var isAuthenticated: bool
    var isLoading: bool
    var isInitialized: bool
    var accessToken: Option<string>
    var refreshToken: Option<string>

    function State(): Session
      reads this
    {
      Session(user, isAuthenticated, isLoading, isInitialized, accessToken, refreshToken)
    }

    constructor ()
      ensures State() == Initial
    {
      user, isAuthenticated, isLoading, isInitialized := None, false, false, false;
      accessToken, refreshToken := None, None;
    }

    /** The store after a page load that found `p` in storage. */
    constructor Rehydrated(p: Persisted)
      ensures State() == Rehydrate(p)
    {
      user, isAuthenticated, isLoading, isInitialized := p.user, p.isAuthenticated, false, false;
      accessToken, refreshToken := p.accessToken, p.refreshToken;
    }

    /** `setUser`: authenticated exactly when a user is given; it can break the invariant. */
    method SetUser(u: Option<User>)
      modifies this
      ensures State() == old(State()).(user := u, isAuthenticated := u.Some?)
    {
      user, isAuthenticated := u, u.Some?;
    }

    method SetAuthenticated(status: bool)
      modifies this
      ensures State() == old(State()).(isAuthenticated := status)
    {
      isAuthenticated := status;
    }

    method SetLoading(loading: bool)
      modifies this
      ensures State() == old(State()).(isLoading := loading)
    {
      isLoading := loading;
    }

    method SetInitialized(initialized: bool)
      modifies this
      ensures State() == old(State()).(isInitialized := initialized)
    {
      isInitialized := initialized;
    }

    /** `setTokens`: only the two tokens change; a missing or empty refresh token is stored as null. */
    method SetTokens(access: string, refresh: Option<string>)
      modifies this
      ensures State() == old(State()).(accessToken := Some(access), refreshToken := JsText.OrNull(refresh))
      ensures old(State().Consistent()) ==> State().Consistent()
    {
      accessToken, refreshToken := Some(access), JsText.OrNull(refresh);
    }

    /** `login`: signs in unconditionally and leaves the two flags alone. */
    method Login(u: User, access: string, refresh: Option<string>)
      modifies this
      ensures State() == old(State()).(user := Some(u), isAuthenticated := true,
                                       accessToken := Some(access), refreshToken := JsText.OrNull(refresh))
      ensures State().Consistent()
    {
      user, isAuthenticated := Some(u), true;
      accessToken, refreshToken := Some(access), JsText.OrNull(refresh);
    }

    /** `logout`: clears identity and tokens; `isInitialized` and `isLoading` are untouched. */
    method Logout()
      modifies this
      ensures State() == old(State()).(user := None, isAuthenticated := false, accessToken := None, refreshToken := None)
      ensures State().Consistent()
    {
      user, isAuthenticated, accessToken, refreshToken := None, false, None, None;
    }

    /**
     * `initializeAuth` up to its `await`: nothing when already initialised;
     * with no (or an empty) token only `isInitialized` is set; otherwise
     * `isLoading` is set and the token is sent to `/auth/me` (the `request`).
     * Nothing here stops a second call while a first is in flight.
     */
    method BeginInitialize() returns (request: Option<string>)
      modifies this
      ensures old(isInitialized) ==> request == None && State() == old(State())
      ensures !old(isInitialized) && !JsText.Truthy(old(accessToken)) ==>
                request == None && State() == old(State()).(isInitialized := true)
      ensures !old(isInitialized) && JsText.Truthy(old(accessToken)) ==>
                request == old(accessToken) && State() == old(State()).(isLoading := true)
    {
      if isInitialized {
        return None;
      }
      if !JsText.Truthy(accessToken) {
        isInitialized := true;
        return None;
      }
      isLoading := true;
      request := accessToken;
    }

    /**
     * `initializeAuth` after its `await`: an accepted token installs the
     * server's user and keeps both tokens; a rejection, an exception or an ok
     * body without a user all clear the session.  Either way the bootstrap is
     * over: initialised and not loading.
     */
    method CompleteInitialize(me: Response<Option<User>>)
      modifies this
      ensures Accepts(me) ==>
                State() == old(State()).(user := me.data, isAuthenticated := true, isInitialized := true, isLoading := false)
      ensures !Accepts(me) ==> State() == Rejected
      ensures State().isInitialized && !State().isLoading
      ensures old(accessToken).Some? ==> State().Consistent()
    {
      if Accepts(me) {
        user, isAuthenticated, isInitialized, isLoading := me.data, true, true, false;
      } else {
        user, isAuthenticated, isInitialized, isLoading := None, false, true, false;
        accessToken, refreshToken := None, None;
      }
    }

    /**
     * One whole `initializeAuth` run with no other store call in between, with
     * `me` the answer `/auth/me` gives if it is asked.  Every path keeps the
     * invariant, and every path leaves the store initialised.
     */
    method InitializeAuth(me: Response<Option<User>>) returns (request: Option<string>)
      modifies this
      ensures request == (if !old(isInitialized) && JsText.Truthy(old(accessToken)) then old(accessToken) else None)
      ensures old(isInitialized) ==> State() == old(State())
      ensures !old(isInitialized) && request.None? ==> State() == old(State()).(isInitialized := true)
      ensures request.Some? && Accepts(me) ==>
                State() == old(State()).(user := me.data, isAuthenticated := true, isInitialized := true, isLoading := false)
      ensures request.Some? && !Accepts(me) ==> State() == Rejected
      ensures old(State().Consistent()) ==> State().Consistent()
      ensures State().isInitialized
    {
      request := BeginInitialize();
      if request.Some? {
        CompleteInitialize(me);
      }
    }
  }

  /**
   * `setUser` breaks the invariant: on a fresh store it authenticates a user
   * with no access token.
   */
  method SetUserWithoutToken(u: User) returns (after: Session)
    ensures after.isAuthenticated && after.accessToken.None? && !after.Consistent()
  {
    var store := new Store();
    store.SetUser(Some(u));
    after := store.State();
  }

  /** `setAuthenticated(true)` breaks the invariant on a fresh store. */
  method AuthenticatedWithoutUser() returns (after: Session)
    ensures after.isAuthenticated && after.user.None? && !after.Consistent()
  {
    var store := new Store();
    store.SetAuthenticated(true);
    after := store.State();
  }

  /**
   * The bootstrap is not single-flight: two calls made before the first one's
   * response arrives both send the stored token to `/auth/me`.
   */
  method OverlappingBootstraps(p: Persisted) returns (first: Option<string>, second: Option<string>)
    requires JsText.Truthy(p.accessToken)
    ensures first == p.accessToken && second == p.accessToken
  {
    var store := new Store.Rehydrated(p);
    first := store.BeginInitialize();
    second := store.BeginInitialize();
  }

  /**
   * Sign in, reload the page (persist, rehydrate a fresh store) and bootstrap
   * against a server that accepts the token and returns the same user: the
   * session comes back signed in as that user with the same tokens.
   */
  method ReloadAfterLogin(u: User, access: string, refresh: Option<string>) returns (restored: Session)
    ensures restored == Session(Some(u), true, false, true, Some(access), JsText.OrNull(refresh))
  {
    var before := new Store();
    before.Login(u, access, refresh);
    var saved := Partialize(before.State());
    var after := new Store.Rehydrated(saved);
    var _ := after.InitializeAuth(Response(200, None, Some(u)));
    restored := after.State();
  }

  /**
   * Reload with a stored token the server rejects: the stale user and tokens
   * are gone and the bootstrap is finished.
   */
  method ReloadWithRejectedToken(p: Persisted, status: int) returns (restored: Session)
    requires JsText.Truthy(p.accessToken) && !IsOk(status)
    ensures restored == Rejected
    ensures !restored.SignedIn() && !restored.Bootstrapping()
  {
    var after := new Store.Rehydrated(p);
    var _ := after.InitializeAuth(Response(status, None, None));
    restored := after.State();
  }
}
