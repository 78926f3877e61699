/**
 * The provider that wraps every page (components/AuthProvider.tsx): it starts
 * the store's bootstrap while the store is not initialised and shows a loading
 * view instead of the page until the bootstrap is over.
 */
module AuthProvider {
  import opened Http
  import opened Wrappers
  import opened Types
  import opened AuthStore
  import opened Navigation
  import JsText
  import LandingPage
  import SuperAdminDashboard
  import SchoolAdminDashboard

  /** The effect calls `initializeAuth` exactly when the store is not initialised. */
  function ShouldInitialize(s: Session): bool {
    !s.isInitialized
  }

  /** The children are rendered exactly when the store is initialised and not loading. */
  function ShowsChildren(s: Session): (shown: bool)
    ensures !shown <==> s.Bootstrapping()
  {
    !(!s.isInitialized || s.isLoading)
  }

  /**
   * The provider and the pages it wraps agree on when the bootstrap is under
   * way: the provider hides the children exactly when each page would show
   * its own initialising view (the entry page and the super-admin dashboard
   * are modelled with views), and it starts the bootstrap exactly while both
   * dashboards' guards wait.
   */
  lemma ProviderAndPagesAgree(s: Session, loading: bool, error: Option<string>)
    ensures ShowsChildren(s) <==> LandingPage.Render(s) != LandingPage.Initializing
    ensures ShowsChildren(s) <==> SuperAdminDashboard.Render(s, loading, error) != SuperAdminDashboard.Initializing
    ensures ShouldInitialize(s) <==> SuperAdminDashboard.Guard(s) == Wait
    ensures ShouldInitialize(s) <==> SchoolAdminDashboard.Guard(s) == Wait
  {
  }

  /**
   * The provider's effect on a mounted store, with `me` the answer `/auth/me`
   * gives if asked.  An initialised store is left alone; otherwise the
   * bootstrap runs, and once it has, a store that was not loading shows the
   * children.
   */
  method Mount(store: Store, me: Response<Option<User>>) returns (request: Option<string>)
    modifies store
    ensures request == (if !old(store.isInitialized) && JsText.Truthy(old(store.accessToken)) then old(store.accessToken) else None)
    ensures old(store.isInitialized) ==> store.State() == old(store.State())
    ensures request.None? ==> store.State() == old(store.State()).(isInitialized := true)
    ensures old(store.State().Consistent()) || request.Some? ==> store.State().Consistent()
    ensures !old(store.isLoading) ==> ShowsChildren(store.State())
    ensures !ShouldInitialize(store.State())
  {
    request := None;
    if ShouldInitialize(store.State()) {
      request := store.InitializeAuth(me);
    }
  }

  /** A page load: rehydrate the persisted record, then mount the provider. */
  method PageLoad(p: Persisted, me: Response<Option<User>>) returns (shown: Session, request: Option<string>)
    ensures request == (if JsText.Truthy(p.accessToken) then p.accessToken else None)
    ensures ShowsChildren(shown) && shown.Consistent() == (Rehydrate(p).Consistent() || request.Some?)
  {
    var store := new Store.Rehydrated(p);
    request := Mount(store, me);
    shown := store.State();
  }
}
