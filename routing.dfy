/**
 * How the three role-gated pages fit together: the entry page's redirect and
 * each dashboard's role redirect land on the page whose guard fetches, so a
 * settled session never bounces between the dashboards.
 */
module Routing {
  import opened Navigation
  import opened Types
  import opened AuthStore
  import LandingPage
  import SuperAdminDashboard
  import SchoolAdminDashboard

  /** The guard of the page at `path`, for the two dashboards. */
  function GuardAt(path: string, s: Session): (d: Decision)
    requires path == SuperAdminHome || path == SchoolAdminHome
  {
    if path == SuperAdminHome then SuperAdminDashboard.Guard(s) else SchoolAdminDashboard.Guard(s)
  }

  /** A signed-in, initialised session is fetched by exactly one dashboard, its role's. */
  lemma ExactlyOneDashboardFetches(s: Session)
    requires s.isInitialized && s.SignedIn()
    ensures SuperAdminDashboard.Guard(s) == Fetch <==> SchoolAdminDashboard.Guard(s) != Fetch
    ensures GuardAt(HomeFor(s.user.value.role), s) == Fetch
  {
  }

  /**
   * A dashboard's guard only ever sends the browser to the entry page or to a
   * page whose guard fetches for the same session: no redirect loop.
   */
  lemma RoleRedirectsSettle(s: Session)
    ensures SuperAdminDashboard.Guard(s) == ReplaceWith(SchoolAdminHome) ==> SchoolAdminDashboard.Guard(s) == Fetch
    ensures SchoolAdminDashboard.Guard(s) == ReplaceWith(SuperAdminHome) ==> SuperAdminDashboard.Guard(s) == Fetch
    ensures SuperAdminDashboard.Guard(s).ReplaceWith? ==> SuperAdminDashboard.Guard(s).path in {Root, SchoolAdminHome}
    ensures SchoolAdminDashboard.Guard(s).ReplaceWith? ==> SchoolAdminDashboard.Guard(s).path in {Root, SuperAdminHome}
  {
  }

  /** The page the entry page pushes to fetches for the session that caused the push. */
  lemma LandingTargetFetches(s: Session, latch: bool)
    requires LandingPage.EffectStep(s, latch).push.Some?
    ensures var p := LandingPage.EffectStep(s, latch).push.value;
            (p == SuperAdminHome || p == SchoolAdminHome) && GuardAt(p, s) == Fetch
  {
  }
}
