/**
 * The super administrator's dashboard (app/dashboard/page.tsx): a guard that
 * decides, from the session, between waiting, leaving and fetching; a render
 * gate; and `fetchData`, which asks for the schools, the school admins and the
 * totals in that order and stops at the first failure.
 */
module SuperAdminDashboard {
  import opened Wrappers
  import opened Types
  import opened Http
  import opened Navigation
  import opened AuthStore
  import JsText

  const NoAccessTokenText := "No access token found. Please login again."
  /** The message for a thrown value that is not an `Error`. */
  const FallbackText := "Failed to fetch dashboard data"

  const SchoolsEndpoint := "/super-admin/schools"
  const AdminsEndpoint := "/super-admin/school-admins"
  const StatsEndpoint := "/super-admin/stats"
  const Endpoints := [SchoolsEndpoint, AdminsEndpoint, StatsEndpoint]

  /** The seven totals on the page. */
  datatype Totals = Totals(
    schools: int, schoolAdmins: int, buses: int, drivers: int,
    routes: int, children: int, parents: int)

  const NoTotals := Totals(0, 0, 0, 0, 0, 0, 0)

  /**
   * The guard effect: wait until initialised; send a session that is not
   * signed in to the entry page; send a school administrator to their own
   * dashboard; fetch only for a super administrator.
   */
  function Guard(s: Session): (d: Decision)
    ensures d == Wait <==> !s.isInitialized
    ensures d == ReplaceWith(Root) <==> s.isInitialized && !s.SignedIn()
    ensures d == ReplaceWith(SchoolAdminHome) <==> s.isInitialized && s.SignedIn() && s.user.value.role != SuperAdmin
    ensures d == Fetch <==> s.isInitialized && s.SignedIn() && s.user.value.role == SuperAdmin
  {
    if !s.isInitialized then Wait
    else if !s.isAuthenticated || s.user.None? || !JsText.Truthy(s.accessToken) then ReplaceWith(Root)
    else if s.user.value.role != SuperAdmin then ReplaceWith(SchoolAdminHome)
    else Fetch
  }

  datatype View = Initializing | LoadingDashboard | ErrorPanel(text: string) | Content

  /**
   * What a dashboard shows: the bootstrap gate first, then its own loading
   * flag, then a non-empty error, then the content.  The school administrator's
   * dashboard renders by the same chain.
   */
  function Render(s: Session, loading: bool, error: Option<string>): (v: View)
    ensures v == Initializing <==> s.Bootstrapping()
    ensures v == LoadingDashboard <==> !s.Bootstrapping() && loading
    ensures v.ErrorPanel? <==> !s.Bootstrapping() && !loading && JsText.Truthy(error)
    ensures v.ErrorPanel? ==> error == Some(v.text)
  {
    if !s.isInitialized || s.isLoading then Initializing
    else if loading then LoadingDashboard
    else if JsText.Truthy(error) then ErrorPanel(error.value)
    else Content
  }

  /** The error a failed request leaves: the status for a response, the exception's message otherwise. */
  function Failure<T>(r: Response<T>, what: string): (text: string)
    requires !Succeeded(r)
    ensures r.Threw? ==> text == ThrownText(r.error, FallbackText)
    ensures r.Response? ==> text == "Failed to fetch " + what + ": " + JsText.NumberToString(r.status)
  {
    match r
    case Threw(e) => ThrownText(e, FallbackText)
    case Response(status, _, _) => "Failed to fetch " + what + ": " + JsText.NumberToString(status)
  }

  /** The status can be read back from the error text: it is the part after the colon and blank. */
  lemma FailureNamesStatus<T>(status: int, message: Option<string>, data: T, what: string)
    requires !IsOk(status)
    ensures var text := Failure(Response(status, message, data), what);
            var prefix := "Failed to fetch " + what + ": ";
            |prefix| <= |text| && text[..|prefix|] == prefix && JsText.ParseInt(text[|prefix|..]) == Some(status)
  {
    var prefix := "Failed to fetch " + what + ": ";
    var text := Failure(Response(status, message, data), what);
    assert text == prefix + JsText.NumberToString(status);
    assert text[|prefix|..] == JsText.NumberToString(status);
    JsText.ParseIntOfNumberToString(status);
  }

  /**
   * The endpoints `fetchData` asks, in order: none without a token, and each
   * one only after the previous one succeeded.
   */
  function RequestsSent<S, A>(token: Option<string>, rs: Response<S>, ra: Response<A>): (sent: seq<string>)
    ensures |sent| <= 3 && sent == Endpoints[..|sent|]
    ensures |sent| == 0 <==> !JsText.Truthy(token)
    ensures |sent| >= 2 <==> JsText.Truthy(token) && Succeeded(rs)
    ensures |sent| == 3 <==> JsText.Truthy(token) && Succeeded(rs) && Succeeded(ra)
  {
    if !JsText.Truthy(token) then []
    else if !Succeeded(rs) then [SchoolsEndpoint]
    else if !Succeeded(ra) then [SchoolsEndpoint, AdminsEndpoint]
    else Endpoints
  }

  /** The error `fetchData` ends with: none exactly when all three requests succeed, else the first failure's. */
  function FetchError<S, A, T>(token: Option<string>, rs: Response<S>, ra: Response<A>, rt: Response<T>): (e: Option<string>)
    ensures e.None? <==> JsText.Truthy(token) && Succeeded(rs) && Succeeded(ra) && Succeeded(rt)
    ensures !JsText.Truthy(token) ==> e == Some(NoAccessTokenText)
    ensures JsText.Truthy(token) && !Succeeded(rs) ==> e == Some(Failure(rs, "schools"))
    ensures JsText.Truthy(token) && Succeeded(rs) && !Succeeded(ra) ==> e == Some(Failure(ra, "school admins"))
    ensures JsText.Truthy(token) && Succeeded(rs) && Succeeded(ra) && !Succeeded(rt) ==> e == Some(Failure(rt, "stats"))
  {
    if !JsText.Truthy(token) then Some(NoAccessTokenText)
    else if !Succeeded(rs) then Some(Failure(rs, "schools"))
    else if !Succeeded(ra) then Some(Failure(ra, "school admins"))
    else if !Succeeded(rt) then Some(Failure(rt, "stats"))
    else None
  }

  /** The page's fetched data and its two flags. */
  class Page {
    var schools: seq<School>
    var schoolAdmins: seq<SchoolAdminAccount>
    var totals: Totals
    var loading: bool
    var error: Option<string>

    constructor ()
      ensures schools == [] && schoolAdmins == [] && totals == NoTotals && loading && error == None
    {
      schools, schoolAdmins, totals := [], [], NoTotals;
      loading, error := true, None;
    }

    /**
     * `fetchData`, with the three responses as inputs (a response not asked
     * for is ignored).  Each list is replaced only by its own successful
     * response, a missing `data` counting as empty (zero totals); `loading`
     * is false on every path.
     */
    method FetchData(
      token: Option<string>,
      rs: Response<Option<seq<School>>>,
      ra: Response<Option<seq<SchoolAdminAccount>>>,
      rt: Response<Option<Totals>>)
      returns (sent: seq<string>)
      modifies this
      ensures sent == RequestsSent(token, rs, ra)
      ensures error == FetchError(token, rs, ra, rt)
      ensures !loading
      ensures schools == (if |sent| >= 1 && Succeeded(rs) then rs.data.GetOr([]) else old(schools))
      ensures schoolAdmins == (if |sent| >= 2 && Succeeded(ra) then ra.data.GetOr([]) else old(schoolAdmins))
      ensures totals == (if |sent| == 3 && Succeeded(rt) then rt.data.GetOr(NoTotals) else old(totals))
    {
      error := None;
      loading := true;
      sent := [];
      if !JsText.Truthy(token) {
        error, loading := Some(NoAccessTokenText), false;
        return;
      }
      sent := sent + [SchoolsEndpoint];
      if !Succeeded(rs) {
        error, loading := Some(Failure(rs, "schools")), false;
        return;
      }
      schools := rs.data.GetOr([]);
      sent := sent + [AdminsEndpoint];
      if !Succeeded(ra) {
        error, loading := Some(Failure(ra, "school admins")), false;
        return;
      }
      schoolAdmins := ra.data.GetOr([]);
      sent := sent + [StatsEndpoint];
      if !Succeeded(rt) {
        error, loading := Some(Failure(rt, "stats")), false;
        return;
      }
      totals := rt.data.GetOr(NoTotals);
      loading := false;
    }
  }
}
