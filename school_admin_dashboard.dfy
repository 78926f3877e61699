/**
 * The school administrator's dashboard (app/school-admin/dashboard/page.tsx):
 * the mirror image of the super administrator's guard, one statistics request
 * whose school fields fall back to "… Not Available", and the management
 * section that a click opens or closes.
 */
module SchoolAdminDashboard {
  import opened Wrappers
  import opened Types
  import opened Http
  import opened Navigation
  import opened AuthStore
  import JsText
  import SuperAdminDashboard

  const NoNameText := "School Name Not Available"
  const NoAddressText := "Address Not Available"
  const NoContactText := "Contact Not Available"

  /** The `school` part of the statistics body; any of its fields may be missing. */
  datatype SchoolFields = SchoolFields(name: Option<string>, address: Option<string>, contact: Option<string>)

  /** What the page shows about its school. */
  datatype SchoolInfo = SchoolInfo(name: string, address: string, contact: string)

  datatype Counts = Counts(buses: int, routes: int, drivers: int, children: int, parents: int)

  datatype DetailedCounts = DetailedCounts(
    activeBuses: int, inactiveBuses: int, activeRoutes: int, inactiveRoutes: int,
    activeDrivers: int, inactiveDrivers: int, activeParents: int, inactiveParents: int,
    activeChildren: int, inactiveChildren: int)

  const NoCounts := Counts(0, 0, 0, 0, 0)
  const NoDetailedCounts := DetailedCounts(0, 0, 0, 0, 0, 0, 0, 0, 0, 0)

  datatype StatsData = StatsData(school: Option<SchoolFields>, totals: Counts, detailed: DetailedCounts)

  /** The JSON body of `/school-admin/stats` (its `message` is the response's). */
  datatype StatsBody = StatsBody(success: bool, data: StatsData)

  /**
   * The guard effect: wait until initialised; send a session that is not
   * signed in to the entry page; send a super administrator to their own
   * dashboard; fetch only for a school administrator.
   */
  function Guard(s: Session): (d: Decision)
    ensures d == Wait <==> !s.isInitialized
    ensures d == ReplaceWith(Root) <==> s.isInitialized && !s.SignedIn()
    ensures d == ReplaceWith(SuperAdminHome) <==> s.isInitialized && s.SignedIn() && s.user.value.role != SchoolAdmin
    ensures d == Fetch <==> s.isInitialized && s.SignedIn() && s.user.value.role == SchoolAdmin
  {
    if !s.isInitialized then Wait
    else if !s.isAuthenticated || s.user.None? || !JsText.Truthy(s.accessToken) then ReplaceWith(Root)
    else if s.user.value.role != SchoolAdmin then ReplaceWith(SuperAdminHome)
    else Fetch
  }

  /**
   * The school shown: each field is the server's when present and non-empty,
   * and its own "… Not Available" text otherwise, so none is ever blank.
   */
  function SchoolInfoOf(school: Option<SchoolFields>): (info: SchoolInfo)
    ensures info.name != "" && info.address != "" && info.contact != ""
    ensures school.Some? && JsText.Truthy(school.value.name) ==> info.name == school.value.name.value
    ensures school.None? || !JsText.Truthy(school.value.name) ==> info.name == NoNameText
    ensures school.Some? && JsText.Truthy(school.value.address) ==> info.address == school.value.address.value
    ensures school.None? || !JsText.Truthy(school.value.address) ==> info.address == NoAddressText
    ensures school.Some? && JsText.Truthy(school.value.contact) ==> info.contact == school.value.contact.value
    ensures school.None? || !JsText.Truthy(school.value.contact) ==> info.contact == NoContactText
  {
    match school
    case None => SchoolInfo(NoNameText, NoAddressText, NoContactText)
    case Some(f) =>
      SchoolInfo(JsText.Or(f.name, NoNameText), JsText.Or(f.address, NoAddressText), JsText.Or(f.contact, NoContactText))
  }

  /**
   * The error the page ends with: none exactly when a token is present, the
   * response is ok and the body reports success.  A non-ok response carries
   * its message or "HTTP error! status: N" (the API helper's text); an ok body
   * without success carries its message or the page's fallback; an exception
   * carries its message.
   */
  function StatsError(token: Option<string>, r: Response<StatsBody>): (e: Option<string>)
    ensures e.None? <==> JsText.Truthy(token) && Succeeded(r) && r.data.success
    ensures !JsText.Truthy(token) ==> e == Some(SuperAdminDashboard.NoAccessTokenText)
    ensures JsText.Truthy(token) && r.Threw? ==> e == Some(ThrownText(r.error, SuperAdminDashboard.FallbackText))
    ensures JsText.Truthy(token) && r.Response? && !IsOk(r.status) ==>
              e == Some(JsText.Or(r.message, "HTTP error! status: " + JsText.NumberToString(r.status)))
    ensures JsText.Truthy(token) && Succeeded(r) && !r.data.success ==>
              e == Some(JsText.Or(r.message, SuperAdminDashboard.FallbackText))
  {
    if !JsText.Truthy(token) then Some(SuperAdminDashboard.NoAccessTokenText)
    else match r
      case Threw(err) => Some(ThrownText(err, SuperAdminDashboard.FallbackText))
      case Response(status, message, body) =>
        if !IsOk(status) then Some(JsText.Or(message, "HTTP error! status: " + JsText.NumberToString(status)))
        else if !body.success then Some(JsText.Or(message, SuperAdminDashboard.FallbackText))
        else None
  }

  /** `handleSectionClick`: clicking the open section closes it; any other click opens that section. */
  function Toggle(active: Option<string>, section: string): (next: Option<string>)
    ensures next == None <==> active == Some(section)
    ensures next != None ==> next == Some(section)
  {
    if active == Some(section) then None else Some(section)
  }

  /**
   * Two clicks on the same section restore the state exactly when it was
   * closed or showed that section; from another open section they close it.
   */
  lemma ToggleTwice(active: Option<string>, section: string)
    ensures Toggle(Toggle(active, section), section) == active <==> active == None || active == Some(section)
    ensures Toggle(Toggle(active, section), section) == (if active == Some(section) then active else None)
  {
  }

  datatype Panel = BusPanel | RoutePanel | DriverPanel | ChildPanel | ParentPanel

  /** The section name a panel's button sets: one of the five names `renderManagementSection` tests. */
  function SectionName(p: Panel): (name: string)
    ensures name in SectionNames
  {
    match p
    case BusPanel => "buses"
    case RoutePanel => "routes"
    case DriverPanel => "drivers"
    case ChildPanel => "children"
    case ParentPanel => "parents"
  }

  const SectionNames := {"buses", "routes", "drivers", "children", "parents"}

  /** `renderManagementSection`: the five section names select their panel; anything else shows none. */
  function PanelFor(active: Option<string>): (p: Option<Panel>)
    ensures p.Some? <==> active.Some? && active.value in SectionNames
    ensures p.Some? ==> SectionName(p.value) == active.value
  {
    match active
    case None => None
    case Some(name) =>
      if name == "buses" then Some(BusPanel)
      else if name == "routes" then Some(RoutePanel)
      else if name == "drivers" then Some(DriverPanel)
      else if name == "children" then Some(ChildPanel)
      else if name == "parents" then Some(ParentPanel)
      else None
  }

  /** Each panel is reached by exactly its own name. */
  lemma PanelForSectionName(p: Panel)
    ensures PanelFor(Some(SectionName(p))) == Some(p)
    ensures SectionName(p) in SectionNames
  {
  }

  /** The page's fetched data, its two flags and the open section. */
  class Page {
    var schoolInfo: Option<SchoolInfo>
    var stats: Counts
    var detailedStats: DetailedCounts
    var loading: bool
    var error: Option<string>
    var activeSection: Option<string>

    constructor ()
      ensures schoolInfo == None && stats == NoCounts && detailedStats == NoDetailedCounts
      ensures loading && error == None && activeSection == None
    {
      schoolInfo, stats, detailedStats := None, NoCounts, NoDetailedCounts;
      loading, error, activeSection := true, None, None;
    }

    /**
     * `fetchData`, with the statistics response as input.  The request is made
     * exactly when there is a token; the data is replaced only on success;
     * `loading` is false on every path and the open section is untouched.
     */
    method FetchData(token: Option<string>, r: Response<StatsBody>) returns (requested: bool)
      modifies this
      ensures requested <==> JsText.Truthy(token)
      ensures error == StatsError(token, r)
      ensures !loading && activeSection == old(activeSection)
      ensures error.None? ==> schoolInfo == Some(SchoolInfoOf(r.data.data.school))
                               && stats == r.data.data.totals && detailedStats == r.data.data.detailed
      ensures error.Some? ==> schoolInfo == old(schoolInfo) && stats == old(stats) && detailedStats == old(detailedStats)
    {
      error := None;
      loading := true;
      requested := false;
      if !JsText.Truthy(token) {
        error, loading := Some(SuperAdminDashboard.NoAccessTokenText), false;
        return;
      }
      requested := true;
      match r {
        case Threw(err) =>
          error := Some(ThrownText(err, SuperAdminDashboard.FallbackText));
        case Response(status, message, body) =>
          if !IsOk(status) {
            error := Some(JsText.Or(message, "HTTP error! status: " + JsText.NumberToString(status)));
          } else if body.success {
            schoolInfo := Some(SchoolInfoOf(body.data.school));
            stats := body.data.totals;
            detailedStats := body.data.detailed;
          } else {
            error := Some(JsText.Or(message, SuperAdminDashboard.FallbackText));
          }
      }
      loading := false;
    }

    method HandleSectionClick(section: string)
      modifies this
      ensures activeSection == Toggle(old(activeSection), section)
      ensures schoolInfo == old(schoolInfo) && stats == old(stats) && detailedStats == old(detailedStats)
      ensures loading == old(loading) && error == old(error)
    {
      activeSection := if activeSection == Some(section) then None else Some(section);
    }

    /** The "Back to Dashboard" button: the open section is closed and nothing else changes. */
    method CloseSection()
      modifies this
      ensures activeSection == None
      ensures schoolInfo == old(schoolInfo) && stats == old(stats) && detailedStats == old(detailedStats)
      ensures loading == old(loading) && error == old(error)
    {
      activeSection := None;
    }
  }
}
