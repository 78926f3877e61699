/**
 * The client's observable side effects, as events a handler emits, and the
 * three page paths its redirects use.
 */
module Navigation {
  import opened Types

  datatype Effect =
    | Alert(text: string)        // window.alert
    | Assign(path: string)       // window.location.href = path
    | Push(path: string)         // router.push
    | Replace(path: string)      // router.replace
    | CloseDialog                // the parent's setOpen(false)
    | NotifySuccess              // the parent's onSuccess / onRefresh callback
    | Reload                     // the component re-fetches its own lists

  /** What a dashboard's guard effect does with the current session. */
  datatype Decision =
    | Wait                       // not initialised yet: do nothing
    | ReplaceWith(path: string)  // router.replace(path), no fetch
    | Fetch                      // fetchData()

  const Root := "/"
  const SuperAdminHome := "/dashboard"
  const SchoolAdminHome := "/school-admin/dashboard"

  /**
   * `role === "super_admin" ? "/dashboard" : "/school-admin/dashboard"`: each
   * role has its own dashboard, and neither is the entry page.
   */
  function HomeFor(role: UserRole): (home: string)
    ensures home == SuperAdminHome <==> role.SuperAdmin?
    ensures home == SchoolAdminHome <==> role.SchoolAdmin?
    ensures home != Root
  {
    if role == SuperAdmin then SuperAdminHome else SchoolAdminHome
  }
}
