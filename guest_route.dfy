/**
 * The guard around the login and registration pages: a signed-in visitor
 * is sent to the home page of their role instead.
 */
module GuestRoute {
  import opened Common
  import opened Types
  import ProtectedRoute

  /** A loaded and authenticated user is redirected to the landing page of their role; anyone else sees the page. */
  function Guard(user: Option<User>, isAuthenticated: bool): (r: ProtectedRoute.Outcome)
    ensures r == ProtectedRoute.RenderChildren <==> user.None? || !isAuthenticated
    ensures user.Some? && isAuthenticated && user.value.role == "admin" ==> r == ProtectedRoute.RedirectTo("/admin/dashboard")
    ensures user.Some? && isAuthenticated && user.value.role == "delivery" ==> r == ProtectedRoute.RedirectTo("/delivery/dashboard")
    ensures r.RedirectTo? && r.path == "/" <==>
      user.Some? && isAuthenticated && user.value.role != "admin" && user.value.role != "delivery"
  {
    if user.Some? && isAuthenticated then
      var role := user.value.role;
      if role == "admin" then ProtectedRoute.RedirectTo("/admin/dashboard")
      else if role == "delivery" then ProtectedRoute.RedirectTo("/delivery/dashboard")
      else ProtectedRoute.RedirectTo("/")
    else ProtectedRoute.RenderChildren
  }

  /**
   * The two guards never bounce a visitor back and forth: whoever the login
   * page turns away is admitted by the section guarded for their own role,
   * and whoever a section turns away to the login page is shown it.
   */
  lemma GuardsAgree(user: Option<User>, isAuthenticated: bool)
    ensures Guard(user, isAuthenticated).RedirectTo? ==>
      ProtectedRoute.Guard(isAuthenticated, user, Some([user.value.role])) == ProtectedRoute.RenderChildren
    ensures ProtectedRoute.Guard(isAuthenticated, user, Some([ProtectedRoute.RoleOf(user)])) == ProtectedRoute.RedirectTo("/login") ==>
      Guard(user, isAuthenticated) == ProtectedRoute.RenderChildren
  {
  }
}
