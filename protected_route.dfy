/**
 * The guard around the signed-in sections: it sends visitors to the login
 * page, sends signed-in users whose role the section does not admit to the
 * home page, and otherwise renders the section.
 */
module ProtectedRoute {
  import opened Common
  import opened Types

  datatype Outcome = RedirectTo(path: string) | RenderChildren

  /** `user?.role || ""`: the role the guard compares, empty when no user is loaded. */
  function RoleOf(user: Option<User>): (r: string)
    ensures user.None? ==> r == ""
    ensures user.Some? ==> r == user.value.role
  {
    if user.Some? && user.value.role != "" then user.value.role else ""
  }

  /**
   * The guard's decision. `allowedRoles` is `None` when the prop is not
   * given; a given list is truthy even when empty.
   */
  function Guard(isAuthenticated: bool, user: Option<User>, allowedRoles: Option<seq<string>>): (r: Outcome)
    ensures !isAuthenticated ==> r == RedirectTo("/login")
    ensures isAuthenticated && allowedRoles.Some? && RoleOf(user) !in allowedRoles.value ==> r == RedirectTo("/")
    ensures r == RenderChildren <==> isAuthenticated && (allowedRoles.None? || RoleOf(user) in allowedRoles.value)
    ensures r.RedirectTo? ==> r.path in ["/login", "/"]
  {
    if !isAuthenticated then RedirectTo("/login")
    else if allowedRoles.Some? && RoleOf(user) !in allowedRoles.value then RedirectTo("/")
    else RenderChildren
  }

  /** A section without a role list admits everyone signed in, whether or not a user is loaded. */
  lemma NoRolesAdmitsAllSignedIn(user: Option<User>)
    ensures Guard(true, user, None) == RenderChildren
  {
  }

  /** A given but empty role list turns every signed-in visitor away to the home page. */
  lemma EmptyRoleListLocksOut(user: Option<User>)
    ensures Guard(true, user, Some([])) == RedirectTo("/")
  {
  }

  /**
   * The sections are disjoint: a signed-in user admitted to the section of
   * role `a` is turned away from the section of any other role `b`.
   */
  lemma SectionsDisjoint(user: Option<User>, a: string, b: string)
    requires a != b
    requires Guard(true, user, Some([a])) == RenderChildren
    ensures Guard(true, user, Some([b])) == RedirectTo("/")
  {
  }
}
