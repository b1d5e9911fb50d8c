// The route guard: who is sent to the login page, who is sent home, and who
// sees the protected page.

module RequireRole {
  import opened MockAuth

  /** What the guard renders. */
  datatype Outcome = ToLogin(from: string) | ToHome | Children

  /** The guard for the signed-in user (if any), the allowed roles (if any)
      and the current path. */
  function Guard(user: Common.Option<AuthUser>, roles: Common.Option<seq<Role>>, path: string): (o: Outcome)
    ensures o.ToLogin? <==> user.None?
    ensures o.ToLogin? ==> o.from == path
    ensures o.ToHome? <==> user.Some? && roles.Some? && user.value.role !in roles.value
    ensures o.Children? <==> user.Some? && (roles.None? || user.value.role in roles.value)
  {
    if user.None? then ToLogin(path)
    else if roles.Some? && user.value.role !in roles.value then ToHome
    else Children
  }

  /** An empty role list is still a list: it lets no one through. */
  lemma EmptyRolesAdmitNoOne(user: AuthUser, path: string)
    ensures Guard(Common.Some(user), Common.Some([]), path) == ToHome
  {
  }

  /** Allowing more roles never turns away a user who was let through. */
  lemma MoreRolesAdmitMore(user: Common.Option<AuthUser>, roles: seq<Role>, more: seq<Role>, path: string)
    requires Guard(user, Common.Some(roles), path).Children?
    ensures Guard(user, Common.Some(roles + more), path).Children?
  {
  }
}
