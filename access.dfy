/** The route guards of auth.js: a decision over the session user alone. */
module Access {

  import opened Wrappers
  import opened Http
  import opened Tables

  /** What the session keeps about a logged-in user. */
  datatype SessionUser = SessionUser(id: int, username: string, role: Role)

  /** A guard either lets the request through to the handler or answers it. */
  datatype Decision = Proceed | Deny(reply: Status)

  /** requireLogin: only the presence of a session user matters. */
  function RequireLogin(user: Option<SessionUser>): (d: Decision)
    ensures d == Proceed <==> user.Some?
    ensures d.Deny? ==> d.reply == Unauthorized
  {
    if user.None? then Deny(Unauthorized) else Proceed
  }

  /** requireRole(...roles): 401 without a session user, 403 when the
      user's role is not listed, otherwise the handler runs. */
  function RequireRole(user: Option<SessionUser>, roles: seq<Role>): (d: Decision)
    ensures user.None? ==> d == Deny(Unauthorized)
    ensures user.Some? && user.value.role !in roles ==> d == Deny(Forbidden)
    ensures d == Proceed <==> user.Some? && user.value.role in roles
  {
    if user.None? then Deny(Unauthorized)
    else if user.value.role !in roles then Deny(Forbidden)
    else Proceed
  }

  /** A request without a session user never gets 403 from requireRole,
      whatever roles the route lists. */
  lemma AnonymousNeverForbidden(roles: seq<Role>)
    ensures RequireRole(None, roles) != Deny(Forbidden)
    ensures RequireRole(None, roles) == RequireLogin(None)
  {
  }

  /** Passing requireRole implies passing requireLogin, and a denial by
      requireLogin is repeated by requireRole for every role list. */
  lemma RoleImpliesLogin(user: Option<SessionUser>, roles: seq<Role>)
    ensures RequireRole(user, roles) == Proceed ==> RequireLogin(user) == Proceed
    ensures RequireLogin(user).Deny? ==> RequireRole(user, roles) == RequireLogin(user)
  {
  }

  /** Listing more roles never turns a pass into a denial. */
  lemma RequireRoleMonotone(user: Option<SessionUser>, roles: seq<Role>, more: seq<Role>)
    requires forall r | r in roles :: r in more
    ensures RequireRole(user, roles) == Proceed ==> RequireRole(user, more) == Proceed
  {
  }

  /** Only the set of listed roles matters, not their order: the routes
      written requireRole("registrar", "admin") and
      requireRole("admin", "registrar") guard alike. */
  lemma RequireRoleOrderIrrelevant(user: Option<SessionUser>, roles: seq<Role>, other: seq<Role>)
    requires forall r :: r in roles <==> r in other
    ensures RequireRole(user, roles) == RequireRole(user, other)
  {
  }
}
