/**
 * The route guard that admits a request when the handler declares no roles,
 * and otherwise only when the authenticated user's role is one of them.
 */
module RolesGuard {
  import opened Outcomes

  /** The two roles a user record can carry. */
  datatype Role = USER | ADMIN

  /** What the guard can throw. */
  datatype GuardError = Forbidden

  /** `canActivate` either answers (always `true`) or throws. */
  datatype Verdict = Activate(allowed: bool) | Throw(error: GuardError)

  /**
   * The decision of `canActivate`. `requiredRoles` is the `roles` metadata found
   * on the handler or its class (None when neither declares any); `user` is the
   * role of the request's authenticated user (None when there is no user).
   */
  function CanActivate(requiredRoles: Option<seq<Role>>, user: Option<Role>): (v: Verdict)
    // no metadata: every request passes, whoever makes it
    ensures requiredRoles.None? ==> v == Activate(true)
    // metadata present: pass exactly when there is a user whose role is listed
    ensures requiredRoles.Some? ==>
              (v == Activate(true) <==> user.Some? && user.value in requiredRoles.value)
    // the only failure is Forbidden, and `false` is never returned
    ensures v == Activate(true) || v == Throw(Forbidden)
  {
    if requiredRoles.None? then
      Activate(true)
    else if user.None? || user.value !in requiredRoles.value then
      Throw(Forbidden)
    else
      Activate(true)
  }

  /** A role list that is present but empty shuts out every user, authenticated or not. */
  lemma EmptyRoleListDeniesAll(user: Option<Role>)
    ensures CanActivate(Some([]), user) == Throw(Forbidden)
  {
  }

  /** With roles required, an anonymous request is refused whatever the list holds. */
  lemma AnonymousIsForbidden(roles: seq<Role>)
    ensures CanActivate(Some(roles), None) == Throw(Forbidden)
  {
  }

  /**
   * The guard is monotone in the role list: a user admitted under some list is
   * admitted under every list that contains it.
   */
  lemma WiderListStillAdmits(roles: seq<Role>, more: seq<Role>, user: Option<Role>)
    requires CanActivate(Some(roles), user) == Activate(true)
    requires forall r :: r in roles ==> r in more
    ensures CanActivate(Some(more), user) == Activate(true)
  {
  }
}
