/**
 * The `@hasRole(roles: [...])` gate: the caller's role is read from the store
 * by user id (never from the token) and must be one of `roles`.
 */
module HasRoleDirective {
  import opened Wrappers
  import opened Strings
  import opened RequestContext
  import opened GraphQLErrors

  /** The check the wrapper runs; `storedRole` is the user table's `role`
      column by user id. `None` lets the call through. */
  function RoleCheck(user: Option<ContextUser>, roles: seq<string>, storedRole: map<string, string>): (rejection: Option<GraphQLError>)
    ensures user.None? ==> rejection == Some(Unauthenticated)
    ensures user.Some? ==>
      (rejection.None? <==> user.value.userId in storedRole && storedRole[user.value.userId] in roles)
    ensures user.Some? && rejection.Some? ==>
      rejection.value == Forbidden(roles) && Code(rejection.value) == Some("FORBIDDEN") &&
      HttpStatus(rejection.value) == Some(403)
  {
    if user.None? then Some(Unauthenticated)
    else if user.value.userId !in storedRole || storedRole[user.value.userId] !in roles then Some(Forbidden(roles))
    else None
  }

  /** The decision depends on the caller's user id and the stored role only:
      the firm id in the token plays no part, and a user id missing from the
      store is refused whatever the roles. */
  lemma RoleFromStoreOnly(u1: ContextUser, u2: ContextUser, roles: seq<string>, storedRole: map<string, string>)
    requires u1.userId == u2.userId
    ensures RoleCheck(Some(u1), roles, storedRole) == RoleCheck(Some(u2), roles, storedRole)
    ensures u1.userId !in storedRole ==> RoleCheck(Some(u1), roles, storedRole) == Some(Forbidden(roles))
  {
  }

  const ForbiddenPrefix := "You must have one of the following roles: "

  /** The refusal message is the fixed prefix followed by the required roles
      joined by ", ": every role appears there, in the given order, each
      followed by ", " when another comes next. */
  lemma ForbiddenMessage(roles: seq<string>)
    ensures Message(Forbidden(roles)) == ForbiddenPrefix + Join(roles, ", ")
    ensures forall i | 0 <= i < |roles| :: OccursAt(Join(roles, ", "), roles[i], JoinOffset(roles, ", ", i))
    ensures forall i | 0 <= i < |roles| - 1 ::
      OccursAt(Join(roles, ", "), ", ", JoinOffset(roles, ", ", i) + |roles[i]|)
    ensures forall i, j | 0 <= i < j < |roles| ::
      JoinOffset(roles, ", ", i) + |roles[i]| + 2 <= JoinOffset(roles, ", ", j)
  {
    assert Message(Forbidden(roles)) == ForbiddenPrefix + Join(roles, ", ");
    forall i | 0 <= i < |roles|
      ensures OccursAt(Join(roles, ", "), roles[i], JoinOffset(roles, ", ", i))
      ensures i < |roles| - 1 ==> OccursAt(Join(roles, ", "), ", ", JoinOffset(roles, ", ", i) + |roles[i]|)
    {
      JoinPartAt(roles, ", ", i);
      if i < |roles| - 1 {
        JoinSepAfter(roles, ", ", i);
      }
    }
    forall i, j | 0 <= i < j < |roles|
      ensures JoinOffset(roles, ", ", i) + |roles[i]| + 2 <= JoinOffset(roles, ", ", j)
    {
      JoinOffsetOrder(roles, ", ", i, j);
    }
  }
}
