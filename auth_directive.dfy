/**
 * The `@auth` gate: a field carrying it rejects a caller without an identity
 * and otherwise hands the call, unchanged, to the resolver it wraps.
 */
module AuthDirective {
  import opened Wrappers
  import opened RequestContext
  import opened GraphQLErrors

  /** The check the wrapper runs before calling the wrapped resolver;
      `None` lets the call through. */
  function AuthCheck(user: Option<ContextUser>): (rejection: Option<GraphQLError>)
    ensures rejection.Some? <==> user.None?
    ensures rejection.Some? ==>
      Code(rejection.value) == Some("UNAUTHENTICATED") && HttpStatus(rejection.value) == Some(401)
  {
    if user.None? then Some(Unauthenticated) else None
  }
}
