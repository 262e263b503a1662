/**
 * The errors the server throws. The gates throw `GraphQLError`s whose
 * `extensions` carry a `code` and, for most of them, an HTTP status; the
 * resolvers throw plain `Error`s that carry only a message.
 */
module GraphQLErrors {
  import opened Wrappers
  import opened Strings

  /** Which bound of a length directive was violated. */
  datatype Constraint = Min | Max

  datatype GraphQLError =
    | Unauthenticated
    | Forbidden(requiredRoles: seq<string>)
    | RateLimitExceeded(resetIn: int)
    | BadUserInput(argumentName: string, constraint: Constraint, value: int)
      /** `throw new Error(message)` in a resolver. */
    | Plain(message: string)
      /** The store refused a write that would duplicate a unique column. */
    | UniqueConstraint(column: string)

  /** What every resolver throws first when `context.user` is null: a plain
      error, unlike the gates' coded `Unauthenticated`. */
  const NotAuthenticatedError := Plain("Not authenticated")

  /** `extensions.code`; plain errors carry none. */
  function Code(e: GraphQLError): Option<string> {
    match e
    case Unauthenticated => Some("UNAUTHENTICATED")
    case Forbidden(_) => Some("FORBIDDEN")
    case RateLimitExceeded(_) => Some("RATE_LIMIT_EXCEEDED")
    case BadUserInput(_, _, _) => Some("BAD_USER_INPUT")
    case Plain(_) => None
    case UniqueConstraint(_) => None
  }

  /** `extensions.http.status`; the length gate sets none. */
  function HttpStatus(e: GraphQLError): Option<int> {
    match e
    case Unauthenticated => Some(401)
    case Forbidden(_) => Some(403)
    case RateLimitExceeded(_) => Some(429)
    case _ => None
  }

  function Message(e: GraphQLError): string {
    match e
    case Unauthenticated => "Not authenticated"
    case Forbidden(roles) => "You must have one of the following roles: " + Join(roles, ", ")
    case RateLimitExceeded(resetIn) => "Rate limit exceeded. Try again in " + IntToDecimal(resetIn) + " seconds."
    case BadUserInput(name, Min, v) => "Argument '" + name + "' must be at least " + IntToDecimal(v) + " characters long"
    case BadUserInput(name, Max, v) => "Argument '" + name + "' must be at most " + IntToDecimal(v) + " characters long"
    case Plain(m) => m
    case UniqueConstraint(column) => "Unique constraint failed on the fields: (`" + column + "`)"
  }
}
