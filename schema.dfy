/**
 * Building the executable schema: four passes, in the order auth, hasRole,
 * rateLimit, length, each replace the resolver of every field that carries the
 * pass's directive by a wrapper around the resolver the previous pass left.
 * The last pass therefore runs first at request time.
 *
 * A resolver here takes the call and the rate-limit table and gives its result
 * together with the new table; the table is the only state the wrappers change.
 */
module Schema {
  import opened Wrappers
  import opened RequestContext
  import opened GraphQLErrors
  import opened AuthDirective
  import opened HasRoleDirective
  import opened LengthDirective
  import opened RateLimitDirective

  /** The directives attached to one field, with their arguments. */
  datatype FieldDirectives = FieldDirectives(
    auth: bool,
    hasRole: Option<seq<string>>,
    rateLimit: Option<RateLimitArgs>,
    length: Option<Bounds>)

  const NoDirectives := FieldDirectives(false, None, None, None)

  /** What a wrapper sees of one call: the field, its arguments, the caller, the
      clock reading, and the stored role of every user (the hasRole lookup). */
  datatype Call = Call(fieldName: string, args: Args, user: Option<ContextUser>, now: int, storedRole: map<string, string>)

  type Outcome<R> = Result<R, GraphQLError>

  type Resolver<R> = (Call, Windows) -> (Outcome<R>, Windows)

  /** A field's own resolver, which leaves the table alone. */
  function Base<R>(resolve: Call -> Outcome<R>): Resolver<R> {
    (c: Call, w: Windows) => (resolve(c), w)
  }

  function WrapAuth<R>(inner: Resolver<R>): Resolver<R> {
    (c: Call, w: Windows) =>
      var rejection := AuthCheck(c.user);
      if rejection.Some? then (Err(rejection.value), w) else inner(c, w)
  }

  function WrapHasRole<R>(roles: seq<string>, inner: Resolver<R>): Resolver<R> {
    (c: Call, w: Windows) =>
      var rejection := RoleCheck(c.user, roles, c.storedRole);
      if rejection.Some? then (Err(rejection.value), w) else inner(c, w)
  }

  function WrapRateLimit<R>(args: RateLimitArgs, inner: Resolver<R>): Resolver<R> {
    (c: Call, w: Windows) =>
      var (rejection, counted) := RateStep(w, WindowKey(c.fieldName, c.user), c.now, LimitOf(args), DurationOf(args));
      if rejection.Some? then (Err(rejection.value), counted) else inner(c, counted)
  }

  function WrapLength<R>(bounds: Bounds, inner: Resolver<R>): Resolver<R> {
    (c: Call, w: Windows) =>
      var violation := FirstViolation(c.args, bounds);
      if violation.Some? then (Err(violation.value), w) else inner(c, w)
  }

  /** The four passes in the order the schema applies them. */
  function ApplyDirectives<R>(d: FieldDirectives, resolve: Call -> Outcome<R>): Resolver<R> {
    var afterAuth := if d.auth then WrapAuth(Base(resolve)) else Base(resolve);
    var afterRole := if d.hasRole.Some? then WrapHasRole(d.hasRole.value, afterAuth) else afterAuth;
    var afterRate := if d.rateLimit.Some? then WrapRateLimit(d.rateLimit.value, afterRole) else afterRole;
    if d.length.Some? then WrapLength(d.length.value, afterRate) else afterRate
  }

  /** The length violation a call meets, if its field carries `@length`. */
  function LengthRejection(d: FieldDirectives, c: Call): Option<GraphQLError> {
    if d.length.Some? then FirstViolation(c.args, d.length.value) else None
  }

  /** The rate-limit decision and new table, if the field carries `@rateLimit`. */
  function RateDecision(d: FieldDirectives, c: Call, w: Windows): (Option<GraphQLError>, Windows) {
    if d.rateLimit.Some? then
      RateStep(w, WindowKey(c.fieldName, c.user), c.now, LimitOf(d.rateLimit.value), DurationOf(d.rateLimit.value))
    else (None, w)
  }

  function RoleRejection(d: FieldDirectives, c: Call): Option<GraphQLError> {
    if d.hasRole.Some? then RoleCheck(c.user, d.hasRole.value, c.storedRole) else None
  }

  function AuthRejection(d: FieldDirectives, c: Call): Option<GraphQLError> {
    if d.auth then AuthCheck(c.user) else None
  }

  /** The checks written out in the order they run: length, rateLimit, hasRole,
      auth, then the field's resolver. */
  function RuntimeOrder<R>(d: FieldDirectives, resolve: Call -> Outcome<R>, c: Call, w: Windows): (Outcome<R>, Windows) {
    var length := LengthRejection(d, c);
    if length.Some? then (Err(length.value), w)
    else
      var (rate, counted) := RateDecision(d, c, w);
      if rate.Some? then (Err(rate.value), counted)
      else
        var role := RoleRejection(d, c);
        if role.Some? then (Err(role.value), counted)
        else
          var auth := AuthRejection(d, c);
          if auth.Some? then (Err(auth.value), counted)
          else (resolve(c), counted)
  }

  /** Applying the passes auth, hasRole, rateLimit, length yields the run order
      length, rateLimit, hasRole, auth, resolver, for any set of attached directives. */
  lemma AppliedOrder<R>(d: FieldDirectives, resolve: Call -> Outcome<R>, c: Call, w: Windows)
    ensures ApplyDirectives(d, resolve)(c, w) == RuntimeOrder(d, resolve, c, w)
  {
    var afterAuth := if d.auth then WrapAuth(Base(resolve)) else Base(resolve);
    var afterRole := if d.hasRole.Some? then WrapHasRole(d.hasRole.value, afterAuth) else afterAuth;
    var afterRate := if d.rateLimit.Some? then WrapRateLimit(d.rateLimit.value, afterRole) else afterRole;
    forall w' ensures afterAuth(c, w') == (if AuthRejection(d, c).Some? then (Err(AuthRejection(d, c).value), w') else (resolve(c), w')) {
    }
    forall w' ensures afterRole(c, w') ==
      (if RoleRejection(d, c).Some? then (Err(RoleRejection(d, c).value), w') else afterAuth(c, w'))
    {
    }
    assert afterRate(c, w) ==
      (var (rate, counted) := RateDecision(d, c, w);
       if rate.Some? then (Err(rate.value), counted) else afterRole(c, counted));
  }

  /** Every attached gate lets the call through. */
  predicate GatesAccept(d: FieldDirectives, c: Call, w: Windows) {
    LengthRejection(d, c).None? && RateDecision(d, c, w).0.None? &&
    RoleRejection(d, c).None? && AuthRejection(d, c).None?
  }

  /** The field's resolver runs, on the call as it came in, exactly when every
      attached gate accepts; otherwise the result is a gate's error and does not
      depend on the resolver at all. */
  lemma ResolverRunsIffGatesAccept<R>(d: FieldDirectives, resolve: Call -> Outcome<R>, other: Call -> Outcome<R>, c: Call, w: Windows)
    ensures GatesAccept(d, c, w) ==> ApplyDirectives(d, resolve)(c, w).0 == resolve(c)
    ensures !GatesAccept(d, c, w) ==>
      ApplyDirectives(d, resolve)(c, w).0.Err? &&
      ApplyDirectives(d, resolve)(c, w) == ApplyDirectives(d, other)(c, w)
  {
    AppliedOrder(d, resolve, c, w);
    AppliedOrder(d, other, c, w);
  }

  /** A field without directives keeps its own resolver. */
  lemma UndecoratedFieldUnchanged<R>(resolve: Call -> Outcome<R>, c: Call, w: Windows)
    ensures ApplyDirectives(NoDirectives, resolve)(c, w) == (resolve(c), w)
  {
  }

  /** A length violation is reported before the rate-limit table changes. */
  lemma LengthCheckedBeforeCounting<R>(d: FieldDirectives, resolve: Call -> Outcome<R>, c: Call, w: Windows)
    requires d.length.Some? && FirstViolation(c.args, d.length.value).Some?
    ensures ApplyDirectives(d, resolve)(c, w) == (Err(FirstViolation(c.args, d.length.value).value), w)
  {
    AppliedOrder(d, resolve, c, w);
  }

  /** A call that passes the length and rate checks but is then refused by hasRole
      or auth has already used up a slot of its window. */
  lemma RefusedCallsStillCounted<R>(d: FieldDirectives, resolve: Call -> Outcome<R>, c: Call, w: Windows)
    requires d.rateLimit.Some? && LengthRejection(d, c).None? && RateDecision(d, c, w).0.None?
    requires RoleRejection(d, c).Some? || AuthRejection(d, c).Some?
    ensures var (outcome, after) := ApplyDirectives(d, resolve)(c, w);
      outcome.Err? && after == RateDecision(d, c, w).1 &&
      after[WindowKey(c.fieldName, c.user)].count == CurrentWindow(w, WindowKey(c.fieldName, c.user), c.now, DurationOf(d.rateLimit.value)).count + 1
  {
    AppliedOrder(d, resolve, c, w);
  }

  /** A rate-limited call reaches neither the role lookup nor the resolver: its
      outcome is the same whatever the stored roles and whatever the resolver. */
  lemma RateLimitedCallStops<R>(d: FieldDirectives, resolve: Call -> Outcome<R>, other: Call -> Outcome<R>,
                                c: Call, roles: map<string, string>, w: Windows)
    requires LengthRejection(d, c).None? && RateDecision(d, c, w).0.Some?
    ensures ApplyDirectives(d, resolve)(c, w) == ApplyDirectives(d, other)(c.(storedRole := roles), w)
    ensures ApplyDirectives(d, resolve)(c, w).0 == Err(RateDecision(d, c, w).0.value)
  {
    AppliedOrder(d, resolve, c, w);
    AppliedOrder(d, other, c.(storedRole := roles), w);
  }

  /** The rate-limit table the store holds, driving one field call through the
      wrapped resolver. */
  method Invoke<R>(store: RateLimitStore, d: FieldDirectives, resolve: Call -> Outcome<R>, c: Call) returns (outcome: Outcome<R>)
    modifies store
    ensures (outcome, store.windows) == RuntimeOrder(d, resolve, c, old(store.windows))
  {
    var length := LengthRejection(d, c);
    if length.Some? {
      return Err(length.value);
    }
    if d.rateLimit.Some? {
      var rate := store.Check(c.fieldName, c.user, d.rateLimit.value, c.now);
      if rate.Some? {
        return Err(rate.value);
      }
    }
    var role := RoleRejection(d, c);
    if role.Some? {
      return Err(role.value);
    }
    var auth := AuthRejection(d, c);
    if auth.Some? {
      return Err(auth.value);
    }
    outcome := resolve(c);
  }
}
