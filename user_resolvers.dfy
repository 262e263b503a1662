/**
 * The user resolvers. Password hashing (`bcrypt.hash`, salt included) and
 * checking (`bcrypt.compare`) are parameters of the model; a signed token is
 * represented by the payload and lifetime it is signed with.
 */
module UserResolvers {
  import opened Wrappers
  import opened RequestContext
  import opened GraphQLErrors
  import opened Store
  import Seqs

  /** A user record without its `password` column. */
  datatype PublicUser = PublicUser(id: string, name: string, email: string, role: string, firmId: string, createdAt: int)

  /** What `login` answers. */
  datatype LoginPayload = LoginPayload(token: SignedToken, user: PublicUser, firm: Option<Firm>)

  /** The arguments of `createUser`. */
  datatype NewUser = NewUser(name: string, email: string, password: string, role: string, firmId: string)

  const InvalidCredentials := Plain("Invalid credentials")
  const UserNotFound := Plain("User not found")
  const OtherFirm := Plain("You can only create users in your own firm")
  const NotAdmin := Plain("Only ADMIN can create new users")
  const EmailTaken := Plain("User with this email already exists")

  /** `excludePassword`: the record without its password. */
  function ExcludePassword(u: User): (p: PublicUser)
    ensures p.id == u.id && p.name == u.name && p.email == u.email
    ensures p.role == u.role && p.firmId == u.firmId && p.createdAt == u.createdAt
  {
    PublicUser(u.id, u.name, u.email, u.role, u.firmId, u.createdAt)
  }

  /** The inverse of `ExcludePassword` once the password is supplied again. */
  function WithPassword(p: PublicUser, password: string): User {
    User(p.id, p.name, p.email, password, p.role, p.firmId, p.createdAt)
  }

  /** Exactly the password is dropped: the rest of the record can be rebuilt,
      and two records look alike without passwords exactly when they differ
      at most in their passwords. */
  lemma ExcludePasswordDropsOnlyPassword(u: User, v: User)
    ensures WithPassword(ExcludePassword(u), u.password) == u
    ensures ExcludePassword(u) == ExcludePassword(v) <==> u == v.(password := u.password)
  {
  }

  /** `user.findUnique({ where: { email } })`. */
  function UserByEmail(users: map<string, User>, email: string): (r: Option<User>)
    requires UserEmailsUnique(users)
    ensures r.Some? <==> exists k | k in users :: users[k].email == email
    ensures r.Some? ==> r.value in users.Values && r.value.email == email
    ensures r.Some? && (forall k | k in users :: users[k].id == k) ==> r.value.id in users && users[r.value.id] == r.value
  {
    if exists k | k in users :: users[k].email == email then
      var k :| k in users && users[k].email == email;
      Some(users[k])
    else None
  }

  /** `me`: the caller's own record, without password. */
  function MeQuery(t: Tables, user: Option<ContextUser>): (r: Result<PublicUser, GraphQLError>)
    ensures user.None? ==> r == Err(NotAuthenticatedError)
    ensures r.Ok? <==> user.Some? && user.value.userId in t.users
    ensures r.Ok? ==> r.value == ExcludePassword(t.users[user.value.userId])
    ensures user.Some? && r.Err? ==> r == Err(UserNotFound)
  {
    if user.None? then Err(NotAuthenticatedError)
    else if user.value.userId !in t.users then Err(UserNotFound)
    else Ok(ExcludePassword(t.users[user.value.userId]))
  }

  function CreatedAt(u: User): int {
    u.createdAt
  }

  /** `users`: every user of the caller's firm, newest first, without passwords.
      `rows` are the stored records the answer was made from. */
  method UsersQuery(db: Database, user: Option<ContextUser>) returns (r: Result<seq<PublicUser>, GraphQLError>, ghost rows: seq<User>)
    ensures r.Err? <==> user.None?
    ensures r.Err? ==> r == Err(NotAuthenticatedError)
    ensures r.Ok? ==>
      && |r.value| == |rows|
      && (forall i | 0 <= i < |rows| :: r.value[i] == ExcludePassword(rows[i]))
      && (forall u :: multiset(rows)[u] == if u in db.users.Values && u.firmId == user.value.firmId then 1 else 0)
      && Seqs.SortedDesc(rows, CreatedAt)
  {
    if user.None? {
      return Err(NotAuthenticatedError), [];
    }
    var firmId := user.value.firmId;
    var found := Seqs.OrderedRows(db.users, (u: User) => u.firmId == firmId, CreatedAt);
    rows := found;
    var views := seq(|found|, i requires 0 <= i < |found| => ExcludePassword(found[i]));
    return Ok(views), rows;
  }

  /** `login`: the user with that e-mail, if the password matches its hash. */
  function Login(t: Tables, email: string, password: string, compare: (string, string) -> bool): (r: Result<LoginPayload, GraphQLError>)
    requires UserEmailsUnique(t.users)
  {
    match UserByEmail(t.users, email)
    case None => Err(InvalidCredentials)
    case Some(u) =>
      if !compare(password, u.password) then Err(InvalidCredentials)
      else
        var firm := if u.firmId in t.firms then Some(t.firms[u.firmId]) else None;
        Ok(LoginPayload(SignedToken(TokenPayload(u.id, u.firmId), TokenLifetime), ExcludePassword(u), firm))
  }

  /** An unknown e-mail and a wrong password get the same error; a login
      succeeds exactly when the password matches the stored hash of the user
      with that e-mail, and its token names that user and the user's firm for
      seven days. */
  lemma LoginOutcome(t: Tables, email: string, password: string, compare: (string, string) -> bool)
    requires Consistent(t)
    ensures var r := Login(t, email, password, compare);
      && (r.Err? ==> r == Err(InvalidCredentials))
      && (r.Ok? <==> exists k | k in t.users :: t.users[k].email == email && compare(password, t.users[k].password))
      && (r.Ok? ==> exists k | k in t.users ::
            (t.users[k].email == email &&
             r.value.token == SignedToken(TokenPayload(k, t.users[k].firmId), "7d") &&
             r.value.user == ExcludePassword(t.users[k])))
  {
    var found := UserByEmail(t.users, email);
    if found.Some? {
      var u := found.value;
      assert t.users[u.id] == u;
      forall k | k in t.users && t.users[k].email == email ensures k == u.id {
      }
    }
  }

  /** `createUser` as one transition; `hash` is `bcrypt.hash(_, 10)`. */
  function CreateUserStep(t: Tables, user: Option<ContextUser>, args: NewUser, hash: string -> string, newId: string, now: int): (Result<PublicUser, GraphQLError>, Tables) {
    if user.None? then (Err(NotAuthenticatedError), t)
    else if user.value.firmId != args.firmId then (Err(OtherFirm), t)
    else if user.value.userId !in t.users || t.users[user.value.userId].role != Admin then (Err(NotAdmin), t)
    else if exists k | k in t.users :: t.users[k].email == args.email then (Err(EmailTaken), t)
    else
      var created := User(newId, args.name, args.email, hash(args.password), args.role, args.firmId, now);
      (Ok(ExcludePassword(created)), t.(users := t.users[newId := created]))
  }

  /** The checks run in the order caller, firm, stored ADMIN role, e-mail; any
      failure creates nothing. */
  lemma CreateUserRefusals(t: Tables, user: Option<ContextUser>, args: NewUser, hash: string -> string, newId: string, now: int)
    ensures var (r, after) := CreateUserStep(t, user, args, hash, newId, now);
      && (r.Err? ==> after == t)
      && (user.None? ==> r == Err(NotAuthenticatedError))
      && (user.Some? && user.value.firmId != args.firmId ==> r == Err(OtherFirm))
      && ((user.Some? && user.value.firmId == args.firmId &&
           (user.value.userId !in t.users || t.users[user.value.userId].role != Admin)) ==> r == Err(NotAdmin))
      && ((user.Some? && user.value.firmId == args.firmId &&
           user.value.userId in t.users && t.users[user.value.userId].role == Admin &&
           (exists k | k in t.users :: t.users[k].email == args.email)) ==> r == Err(EmailTaken))
      && (r.Ok? <==> user.Some? && user.value.firmId == args.firmId &&
                     user.value.userId in t.users && t.users[user.value.userId].role == Admin &&
                     forall k | k in t.users :: t.users[k].email != args.email)
  {
  }

  /** A created user has the given name, e-mail, role and firm and the hash of
      the given password, never the password itself; it is answered without
      the password, and no other table changes. */
  lemma CreateUserEffect(t: Tables, user: Option<ContextUser>, args: NewUser, hash: string -> string, newId: string, now: int)
    requires newId !in t.users
    ensures var (r, after) := CreateUserStep(t, user, args, hash, newId, now);
      r.Ok? ==>
        && newId in after.users && after.users.Keys == t.users.Keys + {newId}
        && (forall k | k in t.users :: after.users[k] == t.users[k])
        && var stored := after.users[newId];
        && stored.name == args.name && stored.email == args.email && stored.role == args.role
        && stored.firmId == args.firmId && stored.password == hash(args.password)
        && r.value == ExcludePassword(stored)
        && after.firms == t.firms && after.products == t.products && after.bills == t.bills && after.billItems == t.billItems
  {
  }

  /** `createUser` keeps the database consistent: in particular no two users
      ever share an e-mail, in any firm. */
  lemma CreateUserConsistent(t: Tables, user: Option<ContextUser>, args: NewUser, hash: string -> string, newId: string, now: int)
    requires Consistent(t) && newId !in t.users
    ensures Consistent(CreateUserStep(t, user, args, hash, newId, now).1)
  {
  }

  /** A created user can log in with the password it was created with, for any
      `compare` that accepts a password against its own hash, and the token
      names the new user and its firm. */
  lemma CreateUserThenLogin(t: Tables, user: Option<ContextUser>, args: NewUser, hash: string -> string,
                            compare: (string, string) -> bool, newId: string, now: int)
    requires Consistent(t) && newId !in t.users
    requires compare(args.password, hash(args.password))
    requires CreateUserStep(t, user, args, hash, newId, now).0.Ok?
    ensures var after := CreateUserStep(t, user, args, hash, newId, now).1;
      Consistent(after) &&
      Login(after, args.email, args.password, compare).Ok? &&
      Login(after, args.email, args.password, compare).value.token == SignedToken(TokenPayload(newId, args.firmId), TokenLifetime)
  {
    var after := CreateUserStep(t, user, args, hash, newId, now).1;
    CreateUserConsistent(t, user, args, hash, newId, now);
    var found := UserByEmail(after.users, args.email);
    assert after.users[newId].email == args.email;
    assert found.value.id == newId;
  }

  /** `createUser` on the database. */
  method CreateUser(db: Database, user: Option<ContextUser>, args: NewUser, hash: string -> string, newId: string, now: int) returns (r: Result<PublicUser, GraphQLError>)
    requires db.Valid()
    requires newId !in db.users
    modifies db
    ensures (r, db.Snapshot()) == CreateUserStep(old(db.Snapshot()), user, args, hash, newId, now)
    ensures db.Valid()
  {
    CreateUserConsistent(db.Snapshot(), user, args, hash, newId, now);
    if user.None? {
      return Err(NotAuthenticatedError);
    }
    var caller := user.value;
    if caller.firmId != args.firmId {
      return Err(OtherFirm);
    }
    if caller.userId !in db.users || db.users[caller.userId].role != Admin {
      return Err(NotAdmin);
    }
    if exists k | k in db.users :: db.users[k].email == args.email {
      return Err(EmailTaken);
    }
    var created := User(newId, args.name, args.email, hash(args.password), args.role, args.firmId, now);
    db.users := db.users[newId := created];
    return Ok(ExcludePassword(created));
  }
}
