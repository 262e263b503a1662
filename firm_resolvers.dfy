/**
 * `signUpFirm`: a new firm together with its first user, an ADMIN, created in
 * one nested write, and a token for that user.
 */
module FirmResolvers {
  import opened Wrappers
  import opened RequestContext
  import opened GraphQLErrors
  import opened Store
  import UserResolvers

  datatype SignUpArgs = SignUpArgs(
    firmName: string, firmEmail: string, firmAddress: Option<string>, firmPhone: Option<string>,
    adminEmail: string, adminPassword: string, adminName: string)

  /** What `signUpFirm` answers: the admin is returned as stored, hash included. */
  datatype SignUpPayload = SignUpPayload(token: SignedToken, user: User, firm: Firm)

  const FirmEmailTaken := Plain("Firm with this email already exists")
  const AdminCreationFailed := Plain("Admin user creation failed")

  /** `firm.users.find((u) => u.role === 'ADMIN')`. */
  function FirstAdmin(users: seq<User>): (r: Option<User>)
    ensures r.Some? ==> r.value in users && r.value.role == Admin
    ensures r.None? ==> forall i | 0 <= i < |users| :: users[i].role != Admin
  {
    if users == [] then None
    else if users[0].role == Admin then Some(users[0])
    else FirstAdmin(users[1..])
  }

  /** `signUpFirm` as one transition. `hash` is `bcrypt.hash(_, 10)`; `firmId`,
      `userId` and `now` are the store's fresh ids and clock. The nested user
      create is part of the firm's write, so an e-mail already used by a user
      makes the whole write fail on the user table's unique e-mail column. */
  function SignUpFirmStep(t: Tables, args: SignUpArgs, hash: string -> string, firmId: string, userId: string, now: int): (Result<SignUpPayload, GraphQLError>, Tables) {
    if exists k | k in t.firms :: t.firms[k].email == args.firmEmail then (Err(FirmEmailTaken), t)
    else if exists k | k in t.users :: t.users[k].email == args.adminEmail then (Err(UniqueConstraint("email")), t)
    else
      var firm := Firm(firmId, args.firmName, args.firmEmail, args.firmAddress, args.firmPhone, now);
      var admin := User(userId, args.adminName, args.adminEmail, hash(args.adminPassword), Admin, firmId, now);
      var after := t.(firms := t.firms[firmId := firm], users := t.users[userId := admin]);
      match FirstAdmin([admin])
      case None => (Err(AdminCreationFailed), after)
      case Some(found) =>
        (Ok(SignUpPayload(SignedToken(TokenPayload(found.id, firm.id), TokenLifetime), found, firm)), after)
  }

  /** A firm e-mail already registered, or an admin e-mail already used by any
      user, refuses the sign-up and creates nothing; otherwise it succeeds. */
  lemma SignUpRefusals(t: Tables, args: SignUpArgs, hash: string -> string, firmId: string, userId: string, now: int)
    ensures var (r, after) := SignUpFirmStep(t, args, hash, firmId, userId, now);
      && ((exists k | k in t.firms :: t.firms[k].email == args.firmEmail) ==> r == Err(FirmEmailTaken))
      && (((forall k | k in t.firms :: t.firms[k].email != args.firmEmail) &&
           (exists k | k in t.users :: t.users[k].email == args.adminEmail)) ==> r == Err(UniqueConstraint("email")))
      && (r.Err? ==> after == t)
      && (r.Ok? <==> (forall k | k in t.firms :: t.firms[k].email != args.firmEmail) &&
                     (forall k | k in t.users :: t.users[k].email != args.adminEmail))
  {
  }

  /** A sign-up creates exactly one firm and one user; the user is an ADMIN of
      that firm holding the hash of the admin password, is returned as stored,
      and the token names that user and firm for seven days. */
  lemma SignUpEffect(t: Tables, args: SignUpArgs, hash: string -> string, firmId: string, userId: string, now: int)
    requires firmId !in t.firms && userId !in t.users
    ensures var (r, after) := SignUpFirmStep(t, args, hash, firmId, userId, now);
      r.Ok? ==>
        && after.firms.Keys == t.firms.Keys + {firmId} && after.users.Keys == t.users.Keys + {userId}
        && (forall k | k in t.firms :: after.firms[k] == t.firms[k])
        && (forall k | k in t.users :: after.users[k] == t.users[k])
        && var firm, admin := after.firms[firmId], after.users[userId];
        && firm.name == args.firmName && firm.email == args.firmEmail
        && firm.address == args.firmAddress && firm.phone == args.firmPhone
        && admin.role == Admin && admin.firmId == firmId && admin.email == args.adminEmail && admin.name == args.adminName
        && admin.password == hash(args.adminPassword)
        && r.value.user == admin && r.value.firm == firm
        && r.value.token == SignedToken(TokenPayload(userId, firmId), "7d")
        && after.products == t.products && after.bills == t.bills && after.billItems == t.billItems
  {
  }

  /** A sign-up keeps the database consistent. */
  lemma SignUpConsistent(t: Tables, args: SignUpArgs, hash: string -> string, firmId: string, userId: string, now: int)
    requires Consistent(t) && firmId !in t.firms && userId !in t.users
    ensures Consistent(SignUpFirmStep(t, args, hash, firmId, userId, now).1)
  {
  }

  /** The new admin can log in with the admin password, for any `compare` that
      accepts a password against its own hash, and gets a token for the same
      user and firm as the sign-up's. */
  lemma SignUpThenLogin(t: Tables, args: SignUpArgs, hash: string -> string, compare: (string, string) -> bool,
                        firmId: string, userId: string, now: int)
    requires Consistent(t) && firmId !in t.firms && userId !in t.users
    requires compare(args.adminPassword, hash(args.adminPassword))
    requires SignUpFirmStep(t, args, hash, firmId, userId, now).0.Ok?
    ensures var (r, after) := SignUpFirmStep(t, args, hash, firmId, userId, now);
      Consistent(after) &&
      UserResolvers.Login(after, args.adminEmail, args.adminPassword, compare).Ok? &&
      UserResolvers.Login(after, args.adminEmail, args.adminPassword, compare).value.token == r.value.token &&
      UserResolvers.Login(after, args.adminEmail, args.adminPassword, compare).value.user == UserResolvers.ExcludePassword(r.value.user)
  {
    var (r, after) := SignUpFirmStep(t, args, hash, firmId, userId, now);
    SignUpConsistent(t, args, hash, firmId, userId, now);
    var found := UserResolvers.UserByEmail(after.users, args.adminEmail);
    assert after.users[userId].email == args.adminEmail;
    assert found.value.id == userId;
  }

  /** `signUpFirm` on the database. */
  method SignUpFirm(db: Database, args: SignUpArgs, hash: string -> string, firmId: string, userId: string, now: int) returns (r: Result<SignUpPayload, GraphQLError>)
    requires db.Valid()
    requires firmId !in db.firms && userId !in db.users
    modifies db
    ensures (r, db.Snapshot()) == SignUpFirmStep(old(db.Snapshot()), args, hash, firmId, userId, now)
    ensures db.Valid()
  {
    SignUpConsistent(db.Snapshot(), args, hash, firmId, userId, now);
    if exists k | k in db.firms :: db.firms[k].email == args.firmEmail {
      return Err(FirmEmailTaken);
    }
    var hashed := hash(args.adminPassword);
    if exists k | k in db.users :: db.users[k].email == args.adminEmail {
      return Err(UniqueConstraint("email"));
    }
    var firm := Firm(firmId, args.firmName, args.firmEmail, args.firmAddress, args.firmPhone, now);
    var admin := User(userId, args.adminName, args.adminEmail, hashed, Admin, firmId, now);
    db.firms := db.firms[firmId := firm];
    db.users := db.users[userId := admin];
    var found := FirstAdmin([admin]);
    if found.None? {
      return Err(AdminCreationFailed);
    }
    return Ok(SignUpPayload(SignedToken(TokenPayload(found.value.id, firm.id), TokenLifetime), found.value, firm));
  }
}
