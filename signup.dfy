/**
 * POST /api/auth/signup: validates the body, refuses a registered e-mail,
 * stores a USER or TRAINER account with a hashed password, gives a trainer
 * an empty profile, and answers with a seven-day token.
 */
module Signup {
  import opened Wrappers
  import opened Http
  import opened Externals
  import opened Database

  datatype SignupRequest = SignupRequest(name: Json, email: Json, password: Json, role: Json)
  /** The account as the reply shows it: no password. */
  datatype PublicUser = PublicUser(id: Id, name: string, email: string, role: Role)
  datatype SignupOk = SignupOk(message: string, token: string, user: PublicUser)

  // `signupSchema`, field by field.
  predicate NameOk(v: Json) { v.Str? && |v.s| >= 2 }
  predicate EmailOk(env: Env, v: Json) { v.Str? && env.isEmail(v.s) }
  predicate PasswordOk(v: Json) { v.Str? && |v.s| >= 6 }
  predicate RoleOk(v: Json) { v.Absent? || v == Str("USER") || v == Str("TRAINER") }

  /** The fields `signupSchema` rejects, in schema order; the body is accepted when there are none. */
  function SignupIssues(env: Env, req: SignupRequest): (issues: seq<string>)
    ensures issues == [] <==> NameOk(req.name) && EmailOk(env, req.email) && PasswordOk(req.password) && RoleOk(req.role)
    ensures "name" in issues <==> !NameOk(req.name)
    ensures "email" in issues <==> !EmailOk(env, req.email)
    ensures "password" in issues <==> !PasswordOk(req.password)
    ensures "role" in issues <==> !RoleOk(req.role)
  {
    (if NameOk(req.name) then [] else ["name"]) +
    (if EmailOk(env, req.email) then [] else ["email"]) +
    (if PasswordOk(req.password) then [] else ["password"]) +
    (if RoleOk(req.role) then [] else ["role"])
  }

  /** The role stored for a requested role: TRAINER when asked for, USER otherwise. */
  function StoredRole(requested: Json): (role: Role)
    ensures role == TRAINER <==> requested == Str("TRAINER")
    ensures role != ADMIN
  {
    if requested == Str("TRAINER") then TRAINER else USER
  }

  /** The payload of a signup token. */
  function SignupClaims(user: User): Claims {
    map["userId" := user.id, "email" := user.email, "role" := RoleName(user.role)]
  }

  /** A request that passes validation and names an e-mail nobody has: the one that writes. */
  predicate Admissible(env: Env, db: Db, body: Body<SignupRequest>) {
    body.Parsed? && SignupIssues(env, body.fields) == [] &&
    UserByEmail(db.users, body.fields.email.s).None?
  }

  /** The account an admissible request creates. */
  function NewAccount(env: Env, db: Db, req: SignupRequest): (u: User)
    requires req.name.Str? && req.email.Str? && req.password.Str?
    ensures KeysBelow(db) ==> !HasUser(db.users, u.id)
    ensures u.role != ADMIN && (u.role == TRAINER <==> req.role == Str("TRAINER"))
  {
    User(NewKey(db.nextKey), req.name.s, req.email.s, env.bcryptHash(req.password.s), StoredRole(req.role))
  }

  /** The signup route: its reply and the database it leaves. */
  function SignupSpec(env: Env, db: Db, body: Body<SignupRequest>): (r: Step<SignupOk>)
    ensures r.reply.status in {201, 400, 409, 500}
    ensures r.reply.Ok? ==> r.reply.status == 201
  {
    if body.Unparsable? then Step(Internal(), db)
    else
      var req := body.fields;
      var issues := SignupIssues(env, req);
      if issues != [] then Step(Invalid(400, "Validation failed", issues), db)
      else if UserByEmail(db.users, req.email.s).Some? then
        Step(Fail(409, "User with this email already exists"), db)
      else
        var user := NewAccount(env, db, req);
        var withUser := db.(users := db.users + [user], nextKey := db.nextKey + 1);
        var after :=
          if req.role == Str("TRAINER") then
            withUser.(trainers := withUser.trainers + [Trainer(NewKey(withUser.nextKey), user.id, [])],
                      nextKey := withUser.nextKey + 1)
          else withUser;
        match Sign(env, SignupClaims(user), SevenDays)
        case None => Step(Internal(), after)
        case Some(token) =>
          Step(Ok(201, SignupOk("User created successfully", token,
                                PublicUser(user.id, user.name, user.email, user.role))), after)
  }

  /**
   * Only an admissible request writes; a validation failure answers 400 and
   * a registered e-mail 409, and both leave the database as it was.
   */
  lemma SignupRefusalsWriteNothing(env: Env, db: Db, body: Body<SignupRequest>)
    ensures !Admissible(env, db, body) ==> SignupSpec(env, db, body).db == db
    ensures body.Parsed? && SignupIssues(env, body.fields) != [] ==>
      SignupSpec(env, db, body).reply == Invalid(400, "Validation failed", SignupIssues(env, body.fields))
    ensures body.Parsed? && SignupIssues(env, body.fields) == [] && !Admissible(env, db, body) ==>
      SignupSpec(env, db, body).reply == Fail(409, "User with this email already exists")
  {
  }

  /**
   * An admissible request adds exactly one user, with the hashed password and
   * the mapped role, and a trainer profile with no specialties exactly when
   * TRAINER was requested; classes, bookings and payments are untouched.
   */
  lemma SignupCreatesAccount(env: Env, db: Db, body: Body<SignupRequest>)
    requires Admissible(env, db, body)
    ensures var s := SignupSpec(env, db, body);
      var user := s.db.users[|db.users|];
      && s.db.users == db.users + [user]
      && user.id == NewKey(db.nextKey)
      && user.name == body.fields.name.s && user.email == body.fields.email.s
      && user.password == env.bcryptHash(body.fields.password.s)
      && (user.role == TRAINER <==> body.fields.role == Str("TRAINER"))
      && user.role != ADMIN
      && s.db.trainers == db.trainers +
           (if body.fields.role == Str("TRAINER") then [Trainer(NewKey(db.nextKey + 1), user.id, [])] else [])
      && s.db.classes == db.classes && s.db.bookings == db.bookings && s.db.payments == db.payments
  {
  }

  /**
   * An admissible request answers 201 with the token over {userId, email,
   * role} and the account without its password when the secret is set; with
   * the secret unset signing throws after the writes, so the account stays
   * and the reply is 500.
   */
  lemma SignupReply(env: Env, db: Db, body: Body<SignupRequest>)
    requires Admissible(env, db, body)
    ensures var s := SignupSpec(env, db, body);
      var user := s.db.users[|db.users|];
      |s.db.users| == |db.users| + 1 &&
      (env.jwtSecret == "" ==> s.reply == Internal()) &&
      (env.jwtSecret != "" ==>
        s.reply == Ok(201, SignupOk("User created successfully",
                                    env.jwtSign(SignupClaims(user), env.jwtSecret, SevenDays),
                                    PublicUser(user.id, user.name, user.email, user.role))))
  {
  }

  /** Signup keeps the database constraints: fresh ids, unique e-mails, one profile per user. */
  lemma SignupKeepsWf(env: Env, db: Db, body: Body<SignupRequest>)
    requires Wf(db)
    ensures Wf(SignupSpec(env, db, body).db)
  {
    if !Admissible(env, db, body) {
      SignupRefusalsWriteNothing(env, db, body);
    } else {
      var req := body.fields;
      var user := NewAccount(env, db, req);
      var withUser := db.(users := db.users + [user], nextKey := db.nextKey + 1);
      AddUserKeepsWf(db, user);
      if req.role == Str("TRAINER") {
        var trainer := Trainer(NewKey(withUser.nextKey), user.id, []);
        assert SignupSpec(env, db, body).db == withUser.(trainers := withUser.trainers + [trainer], nextKey := withUser.nextKey + 1);
        NewKeyUnused(db);
        assert user in withUser.users;
        AddTrainerKeepsWf(withUser, trainer);
      } else {
        assert SignupSpec(env, db, body).db == withUser;
      }
    }
  }

  /**
   * The signup handler against the store: the user row first, then the
   * trainer row that references it, then the token.
   */
  method Signup(env: Env, store: Store, body: Body<SignupRequest>) returns (r: Reply<SignupOk>)
    requires store.Valid()
    modifies store`users, store`trainers, store`nextKey
    ensures store.Valid()
    ensures r == SignupSpec(env, old(store.Snapshot()), body).reply
    ensures store.Snapshot() == SignupSpec(env, old(store.Snapshot()), body).db
  {
    ghost var before := store.Snapshot();
    SignupKeepsWf(env, before, body);
    if body.Unparsable? {
      return Internal();
    }
    var req := body.fields;
    var issues := SignupIssues(env, req);
    if issues != [] {
      return Invalid(400, "Validation failed", issues);
    }
    if UserByEmail(store.users, req.email.s).Some? {
      return Fail(409, "User with this email already exists");
    }
    SignupReply(env, before, body);
    var user := CreateAccount(env, store, req);
    var token := Sign(env, SignupClaims(user), SevenDays);
    if token.None? {
      return Internal();
    }
    r := Ok(201, SignupOk("User created successfully", token.value,
                          PublicUser(user.id, user.name, user.email, user.role)));
  }

  /** The writes of an admissible signup: the user, then a trainer profile when TRAINER was asked for. */
  method CreateAccount(env: Env, store: Store, req: SignupRequest) returns (user: User)
    requires Admissible(env, store.Snapshot(), Parsed(req))
    modifies store`users, store`trainers, store`nextKey
    ensures user == NewAccount(env, old(store.Snapshot()), req)
    ensures store.Snapshot() == SignupSpec(env, old(store.Snapshot()), Parsed(req)).db
  {
    var hashed := env.bcryptHash(req.password.s);
    var userId := store.FreshKey();
    user := User(userId, req.name.s, req.email.s, hashed, StoredRole(req.role));
    store.users := store.users + [user];
    if req.role == Str("TRAINER") {
      var trainerId := store.FreshKey();
      store.trainers := store.trainers + [Trainer(trainerId, user.id, [])];
    }
  }
}
