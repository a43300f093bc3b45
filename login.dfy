/**
 * POST /api/auth/login: checks the body against the login schema, looks the
 * user up by e-mail, compares the password hash and signs a one-hour token.
 * It reads the user table and writes nothing.
 */
module Login {
  import opened Wrappers
  import opened Http
  import opened Externals
  import opened Database

  datatype Credentials = Credentials(email: Json, password: Json)

  /** `loginSchema`: a string e-mail of the right form and a string password of at least six characters. */
  predicate LoginSchema(env: Env, c: Credentials) {
    c.email.Str? && env.isEmail(c.email.s) && c.password.Str? && |c.password.s| >= 6
  }

  /** The payload of a login token: the user id alone. */
  function LoginClaims(userId: Id): Claims {
    map["userId" := userId]
  }

  /**
   * The login route. `loginSchema.parse` throws on a bad body, and the
   * outer catch turns that into 500; the 400 guard after it only fires for
   * an empty e-mail the e-mail check accepted.
   */
  function Login(env: Env, db: Db, body: Body<Credentials>): (r: Reply<string>)
    ensures body.Unparsable? || !LoginSchema(env, body.fields) ==> r == Internal()
    ensures r.status == 404 ==>
      r == Fail(404, "User not found") && body.Parsed? && LoginSchema(env, body.fields) &&
      forall u :: u in db.users ==> u.email != body.fields.email.s
    ensures r.status == 401 ==>
      r == Fail(401, "Invalid password") && body.Parsed? && LoginSchema(env, body.fields) &&
      exists u :: u in db.users && u.email == body.fields.email.s &&
        !env.bcryptCompare(body.fields.password.s, u.password)
    ensures r.Ok? ==>
      r.status == 200 && body.Parsed? && LoginSchema(env, body.fields) && env.jwtSecret != "" &&
      exists u :: u in db.users && u.email == body.fields.email.s &&
        env.bcryptCompare(body.fields.password.s, u.password) &&
        r.value == env.jwtSign(LoginClaims(u.id), env.jwtSecret, OneHour)
    ensures !r.Invalid?
  {
    if body.Unparsable? || !LoginSchema(env, body.fields) then Internal()
    else
      var email, password := body.fields.email.s, body.fields.password.s;
      if email == "" || password == "" then Fail(400, "Missing email or password")
      else
        match UserByEmail(db.users, email)
        case None => Fail(404, "User not found")
        case Some(user) =>
          if !env.bcryptCompare(password, user.password) then Fail(401, "Invalid password")
          else
            match Sign(env, LoginClaims(user.id), OneHour)
            case None => Internal()
            case Some(token) => Ok(200, token)
  }

  /** With an e-mail check that rejects the empty string, the 400 branch is unreachable. */
  lemma LoginNeverAnswers400(env: Env, db: Db, body: Body<Credentials>)
    requires !env.isEmail("")
    ensures Login(env, db, body).status != 400
  {
  }

  /** Under unique e-mails, a correct password for a stored user yields that user's token. */
  lemma LoginSignsForTheStoredUser(env: Env, db: Db, body: Body<Credentials>, user: User)
    requires UniqueEmails(db.users) && !env.isEmail("")
    requires body.Parsed? && LoginSchema(env, body.fields)
    requires user in db.users && user.email == body.fields.email.s
    requires env.bcryptCompare(body.fields.password.s, user.password) && env.jwtSecret != ""
    ensures Login(env, db, body) == Ok(200, env.jwtSign(LoginClaims(user.id), env.jwtSecret, OneHour))
  {
    UserByEmailFindsTheUser(db.users, user);
  }

  /** A well-formed body whose e-mail no user has gets 404. */
  lemma UnknownEmailIsNotFound(env: Env, db: Db, body: Body<Credentials>)
    requires !env.isEmail("")
    requires body.Parsed? && LoginSchema(env, body.fields)
    requires forall u :: u in db.users ==> u.email != body.fields.email.s
    ensures Login(env, db, body) == Fail(404, "User not found")
  {
  }

  /** Under unique e-mails, a password the stored user's hash does not match gets 401. */
  lemma WrongPasswordIsRefused(env: Env, db: Db, body: Body<Credentials>, user: User)
    requires UniqueEmails(db.users) && !env.isEmail("")
    requires body.Parsed? && LoginSchema(env, body.fields)
    requires user in db.users && user.email == body.fields.email.s
    requires !env.bcryptCompare(body.fields.password.s, user.password)
    ensures Login(env, db, body) == Fail(401, "Invalid password")
  {
    UserByEmailFindsTheUser(db.users, user);
  }
}
