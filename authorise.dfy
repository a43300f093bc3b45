/**
 * The `withAuth` middleware for the pages API: it checks the token in the
 * Authorization header and the caller's role before it invokes the wrapped
 * handler with the caller attached.
 */
module Authorise {
  import opened Wrappers
  import opened Text
  import opened Externals
  import opened Database
  import opened AuthUtils

  /** The middleware's answer: a rejection it sends itself, or what the wrapped handler returned. */
  datatype Outcome<R> = Rejected(status: int, error: string) | Handled(result: R)

  /**
   * `withAuth(handler, {roles})` applied to a request. Unlike `authenticate`
   * it does not check a "Bearer" prefix, reads the `sub` claim, and answers
   * 403 only to a caller it has already authenticated; every thrown failure
   * (unset secret, no token, a token that does not verify) becomes 401.
   */
  function WithAuth<R>(env: Env, db: Db, handler: User -> R, roles: Option<seq<string>>,
                       authorization: Option<string>): (r: Outcome<R>)
    ensures authorization.None? || authorization.value == "" ==> r == Rejected(401, "Not authenticated")
    ensures r.Rejected? ==> r.status == 401 || r.status == 403
    ensures r.Rejected? && r.status == 403 ==>
      authorization.Some? && SecondField(authorization.value).Some? && env.jwtSecret != "" &&
      var payload := env.jwtVerify(SecondField(authorization.value).value, env.jwtSecret);
      payload.Some? && "sub" in payload.value && roles.Some? &&
      exists u :: u in db.users && u.id == payload.value["sub"] && RoleName(u.role) !in roles.value
    ensures r.Handled? ==>
      authorization.Some? && SecondField(authorization.value).Some? && env.jwtSecret != "" &&
      var payload := env.jwtVerify(SecondField(authorization.value).value, env.jwtSecret);
      payload.Some? && "sub" in payload.value &&
      exists u :: u in db.users && u.id == payload.value["sub"] && r.result == handler(u) &&
        (roles.Some? ==> RoleName(u.role) in roles.value)
  {
    if authorization.None? || authorization.value == "" then Rejected(401, "Not authenticated")
    else
      var token := SecondField(authorization.value);
      if env.jwtSecret == "" || token.None? then Rejected(401, "Invalid token")
      else
        match env.jwtVerify(token.value, env.jwtSecret)
        case None => Rejected(401, "Invalid token")
        case Some(payload) =>
          if "sub" !in payload || payload["sub"] == "" then Rejected(401, "Invalid token payload")
          else
            match UserById(db.users, payload["sub"])
            case None => Rejected(401, "User not found")
            case Some(user) =>
              if roles.Some? && RoleName(user.role) !in roles.value then Rejected(403, "Forbidden")
              else Handled(handler(user))
  }

  /**
   * A header whose token verifies to a non-empty `sub` naming a stored user
   * reaches the handler with that user when the role list admits the user's
   * role, and gets 403 when it does not.
   */
  lemma StoredSubjectIsServedByRole<R>(env: Env, db: Db, handler: User -> R, roles: Option<seq<string>>,
                                       header: string, u: User)
    requires PrimaryKeys(db)
    requires header != "" && env.jwtSecret != "" && SecondField(header).Some?
    requires
      var payload := env.jwtVerify(SecondField(header).value, env.jwtSecret);
      payload.Some? && "sub" in payload.value && payload.value["sub"] == u.id
    requires u in db.users && u.id != ""
    ensures roles.None? || RoleName(u.role) in roles.value ==>
      WithAuth(env, db, handler, roles, Some(header)) == Handled(handler(u))
    ensures roles.Some? && RoleName(u.role) !in roles.value ==>
      WithAuth(env, db, handler, roles, Some(header)) == Rejected(403, "Forbidden")
  {
    var found := UserById(db.users, u.id);
    assert HasUser(db.users, u.id);
    SameIdSameUser(db.users, found.value, u);
  }

  /**
   * `opts.roles` is tested for truthiness, and an empty array is truthy:
   * with an empty role list no caller ever reaches the handler.
   */
  lemma EmptyRoleListRejectsEveryone<R>(env: Env, db: Db, handler: User -> R, authorization: Option<string>)
    ensures WithAuth(env, db, handler, Some([]), authorization).Rejected?
  {
  }

  /**
   * A token whose payload carries no `sub` claim, such as every token the
   * login and signup routes issue, is refused with 401 however valid it is.
   */
  lemma PayloadWithoutSubIsRefused<R>(env: Env, db: Db, handler: User -> R, roles: Option<seq<string>>, header: string)
    requires header != "" && env.jwtSecret != "" && SecondField(header).Some?
    requires
      var payload := env.jwtVerify(SecondField(header).value, env.jwtSecret);
      payload.Some? && "sub" !in payload.value
    ensures WithAuth(env, db, handler, roles, Some(header)) == Rejected(401, "Invalid token payload")
  {
  }

  /**
   * No authentication scheme is checked: the token is whatever follows the
   * first space, so a header with any one-word scheme is treated exactly as
   * the same token under "Bearer".
   */
  lemma SchemeIsNotChecked<R>(env: Env, db: Db, handler: User -> R, roles: Option<seq<string>>,
                              scheme: string, token: string)
    requires ' ' !in scheme && ' ' !in token
    ensures WithAuth(env, db, handler, roles, Some(scheme + " " + token))
         == WithAuth(env, db, handler, roles, Some("Bearer " + token))
  {
    SplitAfterFirst(scheme, token, ' ');
    SplitAfterFirst("Bearer", token, ' ');
    SplitWithoutSeparator(token, ' ');
    assert scheme + " " + token == scheme + [' '] + token;
    assert "Bearer " + token == "Bearer" + [' '] + token;
  }
}
