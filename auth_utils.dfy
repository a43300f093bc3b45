/**
 * The bearer-token gate of the app routes: `authenticate` resolves the
 * Authorization header to a stored user, or to nothing, and never fails;
 * `isAuthorized` checks the user's role against a list.
 */
module AuthUtils {
  import opened Wrappers
  import opened Text
  import opened Externals
  import opened Database

  /** A User row with the id of its trainer profile, if it has one. */
  datatype AuthenticatedUser = AuthenticatedUser(user: User, trainerId: Option<Id>)

  const BearerPrefix := "Bearer "

  /**
   * `header.split(" ")[1]` on a header that starts with "Bearer ": the text
   * after the prefix up to the next space, or to the end.
   */
  function BearerToken(header: string): (token: string)
    requires BearerPrefix <= header
    ensures SecondField(header) == Some(token)
    ensures token <= header[|BearerPrefix|..] && ' ' !in token
    ensures |BearerPrefix| + |token| < |header| ==> header[|BearerPrefix| + |token|] == ' '
  {
    var rest := header[|BearerPrefix|..];
    assert header == "Bearer" + [' '] + rest;
    SplitAfterFirst("Bearer", rest, ' ');
    FirstPartIsPrefix(rest, ' ');
    Split(header, ' ')[1]
  }

  /**
   * `authenticate(req)`: null for an absent or non-bearer header, an unset
   * secret, a token that does not verify, a payload without `userId`, or an
   * unknown user; otherwise the user with its trainer id.
   */
  function Authenticate(env: Env, db: Db, authorization: Option<string>): (r: Option<AuthenticatedUser>)
    ensures r.Some? ==> authorization.Some? && BearerPrefix <= authorization.value && env.jwtSecret != ""
    ensures r.Some? ==>
      var claims := env.jwtVerify(BearerToken(authorization.value), env.jwtSecret);
      claims.Some? && "userId" in claims.value && claims.value["userId"] == r.value.user.id != ""
    ensures r.Some? ==> r.value.user in db.users
    ensures r.Some? ==> (r.value.trainerId.Some? <==> exists t :: t in db.trainers && t.userId == r.value.user.id)
    ensures r.Some? && r.value.trainerId.Some? ==>
      exists t :: t in db.trainers && t.userId == r.value.user.id && t.id == r.value.trainerId.value
  {
    if authorization.None? || !(BearerPrefix <= authorization.value) then None
    else
      var token := BearerToken(authorization.value);
      if env.jwtSecret == "" then None
      else
        match env.jwtVerify(token, env.jwtSecret)
        case None => None
        case Some(claims) =>
          if "userId" !in claims || claims["userId"] == "" then None
          else
            match UserById(db.users, claims["userId"])
            case None => None
            case Some(user) =>
              var trainerId := match TrainerOfUser(db.trainers, user.id)
                case None => None
                case Some(t) => Some(t.id);
              Some(AuthenticatedUser(user, trainerId))
  }

  /** `isAuthorized(user, roles)`: the user's role is one of `allowedRoles`. */
  predicate IsAuthorized(user: AuthenticatedUser, allowedRoles: seq<Role>)
  {
    user.user.role in allowedRoles
  }

  /** Two users with the same id in a table with a primary key are the same row. */
  lemma SameIdSameUser(users: seq<User>, a: User, b: User)
    requires forall i, j :: 0 <= i < j < |users| ==> users[i].id != users[j].id
    requires a in users && b in users && a.id == b.id
    ensures a == b
  {
    var i :| 0 <= i < |users| && users[i] == a;
    var j :| 0 <= j < |users| && users[j] == b;
    assert !(i < j) && !(j < i);
  }

  /**
   * A bearer header whose token verifies to claims naming a stored user
   * authenticates as exactly that user.
   */
  lemma AuthenticatesClaimedUser(env: Env, db: Db, header: string, user: User)
    requires PrimaryKeys(db)
    requires BearerPrefix <= header && env.jwtSecret != ""
    requires user in db.users && user.id != ""
    requires
      var claims := env.jwtVerify(BearerToken(header), env.jwtSecret);
      claims.Some? && "userId" in claims.value && claims.value["userId"] == user.id
    ensures Authenticate(env, db, Some(header)).Some?
    ensures Authenticate(env, db, Some(header)).value.user == user
  {
    var found := UserById(db.users, user.id);
    assert HasUser(db.users, user.id);
    SameIdSameUser(db.users, found.value, user);
  }

  /** A header built from a space-free token hands that token back. */
  lemma BearerTokenRoundTrip(token: string)
    requires ' ' !in token
    ensures BearerToken(BearerPrefix + token) == token
  {
    var header := BearerPrefix + token;
    var t := BearerToken(header);
    assert forall i :: 0 <= i < |token| ==> header[|BearerPrefix| + i] == token[i];
    if |t| < |token| {
      assert false;
    }
  }

  /** `authenticate` reads only the user and trainer tables. */
  lemma AuthenticateReadsOnlyIdentities(env: Env, db: Db, db': Db, authorization: Option<string>)
    requires db.users == db'.users && db.trainers == db'.trainers
    ensures Authenticate(env, db, authorization) == Authenticate(env, db', authorization)
  {
  }
}
