/** The `protect` guard placed in front of every authenticated route. */
module AuthMiddleware {
  import opened Common
  import opened Store
  import opened Http
  import opened Crypto

  /** Either `next()` is called with `req.user` set, or a response ends the request. */
  datatype GuardOutcome = Next(user: SafeUser) | Reject(response: Response)

  const NotAuthorized := "Not authorized"
  const UserNotFound := "Not authorized, user not found"

  /** The key `jwt.verify` is given: `JWT_SECRET` when it is set and non-empty, else `"secret"`. */
  function VerifyKey(jwtSecret: Option<string>): (k: string)
    ensures Truthy(jwtSecret) ==> k == jwtSecret.value
    ensures !Truthy(jwtSecret) ==> k == "secret"
    ensures k != ""
  {
    if Truthy(jwtSecret) then jwtSecret.value else "secret"
  }

  /** The session token, if the `access_token` cookie is present and truthy. */
  function SessionToken(cookies: map<string, string>): (t: Option<string>)
    ensures t.Some? <==> AccessToken in cookies && cookies[AccessToken] != ""
    ensures t.Some? ==> t.value == cookies[AccessToken]
  {
    if AccessToken in cookies && cookies[AccessToken] != "" then Some(cookies[AccessToken]) else None
  }

  /**
   * `protect`: no token → 401; a token that does not verify → 401; a
   * lookup that throws → 401 (the same `catch`); no such user → 401;
   * otherwise `next()` with the user loaded without its password.
   */
  function Protect(cookies: map<string, string>, users: seq<UserRecord>, crypto: Crypto,
                   jwtSecret: Option<string>, lookup: Fault): (r: GuardOutcome)
    ensures SessionToken(cookies).None? ==> r == Reject(Response(StatusUnauthorized, Note(NotAuthorized)))
    ensures r.Reject? ==> r.response.status == StatusUnauthorized
    ensures r.Next? <==>
              && SessionToken(cookies).Some?
              && crypto.verify(VerifyKey(jwtSecret), SessionToken(cookies).value).Claims?
              && lookup.Healthy?
              && FindById(users, crypto.verify(VerifyKey(jwtSecret), SessionToken(cookies).value).id).Some?
    ensures r.Next? ==> exists u :: u in users && r.user == WithoutPassword(u)
                          && Claims(u.id) == crypto.verify(VerifyKey(jwtSecret), SessionToken(cookies).value)
  {
    match SessionToken(cookies)
    case None => Reject(Response(StatusUnauthorized, Note(NotAuthorized)))
    case Some(token) =>
      match crypto.verify(VerifyKey(jwtSecret), token)
      case JwtError(reason) => Reject(Response(StatusUnauthorized, Failure(NotAuthorized, reason)))
      case Claims(id) =>
        match lookup
        case Fails(reason) => Reject(Response(StatusUnauthorized, Failure(NotAuthorized, reason)))
        case Healthy =>
          match FindById(users, id)
          case None => Reject(Response(StatusUnauthorized, Note(UserNotFound)))
          case Some(u) => Next(WithoutPassword(u))
  }

  /** A verified token naming no stored user is answered "user not found". */
  lemma UnknownUserRejected(cookies: map<string, string>, users: seq<UserRecord>, crypto: Crypto,
                            jwtSecret: Option<string>, id: UserId)
    requires SessionToken(cookies).Some?
    requires crypto.verify(VerifyKey(jwtSecret), SessionToken(cookies).value) == Claims(id)
    requires forall i :: 0 <= i < |users| ==> users[i].id != id
    ensures Protect(cookies, users, crypto, jwtSecret, Healthy)
            == Reject(Response(StatusUnauthorized, Note(UserNotFound)))
  {
  }

  /** A store failure while loading the user is answered 401 like a bad token, never 500. */
  lemma LookupFailureIsUnauthorized(cookies: map<string, string>, users: seq<UserRecord>, crypto: Crypto,
                                    jwtSecret: Option<string>, reason: string)
    requires SessionToken(cookies).Some?
    requires crypto.verify(VerifyKey(jwtSecret), SessionToken(cookies).value).Claims?
    ensures Protect(cookies, users, crypto, jwtSecret, Fails(reason))
            == Reject(Response(StatusUnauthorized, Failure(NotAuthorized, reason)))
  {
  }
}
