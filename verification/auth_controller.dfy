/** The account handlers: `login`, `signup`, `getAllUsers` and `logout`. */
module AuthController {
  import opened Common
  import opened Store
  import opened Http
  import opened Crypto

  datatype LoginRequest = LoginRequest(email: string, password: string)
  datatype SignupRequest = SignupRequest(username: string, email: string, password: string, avatar: Option<string>)

  /** A response together with the cookie it sets, if any. */
  datatype CookieResponse = CookieResponse(response: Response, cookie: Option<Cookie>)

  /** A response together with the user collection afterwards. */
  datatype SignupOutcome = SignupOutcome(response: Response, users: seq<UserRecord>)

  const InvalidCredentials := "Invalid email or password"
  const EmailTaken := "Email already registered"

  /** What `jwt.sign` throws when `generateToken` runs without a usable `JWT_SECRET`. */
  const MissingSecret := "secretOrPrivateKey must have a value"

  /** Seven days in milliseconds, the lifetime of the session cookie. */
  const SessionLifetimeMs := 7 * 24 * 60 * 60 * 1000

  /** The session cookie `login` sets for `token`. */
  function SessionCookie(token: string, production: bool): (c: Cookie)
    ensures c.name == AccessToken && c.value == token
    ensures c.httpOnly && c.secure == production && c.sameSite == Some("strict")
    ensures c.maxAge == Some(604800000) && c.expires.None?
  {
    Cookie(AccessToken, token, true, production, Some("strict"), Some(SessionLifetimeMs), None)
  }

  /**
   * `login`: look the user up by email, check the password, then issue a
   * token for the user's id, signed with `JWT_SECRET`, as an HttpOnly
   * cookie. An unknown email and a wrong password are answered
   * identically. `generateToken` has no fallback key, so without a truthy
   * `JWT_SECRET` signing throws and the `catch` answers 500. `fault` is a
   * throw from the lookup or the comparison.
   */
  function Login(req: LoginRequest, users: seq<UserRecord>, crypto: Crypto, jwtSecret: Option<string>,
                 production: bool, fault: Fault): (r: CookieResponse)
    ensures fault.Fails? ==> r == CookieResponse(ServerError(fault.reason), None)
    ensures r.cookie.Some? <==> r.response.status == StatusOk
    ensures r.response.status == StatusOk <==>
              && fault.Healthy?
              && FindByEmail(users, req.email).Some?
              && crypto.compare(req.password, FindByEmail(users, req.email).value.password)
              && Truthy(jwtSecret)
    ensures r.response.status == StatusOk ==>
              var u := FindByEmail(users, req.email).value;
              && r.cookie == Some(SessionCookie(crypto.sign(jwtSecret.value, u.id), production))
              && r.response.body == Account("Login successful", Public(u))
    ensures fault.Healthy? &&
            (FindByEmail(users, req.email).None? ||
             !crypto.compare(req.password, FindByEmail(users, req.email).value.password)) ==>
              r == CookieResponse(Response(StatusBadRequest, Note(InvalidCredentials)), None)
    ensures fault.Healthy? && FindByEmail(users, req.email).Some? &&
            crypto.compare(req.password, FindByEmail(users, req.email).value.password) &&
            !Truthy(jwtSecret) ==>
              r == CookieResponse(ServerError(MissingSecret), None)
  {
    match fault
    case Fails(reason) => CookieResponse(ServerError(reason), None)
    case Healthy =>
      match FindByEmail(users, req.email)
      case None => CookieResponse(Response(StatusBadRequest, Note(InvalidCredentials)), None)
      case Some(u) =>
        if !crypto.compare(req.password, u.password) then
          CookieResponse(Response(StatusBadRequest, Note(InvalidCredentials)), None)
        else if !Truthy(jwtSecret) then
          CookieResponse(ServerError(MissingSecret), None)
        else
          var token := crypto.sign(jwtSecret.value, u.id);
          CookieResponse(Response(StatusOk, Account("Login successful", Public(u))),
                         Some(SessionCookie(token, production)))
  }

  /**
   * `signup`: refuse an email already on file, otherwise hash the password
   * with `salt` and create the user. `lookup` is a throw from `findOne`;
   * `create` is the outcome of hashing and `User.create`.
   */
  function Signup(req: SignupRequest, users: seq<UserRecord>, crypto: Crypto, salt: string,
                  lookup: Fault, create: InsertResult): (r: SignupOutcome)
    ensures r.response.status == StatusCreated <==>
              lookup.Healthy? && FindByEmail(users, req.email).None? && create.Inserted?
    ensures r.response.status != StatusCreated ==> r.users == users
    ensures lookup.Fails? ==> r.response == ServerError(lookup.reason)
    ensures lookup.Healthy? && FindByEmail(users, req.email).Some? ==>
              r.response == Response(StatusBadRequest, Note(EmailTaken))
    ensures lookup.Healthy? && FindByEmail(users, req.email).None? && create.InsertFails? ==>
              r.response == ServerError(create.reason)
    ensures r.response.status == StatusCreated ==>
              var u := UserRecord(create.stamp.id, req.username, req.email,
                                  crypto.hash(req.password, salt), req.avatar, create.stamp.createdAt);
              && r.users == users + [u]
              && r.response.body == Account("User registered successfully", Public(u))
  {
    match lookup
    case Fails(reason) => SignupOutcome(ServerError(reason), users)
    case Healthy =>
      if FindByEmail(users, req.email).Some? then
        SignupOutcome(Response(StatusBadRequest, Note(EmailTaken)), users)
      else
        match create
        case InsertFails(reason) => SignupOutcome(ServerError(reason), users)
        case Inserted(stamp) =>
          var hashed := crypto.hash(req.password, salt);
          var u := UserRecord(stamp.id, req.username, req.email, hashed, req.avatar, stamp.createdAt);
          SignupOutcome(Response(StatusCreated, Account("User registered successfully", Public(u))),
                        users + [u])
  }

  /** The number of stored users with id `me`. */
  function CountId(users: seq<UserRecord>, me: UserId): nat
  {
    if users == [] then 0
    else (if users[0].id == me then 1 else 0) + CountId(users[1..], me)
  }

  /** `User.find({ _id: { $ne: me } })` followed by the `{id, username, email, avatar}` projection. */
  function OthersPublic(users: seq<UserRecord>, me: UserId): (r: seq<PublicUser>)
    ensures |r| == |users| - CountId(users, me)
    ensures forall i :: 0 <= i < |r| ==> r[i].id != me
    ensures forall u :: u in users && u.id != me ==> Public(u) in r
    ensures forall p :: p in r ==> exists u :: u in users && u.id != me && p == Public(u)
  {
    if users == [] then []
    else
      var rest := OthersPublic(users[1..], me);
      assert forall u :: u in users ==> u == users[0] || u in users[1..];
      if users[0].id == me then rest else [Public(users[0])] + rest
  }

  /** `getAllUsers`: every user other than the requester, without passwords; 500 if the query throws. */
  function GetAllUsers(requester: SafeUser, users: seq<UserRecord>, fault: Fault): (r: Response)
    ensures fault.Fails? ==> r == ServerError(fault.reason)
    ensures fault.Healthy? ==> r.status == StatusOk && r.body.UserList?
    ensures fault.Healthy? ==> |r.body.users| == |users| - CountId(users, requester.id)
    ensures fault.Healthy? ==> forall p :: p in r.body.users <==>
              exists u :: u in users && u.id != requester.id && p == Public(u)
  {
    match fault
    case Fails(reason) => ServerError(reason)
    case Healthy => Response(StatusOk, UserList(OthersPublic(users, requester.id)))
  }

  /** `logout`: overwrite the session cookie with an empty value that expired at the epoch. */
  function Logout(): (r: CookieResponse)
    ensures r.response == Response(StatusOk, Note("Logged out successfully"))
    ensures r.cookie.Some? && r.cookie.value.name == AccessToken && r.cookie.value.value == ""
    ensures r.cookie.value.httpOnly && r.cookie.value.expires == Some(0)
  {
    CookieResponse(Response(StatusOk, Note("Logged out successfully")),
                   Some(Cookie(AccessToken, "", true, false, None, None, Some(0))))
  }

  /** A failed login cannot tell an unknown email from a wrong password. */
  lemma LoginFailuresIndistinguishable(email1: string, email2: string, pw1: string, pw2: string,
                                       users: seq<UserRecord>, crypto: Crypto, jwtSecret: Option<string>,
                                       production: bool)
    requires FindByEmail(users, email1).None?
    requires FindByEmail(users, email2).Some?
    requires !crypto.compare(pw2, FindByEmail(users, email2).value.password)
    ensures Login(LoginRequest(email1, pw1), users, crypto, jwtSecret, production, Healthy)
            == Login(LoginRequest(email2, pw2), users, crypto, jwtSecret, production, Healthy)
  {
  }

  /** A signup that is turned away leaves the user collection as it was, whatever else happens. */
  lemma RejectedSignupCreatesNothing(req: SignupRequest, users: seq<UserRecord>, crypto: Crypto,
                                     salt: string, create: InsertResult)
    requires FindByEmail(users, req.email).Some?
    ensures Signup(req, users, crypto, salt, Healthy, create).users == users
    ensures Signup(req, users, crypto, salt, Healthy, create).response.status == StatusBadRequest
  {
  }

  /** A successful signup keeps the unique email index intact. */
  lemma SignupKeepsEmailsUnique(req: SignupRequest, users: seq<UserRecord>, crypto: Crypto,
                                salt: string, lookup: Fault, create: InsertResult)
    requires UniqueEmails(users)
    ensures UniqueEmails(Signup(req, users, crypto, salt, lookup, create).users)
  {
  }

  /** With a hash that never returns its input, the stored password is never the plaintext. */
  lemma SignupStoresNoPlaintext(req: SignupRequest, users: seq<UserRecord>, crypto: Crypto,
                                salt: string, stamp: Stamp)
    requires HashHides(crypto)
    requires FindByEmail(users, req.email).None?
    ensures var r := Signup(req, users, crypto, salt, Healthy, Inserted(stamp));
            && |r.users| == |users| + 1
            && r.users[|users|].password != req.password
  {
  }
}
