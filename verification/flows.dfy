/**
 * Properties that span several handlers or both sides of the wire: an
 * account created by `signup` can `login`, the cookie `login` sets passes
 * `protect`, the cookie `logout` sets does not, and what the server
 * answers is what the client slices store.
 */
module Flows {
  import opened Common
  import opened Store
  import opened Http
  import opened Crypto
  import opened History
  import opened AuthController
  import opened AuthMiddleware
  import opened MessageController
  import Thunks
  import ChatSlice

  /**
   * Credentials accepted by `signup` log in, as the user just created, when
   * `JWT_SECRET` is set; without it the same login is answered 500.
   */
  lemma SignupThenLogin(req: SignupRequest, users: seq<UserRecord>, crypto: Crypto, salt: string,
                        stamp: Stamp, jwtSecret: Option<string>, production: bool)
    requires HashChecks(crypto)
    ensures var s := Signup(req, users, crypto, salt, Healthy, Inserted(stamp));
            s.response.status == StatusCreated ==>
              var u := s.users[|users|];
              var l := Login(LoginRequest(req.email, req.password), s.users, crypto, jwtSecret, production, Healthy);
              && (Truthy(jwtSecret) ==>
                    && l.response == Response(StatusOk, Account("Login successful", Public(u)))
                    && l.cookie == Some(SessionCookie(crypto.sign(jwtSecret.value, stamp.id), production)))
              && (!Truthy(jwtSecret) ==> l == CookieResponse(ServerError(MissingSecret), None))
  {
    var s := Signup(req, users, crypto, salt, Healthy, Inserted(stamp));
    if s.response.status == StatusCreated {
      var u := s.users[|users|];
      assert s.users == users + [u];
      FindByEmailAppendFresh(users, u);
      assert crypto.compare(req.password, crypto.hash(req.password, salt));
    }
  }

  /** Without a truthy `JWT_SECRET`, no login ever sets a session cookie. */
  lemma NoSecretNoSession(req: LoginRequest, users: seq<UserRecord>, crypto: Crypto,
                          jwtSecret: Option<string>, production: bool, fault: Fault)
    requires !Truthy(jwtSecret)
    ensures Login(req, users, crypto, jwtSecret, production, fault).cookie.None?
    ensures Login(req, users, crypto, jwtSecret, production, fault).response.status != StatusOk
  {
  }

  /**
   * Every session token is signed with the key `protect` verifies with: the
   * `"secret"` fallback of `protect` is never the key of a token `login` issued.
   */
  lemma SessionKeyIsVerifyKey(req: LoginRequest, users: seq<UserRecord>, crypto: Crypto,
                              jwtSecret: Option<string>, production: bool, fault: Fault)
    ensures var l := Login(req, users, crypto, jwtSecret, production, fault);
            l.cookie.Some? ==>
              && Truthy(jwtSecret)
              && l.cookie.value.value == crypto.sign(VerifyKey(jwtSecret), FindByEmail(users, req.email).value.id)
  {
  }

  /** The cookie a successful `login` sets lets the next request through `protect`, as that user. */
  lemma LoginThenProtect(req: LoginRequest, users: seq<UserRecord>, crypto: Crypto, production: bool,
                         jwtSecret: Option<string>)
    requires UniqueIds(users)
    requires Truthy(jwtSecret) ==> TokensCheck(crypto, jwtSecret.value)
    ensures var l := Login(req, users, crypto, jwtSecret, production, Healthy);
            l.cookie.Some? ==>
              Protect(map[l.cookie.value.name := l.cookie.value.value], users, crypto, jwtSecret, Healthy)
              == Next(WithoutPassword(FindByEmail(users, req.email).value))
  {
    var l := Login(req, users, crypto, jwtSecret, production, Healthy);
    if l.cookie.Some? {
      var u := FindByEmail(users, req.email).value;
      var key := jwtSecret.value;
      assert crypto.sign(key, u.id) != "" && crypto.verify(key, crypto.sign(key, u.id)) == Claims(u.id);
      FindByIdUnique(users, u);
    }
  }

  /** The cookie `logout` sets is turned away by `protect` before any token check. */
  lemma LogoutThenProtect(cookies: map<string, string>, users: seq<UserRecord>, crypto: Crypto,
                          jwtSecret: Option<string>, lookup: Fault)
    ensures var c := Logout().cookie.value;
            Protect(cookies[c.name := c.value], users, crypto, jwtSecret, lookup)
            == Reject(Response(StatusUnauthorized, Note(NotAuthorized)))
  {
  }

  /** Behind `protect`, the sender of a saved message is the user the session token names. */
  lemma GuardedSendUsesTokenIdentity(cookies: map<string, string>, users: seq<UserRecord>, crypto: Crypto,
                                     jwtSecret: Option<string>, req: SendRequest, store: seq<Message>,
                                     presence: map<UserId, SocketId>, stamp: Stamp)
    ensures var g := Protect(cookies, users, crypto, jwtSecret, Healthy);
            g.Next? ==>
              var r := SendMessage(g.user, req, store, presence, Inserted(stamp));
              && r.store[|store|].sender == crypto.verify(VerifyKey(jwtSecret), SessionToken(cookies).value).id
              && |r.store| == |store| + 1
  {
  }

  /** Behind `protect`, the user list never contains the requester. */
  lemma GuardedUserListExcludesRequester(cookies: map<string, string>, users: seq<UserRecord>, crypto: Crypto,
                                         jwtSecret: Option<string>)
    ensures var g := Protect(cookies, users, crypto, jwtSecret, Healthy);
            g.Next? ==>
              var r := GetAllUsers(g.user, users, Healthy);
              forall p :: p in r.body.users ==> p.id != g.user.id
  {
  }

  /**
   * The sender's client appends the 201 body, and a receiver's client that
   * dispatches `addMessage` for the push (it does so while the sender's
   * conversation is open) appends the pushed payload: both lists gain the
   * same persisted message at the end.
   */
  lemma BothClientsAppendSavedMessage(user: SafeUser, req: SendRequest, store: seq<Message>,
                                      presence: map<UserId, SocketId>, stamp: Stamp,
                                      senderView: ChatSlice.ChatState<Message>,
                                      receiverView: ChatSlice.ChatState<Message>)
    ensures var r := SendMessage(user, req, store, presence, Inserted(stamp));
            var m := Persisted(user, req, stamp);
            && ChatSlice.Reduce(senderView, ChatSlice.SendSettles(Thunks.Answered(r.response.body.msg))).messages
               == senderView.messages + [m]
            && forall e :: e in r.emits ==>
                 ChatSlice.Reduce(receiverView, ChatSlice.AddMessage(e.payload)).messages
                 == receiverView.messages + [m]
  {
  }

  /** A fetched history replaces the client's list with exactly the server's sorted pair history, multiplicities included. */
  lemma FetchedHistoryIsServerHistory(user: SafeUser, peer: UserId, store: seq<Message>,
                                      view: ChatSlice.ChatState<Message>)
    ensures var r := GetMessages(user, peer, store, Healthy);
            var v := ChatSlice.Reduce(view, ChatSlice.FetchSettles(Thunks.Answered(r.body.msgs)));
            && SortedByTime(v.messages)
            && (forall m :: m in v.messages <==> m in store && Between(m, user.id, peer))
            && multiset(v.messages) == multiset(Conversation(store, user.id, peer))
            && !v.isLoading && v.isError == view.isError
  {
  }
}
