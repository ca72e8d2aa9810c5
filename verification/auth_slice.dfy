/**
 * The client's `auth` slice: who is signed in (the opaque body the server
 * answered `login`/`signup` with) and the request flags.
 */
module AuthSlice {
  import opened Common
  import opened Thunks
  import Redux

  datatype AuthState<P> = AuthState(
    user: Option<P>,
    isError: bool,
    isSuccess: bool,
    isLoading: bool,
    message: string)

  /** The actions the slice handles, and the ones of its thunks it does not. */
  datatype AuthAction<P> =
    | Reset
    | RegisterPending | RegisterFulfilled(payload: P) | RegisterRejected(reason: string)
    | LoginPending | LoginFulfilled(payload: P) | LoginRejected(reason: string)
    | LogoutPending | LogoutFulfilled | LogoutRejected

  datatype Field = UserField | ErrorFlag | SuccessFlag | LoadingFlag | MessageField

  /** `s` and `t` agree on every field outside `changed`. */
  ghost predicate AgreeExcept<P>(s: AuthState<P>, t: AuthState<P>, changed: set<Field>)
  {
    && (UserField !in changed ==> t.user == s.user)
    && (ErrorFlag !in changed ==> t.isError == s.isError)
    && (SuccessFlag !in changed ==> t.isSuccess == s.isSuccess)
    && (LoadingFlag !in changed ==> t.isLoading == s.isLoading)
    && (MessageField !in changed ==> t.message == s.message)
  }

  /** The fields each case reducer assigns. */
  function Writes<P>(a: AuthAction<P>): set<Field>
  {
    match a
    case Reset => {LoadingFlag, SuccessFlag, ErrorFlag, MessageField}
    case RegisterPending | LoginPending => {LoadingFlag}
    case RegisterFulfilled(_) | LoginFulfilled(_) => {LoadingFlag, SuccessFlag, UserField}
    case RegisterRejected(_) | LoginRejected(_) => {LoadingFlag, ErrorFlag, MessageField, UserField}
    case LogoutFulfilled => {UserField}
    case LogoutPending | LogoutRejected => {}
  }

  /** `initialState`, with the user read from the `user` cookie. */
  function Initial<P>(cookieUser: Option<P>): (s: AuthState<P>)
    ensures s.user == cookieUser
    ensures !s.isError && !s.isSuccess && !s.isLoading && s.message == ""
  {
    AuthState(cookieUser, false, false, false, "")
  }

  /** The action the `register` thunk settles with. */
  function RegisterSettles<P>(c: Call<P>): (a: AuthAction<P>)
    ensures c.Answered? ==> a == RegisterFulfilled(c.payload)
    ensures c.Failed? ==> a == RegisterRejected(RejectValue(c.error))
  {
    match c
    case Answered(p) => RegisterFulfilled(p)
    case Failed(e) => RegisterRejected(RejectValue(e))
  }

  /** The action the `login` thunk settles with. */
  function LoginSettles<P>(c: Call<P>): (a: AuthAction<P>)
    ensures c.Answered? ==> a == LoginFulfilled(c.payload)
    ensures c.Failed? ==> a == LoginRejected(RejectValue(c.error))
  {
    match c
    case Answered(p) => LoginFulfilled(p)
    case Failed(e) => LoginRejected(RejectValue(e))
  }

  /** The slice reducer: each action assigns its fields and leaves every other field alone. */
  function Reduce<P>(s: AuthState<P>, a: AuthAction<P>): (r: AuthState<P>)
    ensures AgreeExcept(s, r, Writes(a))
    ensures a.Reset? ==> !r.isLoading && !r.isSuccess && !r.isError && r.message == ""
    ensures a.RegisterPending? || a.LoginPending? ==> r.isLoading
    ensures a.RegisterFulfilled? || a.LoginFulfilled? ==>
              !r.isLoading && r.isSuccess && r.user == Some(a.payload)
    ensures a.RegisterRejected? || a.LoginRejected? ==>
              !r.isLoading && r.isError && r.message == a.reason && r.user == None
    ensures a.LogoutFulfilled? ==> r.user == None
  {
    match a
    case Reset => s.(isLoading := false, isSuccess := false, isError := false, message := "")
    case RegisterPending => s.(isLoading := true)
    case RegisterFulfilled(p) => s.(isLoading := false, isSuccess := true, user := Some(p))
    case RegisterRejected(m) => s.(isLoading := false, isError := true, message := m, user := None)
    case LoginPending => s.(isLoading := true)
    case LoginFulfilled(p) => s.(isLoading := false, isSuccess := true, user := Some(p))
    case LoginRejected(m) => s.(isLoading := false, isError := true, message := m, user := None)
    case LogoutFulfilled => s.(user := None)
    case LogoutPending => s
    case LogoutRejected => s
  }

  function Run<P>(s: AuthState<P>, t: seq<AuthAction<P>>): AuthState<P>
  {
    Redux.Run(Reduce, s, t)
  }

  /** Registering and logging in drive the same transitions. */
  lemma RegisterActsAsLogin<P>(s: AuthState<P>, p: P, reason: string)
    ensures Reduce(s, RegisterPending) == Reduce(s, LoginPending)
    ensures Reduce(s, RegisterFulfilled(p)) == Reduce(s, LoginFulfilled(p))
    ensures Reduce(s, RegisterRejected(reason)) == Reduce(s, LoginRejected(reason))
  {
  }

  /** `reset` keeps the signed-in user, and resetting twice is resetting once. */
  lemma ResetKeepsUser<P>(s: AuthState<P>)
    ensures Reduce(s, Reset).user == s.user
    ensures Reduce(Reduce(s, Reset), Reset) == Reduce(s, Reset)
    ensures Reduce(s, Reset) == Initial(s.user)
  {
  }

  /** The value an action gives `user`, if it assigns `user`. */
  function UserWrite<P>(a: AuthAction<P>): Option<Option<P>>
  {
    match a
    case RegisterFulfilled(p) => Some(Some(p))
    case LoginFulfilled(p) => Some(Some(p))
    case RegisterRejected(_) | LoginRejected(_) | LogoutFulfilled => Some(None)
    case _ => None
  }

  /** The user after `t`: whatever the last action that assigns `user` gave it, else `u0`. */
  function UserAfter<P>(u0: Option<P>, t: seq<AuthAction<P>>): Option<P>
  {
    if t == [] then u0
    else match UserWrite(t[|t| - 1])
      case Some(u) => u
      case None => UserAfter(u0, t[..|t| - 1])
  }

  /** After any sequence of actions the signed-in user is the one the last user-assigning action chose. */
  lemma {:induction false} UserIsLastWritten<P>(s: AuthState<P>, t: seq<AuthAction<P>>)
    ensures Run(s, t).user == UserAfter(s.user, t)
  {
    if t != [] {
      var init := t[..|t| - 1];
      var a := t[|t| - 1];
      assert t == init + [a];
      Redux.RunSnoc(Reduce, s, init, a);
      UserIsLastWritten(s, init);
    }
  }

  /** Only `reset` clears `isError`: an error stays flagged through any other actions, successes included. */
  lemma {:induction false} ErrorPersistsUntilReset<P>(s: AuthState<P>, t: seq<AuthAction<P>>)
    requires s.isError
    requires forall i :: 0 <= i < |t| ==> !t[i].Reset?
    ensures Run(s, t).isError
    decreases |t|
  {
    if t != [] {
      ErrorPersistsUntilReset(Reduce(s, t[0]), t[1..]);
    }
  }

  /**
   * From any state, a failed login or registration after a successful one
   * leaves both `isSuccess` and `isError` set, with no user.
   */
  lemma SuccessThenFailureFlagsBoth<P>(s: AuthState<P>, p: P, reason: string)
    ensures var l := Reduce(Reduce(s, LoginFulfilled(p)), LoginRejected(reason));
            l.isSuccess && l.isError && l.user == None && l.message == reason && !l.isLoading
    ensures var g := Reduce(Reduce(s, RegisterFulfilled(p)), RegisterRejected(reason));
            g.isSuccess && g.isError && g.user == None && g.message == reason && !g.isLoading
  {
  }
}
