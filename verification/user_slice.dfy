/** The client's `users` slice: the list of other users and the fetch flags. */
module UserSlice {
  import opened Thunks
  import Redux

  datatype UsersState<U> = UsersState(users: seq<U>, isLoading: bool, isError: bool, message: string)

  datatype UsersAction<U> =
    | ResetUsers
    | FetchPending | FetchFulfilled(users: seq<U>) | FetchRejected(reason: string)

  datatype Field = UsersField | LoadingFlag | ErrorFlag | MessageField

  ghost predicate AgreeExcept<U>(s: UsersState<U>, t: UsersState<U>, changed: set<Field>)
  {
    && (UsersField !in changed ==> t.users == s.users)
    && (LoadingFlag !in changed ==> t.isLoading == s.isLoading)
    && (ErrorFlag !in changed ==> t.isError == s.isError)
    && (MessageField !in changed ==> t.message == s.message)
  }

  /** The fields each case reducer assigns. */
  function Writes<U>(a: UsersAction<U>): set<Field>
  {
    match a
    case ResetUsers => {UsersField, LoadingFlag, ErrorFlag, MessageField}
    case FetchPending => {LoadingFlag}
    case FetchFulfilled(_) => {LoadingFlag, UsersField}
    case FetchRejected(_) => {LoadingFlag, ErrorFlag, MessageField}
  }

  function Initial<U>(): (s: UsersState<U>)
    ensures s.users == [] && !s.isLoading && !s.isError && s.message == ""
  {
    UsersState([], false, false, "")
  }

  /** The action the `fetchUsers` thunk settles with; a failure carries the three-step message chain. */
  function FetchSettles<U>(c: Call<seq<U>>): (a: UsersAction<U>)
    ensures c.Answered? ==> a == FetchFulfilled(c.payload)
    ensures c.Failed? ==> a == FetchRejected(UsersRejectValue(c.error))
  {
    match c
    case Answered(us) => FetchFulfilled(us)
    case Failed(e) => FetchRejected(UsersRejectValue(e))
  }

  /** The slice reducer: each action assigns its fields and leaves every other field alone. */
  function Reduce<U>(s: UsersState<U>, a: UsersAction<U>): (r: UsersState<U>)
    ensures AgreeExcept(s, r, Writes(a))
    ensures a.ResetUsers? ==> r == Initial()
    ensures a.FetchPending? ==> r.isLoading
    ensures a.FetchFulfilled? ==> !r.isLoading && r.users == a.users
    ensures a.FetchRejected? ==> !r.isLoading && r.isError && r.message == a.reason
  {
    match a
    case ResetUsers => s.(users := [], isLoading := false, isError := false, message := "")
    case FetchPending => s.(isLoading := true)
    case FetchFulfilled(us) => s.(isLoading := false, users := us)
    case FetchRejected(m) => s.(isLoading := false, isError := true, message := m)
  }

  function Run<U>(s: UsersState<U>, t: seq<UsersAction<U>>): UsersState<U>
  {
    Redux.Run(Reduce, s, t)
  }

  /** The list after `t`: what the last fetch delivered or the last reset emptied it to, else the starting list. */
  function UsersAfter<U>(us: seq<U>, t: seq<UsersAction<U>>): seq<U>
  {
    if t == [] then us
    else match t[|t| - 1]
      case FetchFulfilled(vs) => vs
      case ResetUsers => []
      case _ => UsersAfter(us, t[..|t| - 1])
  }

  /** `isLoading` after `t`: set iff the last action that touches it was a `pending`. */
  function LoadingAfter<U>(loading: bool, t: seq<UsersAction<U>>): bool
  {
    if t == [] then loading else t[|t| - 1].FetchPending?
  }

  /** After any actions, the list is the last fetched one; a failed fetch keeps the old list. */
  lemma {:induction false} UsersAreLastFetched<U>(s: UsersState<U>, t: seq<UsersAction<U>>)
    ensures Run(s, t).users == UsersAfter(s.users, t)
  {
    if t != [] {
      var init := t[..|t| - 1];
      var a := t[|t| - 1];
      assert t == init + [a];
      Redux.RunSnoc(Reduce, s, init, a);
      UsersAreLastFetched(s, init);
    }
  }

  /** After any non-empty run, the list is loading exactly when the last action was a `pending`. */
  lemma {:induction false} LoadingIffLastPending<U>(s: UsersState<U>, t: seq<UsersAction<U>>)
    ensures Run(s, t).isLoading == LoadingAfter(s.isLoading, t)
  {
    if t != [] {
      var init := t[..|t| - 1];
      var a := t[|t| - 1];
      assert t == init + [a];
      Redux.RunSnoc(Reduce, s, init, a);
    }
  }
}
