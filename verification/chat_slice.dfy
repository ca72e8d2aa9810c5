/** The client's `chat` slice: the open conversation's messages and the fetch flags. */
module ChatSlice {
  import opened Thunks
  import Redux

  datatype ChatState<M> = ChatState(messages: seq<M>, isLoading: bool, isError: bool, message: string)

  /** The actions the slice handles, and the `sendMessage` ones it does not. */
  datatype ChatAction<M> =
    | ResetChat
    | AddMessage(msg: M)
    | FetchPending | FetchFulfilled(msgs: seq<M>) | FetchRejected(reason: string)
    | SendPending | SendFulfilled(msg: M) | SendRejected(reason: string)

  datatype Field = MessagesField | LoadingFlag | ErrorFlag | MessageField

  ghost predicate AgreeExcept<M>(s: ChatState<M>, t: ChatState<M>, changed: set<Field>)
  {
    && (MessagesField !in changed ==> t.messages == s.messages)
    && (LoadingFlag !in changed ==> t.isLoading == s.isLoading)
    && (ErrorFlag !in changed ==> t.isError == s.isError)
    && (MessageField !in changed ==> t.message == s.message)
  }

  /** The fields each case reducer assigns. */
  function Writes<M>(a: ChatAction<M>): set<Field>
  {
    match a
    case ResetChat => {MessagesField, LoadingFlag, ErrorFlag, MessageField}
    case AddMessage(_) | SendFulfilled(_) => {MessagesField}
    case FetchPending => {LoadingFlag}
    case FetchFulfilled(_) => {LoadingFlag, MessagesField}
    case FetchRejected(_) => {LoadingFlag, ErrorFlag, MessageField}
    case SendPending | SendRejected(_) => {}
  }

  function Initial<M>(): (s: ChatState<M>)
    ensures s.messages == [] && !s.isLoading && !s.isError && s.message == ""
  {
    ChatState([], false, false, "")
  }

  /** The action the `fetchMessages` thunk settles with. */
  function FetchSettles<M>(c: Call<seq<M>>): (a: ChatAction<M>)
    ensures c.Answered? ==> a == FetchFulfilled(c.payload)
    ensures c.Failed? ==> a == FetchRejected(RejectValue(c.error))
  {
    match c
    case Answered(ms) => FetchFulfilled(ms)
    case Failed(e) => FetchRejected(RejectValue(e))
  }

  /** The action the `sendMessage` thunk settles with. */
  function SendSettles<M>(c: Call<M>): (a: ChatAction<M>)
    ensures c.Answered? ==> a == SendFulfilled(c.payload)
    ensures c.Failed? ==> a == SendRejected(RejectValue(c.error))
  {
    match c
    case Answered(m) => SendFulfilled(m)
    case Failed(e) => SendRejected(RejectValue(e))
  }

  /** The slice reducer: each action assigns its fields and leaves every other field alone. */
  function Reduce<M>(s: ChatState<M>, a: ChatAction<M>): (r: ChatState<M>)
    ensures AgreeExcept(s, r, Writes(a))
    ensures a.ResetChat? ==> r == Initial()
    ensures a.AddMessage? || a.SendFulfilled? ==>
              |r.messages| == |s.messages| + 1 && r.messages[..|s.messages|] == s.messages
              && r.messages[|s.messages|] == a.msg
    ensures a.FetchPending? ==> r.isLoading
    ensures a.FetchFulfilled? ==> !r.isLoading && r.messages == a.msgs
    ensures a.FetchRejected? ==> !r.isLoading && r.isError && r.message == a.reason
  {
    match a
    case ResetChat => s.(messages := [], isLoading := false, isError := false, message := "")
    case AddMessage(m) => s.(messages := s.messages + [m])
    case FetchPending => s.(isLoading := true)
    case FetchFulfilled(ms) => s.(isLoading := false, messages := ms)
    case FetchRejected(m) => s.(isLoading := false, isError := true, message := m)
    case SendFulfilled(m) => s.(messages := s.messages + [m])
    case SendPending => s
    case SendRejected(_) => s
  }

  function Run<M>(s: ChatState<M>, t: seq<ChatAction<M>>): ChatState<M>
  {
    Redux.Run(Reduce, s, t)
  }

  /** A sent message lands in the list exactly as one pushed over the socket does. */
  lemma SendActsAsAdd<M>(s: ChatState<M>, m: M)
    ensures Reduce(s, SendFulfilled(m)) == Reduce(s, AddMessage(m))
  {
  }

  /** The unhandled `sendMessage` actions change nothing. */
  lemma UnhandledSendActions<M>(s: ChatState<M>, reason: string)
    ensures Reduce(s, SendPending) == s
    ensures Reduce(s, SendRejected(reason)) == s
  {
  }

  /** Whether an action replaces the whole list. */
  predicate Replaces<M>(a: ChatAction<M>)
  {
    a.ResetChat? || a.FetchFulfilled?
  }

  /** The list a replacing action installs. */
  function Replacement<M>(a: ChatAction<M>): seq<M>
    requires Replaces(a)
  {
    if a.ResetChat? then [] else a.msgs
  }

  /** The messages the actions of `t` append, in order. */
  function Appended<M>(t: seq<ChatAction<M>>): seq<M>
  {
    if t == [] then []
    else (if t[0].AddMessage? || t[0].SendFulfilled? then [t[0].msg] else []) + Appended(t[1..])
  }

  /** Without a replacing action, the list only grows, by the appended messages in dispatch order. */
  lemma {:induction false} OnlyAppends<M>(s: ChatState<M>, t: seq<ChatAction<M>>)
    requires forall i :: 0 <= i < |t| ==> !Replaces(t[i])
    ensures Run(s, t).messages == s.messages + Appended(t)
    decreases |t|
  {
    if t != [] {
      var s1 := Reduce(s, t[0]);
      var head := if t[0].AddMessage? || t[0].SendFulfilled? then [t[0].msg] else [];
      assert s1.messages == s.messages + head;
      assert Run(s, t) == Run(s1, t[1..]);
      assert !Replaces(t[0]);
      assert forall i :: 0 <= i < |t[1..]| ==> !Replaces(t[1..][i]) by {
        forall i | 0 <= i < |t[1..]| ensures !Replaces(t[1..][i]) {
          assert t[1..][i] == t[i + 1];
        }
      }
      OnlyAppends(s1, t[1..]);
      assert Appended(t) == head + Appended(t[1..]);
      assert s.messages + (head + Appended(t[1..])) == (s.messages + head) + Appended(t[1..]);
    }
  }

  /**
   * After any actions, the list is what the last replacing action installed
   * (or the starting list, if there was none), followed by every message
   * appended since.
   */
  lemma MessagesAfterLastReplacement<M>(s: ChatState<M>, t1: seq<ChatAction<M>>, a: ChatAction<M>,
                                        t2: seq<ChatAction<M>>)
    requires Replaces(a)
    requires forall i :: 0 <= i < |t2| ==> !Replaces(t2[i])
    ensures Run(s, t1 + [a] + t2).messages == Replacement(a) + Appended(t2)
  {
    Redux.RunConcat(Reduce, s, t1 + [a], t2);
    Redux.RunSnoc(Reduce, s, t1, a);
    OnlyAppends(Run(s, t1 + [a]), t2);
  }
}
