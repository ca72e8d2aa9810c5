/**
 * The message handlers: `sendMessage` persists one message and then pushes
 * it to the receiver's registered socket; `getMessages` answers the
 * history of the requester with one peer.
 */
module MessageController {
  import opened Common
  import opened Store
  import opened Http
  import opened History

  type SocketId = string

  /** The request body `{ receiver, text }`; a `sender` field, if a client sends one, is carried but never read. */
  datatype SendRequest = SendRequest(receiver: UserId, text: string, claimedSender: Option<UserId>)

  /** One `io.to(socket).emit(event, payload)` call. */
  datatype Emit = Emit(socket: SocketId, event: string, payload: Message)

  /** The response, the message collection afterwards, and the pushes made. */
  datatype SendOutcome = SendOutcome(response: Response, store: seq<Message>, emits: seq<Emit>)

  const NewMessageEvent := "newMessage"

  /** `getReceiverSocketId(receiver)` followed by the truthiness test on its result. */
  function ReceiverSocket(presence: map<UserId, SocketId>, receiver: UserId): (r: Option<SocketId>)
    ensures r.Some? <==> receiver in presence && presence[receiver] != ""
    ensures r.Some? ==> r.value == presence[receiver]
  {
    if receiver in presence && presence[receiver] != "" then Some(presence[receiver]) else None
  }

  /** The document `save()` writes: the sender is the authenticated user, id and time come from the store. */
  function Persisted(user: SafeUser, req: SendRequest, stamp: Stamp): (m: Message)
    ensures m.sender == user.id && m.receiver == req.receiver && m.text == req.text
    ensures m.id == stamp.id && m.createdAt == stamp.createdAt
  {
    Message(stamp.id, user.id, req.receiver, req.text, stamp.createdAt)
  }

  /**
   * `sendMessage`: save first; only a saved message is pushed (to the one
   * socket registered for the receiver, if any) and returned with 201.
   */
  function SendMessage(user: SafeUser, req: SendRequest, store: seq<Message>,
                       presence: map<UserId, SocketId>, save: InsertResult): (r: SendOutcome)
    ensures r.response.status == StatusCreated <==> save.Inserted?
    ensures save.InsertFails? ==>
              r.response == ServerError(save.reason) && r.store == store && r.emits == []
    ensures save.Inserted? ==>
              var m := Persisted(user, req, save.stamp);
              && r.store == store + [m]
              && r.response.body == OneMessage(m)
              && (r.emits == [] <==> ReceiverSocket(presence, req.receiver).None?)
              && forall e :: e in r.emits ==>
                   e == Emit(presence[req.receiver], NewMessageEvent, m)
    ensures |r.emits| <= 1
  {
    match save
    case InsertFails(reason) => SendOutcome(ServerError(reason), store, [])
    case Inserted(stamp) =>
      var m := Persisted(user, req, stamp);
      var emits := match ReceiverSocket(presence, req.receiver)
        case Some(socket) => [Emit(socket, NewMessageEvent, m)]
        case None => [];
      SendOutcome(Response(StatusCreated, OneMessage(m)), store + [m], emits)
  }

  /** `getMessages`: the requester's history with `peer`, or 500 if the query throws. */
  function GetMessages(user: SafeUser, peer: UserId, store: seq<Message>, fault: Fault): (r: Response)
    ensures fault.Fails? ==> r == ServerError(fault.reason)
    ensures fault.Healthy? ==> r.status == StatusOk && r.body.MessageList?
    ensures fault.Healthy? ==> forall m ::
              m in r.body.msgs <==> m in store && Between(m, user.id, peer)
    ensures fault.Healthy? ==> SortedByTime(r.body.msgs)
    ensures fault.Healthy? ==> multiset(r.body.msgs) == multiset(Conversation(store, user.id, peer))
  {
    match fault
    case Fails(reason) => ServerError(reason)
    case Healthy =>
      var h := PairHistory(store, user.id, peer);
      assert forall m :: m in h <==> m in store && Between(m, user.id, peer) by {
        forall m ensures m in h <==> m in store && Between(m, user.id, peer) {
          HistoryExact(store, user.id, peer, m);
        }
      }
      Response(StatusOk, MessageList(h))
  }

  /** The outcome does not depend on any `sender` field in the body. */
  lemma SenderFieldIgnored(user: SafeUser, req: SendRequest, other: Option<UserId>, store: seq<Message>,
                           presence: map<UserId, SocketId>, save: InsertResult)
    ensures SendMessage(user, req, store, presence, save)
            == SendMessage(user, req.(claimedSender := other), store, presence, save)
  {
  }

  /** Online or offline, a saved message gets the same response and the same store; only the pushes differ. */
  lemma PresenceOnlyAffectsPush(user: SafeUser, req: SendRequest, store: seq<Message>,
                                p1: map<UserId, SocketId>, p2: map<UserId, SocketId>, save: InsertResult)
    ensures SendMessage(user, req, store, p1, save).response == SendMessage(user, req, store, p2, save).response
    ensures SendMessage(user, req, store, p1, save).store == SendMessage(user, req, store, p2, save).store
  {
  }

  /** What is pushed is what is answered: the payload of every push is the 201 body. */
  lemma PushMatchesResponse(user: SafeUser, req: SendRequest, store: seq<Message>,
                            presence: map<UserId, SocketId>, save: InsertResult)
    ensures var r := SendMessage(user, req, store, presence, save);
            forall e :: e in r.emits ==> r.response.body == OneMessage(e.payload)
  {
  }

  /** A saved message is in the history of its sender and receiver, whichever of them asks. */
  lemma SentMessageInHistory(user: SafeUser, req: SendRequest, store: seq<Message>,
                             presence: map<UserId, SocketId>, stamp: Stamp)
    ensures var r := SendMessage(user, req, store, presence, Inserted(stamp));
            var m := Persisted(user, req, stamp);
            && m in PairHistory(r.store, user.id, req.receiver)
            && m in PairHistory(r.store, req.receiver, user.id)
            && multiset(PairHistory(r.store, user.id, req.receiver))[m]
               == multiset(PairHistory(store, user.id, req.receiver))[m] + 1
  {
    var r := SendMessage(user, req, store, presence, Inserted(stamp));
    var m := Persisted(user, req, stamp);
    HistoryExact(r.store, user.id, req.receiver, m);
    HistoryExact(store, user.id, req.receiver, m);
    HistorySymmetric(r.store, user.id, req.receiver);
  }

  /**
   * Messages stamped in the order they are saved are read back in that
   * order: on a time-ordered store, a saved message that is not older than
   * anything stored ends the pair's history.
   */
  lemma SentMessageEndsHistory(user: SafeUser, req: SendRequest, store: seq<Message>,
                               presence: map<UserId, SocketId>, stamp: Stamp)
    requires SortedByTime(store)
    requires forall i :: 0 <= i < |store| ==> store[i].createdAt <= stamp.createdAt
    ensures var r := SendMessage(user, req, store, presence, Inserted(stamp));
            PairHistory(r.store, user.id, req.receiver)
            == PairHistory(store, user.id, req.receiver) + [Persisted(user, req, stamp)]
  {
    var m := Persisted(user, req, stamp);
    var s' := store + [m];
    assert SortedByTime(s');
    HistoryInStoreOrder(store, user.id, req.receiver);
    HistoryInStoreOrder(s', user.id, req.receiver);
    ConversationAppend(store, m, user.id, req.receiver);
  }
}
