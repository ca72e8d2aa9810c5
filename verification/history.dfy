/**
 * The conversation history query: every stored message exchanged between
 * two users, in either direction, sorted ascending by `createdAt`.
 */
module History {
  import opened Store

  /** The `$or` filter: `{sender: a, receiver: b}` or `{sender: b, receiver: a}`. */
  predicate Between(m: Message, a: UserId, b: UserId)
  {
    (m.sender == a && m.receiver == b) || (m.sender == b && m.receiver == a)
  }

  ghost predicate SortedByTime(s: seq<Message>)
  {
    forall i, j :: 0 <= i < j < |s| ==> s[i].createdAt <= s[j].createdAt
  }

  /** The messages of the pair, in store order. */
  function Conversation(store: seq<Message>, a: UserId, b: UserId): (r: seq<Message>)
    ensures forall i :: 0 <= i < |r| ==> Between(r[i], a, b)
    ensures |r| <= |store|
  {
    if store == [] then []
    else
      var last := store[|store| - 1];
      Conversation(store[..|store| - 1], a, b) + (if Between(last, a, b) then [last] else [])
  }

  /** Inserts `m` before the first message not older than it. */
  function InsertByTime(m: Message, s: seq<Message>): (r: seq<Message>)
    requires SortedByTime(s)
    ensures SortedByTime(r)
    ensures multiset(r) == multiset(s) + multiset{m}
    ensures |r| == |s| + 1
  {
    if s == [] then [m]
    else if m.createdAt <= s[0].createdAt then [m] + s
    else
      var tail := s[1..];
      assert forall k :: 0 <= k < |tail| ==> s[0].createdAt <= tail[k].createdAt by {
        forall k | 0 <= k < |tail| ensures s[0].createdAt <= tail[k].createdAt {
          assert tail[k] == s[k + 1];
        }
      }
      assert SortedByTime(tail) by {
        forall i, j | 0 <= i < j < |tail| ensures tail[i].createdAt <= tail[j].createdAt {
          assert tail[i] == s[i + 1] && tail[j] == s[j + 1];
        }
      }
      var rest := InsertByTime(m, tail);
      BoundedBelow(s[0].createdAt, rest, tail, m);
      assert s == [s[0]] + tail;
      [s[0]] + rest
  }

  /** A lower bound of a list and of `m` bounds any rearrangement of the two. */
  lemma BoundedBelow(lo: int, rest: seq<Message>, s: seq<Message>, m: Message)
    requires multiset(rest) == multiset(s) + multiset{m}
    requires lo <= m.createdAt
    requires forall k :: 0 <= k < |s| ==> lo <= s[k].createdAt
    ensures forall k :: 0 <= k < |rest| ==> lo <= rest[k].createdAt
  {
    forall k | 0 <= k < |rest|
      ensures lo <= rest[k].createdAt
    {
      assert rest[k] in multiset(rest);
      if rest[k] != m {
        assert rest[k] in multiset(s);
        var j :| 0 <= j < |s| && s[j] == rest[k];
      }
    }
  }

  /** `.sort({ createdAt: 1 })`, stable with respect to store order. */
  function SortByTime(s: seq<Message>): (r: seq<Message>)
    ensures SortedByTime(r)
    ensures multiset(r) == multiset(s)
    ensures |r| == |s|
  {
    if s == [] then []
    else
      assert s == [s[0]] + s[1..];
      InsertByTime(s[0], SortByTime(s[1..]))
  }

  /** The history `getMessages` returns for the pair `(a, b)`. */
  function PairHistory(store: seq<Message>, a: UserId, b: UserId): (r: seq<Message>)
    ensures SortedByTime(r)
    ensures multiset(r) == multiset(Conversation(store, a, b))
    ensures forall i :: 0 <= i < |r| ==> r[i] in store && Between(r[i], a, b)
  {
    var c := Conversation(store, a, b);
    var r := SortByTime(c);
    forall i | 0 <= i < |r|
      ensures r[i] in store && Between(r[i], a, b)
    {
      assert r[i] in multiset(c);
      ConversationMembers(store, a, b, r[i]);
    }
    r
  }

  /** A message is in the conversation exactly when it is stored and belongs to the pair. */
  lemma {:induction false} ConversationMembers(store: seq<Message>, a: UserId, b: UserId, m: Message)
    ensures m in Conversation(store, a, b) <==> m in store && Between(m, a, b)
  {
    if store != [] {
      var init := store[..|store| - 1];
      assert store == init + [store[|store| - 1]];
      ConversationMembers(init, a, b, m);
    }
  }

  /** The conversation holds every stored message of the pair as often as the store does, and nothing else. */
  lemma {:induction false} ConversationCount(store: seq<Message>, a: UserId, b: UserId, m: Message)
    ensures multiset(Conversation(store, a, b))[m] == if Between(m, a, b) then multiset(store)[m] else 0
  {
    if store != [] {
      var init := store[..|store| - 1];
      assert store == init + [store[|store| - 1]];
      ConversationCount(init, a, b, m);
    }
  }

  /** The history is exactly the pair's stored messages, with their multiplicities. */
  lemma HistoryExact(store: seq<Message>, a: UserId, b: UserId, m: Message)
    ensures multiset(PairHistory(store, a, b))[m] == if Between(m, a, b) then multiset(store)[m] else 0
    ensures m in PairHistory(store, a, b) <==> m in store && Between(m, a, b)
  {
    ConversationCount(store, a, b, m);
    ConversationMembers(store, a, b, m);
  }

  /** Asking for `(a, b)` or `(b, a)` yields the same conversation. */
  lemma {:induction false} ConversationSymmetric(store: seq<Message>, a: UserId, b: UserId)
    ensures Conversation(store, a, b) == Conversation(store, b, a)
  {
    if store != [] {
      ConversationSymmetric(store[..|store| - 1], a, b);
    }
  }

  /** Asking for `(a, b)` or `(b, a)` yields the same history, in the same order. */
  lemma HistorySymmetric(store: seq<Message>, a: UserId, b: UserId)
    ensures PairHistory(store, a, b) == PairHistory(store, b, a)
  {
    ConversationSymmetric(store, a, b);
  }

  /** The tail of a time-ordered list is time-ordered. */
  lemma SortedTail(s: seq<Message>)
    requires SortedByTime(s) && s != []
    ensures SortedByTime(s[1..])
  {
  }

  /** A message no newer than the head of a sorted list is inserted in front. */
  lemma InsertAtFront(m: Message, s: seq<Message>)
    requires SortedByTime(s)
    requires s == [] || m.createdAt <= s[0].createdAt
    ensures InsertByTime(m, s) == [m] + s
  {
  }

  /** Sorting a list that is already in time order leaves it as it is. */
  lemma {:induction false} SortSorted(s: seq<Message>)
    requires SortedByTime(s)
    ensures SortByTime(s) == s
  {
    if s != [] {
      var rest := s[1..];
      SortedTail(s);
      SortSorted(rest);
      if rest != [] {
        assert rest[0] == s[1];
      }
      InsertAtFront(s[0], rest);
      assert [s[0]] + rest == s;
    }
  }

  /** A subsequence chosen by a filter keeps the time order of the store. */
  lemma {:induction false} ConversationSorted(store: seq<Message>, a: UserId, b: UserId)
    requires SortedByTime(store)
    ensures SortedByTime(Conversation(store, a, b))
  {
    if store != [] {
      var init := store[..|store| - 1];
      var last := store[|store| - 1];
      assert SortedByTime(init);
      ConversationSorted(init, a, b);
      var c := Conversation(init, a, b);
      forall k | 0 <= k < |c|
        ensures c[k].createdAt <= last.createdAt
      {
        ConversationMembers(init, a, b, c[k]);
        var j :| 0 <= j < |init| && init[j] == c[k];
        assert store[j] == init[j];
      }
    }
  }

  /**
   * When the store holds messages in the order their timestamps were
   * assigned, the history lists the pair's messages in that same order.
   */
  lemma HistoryInStoreOrder(store: seq<Message>, a: UserId, b: UserId)
    requires SortedByTime(store)
    ensures PairHistory(store, a, b) == Conversation(store, a, b)
  {
    ConversationSorted(store, a, b);
    SortSorted(Conversation(store, a, b));
  }

  /** Appending a message extends the conversation by that message exactly when it belongs to the pair. */
  lemma ConversationAppend(store: seq<Message>, m: Message, a: UserId, b: UserId)
    ensures Conversation(store + [m], a, b)
            == Conversation(store, a, b) + (if Between(m, a, b) then [m] else [])
  {
    assert (store + [m])[..|store + [m]| - 1] == store;
  }
}
