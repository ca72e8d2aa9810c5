/**
 * The database as the handlers see it: the user collection, the message
 * collection, and the outcomes of awaited store calls.  Identifiers and
 * timestamps are assigned by the store and therefore enter as inputs.
 */
module Store {
  import opened Common

  type UserId = string
  type MessageId = string
  type Timestamp = int

  /** A stored user document; `password` holds the bcrypt hash. */
  datatype UserRecord = UserRecord(
    id: UserId,
    username: string,
    email: string,
    password: string,
    avatar: Option<string>,
    createdAt: Timestamp)

  /** A user document loaded with `.select("-password")`. */
  datatype SafeUser = SafeUser(
    id: UserId,
    username: string,
    email: string,
    avatar: Option<string>,
    createdAt: Timestamp)

  /** The `{id, username, email, avatar}` projection sent to clients. */
  datatype PublicUser = PublicUser(
    id: UserId,
    username: string,
    email: string,
    avatar: Option<string>)

  /** A stored chat message. */
  datatype Message = Message(
    id: MessageId,
    sender: UserId,
    receiver: UserId,
    text: string,
    createdAt: Timestamp)

  /** Whether an awaited store (or hashing) call returns or throws. */
  datatype Fault = Healthy | Fails(reason: string)

  /** What the store assigns to a document it inserts. */
  datatype Stamp = Stamp(id: string, createdAt: Timestamp)

  /** The outcome of `save()` / `create()`. */
  datatype InsertResult = Inserted(stamp: Stamp) | InsertFails(reason: string)

  function WithoutPassword(u: UserRecord): (r: SafeUser)
    ensures r.id == u.id && r.username == u.username && r.email == u.email
    ensures r.avatar == u.avatar && r.createdAt == u.createdAt
  {
    SafeUser(u.id, u.username, u.email, u.avatar, u.createdAt)
  }

  function Public(u: UserRecord): (r: PublicUser)
    ensures r.id == u.id && r.username == u.username && r.email == u.email && r.avatar == u.avatar
  {
    PublicUser(u.id, u.username, u.email, u.avatar)
  }

  /** The unique index on `email` declared by the user schema. */
  ghost predicate UniqueEmails(users: seq<UserRecord>)
  {
    forall i, j :: 0 <= i < j < |users| ==> users[i].email != users[j].email
  }

  /** Document ids are unique within the collection. */
  ghost predicate UniqueIds(users: seq<UserRecord>)
  {
    forall i, j :: 0 <= i < j < |users| ==> users[i].id != users[j].id
  }

  /** `User.findOne({ email })`: the first document with that email, if any. */
  function FindByEmail(users: seq<UserRecord>, email: string): (r: Option<UserRecord>)
    ensures r.None? <==> forall i :: 0 <= i < |users| ==> users[i].email != email
    ensures r.Some? ==> exists k :: 0 <= k < |users| && users[k] == r.value && r.value.email == email
                          && forall j :: 0 <= j < k ==> users[j].email != email
  {
    if users == [] then None
    else if users[0].email == email then Some(users[0])
    else
      var r := FindByEmail(users[1..], email);
      assert r.Some? ==> exists k :: 0 <= k < |users[1..]| && users[1..][k] == r.value && r.value.email == email
                          && forall j :: 0 <= j < k ==> users[1..][j].email != email;
      assert r.Some? ==> exists k :: 1 <= k < |users| && users[k] == r.value && r.value.email == email
                          && forall j :: 1 <= j < k ==> users[j].email != email;
      r
  }

  /** `User.findById(id)`: the document with that id, if any. */
  function FindById(users: seq<UserRecord>, id: UserId): (r: Option<UserRecord>)
    ensures r.None? <==> forall i :: 0 <= i < |users| ==> users[i].id != id
    ensures r.Some? ==> r.value in users && r.value.id == id
  {
    if users == [] then None
    else if users[0].id == id then Some(users[0])
    else FindById(users[1..], id)
  }

  /** Under the unique index, the document found by email is the only one with that email. */
  lemma FindByEmailUnique(users: seq<UserRecord>, u: UserRecord)
    requires UniqueEmails(users)
    requires u in users
    ensures FindByEmail(users, u.email) == Some(u)
  {
  }

  /** Under unique ids, the document found by id is the only one with that id. */
  lemma FindByIdUnique(users: seq<UserRecord>, u: UserRecord)
    requires UniqueIds(users)
    requires u in users
    ensures FindById(users, u.id) == Some(u)
  {
  }

  /** Appending a user whose email is new makes that user the one `findOne` returns. */
  lemma {:induction false} FindByEmailAppendFresh(users: seq<UserRecord>, u: UserRecord)
    requires FindByEmail(users, u.email).None?
    ensures FindByEmail(users + [u], u.email) == Some(u)
  {
    if users == [] {
      assert users + [u] == [u];
    } else {
      assert (users + [u])[1..] == users[1..] + [u];
      assert users[0].email != u.email;
      FindByEmailAppendFresh(users[1..], u);
    }
  }
}
