/** Response statuses, JSON bodies and cookies produced by the request handlers. */
module Http {
  import opened Common
  import opened Store

  const StatusOk := 200
  const StatusCreated := 201
  const StatusBadRequest := 400
  const StatusUnauthorized := 401
  const StatusServerError := 500

  /** The name of the session cookie. */
  const AccessToken := "access_token"

  /** The JSON shapes the handlers send. */
  datatype Body =
    | Note(message: string)                        // { message }
    | Failure(message: string, error: string)      // { message, error }
    | Account(message: string, user: PublicUser)   // { message, user: {id, username, email, avatar} }
    | UserList(users: seq<PublicUser>)             // [ {id, username, email, avatar}, ... ]
    | OneMessage(msg: Message)                     // a message document
    | MessageList(msgs: seq<Message>)              // [ message documents ]

  datatype Response = Response(status: int, body: Body)

  /** A `Set-Cookie` instruction. `maxAge` is in milliseconds, `expires` is a point in time. */
  datatype Cookie = Cookie(
    name: string,
    value: string,
    httpOnly: bool,
    secure: bool,
    sameSite: Option<string>,
    maxAge: Option<int>,
    expires: Option<Timestamp>)

  /** The generic 500 response every handler's `catch` sends. */
  function ServerError(reason: string): (r: Response)
    ensures r.status == StatusServerError && r.body.Failure?
    ensures r.body.message == "Server Error" && r.body.error == reason
  {
    Response(StatusServerError, Failure("Server Error", reason))
  }
}
