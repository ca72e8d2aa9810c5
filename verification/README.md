# Chat app core in Dafny

A functional model of the request-handling and client-state core of a small
direct-messaging app (an Express/MongoDB server with socket.io push and a
React/Redux client).

Server side, each handler is a pure function from the request, the
collections it reads and the outcomes of its awaited calls to a response
(status and JSON body) and its effects:

- `sendMessage` saves one message and then pushes it over the one socket id
  registered for the receiver.
- `getMessages` returns the pair's history sorted by `createdAt`.
- `login`, `signup`, `getAllUsers` and `logout` decide status codes, bodies,
  cookies and whether a user is created.
- `protect` decides between calling `next()` with the loaded user and a 401.

The database, bcrypt and jsonwebtoken are inputs. Store calls that may throw
take a `Fault` or `InsertResult`. The ids and timestamps the store assigns
come in as a `Stamp`. Hashing, comparison, signing and verification are
function-valued fields of a `Crypto` record. The presence registry is a
`map<UserId, SocketId>`.

Client side, the `auth`, `chat` and `users` Redux slices are records with a
reducer per slice. Each reducer has a declared write set (`Writes`) and a
frame postcondition (`AgreeExcept`) saying every other field is left alone.
Lemmas about dispatching whole action sequences use `Redux.Run`. The auth
payload is a type parameter: the services store the whole `{message, user}`
response body as `user`, so nothing here assumes it is a bare user record.

Modules: `Common` (optional values, JavaScript string truthiness), `Store`,
`Http`, `Crypto`, `History`, `MessageController`, `AuthController`,
`AuthMiddleware`, `Thunks` (rejection-message chains), `Redux`,
`AuthSlice`, `ChatSlice`, `UserSlice`, and `Flows` (properties spanning
several handlers or both sides of the wire).

Points of the code's behaviour that the model keeps:
- The code looks up a single socket id per receiver. It pushes only when that
  id is present and non-empty. There is no per-user set of connections and no
  fan-out.
- The handlers do no input validation of their own. Whether a save succeeds
  is the store's decision, which enters as an input.
- A store failure inside `protect` is answered 401, not 500, because the same
  `catch` handles it.
- History is not paginated. Any authenticated user may request their own
  history with any id, and the requester is always one end of the pair.
- Tokens are signed with `JWT_SECRET` and no fallback key. Without a truthy
  `JWT_SECRET`, signing throws and `login` answers 500, so the `"secret"`
  fallback in `protect` never matches a token `login` issued.

## Model

| member | source | states |
|---|---|---|
| MessageController.SendMessage | server/controllers/messageController.js:6-31 | 201 exactly when the save succeeds. The store then grows by exactly one message whose sender is the authenticated user, and the body is that message. At most one push goes out, only to the receiver's registered socket and only when that id is truthy, carrying the same message. A failed save gives 500 with the error text, leaves the store unchanged and pushes nothing. |
| MessageController.ReceiverSocket | server/controllers/messageController.js:21-22 | A socket is found exactly when the receiver has a registered, non-empty socket id, and it is that id. |
| MessageController.Persisted | server/controllers/messageController.js:9-18 | The saved document takes sender from the authenticated user, receiver and text from the body, and id and createdAt from the store. |
| MessageController.GetMessages | server/controllers/messageController.js:33-49 | If the query throws: 500. Otherwise 200 with a list holding exactly the stored messages between requester and peer in either direction, each as often as stored, non-decreasing in createdAt. |
| MessageController.SenderFieldIgnored | server/controllers/messageController.js:9-10 | A `sender` field in the body has no effect on the outcome. |
| MessageController.PresenceOnlyAffectsPush | server/controllers/messageController.js:21-27 | The response and the stored messages are the same whether the receiver is online or offline. |
| MessageController.PushMatchesResponse | server/controllers/messageController.js:24-27 | Every pushed payload is the message returned in the 201 body. |
| MessageController.SentMessageInHistory | server/controllers/messageController.js:18 | A saved message appears in the pair's history, asked from either side, one more time than before. |
| MessageController.SentMessageEndsHistory | server/controllers/messageController.js:43 | On a time-ordered store, a saved message no older than any stored one becomes the last entry of the pair's history. The rest of the history is unchanged. |
| History.PairHistory | server/controllers/messageController.js:38-43 | The result is sorted by createdAt and is a permutation of the pair's messages in store order. Every entry is stored and belongs to the pair. |
| History.Conversation | server/controllers/messageController.js:38-42 | Every selected message matches one of the two `$or` branches, and there are no more than the store holds. |
| History.InsertByTime | server/controllers/messageController.js:43 | Inserting into a sorted list keeps it sorted and adds exactly that message. |
| History.SortByTime | server/controllers/messageController.js:43 | The output is sorted by createdAt and is a permutation of the input. |
| History.ConversationMembers | server/controllers/messageController.js:38-42 | A message is selected exactly when it is stored and its sender and receiver are the pair, in either order. |
| History.ConversationCount | server/controllers/messageController.js:38-42 | Each message of the pair is selected as many times as it is stored. Other messages are selected zero times. |
| History.HistoryExact | server/controllers/messageController.js:38-43 | The sorted history has the same multiplicities and membership as the pair filter over the store. |
| History.ConversationSymmetric | server/controllers/messageController.js:38-42 | Selecting for (a, b) and for (b, a) gives the same sequence. |
| History.HistorySymmetric | server/controllers/messageController.js:38-43 | The history of (a, b) and of (b, a) is the same sequence. |
| History.SortSorted | server/controllers/messageController.js:43 | Sorting an already time-ordered list leaves it unchanged, so the sort is stable on it. |
| History.ConversationSorted | server/controllers/messageController.js:38-43 | Filtering a time-ordered store yields a time-ordered list. |
| History.HistoryInStoreOrder | server/controllers/messageController.js:43 | On a time-ordered store, the history lists the pair's messages in store order. |
| History.ConversationAppend | server/controllers/messageController.js:38-42 | Appending a message extends the selection by that message exactly when it belongs to the pair. |
| AuthController.Login | server/controllers/authController.js:6-46 | 200 exactly when the lookup finds a user by email, bcrypt accepts the password and `JWT_SECRET` is set. A cookie is set exactly then, holding a token signed with `JWT_SECRET` from that user's id, and the body is the passwordless projection. An unknown email or a wrong password gives the same 400 "Invalid email or password". Without `JWT_SECRET`, signing throws and the answer is 500 with no cookie. Any other throw also gives 500 and no cookie. |
| AuthController.SessionCookie | server/controllers/authController.js:26-31 | The cookie is `access_token` holding the token. It is HttpOnly, secure exactly in production, SameSite strict, with a max age of 604800000 ms. |
| AuthController.LoginFailuresIndistinguishable | server/controllers/authController.js:11-20 | An unknown email and a wrong password produce the same response and no cookie. |
| AuthController.Signup | server/controllers/authController.js:49-80 | 201 exactly when the lookup succeeds, the email is not on file and the create succeeds. The collection then gains exactly one user with the hashed password, and the body omits it. An existing email gives 400 "Email already registered". A failing lookup, or a failing hash or create, gives 500 with the error. Any non-201 outcome leaves the collection unchanged. |
| AuthController.RejectedSignupCreatesNothing | server/controllers/authController.js:53-56 | A signup with a registered email is answered 400 and creates no user. |
| AuthController.SignupKeepsEmailsUnique | server/controllers/authController.js:53-66 | If emails were unique before a signup, they are unique after it. |
| AuthController.SignupStoresNoPlaintext | server/controllers/authController.js:58-66 | If the hash never returns its input, the stored password differs from the submitted one. |
| AuthController.OthersPublic | server/controllers/authController.js:85-93 | There is one entry per stored user whose id differs from the requester's, and none with the requester's id. Each entry is a passwordless projection of such a user, and every such user is listed. |
| AuthController.GetAllUsers | server/controllers/authController.js:83-100 | If the query throws: 500. Otherwise 200 with the projections of all other users, and exactly as many entries as there are such users. |
| AuthController.Logout | server/controllers/authController.js:103-113 | 200 "Logged out successfully". `access_token` is overwritten with an empty, HttpOnly value expiring at epoch 0. |
| AuthMiddleware.VerifyKey | server/middleware/authMiddleware.js:15 | The key is `JWT_SECRET` when that is set and non-empty, otherwise "secret". |
| AuthMiddleware.SessionToken | server/middleware/authMiddleware.js:6-12 | A token is found exactly when the `access_token` cookie is present and non-empty. |
| AuthMiddleware.Protect | server/middleware/authMiddleware.js:4-28 | No token gives 401 "Not authorized". `next()` is called exactly when the token verifies, the lookup does not throw and a user with the token's id exists. `req.user` is then that user without its password. Every rejection is a 401. |
| AuthMiddleware.UnknownUserRejected | server/middleware/authMiddleware.js:16-20 | A verified token for an id with no stored user gives 401 "Not authorized, user not found". |
| AuthMiddleware.LookupFailureIsUnauthorized | server/middleware/authMiddleware.js:14-27 | A throwing user lookup is answered 401 "Not authorized" with the error, not 500. |
| Store.WithoutPassword | server/middleware/authMiddleware.js:16 | The loaded user keeps every field except the password. |
| Store.Public | server/controllers/authController.js:36-41 | The projection keeps id, username, email and avatar. |
| Store.FindByEmail | server/controllers/authController.js:11 | None exactly when no user has the email. Otherwise the result is the first user with that email. |
| Store.FindById | server/middleware/authMiddleware.js:16 | None exactly when no user has the id. Otherwise the result is a stored user with that id. |
| Store.FindByEmailUnique | server/models/User.ts:13 | Under the unique email index, any stored user is what the lookup by its email returns. |
| Store.FindByIdUnique | server/middleware/authMiddleware.js:16 | With unique ids, any stored user is what the lookup by its id returns. |
| Store.FindByEmailAppendFresh | server/controllers/authController.js:53-66 | A user created with a new email is what the lookup by that email then returns. |
| Flows.SignupThenLogin | server/controllers/authController.js:58-66 | If bcrypt accepts what it hashed, logging in with the credentials just registered succeeds as the new user when `JWT_SECRET` is set, with a token for the new id. Without `JWT_SECRET` the same login is answered 500 with no cookie. |
| Flows.NoSecretNoSession | server/utils/generateToken.ts:4 | Without a truthy `JWT_SECRET`, no login sets a cookie or answers 200. |
| Flows.SessionKeyIsVerifyKey | server/middleware/authMiddleware.js:15 | Every session cookie holds a token signed with the key `protect` verifies with. `JWT_SECRET` is then set, so the `"secret"` fallback is never that key. |
| Flows.LoginThenProtect | server/middleware/authMiddleware.js:6-23 | With unique ids, and tokens that verify under `JWT_SECRET` to the id they were signed from, the cookie set by login lets `protect` call `next()` as the logged-in user. |
| Flows.LogoutThenProtect | server/middleware/authMiddleware.js:6-12 | After logout's cookie, `protect` answers 401 "Not authorized". |
| Flows.GuardedSendUsesTokenIdentity | server/controllers/messageController.js:10-18 | Behind `protect`, the saved message's sender is the id the session token verified to. |
| Flows.GuardedUserListExcludesRequester | server/controllers/authController.js:85 | Behind `protect`, the user list never contains the requester's id. |
| Flows.BothClientsAppendSavedMessage | server/controllers/messageController.js:21-27 | The sender's chat list gains the saved message from the 201 body. When the receiver's client dispatches `addMessage` for the push, its list gains the same message at the end. The client does so only while that sender's conversation is open. |
| Flows.FetchedHistoryIsServerHistory | client/src/features/chat/chatSlice.ts:70-73 | A fetched history becomes the client's list: sorted and exactly the pair's stored messages, each as often as stored. Loading is cleared and the error flag is untouched. |
| Thunks.OrChain | client/src/features/user/userSlice.ts:26-31 | The value is one of the operands: the first truthy one, or the last operand if none is truthy. |
| Thunks.RejectValue | client/src/features/auth/authSlice.ts:37-39 | The rejection message is the server's message if it is non-empty, else `error.message`. |
| Thunks.UsersRejectValue | client/src/features/user/userSlice.ts:26-31 | The rejection message is the first truthy value of the server's message, `error.message` and `error.toString()`, falling back to the last. |
| Thunks.UsersChainExtendsAuthChain | client/src/features/user/userSlice.ts:26-31 | The three-step chain agrees with the two-step chain whenever the latter is non-empty, and otherwise gives `error.toString()`. |
| AuthSlice.Initial | client/src/features/auth/authSlice.ts:22-28 | All flags are false, the message is empty, and the user is the one read from the cookie. |
| AuthSlice.RegisterSettles | client/src/features/auth/authSlice.ts:31-42 | The register thunk fulfils with the response body, or rejects with the two-step message. |
| AuthSlice.LoginSettles | client/src/features/auth/authSlice.ts:45-56 | The login thunk fulfils with the response body, or rejects with the two-step message. |
| AuthSlice.Reduce | client/src/features/auth/authSlice.ts:66-112 | Every action changes only its write set. reset clears the flags and message. pending sets loading. fulfilled clears loading, sets success and stores the payload as user. rejected clears loading, sets error and message and clears user. logout.fulfilled clears user. |
| AuthSlice.RegisterActsAsLogin | client/src/features/auth/authSlice.ts:77-106 | register and login pending/fulfilled/rejected produce identical states. |
| AuthSlice.ResetKeepsUser | client/src/features/auth/authSlice.ts:67-72 | reset keeps the user, is idempotent, and yields the initial state for that user. |
| AuthSlice.UserIsLastWritten | client/src/features/auth/authSlice.ts:77-111 | After any actions, `user` is the value set by the last action that assigns it, or the starting user. |
| AuthSlice.ErrorPersistsUntilReset | client/src/features/auth/authSlice.ts:67-106 | Once set, `isError` stays set through any actions other than reset, successful ones included. |
| AuthSlice.SuccessThenFailureFlagsBoth | client/src/features/auth/authSlice.ts:80-106 | From any state, a failed login after a successful one leaves both `isSuccess` and `isError` set, with no user, the rejection message and loading cleared. The same holds for register. |
| ChatSlice.Initial | client/src/features/chat/chatSlice.ts:13-18 | The initial state has no messages, cleared flags and an empty message. |
| ChatSlice.FetchSettles | client/src/features/chat/chatSlice.ts:21-33 | fetchMessages fulfils with the list, or rejects with the two-step message. |
| ChatSlice.SendSettles | client/src/features/chat/chatSlice.ts:36-48 | sendMessage fulfils with the saved message, or rejects with the two-step message. |
| ChatSlice.Reduce | client/src/features/chat/chatSlice.ts:53-84 | Every action changes only its write set. resetChat yields the initial state. addMessage and sendMessage.fulfilled append one message, keeping the old list as a prefix. fetch pending sets loading only. fetch fulfilled replaces the list and clears loading. fetch rejected clears loading and sets the error flag and message while keeping the list. |
| ChatSlice.SendActsAsAdd | client/src/features/chat/chatSlice.ts:60-83 | sendMessage.fulfilled and addMessage produce identical states. |
| ChatSlice.UnhandledSendActions | client/src/features/chat/chatSlice.ts:64-84 | sendMessage pending and rejected leave the state unchanged. |
| ChatSlice.OnlyAppends | client/src/features/chat/chatSlice.ts:60-62 | With no reset and no fetch fulfilment, the list grows by exactly the appended messages, in dispatch order. |
| ChatSlice.MessagesAfterLastReplacement | client/src/features/chat/chatSlice.ts:54-83 | After any actions, the list is what the last reset or fetch installed, followed by everything appended since. |
| UserSlice.Initial | client/src/features/user/userSlice.ts:11-16 | The initial state has an empty list, cleared flags and an empty message. |
| UserSlice.FetchSettles | client/src/features/user/userSlice.ts:19-35 | fetchUsers fulfils with the response data, or rejects with the three-step message. |
| UserSlice.Reduce | client/src/features/user/userSlice.ts:40-62 | Every action changes only its write set. resetUsers yields the initial state. pending sets loading only. fulfilled replaces the list and clears loading. rejected clears loading and sets the error flag and message while keeping the list. |
| UserSlice.UsersAreLastFetched | client/src/features/user/userSlice.ts:41-61 | After any actions, the list is the last one fetched, or empty after the last reset, or the starting list. |
| UserSlice.LoadingIffLastPending | client/src/features/user/userSlice.ts:50-61 | After a non-empty run of actions, loading is set exactly when the last action was a pending. |

## Left out

- The socket registry (`socket/socket.js`), the socket.io transport and any concurrency are not part of this model. Presence is a plain input map, and an emit is recorded, not delivered.
- The message schema (`models/Message.js`) is not part of this model. Whether `save()` accepts a message is an input, so empty text or a missing receiver are not rejected by the model itself.
- Request bodies with missing (`undefined`) fields are not modelled. Every body field is a string, and an absent avatar is `None`.
- The user schema's `trim` on usernames and `lowercase` on emails are not modelled. Emails are compared exactly as given.
- `generateToken`, bcrypt and jsonwebtoken are given functions. The signing key is `JWT_SECRET`. Token expiry (`JWT_EXPIRE`) and the bcrypt cost factor 10 are not modelled, and the salt is an input.
- `Signup` folds a throw from `genSalt`/`hash` into a failing `create`, because both end in the same 500 with no user created.
- `Login` folds several throws into one `Fault`: one from `findOne`, one from `bcrypt.compare`, and one from `jwt.sign` on a malformed `JWT_EXPIRE`. All of them end in the same 500 with no cookie. A missing `JWT_SECRET` is modelled on its own.
- `Logout` has no 500 path: nothing in its `try` block can throw for the inputs modelled.
- `console.log` calls and the error object's full serialisation are not modelled. A 500 or 401 body carries the error's text.
- `AuthSlice.Initial` takes the cookie's user as already parsed. A malformed `user` cookie, which makes `JSON.parse` throw, is not modelled.
- `Thunks.RejectValue` assumes `error.message` is a string, as it is for every `Error`. An `undefined` rejection payload is not modelled.
- `History.PairHistory` fixes the order of messages with equal `createdAt` to store order. MongoDB does not promise any particular order for such ties.
- React pages and components, the HTTP service wrappers, the Redux store setup, route wiring and server bootstrap are not modelled, since they only forward or render.
