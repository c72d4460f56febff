# PeerPrep auth routes and gateway connection events, in Dafny

This project models two stateful pieces of the PeerPrep collaboration platform.

- **Auth routes** (`auth_routes.dfy`, module `AuthRoutes`). The auth service keeps a
  module-level list `refreshTokens` of the refresh tokens it has issued. Four POST
  handlers work on it:
  - `/generate` pushes the issued refresh token onto the list;
  - `/verify` never looks at the list;
  - `/renew` accepts only a token that is in the list;
  - `/revoke` drops every occurrence of a token.

  Each handler checks its body fields in a fixed order and throws `MalformedRequest`
  with a fixed message. The router is the class `AuthRoute` with a `seq<Token>` field.
  `GenerateReply`, `VerifyResponse`, `RenewResponse` and `RevokeReply` are pure
  functions that specify the four handlers. The token service (`authService`) is an
  oracle: an `AuthService` value of three functions, passed to each route call.
- **Gateway connection events** (`connection_events.dfy`, module `ConnectionEvents`).
  Every socket event goes to exactly one handler.
  - `clientConnected` and `clientDisconnected` write the shared Redis hash
    `userSocketMap` (`hSet` / `hDel`).
  - The nine other handlers each publish one message. Its topic is the event's name
    and its payload holds the event's fields.

  The class `Gateway` holds the hash as a `map` and the published messages as an
  `outbox` sequence. `Publication` builds the message. `Decode` is how a subscriber
  reads a message back, and it is the partner of `Publication`: decoding gives the
  original event back. `Step` and `Run` describe handling one event, or a sequence of
  events, as a pure transition.

`connectionEvents.js` keeps no room state: there are no undo or redo stacks, no chat
de-duplication, no loop suppression by origin instance, no field validation, no
reconnect grace period and no registry TTL. Every event is forwarded unchanged, and the
model does the same.

## Model

| member | source | states |
|---|---|---|
| `AuthRoutes.WithoutToken` | backend/auth-service/src/routes.js:73 | the filtered list contains exactly the tokens other than `t`, each other token keeps its multiplicity, and the length drops by the number of occurrences of `t` |
| `AuthRoutes.WithoutTokenAppend` | backend/auth-service/src/routes.js:73 | filtering distributes over concatenation, so the kept tokens stay in their original relative order |
| `AuthRoutes.WithoutTokenSingle` | backend/auth-service/src/routes.js:73 | a one-token list is kept when the token differs from `t` and dropped otherwise |
| `AuthRoutes.WithoutAbsentToken` | backend/auth-service/src/routes.js:73 | filtering out a token that is not in the list returns the list unchanged |
| `AuthRoutes.GenerateReply` | backend/auth-service/src/routes.js:16-29 | fails with MISSING_USER_ID_FIELD exactly when `userId` is falsy; on success returns the service's two tokens and appends exactly the refresh token; on a missing field or a service failure the list is unchanged |
| `AuthRoutes.VerifyResponse` | backend/auth-service/src/routes.js:31-46 | `accessToken` is checked before `userId` (both missing gives MISSING_ACCESS_TOKEN_FIELD); answers OK exactly when both are present and the service accepts them; it is malformed only when a field is missing, so a service failure is passed on as that failure |
| `AuthRoutes.RenewResponse` | backend/auth-service/src/routes.js:48-63 | a missing token gives MISSING_REFRESH_TOKEN_FIELD, a token not in the list gives INVALID_REFRESH_TOKEN; it is malformed only in those two cases; it renews exactly when the token is listed and the service returns an access token, and otherwise passes the service's failure on |
| `AuthRoutes.RevokeReply` | backend/auth-service/src/routes.js:65-76 | answers OK exactly when the token field is present, leaving the filtered list; otherwise MISSING_REFRESH_TOKEN_FIELD with the list unchanged |
| `AuthRoutes.RevokeIdempotent` | backend/auth-service/src/routes.js:73-74 | revoking the same token twice gives the same answer and list as revoking it once |
| `AuthRoutes.RevokeAbsentIsNoOp` | backend/auth-service/src/routes.js:73-74 | revoking a token that is not listed still answers OK and leaves the list unchanged |
| `AuthRoutes.RevokeKeepsOtherTokens` | backend/auth-service/src/routes.js:56-73 | after revoking `t`, renewing any other token gives the same answer as before the revoke |
| `AuthRoutes.RenewAfterRevokeFails` | backend/auth-service/src/routes.js:56-73 | after `/revoke(t)`, `/renew(t)` fails with INVALID_REFRESH_TOKEN, whatever the token service would answer |
| `AuthRoutes.RenewRepeatable` | backend/auth-service/src/routes.js:56-61 | once a renew has succeeded, renewing again with the same token passes both checks, and the outcome depends only on the token service |
| `AuthRoutes.GeneratedTokenRenewable` | backend/auth-service/src/routes.js:24-61 | a refresh token just issued by `/generate` is accepted by `/renew`, unless the service issued the empty string, which `/renew` reads as missing |
| `AuthRoutes.AuthRoute.constructor` | backend/auth-service/src/routes.js:9 | the refresh-token list starts empty |
| `AuthRoutes.AuthRoute.Generate` | backend/auth-service/src/routes.js:16-29 | the answer and the new list are those of `GenerateReply` on the old list |
| `AuthRoutes.AuthRoute.Verify` | backend/auth-service/src/routes.js:31-46 | answers as `VerifyResponse`; it has no modifies clause, so it cannot change the list |
| `AuthRoutes.AuthRoute.Renew` | backend/auth-service/src/routes.js:48-63 | answers as `RenewResponse` on the current list; it has no modifies clause, so it cannot change the list |
| `AuthRoutes.AuthRoute.Revoke` | backend/auth-service/src/routes.js:65-76 | the answer and the new list are those of `RevokeReply` on the old list |
| `ConnectionEvents.Publication` | backend/gateway/src/events/connectionEvents.js:85-145 | the topic of every published message is the event's own name, and decoding the message gives back exactly the event: the payload carries that event's fields, under their names, in order, and nothing else |
| `ConnectionEvents.PublicationInjective` | backend/gateway/src/events/connectionEvents.js:85-145 | two different events never publish the same message, so every event is forwarded as received |
| `ConnectionEvents.Step` | backend/gateway/src/events/connectionEvents.js:75-145 | a publishing event appends exactly its message and leaves the hash alone; a connect sets its user's entry and keeps every other entry; a disconnect removes only its user's key; neither of the last two publishes |
| `ConnectionEvents.RunOutbox` | backend/gateway/src/events/connectionEvents.js:85-145 | after any sequence of events the outbox is the old outbox plus the publishing events' messages, in arrival order |
| `ConnectionEvents.RunRegistry` | backend/gateway/src/events/connectionEvents.js:75-145 | publishing events never affect the hash: dropping them from a sequence leaves the final hash unchanged |
| `ConnectionEvents.RunIgnoresOutbox` | backend/gateway/src/events/connectionEvents.js:75-83 | the hash a sequence of events leaves depends only on the starting hash, not on what was published |
| `ConnectionEvents.RunAppend` | backend/gateway/src/events/connectionEvents.js:4-71 | handling events one at a time: a sequence with one more event ends in one more step |
| `ConnectionEvents.RunLookup` | backend/gateway/src/events/connectionEvents.js:75-83 | last write wins per user: after any sequence, a user's entry is the socket of the last connect for that user, absent if the last such event was a disconnect, and the original entry if there was none |
| `ConnectionEvents.LastConnectWins` | backend/gateway/src/events/connectionEvents.js:75-78 | two connects for one user leave the second socket mapped, and the state equals that of the second connect alone |
| `ConnectionEvents.DisconnectAbsentIsNoOp` | backend/gateway/src/events/connectionEvents.js:80-83 | disconnecting a user that has no entry changes nothing |
| `ConnectionEvents.ConnectThenDisconnect` | backend/gateway/src/events/connectionEvents.js:75-83 | a connect followed by a disconnect of a user that had no entry restores the earlier state |
| `ConnectionEvents.Gateway.constructor` | backend/gateway/src/events/connectionEvents.js:1-2 | a gateway starts from the existing shared hash, whatever it holds, and has published nothing |
| `ConnectionEvents.Gateway.ClientConnectedEvent` | backend/gateway/src/events/connectionEvents.js:75-78 | sets `userSocketMap[userId] := socketId`; the outbox is unchanged |
| `ConnectionEvents.Gateway.ClientDisconnectedEvent` | backend/gateway/src/events/connectionEvents.js:80-83 | removes the `userId` key only; the outbox is unchanged |
| `ConnectionEvents.Gateway.Publish` | backend/gateway/src/events/connectionEvents.js:88 | appends one message to the outbox and leaves the hash unchanged |
| `ConnectionEvents.Gateway.FindMatchEvent` | backend/gateway/src/events/connectionEvents.js:85-89 | publishes `{difficulty, userId}` on `findMatch` and nothing else; the hash is unchanged |
| `ConnectionEvents.Gateway.SendLanguage` | backend/gateway/src/events/connectionEvents.js:91-95 | publishes `{roomId, language}` on `sendLanguage`; the hash is unchanged |
| `ConnectionEvents.Gateway.SendCollaborationCode` | backend/gateway/src/events/connectionEvents.js:97-101 | publishes `{roomId, code}` on `sendCurrentCode`; the hash is unchanged |
| `ConnectionEvents.Gateway.SendDrawing` | backend/gateway/src/events/connectionEvents.js:103-107 | publishes `{roomId, strokeData}` on `sendDrawing`; the hash is unchanged |
| `ConnectionEvents.Gateway.SendUndoDrawing` | backend/gateway/src/events/connectionEvents.js:109-113 | publishes `{roomId}` on `sendUndoDrawing`; the hash is unchanged |
| `ConnectionEvents.Gateway.SendRedoDrawing` | backend/gateway/src/events/connectionEvents.js:115-119 | publishes `{roomId}` on `sendRedoDrawing`; the hash is unchanged |
| `ConnectionEvents.Gateway.SendClearDrawing` | backend/gateway/src/events/connectionEvents.js:121-125 | publishes `{roomId}` on `sendClearDrawing`; the hash is unchanged |
| `ConnectionEvents.Gateway.SendMessageEvent` | backend/gateway/src/events/connectionEvents.js:128-139 | publishes `{roomId, messageId, name, message, time}` on `sendMessage`; the hash is unchanged |
| `ConnectionEvents.Gateway.SendLeaveRoom` | backend/gateway/src/events/connectionEvents.js:141-145 | publishes `{roomId}` on `sendLeaveRoom`; the hash is unchanged |
| `ConnectionEvents.Gateway.Dispatch` | backend/gateway/src/events/connectionEvents.js:4-71 | routes each event to its one handler with the fields it was sent with; the new hash and outbox are those of `Step` |

## Left out

- The token service (`authService.generateTokens`, `verifyAccessToken`, `renewAccessToken`): its cryptography is not part of this model. It is an oracle whose answers are parameters of each route call.
- `responseMessages.js`, `statusCodes.js` and `MalformedRequest.js` are not part of this model. Messages are names. The HTTP status of a thrown `MalformedRequest`, and how `asyncHandler` passes errors on, are not modelled.
- The `authRoute.all` header-setting handler (backend/auth-service/src/routes.js:11-14) sets response headers only. It is left out.
- Request-body fields are absent or strings. Numbers, booleans and objects are not modelled. For string fields, truthiness is "non-empty". `includes` uses strict equality and `filter` uses loose `!=`, and for strings the two agree.
- Express, socket.io and Redis: the hash is a Dafny `map`, and `publish` appends to an outbox. The unused `io` and `subClient` parameters are dropped.
- The exact `JSON.stringify` text is not modelled, including the omission of undefined fields. A payload is a list of key/value pairs in insertion order.
- Concurrency: async/await and the interleaving of handlers across sockets, requests and gateway instances. The model handles one event or request at a time. Events from all sockets form one sequence, and a failed Redis call is not modelled.
- Room state, undo/redo cursors, chat de-duplication, loop suppression, reconnect grace periods, TTL expiry and room participants: `connectionEvents.js` implements none of them, so the model has none.
- `userSocketMap` is a Redis hash that outlives any gateway process. The model takes its contents when a `Gateway` is built as a constructor argument, and it does not model how the hash is created.
- `matching-service/index.js` (a socket.io room relay), `user-service/model/user-orm.js` (pass-throughs to a repository) and the React components are not part of this model.
