# WebSocket connection and relay manager — a Dafny model

This project models the real-time core of the backend, `src/websocket/websocketManager.js`.
That file holds four parts:

- the **handshake**, a fixed chain of checks on the `token` query parameter;
- the **connection registry** `activeUsers`, with replace-on-admit and identity-guarded removal on close;
- the **message relay**, with fail-fast validation, a friendship gate, persistence, and best-effort live delivery;
- the **liveness sweep**, the `setInterval` callback together with the `pong` heartbeat.

The callbacks are modelled as a sequence of events: `Connect`, `Message`, `Pong`, `Close` and `Tick`.
The collaborators are oracles that each event carries, so they may answer differently over time:

- `jwt.verify` and `isTokenBlacklisted`, in `Handshake.Auth`;
- `matchService.checkFriendship` and `messageService.sendMessage`, in `Relay.Services`.

Either of the last two may throw (`Common.Reply.Throws`).

Modules:

- `Common`: optional values, collaborator replies, identities, and JavaScript truthiness of an optional string.
- `Gates`: a generic "first failing check wins" evaluator. The handshake and the relay are both proved to be instances of it.
- `Handshake`: `Validate`, the handshake as the source writes it, and the same policy as an ordered check list.
- `Relay`: `RelayPlan`, the validation chain of the `message` handler up to persistence, and the same policy as an ordered check list.
- `Liveness`: the two-tick machine of one connection (`Alive`, `Unconfirmed`, `Down`) under sweeps and pongs.
- `Server`: the whole manager as a pure state machine. Its state holds:
  - the registry;
  - the state of every socket, with its owner, `isAlive`, ready state, frames sent, pings and close frame;
  - the server's tracked clients;
  - the records the store returned.

  `Valid` is the invariant that every step keeps.
- `Guarantees`: the promised properties, as lemmas over `Server`.
- `Manager`: the class `ConnectionManager`. Its fields are updated in place by one method per handler, and each method is proved to have exactly the effect of the matching `Server` step.

The socket identity the source compares with `===` is a `ConnId`.
A socket's fields (`isAlive`, `readyState`, what was sent to it) are the entries of a map keyed by that id.
`terminate()` moves a socket to `Closing`.
After that, the `close` event (`Server.CloseStep`) closes the socket, untracks it and runs the guarded removal, exactly as the `close` handler does.
`send()` and `ping()` on a socket that is not open transmit nothing.

The model follows the code as written; in particular:

- The sweep only terminates an unconfirmed socket. It does not remove the socket from the registry. Removal happens later, in the close handler, through the identity guard. Until then a registered socket may be `Closing`, which is why the relay checks for an OPEN socket.
- The token is verified before the blacklist is consulted. Both failures give the same reason, "Invalid token".
- A URL that fails to parse is refused with 1008 "Invalid URL format".
- A message whose JSON is `null` throws a TypeError when it is destructured. The sender then gets the generic "send message error", not a format error.
- With the separate `close` event, replace-on-admit is a plain delete, terminate, then set. No lock is involved.

## Model

| member | source | states |
|---|---|---|
| Gates.FirstFailure | src/websocket/websocketManager.js:26-54 | a check chain reports nothing exactly when every check passes |
| Gates.FirstFailureReportsFirst | src/websocket/websocketManager.js:82-100 | the chain reports the reason of the first failing check, whatever the later checks say |
| Handshake.Validate | src/websocket/websocketManager.js:17-54 | every rejection carries close code 1008; an admitted user id is never empty |
| Handshake.HandshakeFollowsPolicy | src/websocket/websocketManager.js:17-54 | the handshake rejects with the reason of the first failing requirement (URL parses, token present, verifies, not blacklisted, has userId) and admits the token's userId exactly when all hold |
| Handshake.MissingTokenRefused | src/websocket/websocketManager.js:26-31 | an absent or empty token gives 1008 "Token not provided" whatever the auth collaborators answer |
| Handshake.InvalidOrRevokedTokenRefused | src/websocket/websocketManager.js:34-47 | a token that fails verification, or verifies but is blacklisted, gives 1008 "Invalid token" |
| Handshake.ClaimlessTokenRefused | src/websocket/websocketManager.js:49-54 | a verified, non-blacklisted token without a userId claim gives 1008 "Invalid token payload" |
| Relay.RelayPlan | src/websocket/websocketManager.js:80-102 | a message is forwarded only with a non-empty target and body, only when checkFriendship returned true for that sender and target, and with the very record sendMessage returned |
| Relay.RelayFollowsPolicy | src/websocket/websocketManager.js:82-115 | the relay refuses with the reason of the first failing requirement (parses, not null, fields present, friendship answered, friends, stored) and forwards exactly when all hold |
| Relay.NonFriendsRefused | src/websocket/websocketManager.js:96-100 | a well-formed message to a non-friend gives "Target user is not in your friend list" |
| Relay.CollaboratorFailureRefused | src/websocket/websocketManager.js:112-115 | a throwing friendship check or store gives "send message error" |
| Liveness.DownIffMissedTwice | src/websocket/websocketManager.js:135-150 | a connection starting alive goes down exactly when two sweeps follow each other with no pong between; an unconfirmed one at the next sweep or on the same terms |
| Liveness.AnswerRestores | src/websocket/websocketManager.js:148-150 | a pong puts any connection that is still open back to alive |
| Server.Initial | src/websocket/websocketManager.js:7 | the empty registry with no tracked clients satisfies the invariant |
| Server.Evict | src/websocket/websocketManager.js:57-72 | the user's entry is deleted and the socket it named becomes closing, nothing else changes, and the invariant holds |
| Server.Register | src/websocket/websocketManager.js:75 | the registry gains `userId -> ws`, the socket's handlers belong to that user, and the invariant holds |
| Server.Admit | src/websocket/websocketManager.js:57-75 | after admission the registry is the old one with `userId` mapped to the new socket, the previous socket of that user is closing, and every other socket is unchanged |
| Server.ConnectStep | src/websocket/websocketManager.js:12-79 | a new socket is tracked, alive, not closed, with nothing sent; no earlier socket receives a frame and no record is stored; the invariant holds |
| Server.CloseStep | src/websocket/websocketManager.js:118-126 | a close untracks the socket and keeps the invariant |
| Server.MessageStep | src/websocket/websocketManager.js:80-116 | handling a message never changes the registry or the tracked clients and keeps the invariant |
| Server.PongStep | src/websocket/websocketManager.js:148-150 | a pong marks its socket alive without changing its ready state, touches no other socket, registry entry or client, and keeps the invariant |
| Server.SweepStep | src/websocket/websocketManager.js:135-145 | a sweep changes neither registry nor clients and keeps the invariant |
| Server.Terminate | src/websocket/websocketManager.js:139 | `terminate()` leaves no socket open; only an already closed socket stays closed, and nothing but the ready state changes |
| Server.Send | src/websocket/websocketManager.js:86-114 | `send()` appends exactly the given frame when the socket is open and writes nothing otherwise; no other part of the socket changes |
| Server.Ping | src/websocket/websocketManager.js:143 | `ping()` adds one ping exactly when the socket is open; no other part of the socket changes |
| Server.Online | src/websocket/websocketManager.js:104-105 | a target counts as online only when the registry names a tracked socket owned by that user (and it is OPEN) |
| Server.SweepConn | src/websocket/websocketManager.js:137-143 | one client's turn: an unconfirmed socket is no longer open and gets no ping; a confirmed one becomes unconfirmed, keeps its ready state, and is pinged exactly when open; owner, frames and close frame are unchanged |
| Server.Enabled | src/websocket/websocketManager.js:12-126 | a connection brings a socket never seen before; message, pong and close events come only from a socket that is not closed, and messages only from an open one whose handlers belong to a user |
| Server.Step | src/websocket/websocketManager.js:12-150 | every event keeps the invariant and forgets no socket |
| Server.Run | src/websocket/websocketManager.js:9-146 | the invariant (at most one entry per user, each naming a tracked socket of that user) holds after every admissible trace |
| Guarantees.RejectedHandshakeRegistersNothing | src/websocket/websocketManager.js:17-54 | a rejected socket is closing with close frame 1008 and the verdict's reason, has no `message` or `close` handler, and registry, store and all other sockets are unchanged |
| Guarantees.RegistryChangesOnlyOnAdmission | src/websocket/websocketManager.js:34-75 | the registry changes on a connection only if every handshake check passed |
| Guarantees.AdmissionReplacesPrevious | src/websocket/websocketManager.js:57-75 | after admitting `u` on a socket, `u` maps to it and it is open and alive; `u`'s previous socket is terminated; other users' entries and other sockets are unchanged |
| Guarantees.RegistryIsInjective | src/websocket/websocketManager.js:57-75 | no socket is registered for two users |
| Guarantees.CloseRemovesOnlyCurrent | src/websocket/websocketManager.js:118-126 | a close deletes the owner's entry exactly when it names the closing socket; otherwise the registry is unchanged |
| Guarantees.ReplacementMakesStale | src/websocket/websocketManager.js:57-75 | after a replacement the user's previous socket is stale, meaning the entry no longer names it |
| Guarantees.StepKeepsStale | src/websocket/websocketManager.js:118-126 | no event makes a stale socket current again |
| Guarantees.StaleCloseIsIgnored | src/websocket/websocketManager.js:118-126 | along any trace a stale socket stays stale, and its close leaves the registry unchanged |
| Guarantees.RefusedMessageAnswersSenderOnly | src/websocket/websocketManager.js:82-100 | a refused message appends one error frame to the sender only; nothing is stored and the registry is unchanged |
| Guarantees.ForwardedMessageIsStoredAndAcknowledged | src/websocket/websocketManager.js:102-111 | a forwarded message is stored; the recipient's socket gets `{fromUserId, message, time: createdAt}` exactly when it is registered and OPEN; the sender gets `{success: true, message: saved}` either way; nothing else changes |
| Guarantees.NoFriendshipNoRelay | src/websocket/websocketManager.js:96-100 | unless checkFriendship answered true, nothing is stored and only the sender receives a frame, an error |
| Guarantees.MessageKeepsDurable | src/websocket/websocketManager.js:102-111 | after a message every acknowledgement sent carries a stored record, and every delivery frame carries a stored record's timestamp |
| Guarantees.StepKeepsDurable | src/websocket/websocketManager.js:102-111 | every event keeps "acknowledged and delivered messages are stored" |
| Guarantees.RunKeepsDurable | src/websocket/websocketManager.js:102-111 | durability before delivery holds along every trace |
| Guarantees.SweepReapsOnlyUnconfirmed | src/websocket/websocketManager.js:135-145 | a sweep terminates a client whose isAlive is false without pinging it; it sets every other client's isAlive to false and pings it if it is open |
| Guarantees.StepFollowsLiveness | src/websocket/websocketManager.js:14-15 | each event moves a socket's liveness as the two-tick machine says: a sweep is one probe, its own pong is one answer, and any other event except a close of the socket or a re-admission of its user leaves it unchanged |
| Guarantees.RunFollowsLiveness | src/websocket/websocketManager.js:135-150 | along a trace that leaves the socket undisturbed, its liveness is the two-tick machine run on the sweeps and its pongs |
| Guarantees.ReapedOnlyAfterTwoMissedSweeps | src/websocket/websocketManager.js:135-150 | an open, alive socket stops being open exactly when two sweeps follow each other with no pong from it |
| Manager.ConnectionManager.constructor | src/websocket/websocketManager.js:7 | the manager starts with an empty registry and no clients |
| Manager.ConnectionManager.OnConnection | src/websocket/websocketManager.js:12-79 | the connection handler has exactly the effect of `Server.ConnectStep` |
| Manager.ConnectionManager.OnMessage | src/websocket/websocketManager.js:80-116 | the message handler has exactly the effect of `Server.MessageStep` |
| Manager.ConnectionManager.OnClose | src/websocket/websocketManager.js:118-126 | the close handler has exactly the effect of `Server.CloseStep` |
| Manager.ConnectionManager.Heartbeat | src/websocket/websocketManager.js:148-150 | `heartbeat` has exactly the effect of `Server.PongStep` |
| Manager.ConnectionManager.Sweep | src/websocket/websocketManager.js:135-145 | the `forEach` loop over the clients has exactly the effect of `Server.SweepStep` |

## Left out

- Transport: the `ws` server, real sockets, and the wire effects of `send`, `ping`, `close` and `terminate`. The model records them as frames, pings, a close frame and ready states.
- Parsing: URL parsing and `JSON.parse` are given as their results. These are `Handshake.UrlQuery` and `Relay.Parsed`.
- JSON field types: a `targetUserId` or `message` that is a number, object or boolean is not modelled. Both fields are strings or absent, and so is the `userId` claim.
- Auth internals: JWT cryptography, `SECRET_KEY` and `dotenv` are abstract `verify` and `blacklisted` functions. `isTokenBlacklisted` lives in `src/services/userService.js`, which is not part of this model, so its answer is taken as a boolean.
- Relationship and store: `matchService` and `messageService`, with MongoDB behind them, are oracles that return a value or throw. `createdAt` is an opaque number. A store call that throws is taken to have stored nothing.
- Concurrency: `setInterval` timing, async interleaving between an `await` and the next step, and concurrent handlers are not modelled. Every handler runs to completion as one event. Messages on a socket that is closing are not modelled; `ws` emits none after `terminate`.
- Logging: the `error` handler and all `console` output only log.
- Plumbing: `src/app.js` (Express/CORS/cookie wiring, environment checks, mongoose connect) and `src/routes/userRoutes.js` (routing table, multer storage, file-type filter).
- Tests: `src/__tests__/userController.test.js` tests a controller outside this core.
- Guarantees.ReapedOnlyAfterTwoMissedSweeps: covers only traces that neither close the socket nor admit its user again. Those two events end a socket in their own way, and `Guarantees.CloseRemovesOnlyCurrent` and `Guarantees.AdmissionReplacesPrevious` cover them.
- Guarantees.RunFollowsLiveness: holds under the same assumption.
- Guarantees.StepFollowsLiveness: says nothing about a close of the socket or an event that admits its user again; both are excluded by its precondition for the same reason.
