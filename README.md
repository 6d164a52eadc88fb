# Chess with voice call: the client session state machine

This project models the core of the browser client of a two-player chess
game with a voice call (`src/App.jsx`, a React component). Underneath the
wiring to socket.io, PeerJS, chess.js and the audio elements, the component
is a small state machine:

- **State cells**: `game` (the chess.js game), `position` (what the board
  shows), `role`, `color`, `isConnected` (a session has started),
  `currentTurn`, `error` and `socketConnected`.
- **Socket handlers**: `connect`, `connect_error`, `disconnect`, `move`,
  `role`, `start`, `turn` and `error`. Each one overwrites a fixed set of
  cells and leaves the rest alone.
- **The move gate `onDrop`**: first turn ownership, then legality by the
  move validator on a copy of the game. Only when both pass does the board
  change and one `move` message go out.
- **The peer effect**: it runs only with a role, a started session and a
  live socket. It captures the microphone, checks the local audio element,
  plays it, builds the peer and registers a `peer-id` listener. Through
  that listener only an initiator calls, and only a receiver. Its cleanup
  destroys the peer if one was built, stops every track if a stream was
  captured, and always drops the `peer-id` listener.

Files, one module each:

- `wrappers.dfy` (`Wrappers`): `Option`, for JavaScript's `null` and the
  validator's rejection.
- `session.dfy` (`Session`): the cells as a value (`Cells`), one function per
  socket handler, `Handle` to dispatch an event, `Drop` for `onDrop`, and
  `Run` over a sequence of inputs. `Writes` is the table of the cells each
  handler sets. `OnlyChanges(a, b, W)` says that no cell outside `W`
  differs between `a` and `b`.
- `session_traces.dfy` (`SessionTraces`): inductive lemmas about whole
  sequences of events and drops.
- `peer_setup.dfy` (`PeerSetup`): the effect's guard, the call rule, and
  `Plan`, how far one run of the effect gets in a given environment.
- `media.dfy` (`Media`): tracks, streams and peers as objects, capture, and
  the loop that stops every track.
- `app.dfy` (`AppComponent`): the class `App`. Its fields are the cells, the
  outbox of `socket.emit` calls and the effect's locals. Each handler
  method is proved to update the cells exactly as the matching `Session`
  function says, and the effect methods are proved to acquire and release
  what `PeerSetup.Plan` says.

The move validator (chess.js) is a parameter of type `Validator`. It maps
the game's FEN, the two squares and the promotion piece (always `"q"`) to
`Some(Applied(san, fen))` or `None`. Media capture, the local audio element
and `play()` are the boolean answers of a `MediaEnv`.

Behaviour of the code worth knowing:

- The `move` emit carries only the SAN, with no session id.
- There is no queue for early signals. A remote `peer-id` that arrives
  before the listener is registered is lost: `OnRemotePeerId` places no
  call then.
- The client never advances `currentTurn` after its own move. Only the
  server's `start` and `turn` events do (`TurnChangesOnlyOnServerNotice`).
  So a second drop before that event passes the turn gate again
  (`AcceptedDropKeepsTurnGateOpen`); the server has to reject it.
- The turn gate does not check that a session has started. A client that
  a `role` event made white may move before any `start`
  (`WhiteMayMoveBeforeStart`).
- The lifecycle is not an explicit enum. It is the fields `cleanupPending`,
  `localStream`, `peerInstance` and `peerIdListener`.

## Model

| member | source | states |
|---|---|---|
| `Session.Initial` | src/App.jsx:16-26 | initial cells: no role or color, not connected, turn `white`, empty error and outbox; board shows the start keyword while the game holds the start FEN, and the two agree |
| `Session.OnConnect` | src/App.jsx:30-33 | `connect` sets `socketConnected` and changes no other cell |
| `Session.OnConnectError` | src/App.jsx:35-39 | `connect_error` clears `socketConnected` and records a non-empty error ending with the failure message; no other cell changes |
| `Session.OnDisconnect` | src/App.jsx:41-45 | `disconnect` clears both `socketConnected` and `isConnected` and changes nothing else |
| `Session.OnMoveBroadcast` | src/App.jsx:47-51 | a broadcast move sets both `game` and `position` to its FEN; the turn and every other cell stay put |
| `Session.OnRoleAssigned` | src/App.jsx:53-57 | `role` sets exactly `role` and `color` to the payload's |
| `Session.OnStart` | src/App.jsx:59-65 | `start` sets `isConnected`, the turn, and `position` and `game` from the same FEN; role and color are untouched |
| `Session.OnTurnNotice` | src/App.jsx:67-70 | `turn` sets only `currentTurn` |
| `Session.OnErrorNotice` | src/App.jsx:72-75 | `error` sets only the error cell |
| `Session.Handle` | src/App.jsx:29-87 | every socket handler writes only its row of `Writes`, emits nothing and keeps board and game in agreement |
| `Session.Drop` | src/App.jsx:202-224 | accepted iff the color owns the turn and the validator accepts on the game's FEN; a rejection changes nothing; an acceptance sets `game` and `position` to the validator's FEN and appends exactly one `move` with the SAN, nothing else changes |
| `SessionTraces.RunKeepsBoardAgreement` | src/App.jsx:47-65 | after any sequence of events and drops, the board widget and the game still show the same position |
| `SessionTraces.TurnChangesOnlyOnServerNotice` | src/App.jsx:59-70 | without a `start` or `turn` event, no sequence of drops or broadcasts changes `currentTurn` |
| `SessionTraces.UnseatedClientEmitsNothing` | src/App.jsx:202-206 | a client without a color emits no move, whatever is dropped, until a role event arrives |
| `SessionTraces.OutboxGrowsOnlyByDrops` | src/App.jsx:220-223 | over socket events and drops, the outbox only grows, keeps its prefix, gains only `move` messages and at most one per drop (the peer's `open` event, which adds `peer-id` messages, is `AppComponent.App.OnPeerOpen`) |
| `SessionTraces.SetupWaitsForStart` | src/App.jsx:41-65 | once the session is not connected, it stays so (and peer setup stays off) until the next `start` |
| `SessionTraces.AcceptedDropKeepsTurnGateOpen` | src/App.jsx:202-223 | after an accepted drop the client still owns the turn, so a second drop depends on the validator alone |
| `SessionTraces.WhiteMayMoveBeforeStart` | src/App.jsx:202-223 | the turn gate ignores whether a session started: a client assigned white may move from the initial game while neither the session nor the socket is connected |
| `PeerSetup.Plan` | src/App.jsx:91-134 | setup does not start iff the guard fails; a stream is captured iff the guard passes and the microphone is granted; the peer is built iff capture, the local audio element and `play()` all succeed |
| `PeerSetup.RecordSetup` | src/App.jsx:104-113 | a run changes only the error cell: nothing when it stops at the guard or builds the peer, the fixed message when the local audio element is missing, a message ending with the failure otherwise |
| `Media.Capture` | src/App.jsx:99-102 | the captured stream has the requested number of fresh, live tracks |
| `Media.StopAll` | src/App.jsx:195 | every track of the stream is stopped |
| `Media.Peer.Call` | src/App.jsx:158 | a live peer places the call and logs it at the end of its calls; a destroyed peer places none and returns no call |
| `AppComponent.App.constructor` | src/App.jsx:16-26 | the object starts with the initial cells and no effect run, stream, peer or listener |
| `AppComponent.App.OnConnect` | src/App.jsx:30-33 | updates the cells exactly as `Session.OnConnect`, writing only `socketConnected` |
| `AppComponent.App.OnConnectError` | src/App.jsx:35-39 | updates the cells exactly as `Session.OnConnectError` |
| `AppComponent.App.OnDisconnect` | src/App.jsx:41-45 | updates the cells exactly as `Session.OnDisconnect` |
| `AppComponent.App.OnMoveBroadcast` | src/App.jsx:47-51 | updates the cells exactly as `Session.OnMoveBroadcast` |
| `AppComponent.App.OnRoleAssigned` | src/App.jsx:53-57 | updates the cells exactly as `Session.OnRoleAssigned` |
| `AppComponent.App.OnStart` | src/App.jsx:59-65 | updates the cells exactly as `Session.OnStart` |
| `AppComponent.App.OnTurnNotice` | src/App.jsx:67-70 | updates the cells exactly as `Session.OnTurnNotice` |
| `AppComponent.App.OnErrorNotice` | src/App.jsx:72-75 | updates the cells exactly as `Session.OnErrorNotice` |
| `AppComponent.App.OnDrop` | src/App.jsx:202-224 | returns and updates exactly as `Session.Drop`, writing only `game`, `position` and the outbox |
| `AppComponent.App.InitPeer` | src/App.jsx:96-185 | capture, audio element, `play()`, then peer: a failed step records its error and stops; no peer without a stream; the constructor is passed `initiator` iff the role is initiator (an option PeerJS does not read); the peer, `peerRef` and the `peer-id` listener appear together |
| `AppComponent.App.RunPeerEffect` | src/App.jsx:90-95 | a cleanup is pending iff the guard passed (role, started session, live socket); nothing is acquired otherwise; what is acquired and recorded is what `Plan` says |
| `AppComponent.App.CleanupPeerEffect` | src/App.jsx:189-198 | destroys the peer only if one was built, stops every track only if a stream was captured, always removes the `peer-id` listener, and leaves the cells alone |
| `AppComponent.App.RerunPeerEffect` | src/App.jsx:189-199 | the pending cleanup, if any, destroys the old peer keeping its call log and stops the old tracks; with no cleanup pending the old peer and tracks are untouched; then every guarantee of `RunPeerEffect` holds against the state before: guard, recorded error, role seen, stream and track count, peer and its `initiator` option, listener and `peerRef` |
| `AppComponent.App.CommitPeerEffect` | src/App.jsx:199 | with unchanged dependencies nothing happens; otherwise it records the dependencies and gives every guarantee of `RerunPeerEffect`, including its frame on the old peer and tracks |
| `AppComponent.App.OnRemotePeerId` | src/App.jsx:155-171 | a call to the remote id is placed iff the listener is registered, the local role is initiator, the remote role is receiver and the peer is not destroyed; through a destroyed peer nothing is placed (the listener then throws at `call.on`) |
| `AppComponent.App.OnPeerOpen` | src/App.jsx:138-141 | a live peer emits one `peer-id` message with its id and the role its run started with; nothing else changes |
| `AppComponent.App.OnPeerError` | src/App.jsx:173-176 | a peer error records its message in the error cell; a fatal one also destroys the peer, while its `peer-id` listener stays registered until cleanup |
| `AppComponent.App.OnCallError` | src/App.jsx:166-169 | a call error, possible only once a call was placed, records its message and changes nothing else |

## Left out

- The socket.io transport and its reconnection settings (src/App.jsx:8-13) are network I/O. Events are method calls and emits are appended to `outbox`.
- The removal of the socket handlers on unmount (src/App.jsx:77-86) is not modelled. The model has no unmounted state.
- chess.js is a parameter. Its legality rules, FEN semantics and the throwing of `new Chess(fen)` on a bad FEN are not modelled. `game` holds the FEN the game was loaded from. An illegal move is a `None` from the validator, matching the source's `move === null` test.
- `Media.Peer.Call`: on a destroyed peer PeerJS also reports a `disconnected` error through the peer's `error` handler; the model only places no call. The TypeError that `call.on` (src/App.jsx:159) then throws ends the listener and is not modelled further.
- `AppComponent.App.InitPeer`: the `initiator` and `trickle` options passed to the peer constructor are options of another peer library; PeerJS ignores them. The model keeps the `initiator` value only as `Peer.initiatorOption`. Only the call at src/App.jsx:158 starts a connection.
- `AppComponent.App.OnPeerError`: which PeerJS errors are fatal is an input (`fatal`), not derived from the error type.
- PeerJS construction options (ICE servers), `call.answer`, the `stream` handlers and `getUserMedia` are media and network I/O. They are reduced to the answers of `MediaEnv` and to the `Peer` object's `destroyed` flag and call log.
- Audio `srcObject`, `muted`, `alert`, `console.log` and the rendered markup are UI and are not modelled. Every socket payload (`turn`, `fen`, the `error` payload) and every `err.message` is taken to be a well-formed string; a missing `turn` or `fen` (JavaScript `undefined`) is not modelled, so the model does not show that a `role` event without a color followed by a `turn` event without a payload lets the gate pass (`undefined !== undefined` is false).
- `AppComponent.App.InitPeer`: the async `initPeer` runs to its end before anything else happens. An effect cleanup that interleaves with it, and the stream or listener such an interleaving would leak, are not modelled.
- React's stale closures are not modelled. `onDrop` reads the current cells. The `peer-id` listener reads the role, peer and stream of the run that registered it (`effectRole`, `peerInstance`).
- The server side (session registry, signal relay, move replicator) is not part of this model. None of it is in the client source.
