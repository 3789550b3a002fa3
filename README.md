# Tic-tac-toe WebSocket client: session reducer and connection handling

This project models the client-side logic of a two-player tic-tac-toe client:

- the `Game` component's session record, its initial value and its reducer
  (`SET_STATUS`, `SET_PLAYER_ID`, everything else ignored);
- the connect effect shared by `Game` and `Home`: a socket is created only when
  the reference is empty, and teardown closes it and empties the reference
  (`Game` also dispatches `SET_STATUS CONNECTED` as soon as the socket exists
  and attaches a message handler that dispatches raw payloads);
- the deferred-send rule of `sendMessage`: no socket, nothing happens; an open
  socket sends at once; otherwise a one-shot `open` listener sends later.

Modules:

- `Optional`: `Option`, standing for TypeScript's `null` and `undefined`.
- `Session`: `GameState`, `InitialGameState`, `Action`, `Reduce`. It also has
  `Replay`, the state after a whole sequence of dispatches, and the lemmas
  about both.
- `WebSocket`: the browser socket reduced to its ready state, its pending
  one-shot `open` sends, its log of sent frames and its message listener.
  Each browser primitive is a function on `SocketView`. Class `Socket`
  implements them, and its `OpenEvent` runs the pending listeners in
  registration order.
- `Delivery`: the `sendMessage` rule as a function, `Run` for any sequence of
  sends and socket events, and the exactly-once, in-order and nothing-after-close
  lemmas.
- `HomeComponent`, `GameComponent`: the two components as classes. Each holds
  `socketRef` (and `Game` also holds `gameState`). Their methods are tied to
  the functions above.

Where the repository's design description and its code differ, the model follows the code:

- The code has no `UPDATE_GAME_STATE` or `GAME_MOVE` action, no message codec
  and no `error` field. Inbound payloads reach the reducer raw and are ignored.
- `SET_STATUS` accepts any status from any status. The code enforces no
  forward-only status order.
- Connecting while a socket is held is a silent no-op, not an error.
- `SET_STATUS CONNECTED` is dispatched when the socket is created, not when it
  opens.
- `sendMessage` on a closing or closed socket is not a no-op. It registers an
  `open` listener that never fires, so the frame is never sent.
  `Delivery.ShutDownSendsNothing` states this.
- `close()` does not unregister pending `open` listeners. They are only dead.

## Model

| member | source | states |
|---|---|---|
| `Session.Reduce` | src/components/Game.tsx:52-61 | `SET_STATUS s` sets the status to `s`. `SET_PLAYER_ID p` sets the player id to `p`. No action touches the board, symbol, opponent, game id, turn or winner. An unrecognised payload returns the state unchanged. |
| `Session.InitialGameStateIsBlank` | src/components/Game.tsx:25-38 | The initial state is `NOT_CONNECTED`. All nine cells are null. Symbol, player id, opponent id and game id are null. Turn and winner are undefined. |
| `Session.ReduceIdempotent` | src/components/Game.tsx:54-57 | Dispatching the same action twice equals dispatching it once. |
| `Session.StatusAndPlayerIdCommute` | src/components/Game.tsx:54-57 | `SET_STATUS` and `SET_PLAYER_ID` write disjoint fields, so their order does not matter. |
| `Session.ReplayAppend` | src/components/Game.tsx:65 | Dispatching `a` and then `b` yields the same state as dispatching `a + b`. |
| `Session.ReplayKeepsGame` | src/components/Game.tsx:52-61 | No sequence of dispatches changes the board, symbol, opponent id, game id, turn or winner. |
| `Session.ReplayStatus` | src/components/Game.tsx:54-55 | After any dispatch sequence, the status is the one set by the last `SET_STATUS`. If there was none, it is the starting status. |
| `Session.ReplayPlayerId` | src/components/Game.tsx:56-57 | After any dispatch sequence, the player id is the one set by the last `SET_PLAYER_ID`. If there was none, it is the starting id. |
| `Session.ReplayIgnoresUnrecognised` | src/components/Game.tsx:77-79 | Raw message payloads dispatched in between do not change the outcome of a dispatch sequence. |
| `Session.ReachableStatesHaveNoGame` | src/components/Game.tsx:25-61 | Every state reachable from the initial one keeps the empty board and has no symbol, opponent, game, turn or winner. |
| `WebSocket.Socket.constructor` | src/components/Game.tsx:73 | A new socket is connecting, has no listeners and has sent nothing. |
| `WebSocket.Socket.Send` | src/components/Game.tsx:103 | An open socket appends the frame to its sent log. A closing or closed socket discards it. |
| `WebSocket.Socket.AddOpenListener` | src/components/Game.tsx:97-99 | Appends a one-shot send to the pending list and changes nothing else. |
| `WebSocket.Socket.AddMessageListener` | src/components/Game.tsx:81 | Attaches the message handler and changes nothing else. |
| `WebSocket.Socket.RemoveMessageListener` | src/components/Game.tsx:84 | Detaches the message handler and changes nothing else. |
| `WebSocket.Socket.Close` | src/components/Game.tsx:85 | A connecting or open socket becomes closing. On a closing or closed socket it does nothing. |
| `WebSocket.Socket.OpenEvent` | src/components/Game.tsx:96-99 | The socket becomes open. Every pending one-shot send goes out once, in registration order. Nothing is left pending. |
| `Delivery.SendMessage` | src/components/Game.tsx:90-104 | On an open socket the frame is sent at once. Otherwise nothing is sent now. Either way the frame is sent or pending exactly once, and the ready state is unchanged. |
| `Delivery.DeferredWhileConnecting` | src/components/Home.tsx:26-31 | On a connecting socket the frame is not sent. It is queued behind the earlier pending sends. |
| `Delivery.RunConserves` | src/components/Game.tsx:90-104 | Over any run of sends and socket events, sent log plus pending list equals the earlier contents plus every submitted frame, in submission order. |
| `Delivery.RunKeepsSettled` | src/components/Game.tsx:96-99 | Once a socket is open, no send is ever left pending. |
| `Delivery.RunExtendsSent` | src/components/Game.tsx:90-104 | A frame, once sent, stays in the log. The log only grows at its end. |
| `Delivery.ShutDownSendsNothing` | src/components/Game.tsx:83-87 | After `close()`, or once the connection is gone, no frame is ever sent again and the socket never reopens. |
| `Delivery.QueuedWhileConnecting` | src/components/Home.tsx:26-31 | While the socket is connecting, no sent frame is transmitted. Each one is queued in order. |
| `Delivery.FlushedOnOpen` | src/components/Game.tsx:96-99 | The next `open` sends every queued frame in queue order and leaves none pending. A second `open` would send nothing more. |
| `Delivery.ExactlyOnceInOrder` | src/components/Game.tsx:90-104 | On a new socket, whatever happens, the sent log is a prefix of the submitted frames. The rest are pending. An open socket has sent every submitted frame exactly once, in order. |
| `HomeComponent.Home.constructor` | src/components/Home.tsx:4 | The socket reference starts empty. |
| `HomeComponent.Home.Connect` | src/components/Home.tsx:6-12 | With a socket held, nothing is created and no teardown is registered. With none held, exactly one new connecting socket is created and stored. |
| `HomeComponent.Home.Cleanup` | src/components/Home.tsx:14-17 | Closes the socket the effect created and empties the reference. |
| `HomeComponent.Home.SendMessage` | src/components/Home.tsx:20-34 | With no socket, nothing changes. Otherwise the held socket follows `Delivery.SendMessage`. |
| `HomeComponent.Home.StartGame` | src/components/Home.tsx:41-43 | Always sends the frame `{"type":"START_GAME","payload":{}}` through `SendMessage`. |
| `GameComponent.Game.constructor` | src/components/Game.tsx:64-65 | Empty socket reference and the initial session. |
| `GameComponent.Game.Dispatch` | src/components/Game.tsx:65 | The session becomes the reducer's result for the action. |
| `GameComponent.Game.Connect` | src/components/Game.tsx:68-81 | With a socket held, nothing is created or dispatched. With none held, exactly one socket is created and the message handler attached. The status becomes `CONNECTED` while the socket is still connecting. |
| `GameComponent.Game.OnMessage` | src/components/Game.tsx:77-79 | A raw message payload leaves the session unchanged. |
| `GameComponent.Game.Cleanup` | src/components/Game.tsx:83-87 | Detaches the handler, closes the socket and empties the reference. The session is kept. |
| `GameComponent.Game.SendMessage` | src/components/Game.tsx:90-104 | With no socket, nothing changes. Otherwise the held socket follows `Delivery.SendMessage`. |
| `GameComponent.Game.StartGame` | src/components/Game.tsx:118-120 | Always sends the `START_GAME` frame through `SendMessage`. |
| `GameComponent.Remount` | src/components/Game.tsx:68-88 | Mount, teardown, mount: the second mount creates a second, distinct socket. The first is closing with its handler detached. |

## Left out

- Rendering (the "Connecting..." text, the Start Game buttons and their styling) is presentation.
- `console.log` of the session is logging only.
- The socket URL, the WebSocket wire protocol and `JSON.stringify` are browser and library calls. A frame is an opaque string. The Start Game frame is written out as the text `JSON.stringify` produces.
- React's hook machinery is not modelled: `useRef`, `useReducer`, when effects and teardowns run, and the development-mode double run. A caller invokes `Connect`, `Cleanup` and the socket events in any order it chooses.
- `WebSocket.Socket.Send` requires a socket past the connecting state. The browser throws on a send while connecting, and neither component sends then, so that error path is not modelled.
- `WebSocket.Socket.CloseEvent` stands for the browser's `close` event (connection closed, refused or dropped). The source does not handle it; it appears only so runs can reach the closed state.
- Binary message payloads (`Blob`, `ArrayBuffer`) are modelled as strings. None carries a type the reducer recognises.
- `error` events, `bufferedAmount` and close codes are not modelled; the components do not use them.
- src/routes/index.tsx only registers a route, and the `Header` component it imports is not part of this model.
