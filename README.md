# Connect Four relay: session registry and connection handlers

This project models the WebSocket relay of a Connect Four game (`app.py`). A
first player's connection starts a game. It is given two capability tokens:
one lets a second player join, the other lets spectators watch. Every accepted
move is broadcast to every connection attached to the game, and a connection
that arrives late is first sent a replay of the moves so far.

The model has four modules:

- `Connect4` (`engine.dfy`) is what the relay sees of the rule engine. A
  move's outcome, `Verdict`, is either `Accepted(row, won)` or
  `Rejected(message)`. An accepted move is appended to the engine's ordered
  history.
- `Events` (`events.dfy`) holds the four events the relay sends (`init`,
  `play`, `win`, `error`), the events a replay sends, and the dispatch on a
  connection's first message. It also defines `Plays`, the `play` events of a
  stream, which is what a client needs to rebuild the board.
- `App` (`app.dfy`) is the process state. A `Server` object holds:
  - `JOIN` and `WATCH` as maps from token to session id;
  - every session created so far (its engine, its `connected` set and the two
    tokens it was registered under);
  - where each connection's handler is;
  - the events sent to each connection so far, which stand in for
    `websocket.send`.

  Each handler step is one method, run atomically:
  - the first message (`Handler`, via `Start`, `Join`, `Watch`);
  - one message of the move loop (`HandleMove`);
  - the closing of a connection (`Close`, the `finally` blocks).

  `broadcast` and `replay` are loops, one send per iteration (`Broadcast`,
  `Replay`). Every method keeps the invariant `Valid()`, which has three parts:
  - **registry**: every token leads to the session registered under it, and a
    session is reachable under both of its tokens or under neither;
  - **membership**: a connection is in a session's `connected` set exactly
    while its handler is attached to that session, and a creator still in its
    move loop has its session registered;
  - **history**: every attached connection has been sent exactly its session's
    move history as `play` events, in order, whether it saw the moves live or
    in a replay.
- `Walkthrough` (`walkthrough.dfy`) contains two concrete runs on a fresh
  process, each with the exact events every connection has been sent.

## Model

| member | source | states |
|---|---|---|
| Connect4.Apply | app.py:26-34 | An accepted move appends exactly `(player, column, row)` to the history, with the row the engine returned, and sets the won flag the engine reported. A rejected move leaves the engine unchanged. |
| Events.ReplayEvents | app.py:85-93 | The replay has one `play` event per recorded move, in history order, and each event carries that move's `(player, column, row)`. |
| Events.ReplayEventsSnoc | app.py:86-93 | Replaying one more move adds exactly one `play` event, at the end. |
| Events.Plays | app.py:32-36 | The `play` events of a stream are no more than the stream and are all `play` events. |
| Events.PlaysMembers | app.py:32-36 | An event is among the `play` events of a stream if and only if it was sent in that stream and is a `play` event: the filter keeps every `play` event and drops every other event. |
| Events.PlaysAppend | app.py:22-36 | Taking the `play` events of two streams sent one after the other gives the concatenation of their `play` events. |
| Events.PlaysOfReplay | app.py:85-93 | A replay consists of `play` events only. |
| Events.PlaysAfterMove | app.py:32-36 | A client that was in step with the history is still in step after being sent one more move's `play` event and possibly a `win`. |
| Events.Dispatch | app.py:127-134 | Join is chosen if and only if a `join` key is present, so `join` wins when both keys are present. Watch is chosen if and only if there is no `join` key but there is a `watch` key. Start is chosen if and only if there is neither. The chosen flow carries the key that was sent. |
| App.Post | app.py:29 | One send: the target receives the event after what it already had, and every other connection receives nothing. |
| App.SendAll | app.py:86-93 | Several sends to one connection: it receives exactly those events, in order, and nobody else receives anything. |
| App.SendAllSnoc | app.py:86-93 | Sending the events one by one is the same as sending them all at once. |
| App.Delivered | app.py:16-18 | A broadcast: every member of the target set receives the event exactly once, after what it already had, and no other connection receives anything. |
| App.DeliverOneMore | app.py:17-18 | Sending to one more, not yet served member extends a broadcast to that member, whichever member is taken next. |
| App.Broadcast | app.py:16-18 | The loop that sends to each member of `connected` in turn delivers exactly the broadcast `Delivered` describes. |
| App.Replay | app.py:85-93 | The loop that sends one `play` event per move sends the connection exactly the replay, and sends nothing to anybody else. |
| App.Announce | app.py:25-36 | A rejected move sends its message to the sender only. An accepted move sends `play` with the engine's row to every member of `connected`, followed by `win` if and only if the move won, and sends nothing to anyone else. |
| App.RegistryAfterStart | app.py:44-47 | Registering a new session under two new tokens keeps the registry consistent, makes the new session reachable, and changes no other session's registration. |
| App.RegistryAfterDelete | app.py:62-63 | Deleting a session's two tokens keeps the registry consistent, makes that session unreachable, and changes no other session's registration. |
| App.RegistryAfterUpdate | app.py:76 | Changing a session's engine or `connected` set keeps the registry consistent and changes no session's registration. |
| App.HistoryAfterMove | app.py:32-36 | After a move, every attached connection is still in step with its session's history. |
| App.InSyncAfterMove | app.py:25-36 | A connection that was in step with its session's history and is attached is still in step after one message of the move loop, whatever the engine answered. |
| App.MembershipAfterGameUpdate | app.py:26 | Recording a move changes no connection's membership. |
| App.MoveKeepsValid | app.py:21-36 | One message of the move loop keeps the whole invariant. |
| App.MembershipAfterClose | app.py:60-63 | Removing a closing connection from `connected`, and deleting its session's tokens when it is the creator, keeps membership consistent. |
| App.HistoryAfterClose | app.py:82-83 | Closing sends nothing, and every remaining connection stays in step with its history. |
| App.CloseKeepsValid | app.py:60-63 | Every `finally` block keeps the invariant, and a closing creator's tokens are present until it leaves. |
| App.MembershipAfterStart | app.py:41-47 | Registering a new session whose `connected` set is `{creator}`, with the creator entering its move loop, keeps membership consistent. |
| App.HistoryAfterStart | app.py:52-58 | A new creator that has been sent only its `init` event is in step with the empty history, and every other connection stays in step. |
| App.StartKeepsValid | app.py:41-58 | `start` under two new tokens keeps the whole invariant. |
| App.MembershipAfterAttach | app.py:76 | Adding a new connection to a session's `connected` set, as a second player or a spectator, keeps membership consistent. |
| App.InSyncAfterAttach | app.py:108-110 | A new connection that is sent its session's replay is in step with the history, and any other connection is as much in step as it was. |
| App.HistoryAfterAttach | app.py:76-78 | After `connected.add` and the replay, every attached connection is in step with its session's history. |
| App.AttachKeepsValid | app.py:108-110 | `connected.add` followed by a replay keeps the invariant. The new connection is in step with the history from the start. |
| App.LeavingUndoesJoining | app.py:108-115 | A connection that joins a session and then leaves it restores the session's `connected` set exactly. |
| App.NotFoundKeepsValid | app.py:97-105 | Answering "game not found" keeps the invariant. |
| App.Server.constructor | app.py:13-14 | The process starts with empty `JOIN` and `WATCH` and no connections, and the invariant holds. |
| App.Server.BothOrNeither | app.py:45-47 | A session is reachable under a join token if and only if it is reachable under a watch token, and only under its own tokens. |
| App.Server.SameObservedHistory | app.py:108-112 | Two connections attached to the same session have been sent the same `play` events in the same order, however late one of them arrived. |
| App.Server.Start | app.py:41-58 | The connected set is exactly `{creator}`. The same session is registered under the new join token in `JOIN` and the new watch token in `WATCH`. The creator is sent one `init` event carrying both tokens and enters the move loop as PLAYER1. |
| App.Server.Attach | app.py:76-78 | The connection is added to the session's `connected` set and sent the replay. The registry and all other sessions are unchanged. |
| App.Server.Join | app.py:95-112 | Only `JOIN` is consulted. An unknown token sends exactly one "game not found" and changes no registry map and no `connected` set. Otherwise the connection attaches and enters the move loop as PLAYER2. |
| App.Server.Watch | app.py:65-80 | Only `WATCH` is consulted. An unknown token sends exactly one "game not found" and changes nothing else. Otherwise the connection attaches as a spectator. |
| App.Server.Handler | app.py:121-134 | The first message selects `join`, `watch` or `start` as `Dispatch` states, and the resulting state is that flow's. |
| App.Server.HandleMove | app.py:21-36 | The engine records the move, and the sends are exactly what `Announce` describes. `JOIN`, `WATCH` and every handler are untouched because they are outside the frame, and the invariant is kept. |
| App.Server.Close | app.py:60-63 | The connection leaves its session's `connected` set and nobody is sent anything. A creator's two tokens are deleted even if others are still attached. Any other connection leaves `JOIN` and `WATCH` untouched. |
| App.Server.StartThenLeave | app.py:41-63 | A creator that leaves before anybody joins deletes exactly the two tokens `start` registered. `JOIN` and `WATCH` are then as they were before, the new session has nobody connected, the creator's handler has returned, it was sent only its `init` event, and the invariant holds. |
| Walkthrough.TurnedAway | app.py:97-105 | An unknown join token, including a watch token, yields exactly one "game not found". Nothing else changes except that the connection's handler returned. |
| Walkthrough.TwoPlayersAndASpectator | app.py:121-134 | In a concrete run, the creator, the second player and a late spectator end with exactly the expected `init` and `play` events. A garbage token and a watch token used to join each yield "game not found". |
| Walkthrough.CreatorLeaves | app.py:60-63 | A rejected move reaches its sender only. After the creator leaves, both tokens answer "game not found" while the second player is still in its move loop. |

## Left out

- Transport: `serve`, `recv`, `wait_closed`, `async for` over a connection and `main` (app.py:163-169). Each send appends to the target's outbox. Sends never fail.
- Concurrency: each handler step is one atomic transition. The interleavings of concurrent handlers, and of a broadcast with a concurrent `connected.add` or `remove`, are not modelled.
- Broadcast order: the model does not fix the order in which a broadcast reaches the members of a set. No connection can observe it, because each connection sees only its own stream.
- JSON: `json.loads`/`json.dumps` and `int(event["column"])` are not modelled; events are a datatype. A move message without an integer `column` raises outside the `try`. It ends that connection's handler, which the model has as `Close`.
- The `assert event["type"] == "init"` (app.py:125): the first message is always an `init` (`Hello`).
- Token randomness (`secrets.token_urlsafe`, app.py:44 and app.py:46): the tokens are parameters of `Start` and `Handler`. Their freshness is a precondition, because the source never checks for a collision.
- The Connect Four rules: the `connect4` module is not part of this model. The engine's answer to each move is the `Verdict` parameter of `HandleMove`. Turn order and full columns are the engine's business.
- `player_selector` (app.py:117-119) only prints and returns a constant. The single-connection `handler` inside the string literal (app.py:139-159) is dead code.
- Spectators: a spectator's inbound messages are never read, because `watch` only waits for the close. So `HandleMove` requires a handler in a move loop.
- Sessions are never removed from `sessions`. A session whose tokens were deleted stays in place while connections are still attached to it, as the Python objects do.

## Notes on the source

- The `del JOIN[join_key]` and `del WATCH[watch_key]` of a leaving creator cannot fail. `CloseKeepsValid` shows that both tokens are still registered at that point.
- Any number of connections may join with the same join token, and each of them plays as PLAYER2. `join` never checks whether a second player is already attached, and neither does the model.
- Broadcast awaits each send in turn, so a slow peer delays the others, and a failing send raises out of the move loop and ends the sender's handler. There is no independent, best-effort send per target. The model follows the code, with sends that never fail.
- `join` and `watch` add the new connection to `connected` (app.py:76, app.py:108) before they `await replay` (app.py:78, app.py:110). While a replay send is suspended, a move by a player can broadcast to the newcomer, so a live `play` event can arrive in the middle of its replay or ahead of earlier moves. The client then sees the moves out of history order. The model runs `Attach` as one atomic step, so `HistoryValid` and `SameObservedHistory` hold only for runs without such an interleaving.
- When the creator leaves, the remaining connections are not told. They stay attached and can still move, but nobody new can reach the session.
