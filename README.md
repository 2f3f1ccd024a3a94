# Verified model of the paddle game's integer logic

This project models the game logic of "Safe Pong in RUST", a two-player paddle
game on raylib, and proves properties of that model in Dafny. It covers:

- the screen-state machine of `src/pong.rs`, with states Menu, Connect, Waiting,
  Init, Loop, Scored, Finished and Quit, and the `pong()` loop that dispatches on
  the current state;
- the main-menu cursor;
- the per-tick physics of the paddles and the ball, all in `i32`;
- the match end, with `get_winner`;
- the multiplayer bookkeeping the client does itself: the id and session kept
  by `connect_state`, the side and two-player test derived in `waiting_state`,
  and the waiting screen's frame counter;
- the earlier single-file prototype `src/main.rs`, with its simpler paddle and
  four-wall ball bounce.

## Layout

- `int32.dfy`: the helper modules `Int32`, `Wrappers` and `Keyboard`.
  - `i32` and `u32` are subset types, so every assignment is checked for overflow.
  - `Half` models Rust's truncating `x / 2`.
  - `Keyboard` lists the keys the game queries.
- `pong_types.dfy` (`PongTypes`): constants, `GameState`, `MenuState` with
  `next` and `prev`, `ScreenSide` and `get_winner`.
- `pong_physics.dfy` (`PongPhysics`): `Paddle::update` and `Ball::update` on values.
- `pong_multiplayer.dfy` (`PongMultiplayer`): id and session capture, side
  derivation, the two-player test and the waiting counter.
- `pong_states.dfy` (`PongStates`): everything the handlers read and write.
  - A `World` value holds that state; a `Frame` holds one tick's input from outside.
  - There is one function per screen handler.
  - `Tick` is one pass of the `pong()` loop and `Run` is the whole loop.
  - `Inv` is the invariant every reached world satisfies.
- `pong_game.dfy` (`PongGame`): the source's mutable objects.
  - The classes are `Paddle`, `Ball` and `GameContext`.
  - There is one method per handler, plus `Dispatch` and `Pong`.
  - Every method is proved to change the objects exactly as the matching
    `PongPhysics` or `PongStates` function changes a `World`.
- `prototype.dfy` (`Prototype`): `src/main.rs`, with its own classes and its
  update loop.

## Modelling decisions

- **Outside inputs.** Keyboard state, the two rectangle-collision tests, and
  the results of `GetRandomValue` arrive as inputs. Each random draw is a number
  in the range the source asks for, bounds included: 0..5 and 0..3 for a
  rebound, -13..13 for a serve. In `src/pong.rs` these come in a `Frame`. In
  `src/main.rs` a frame is the set of keys held.
- **Network results.** The websocket calls are replaced by their outcomes:
  - whether `srv_connect` opened the socket;
  - `srv_get_id` as an optional `(id, session)`;
  - `srv_get_ctx` as an optional `(left_id, right_id)`, the only two reply
    fields the client reads.
- **Integer overflow.** Rust panics on `i32` overflow in a debug build. Each
  method requires that its arithmetic fits, with the condition stated branch by
  branch. `Run` and `Pong` stop at a tick whose handler would panic. The
  predicate `Panics` lists every such tick:
  - an overflow in the ball update;
  - `srv_connect` failing to open the socket;
  - `unwrap` on a missing socket;
  - a waiting-message index out of range.

  Under the invariant, only a connection failure or a ball-update overflow can
  happen (`InvLimitsPanics`). In the prototype, overflow can never happen: the
  ball stays within one step of the field (`BallInv`).
- **The waiting counter.** The source keeps it as a `static mut` inside
  `waiting_state`. The model keeps it as a `GameContext` field that starts at 0.
- **Fixed fields.** Fields the source never changes after construction are
  `const` fields here: paddle `pos_x`, `width`, `height`, side and keys, and ball
  `width` and `height`.
- **The end of input.** The end of the frame sequence stands for
  `window_should_close()`.

## What the waiting screen promises and what it does

The comment at `src/pong.rs:506-507` says that once both players have ids other
than `0xFFFFFFFF` the game may move on to the next screen. The code at lines
518-519 only prints a line, and no handler ever moves the game off the waiting
screen. The model follows the code as written:
- `AnnouncedStartStaysWaiting`: a tick that announces the start leaves the
  state at Waiting.
- `WaitingNeverEnds`: no sequence of frames leads away from the waiting screen.
- There is no multiplayer playing state to model, since the source defines
  none; `GameState` has no such variant (lines 32-42).

Two more consequences of the code as written:
- `connect_state` overwrites the id and session on every successful id request
  (`ConnectUpdate`).
- The side is re-derived from every context reply, so it can change when the
  reply's ids change (`DeriveSide`).

## Model

| member | source | states |
|---|---|---|
| Int32.Half | src/pong.rs:141 | `i32` division by two truncates toward zero: the remainder has the sign of the dividend and is less than 2 in size |
| PongTypes.Ordinal | src/pong.rs:44-51 | the derived order of `MenuState` numbers the four entries 0 to 3, top to bottom |
| PongTypes.Next | src/pong.rs:54-61 | `next` moves the cursor one entry down the menu, wrapping from Quit to NewGame (ordinal + 1 mod 4) |
| PongTypes.Prev | src/pong.rs:63-70 | `prev` moves the cursor one entry up, wrapping from NewGame to Quit (ordinal + 3 mod 4) |
| PongTypes.NextPrevInverse | src/pong.rs:54-70 | `prev` undoes `next`, and `next` undoes `prev` |
| PongTypes.NextIterOrdinal | src/pong.rs:54-61 | pressing DOWN k times advances the ordinal by k mod 4 |
| PongTypes.NextCycle | src/pong.rs:54-61 | k presses of DOWN land where k mod 4 presses do; four presses return to the starting entry |
| PongTypes.GetWinner | src/pong.rs:224-234 | the winner is "One" exactly when the left score equals the winning score 10, otherwise "Two" |
| PongPhysics.PaddleMove | src/pong.rs:136-147 | holding both keys keeps `pos_y`; otherwise it moves by exactly 8 or not at all, up exactly when up alone is held and `pos_y > height/2`, down exactly when down alone is held and `pos_y < 720 - height/2` |
| PongPhysics.PaddleMoveKeepsBounds | src/pong.rs:141-145 | `height/2 - 8 <= pos_y <= 720 - height/2 + 8` is preserved by every paddle move |
| PongPhysics.HitOf | src/pong.rs:172-181 | the left paddle is checked first, so the left paddle wins when the ball touches both |
| PongPhysics.Rebound | src/pong.rs:171-189 | a rebound shifts `pos_x` by the given amount and `pos_y` by `velocity_y`; new `velocity_x` is `-(velocity_x + r)`; new `velocity_y` has size `10 + r2` and is negative exactly when the old one was |
| PongPhysics.BallFlight | src/pong.rs:192-202 | the position advances by the velocity; `velocity_y` is negated when the new `pos_y` is on or past a margin and kept otherwise; afterwards `height/2 <= pos_y <= 720 - height/2` (for any height below the screen's) |
| PongPhysics.Scoring | src/pong.rs:204-212 | past the left edge the right score rises by one; otherwise past the right edge the left score does; a score negates `velocity_x` and sets Scored; otherwise nothing changes |
| PongPhysics.BallUpdate | src/pong.rs:169-221 | `Ball::update` is the left rebound (shift by the left paddle's width), else the right rebound (shift back by the ball's width), else flight then scoring; rebounds leave scores and state alone; at most one score changes, by exactly one, and the state becomes Scored exactly then |
| PongPhysics.ReboundSpeedChange | src/pong.rs:177-186 | the rebound formula adds speed on the right paddle but takes it away on the left paddle, so a slow ball can still be moving left after a left rebound |
| PongMultiplayer.ConnectUpdate | src/pong.rs:461-476 | after `connect_state` the socket exists; id and session are replaced exactly when the id request succeeded; the side is untouched |
| PongMultiplayer.DeriveSide | src/pong.rs:510-517 | the side becomes Left when `left_id` is ours, else Right when `right_id` is ours, else stays; Left wins when both match |
| PongMultiplayer.DeriveSideSettles | src/pong.rs:510-517 | deriving twice from one reply is the same as once, and a reply naming us in exactly one slot gives that side whatever came before |
| PongMultiplayer.BothPlayersConnected | src/pong.rs:518 | the second-player test: neither id slot of the reply holds the `u32::MAX` sentinel |
| PongMultiplayer.CtxUpdate | src/pong.rs:501-521 | a failed context request changes nothing; a reply changes only the side, as `DeriveSide` gives it |
| PongMultiplayer.WaitingCounterTick | src/pong.rs:487-498 | the message index `counter/60` is below 3; the counter stays in [0, 180), wraps to 0 only from 179 and otherwise increments; a request is due exactly when the new counter is a multiple of 60 |
| PongMultiplayer.CounterAfter | src/pong.rs:493-494 | the counter after any number of waiting ticks is in [0, 180) |
| PongMultiplayer.CounterAfterIsTicksMod | src/pong.rs:494 | after n waiting ticks the counter is n mod 180 |
| PongMultiplayer.RequestsOncePerMessage | src/pong.rs:494-502 | after n waiting ticks exactly n/60 context requests have been sent: one per second at 60 frames per second |
| PongStates.InitStep | src/pong.rs:236-245 | `init_state` centres the ball and both paddles (only their positions change), zeroes both scores, sets Loop, and keeps the velocities, menu, multiplayer context and counter |
| PongStates.InitStepRestartsMatch | src/pong.rs:236-245 | after `init_state`, ball, paddles and scores are where `pong()` first put them |
| PongStates.FinishedStep | src/pong.rs:247-260 | only the state changes: N gives Quit; otherwise Y gives Init; otherwise Loop if neither score has reached 10, and no change if one has |
| PongStates.EnterTarget | src/pong.rs:291-302 | ENTER on Quit quits, on NewGame plays, on Multiplayer connects, on Options does nothing |
| PongStates.MenuStep | src/pong.rs:281-302 | DOWN moves the cursor with `next`; otherwise UP moves it with `prev`; otherwise ENTER sets the state per `EnterTarget`; only cursor and state change, never both |
| PongStates.ScoredStep | src/pong.rs:318-346 | with a score at 10 only the state changes, to Finished; otherwise ball and paddles are centred, the ball is served at speed 10 in its old direction (right only if it was moving right) with `velocity_y` the draw in -13..13, and the state becomes Loop exactly when SPACE is held; scores, cursor, multiplayer context, counter and the fixed fields of paddles and ball are kept |
| PongStates.LoopStep | src/pong.rs:348-351 | a play tick moves the left paddle, then the right one, each by its own keys, then applies `Ball::update` |
| PongStates.ConnectStep | src/pong.rs:461-476 | `connect_state` always ends in Waiting and changes only the multiplayer context and the state |
| PongStates.WaitingStep | src/pong.rs:486-522 | `waiting_state` advances the counter and, only on request ticks, folds the context reply into the side; nothing else changes, the state included |
| PongStates.AnnouncesStart | src/pong.rs:495-520 | the "second player connected" line is printed exactly on a request tick whose context request got a reply that passes the second-player test |
| PongStates.AnnouncedStartStaysWaiting | src/pong.rs:506-520 | a tick that announces the start still leaves the game on the waiting screen, with the side derived from that reply: the comment's "proceed to the next state" has no code behind it |
| PongStates.Panics | src/pong.rs:400-502 | a tick panics when, on the connect screen, `srv_connect` cannot open the socket (the `unwrap`s at lines 402-403); on the waiting screen, the counter is outside the message table (line 493) or a request is due without a socket (the `unwrap` at line 502); or in play, an `i32` operation of `Ball::update` (lines 169-212) overflows |
| PongStates.Tick | src/pong.rs:593-603 | each pass of the loop moves to one of the screens its handler can lead to; Quit (the `_` arm) stays Quit |
| PongStates.Run | src/pong.rs:593-604 | the `while` loop of `pong()`, one `Tick` per frame: with no frames left (the window closed) or the state Quit it changes nothing, and it stops without change at a tick that would panic |
| PongStates.InitialWorld | src/pong.rs:541-589 | the paddles (left at x 0 with Q/A, right at x 1280 with P/L, both 40 by 200 and centred), the centred 40 by 40 ball moving at (10, 10), and the context with scores 0, Menu, cursor NewGame, no multiplayer socket and counter 0 |
| PongStates.InitialWorldInv | src/pong.rs:541-589 | the objects `pong()` creates satisfy the game invariant |
| PongStates.TickKeepsInv | src/pong.rs:593-603 | every handler preserves the invariant: fixed shapes, paddles in bounds, `velocity_y` size at most 13, scores in [0, 10] and never both 10, play and menu only below 10, Finished only with a 10, an in-range counter, a socket while waiting |
| PongStates.InvLimitsPanics | src/pong.rs:593-603 | under the invariant a tick can only panic by a failed connection or an overflow in the ball update |
| PongStates.RunKeepsInv | src/pong.rs:593-604 | the invariant holds after any number of loop passes |
| PongStates.GameKeepsInv | src/pong.rs:228-234 | in every game `pong()` can play the invariant holds, and on the finished screen `get_winner` names the one player with 10 points |
| PongStates.RunStopsAtQuit | src/pong.rs:593 | the loop does nothing once the state is Quit |
| PongStates.WaitingNeverEnds | src/pong.rs:486-528 | from the waiting screen no sequence of frames leads anywhere else |
| PongGame.Paddle.constructor | src/pong.rs:541-560 | a paddle is created with the given fields |
| PongGame.Paddle.Update | src/pong.rs:136-147 | `Paddle::update` changes `pos_y` exactly as `PaddleMove` says, nothing else, and returns the game state |
| PongGame.Ball.constructor | src/pong.rs:561-569 | a ball is created with the given fields |
| PongGame.Ball.Bounce | src/pong.rs:171-189 | the rebound lines change the ball exactly as `Rebound` says |
| PongGame.Ball.Fly | src/pong.rs:192-202 | the flight and wall-bounce lines change the ball exactly as `BallFlight` says |
| PongGame.Ball.Update | src/pong.rs:169-221 | `Ball::update` changes the ball, the scores and the state exactly as `BallUpdate` says, leaves the rest of the context alone and returns the state |
| PongGame.GameContext.constructor | src/pong.rs:577-588 | the context starts with scores 0, state Menu, cursor NewGame, no socket, ids 0, no side and counter 0 |
| PongGame.InitState | src/pong.rs:236-245 | the method updates the objects as `InitStep` |
| PongGame.FinishedState | src/pong.rs:247-260 | the method updates the objects as `FinishedStep` |
| PongGame.MenuScreen | src/pong.rs:273-302 | `menu_state` updates the objects as `MenuStep` |
| PongGame.ScoredState | src/pong.rs:318-346 | the method updates the objects as `ScoredStep` |
| PongGame.LoopState | src/pong.rs:348-351 | the method updates the objects as `LoopStep` |
| PongGame.ConnectState | src/pong.rs:461-476 | the method updates the objects as `ConnectStep` |
| PongGame.WaitingState | src/pong.rs:486-522 | the method updates the objects as `WaitingStep`, and reports "second player connected" exactly when a request tick got a reply with both ids other than `u32::MAX` |
| PongGame.Dispatch | src/pong.rs:594-603 | the `match` on the state updates the objects as `Tick` |
| PongGame.Pong | src/pong.rs:530-605 | `pong()` leaves the objects as `Run` from the initial world, so they satisfy the game invariant |
| Prototype.PaddleMove | src/main.rs:41-51 | holding both keys keeps `pos_y`; otherwise it moves by exactly 5 or not at all, up exactly when up alone is held and `pos_y > height/2`, down exactly when down alone is held and `pos_y < 720 - height/2` |
| Prototype.PaddleAfter | src/main.rs:124-126 | a run of paddle updates changes only `pos_y` |
| Prototype.PaddleAfterKeepsBounds | src/main.rs:46-50 | a paddle that starts within 5 of the margins stays within 5 of them, whatever is pressed |
| Prototype.BallMove | src/main.rs:73-84 | the position advances by exactly the velocity; each velocity component is negated exactly when the new position on its axis is strictly outside the margins, so both speeds are kept |
| Prototype.AxisStep | src/main.rs:74-83 | on each axis, being at most one step outside the margins and already heading back in is preserved by a move |
| Prototype.BallMoveKeepsInv | src/main.rs:73-84 | a ball near the field stays near it, so its `i32` arithmetic cannot overflow |
| Prototype.BallAfter | src/main.rs:124-127 | after any number of frames the ball is still near the field with both speeds unchanged |
| Prototype.Paddle.constructor | src/main.rs:95-114 | a paddle is created with the given fields |
| Prototype.Paddle.Update | src/main.rs:41-51 | `Paddle::update` changes the paddle as `PaddleMove` says and nothing else |
| Prototype.Ball.constructor | src/main.rs:115-123 | a ball is created with the given fields |
| Prototype.Ball.Update | src/main.rs:73-84 | `Ball::update` changes the ball as `BallMove` says |
| Prototype.UpdateAll | src/main.rs:125-127 | one pass of the loop moves each paddle as `PaddleMove` says and the ball as `BallMove` says |
| Prototype.RunPrototype | src/main.rs:87-137 | `main` leaves each paddle as `PaddleAfter` gives it, in bounds, and the ball as `BallAfter` gives it, still moving at speed 10 on both axes |

## Left out

- Rendering is not modelled: the `draw` methods, `begin_drawing`,
  `clear_background`, `draw_text`, `measure_text`, `draw_fps` and the
  `BTreeMap` of menu labels. These are raylib GUI calls. The waiting message is
  chosen but not drawn.
- Audio is not modelled: `PlaySound`, `LoadSound`, the audio-device set-up and
  `GameAssets`. These are foreign side effects.
- `rect()`, `check_collision_recs` and `PADDLE_OFFSET` are not modelled. They
  compute `f32` rectangles inside raylib, so the two collision results come in
  as booleans.
- `GetRandomValue` is foreign code. Its results come in as numbers within the
  requested ranges.
- Colours, `is_key_down` and `is_key_pressed` come from raylib. Key state comes
  in as sets of keys.
- `srv_connect`, `srv_get_id` and `srv_get_ctx` are websocket and TLS I/O. Only
  their outcomes are modelled, plus the panic when the socket does not open.
  - The greeting exchange inside `srv_connect` only logs, so it is left out.
  - The panics from `unwrap` on a malformed server frame, inside these
    functions, are not modelled.
- `proto_hello_msg`, `proto_id_req_msg` and `proto_ctx_req_msg` are not
  modelled. They wrap the generated `protos` code, which is not part of this
  model.
- `println!` logging is left out.
- The window set-up, `set_target_fps` and `window_should_close` are left out.
  The end of the frame sequence stands for the window closing.
- Some parameters the code never uses are left out: `_player` and `_ball` of
  `Paddle::update`. `player_right` of `Ball::update` appears only in the
  collision test and is left out too.
- Ball.Update: release-mode `i32` wrap-around is not modelled. Overflow is
  treated as the debug-build panic that ends the game, via a precondition on
  the method and a stop in `Run`.
- backend/main.go is a minimal HTTP server with no game logic, so it is left out.
