/** The screen handlers of src/pong.rs and the dispatch of `pong()`, on values:
    a `World` holds everything the handlers read or write, a `Frame` everything
    a tick takes from outside (keyboard, collision tests, random draws, results
    of the network calls). */
module PongStates {
  import opened Int32
  import opened Wrappers
  import opened Keyboard
  import opened PongTypes
  import opened PongPhysics
  import opened PongMultiplayer

  /** Both paddles, the ball, and the fields of `GameContext` the handlers use;
      `waitingCounter` is the waiting screen's `static mut WAITING_COUNTER`. */
  datatype World = World(left: PaddleView, right: PaddleView, ball: BallView,
                         scoreLeft: i32, scoreRight: i32, state: GameState,
                         menu: MenuState, multiplayer: MultiplayerContext,
                         waitingCounter: nat)

  /** The outside world during one tick: the keyboard; whether the ball's
      rectangle overlaps each paddle's; the draws of `GetRandomValue` for a
      rebound (`bounceX`, `bounceY`) and for a serve (`serveY`); whether
      `srv_connect` manages to open the socket; and the outcomes of
      `srv_get_id` and `srv_get_ctx` (`None` for the `Err` cases). */
  datatype Frame = Frame(keys: Keys, collidesLeft: bool, collidesRight: bool,
                         bounceX: int, bounceY: int, serveY: int,
                         socketOpens: bool, idReply: Option<IdReply>,
                         ctxReply: Option<CtxReply>)

  /** The random draws lie in the ranges passed to `GetRandomValue`, which
      includes both bounds. */
  predicate WellFormedFrame(f: Frame)
  {
    0 <= f.bounceX <= 5 && 0 <= f.bounceY <= 3 &&
    -3 - BALL_SPEED <= f.serveY <= BALL_SPEED + 3
  }

  predicate AllWellFormed(frames: seq<Frame>)
  {
    forall i :: 0 <= i < |frames| ==> WellFormedFrame(frames[i])
  }

  const CENTRE_X: int := RES_WIDTH / 2
  const CENTRE_Y: int := RES_HEIGHT / 2

  /** The objects `pong()` creates before its loop starts. */
  function InitialWorld(): World
  {
    World(PaddleView(0, CENTRE_Y, PADDLE_WIDTH, PADDLE_HEIGHT, Left, Q, A),
          PaddleView(RES_WIDTH, CENTRE_Y, PADDLE_WIDTH, PADDLE_HEIGHT, Right, P, L),
          BallView(CENTRE_X, CENTRE_Y, BALL_WIDTH, BALL_HEIGHT, BALL_SPEED, BALL_SPEED),
          0, 0, Menu, NewGame, NO_MULTIPLAYER, 0)
  }

  /** Ball and paddles back in their starting places; velocities untouched. */
  function Recentred(w: World): World
  {
    w.(ball := w.ball.(posX := CENTRE_X, posY := CENTRE_Y),
       left := w.left.(posY := CENTRE_Y), right := w.right.(posY := CENTRE_Y))
  }

  /** `init_state`: a new match with both scores at zero, straight into play. */
  function InitStep(w: World): (r: World)
    ensures r.scoreLeft == 0 && r.scoreRight == 0 && r.state == Loop
    ensures r.ball == w.ball.(posX := CENTRE_X, posY := CENTRE_Y)
    ensures r.left == w.left.(posY := CENTRE_Y) && r.right == w.right.(posY := CENTRE_Y)
    ensures r.menu == w.menu && r.multiplayer == w.multiplayer && r.waitingCounter == w.waitingCounter
  {
    Recentred(w).(scoreLeft := 0, scoreRight := 0, state := Loop)
  }

  /** After `init_state` the ball and both paddles sit exactly where `pong()`
      first put them. */
  lemma InitStepRestartsMatch(w: World)
    ensures InitStep(w).ball.posX == InitialWorld().ball.posX
    ensures InitStep(w).ball.posY == InitialWorld().ball.posY
    ensures InitStep(w).left.posY == InitialWorld().left.posY
    ensures InitStep(w).right.posY == InitialWorld().right.posY
    ensures InitStep(w).scoreLeft == InitialWorld().scoreLeft
    ensures InitStep(w).scoreRight == InitialWorld().scoreRight
  {
  }

  predicate SomeoneWon(w: World)
  {
    w.scoreLeft >= WINNING_SCORE || w.scoreRight >= WINNING_SCORE
  }

  /** `finished_state`: N quits; otherwise Y starts a new match; otherwise the
      game goes back to play if nobody has reached the winning score, and stays
      put if somebody has. Nothing but the state changes. */
  function FinishedStep(w: World, keys: Keys): (r: World)
    ensures r.(state := w.state) == w
    ensures N in keys.pressed ==> r.state == GameState.Quit
    ensures N !in keys.pressed && Y in keys.pressed ==> r.state == Init
    ensures N !in keys.pressed && Y !in keys.pressed ==>
              r.state == if SomeoneWon(w) then w.state else Loop
  {
    var w1 := if !SomeoneWon(w) then w.(state := Loop) else w;
    if N in keys.pressed then w1.(state := GameState.Quit)
    else if Y in keys.pressed then w1.(state := Init)
    else w1
  }

  /** The screen ENTER leads to from each menu entry (Options leads nowhere). */
  function EnterTarget(m: MenuState, state: GameState): (s: GameState)
    ensures m == MenuState.Quit ==> s == GameState.Quit
    ensures m == NewGame ==> s == Loop
    ensures m == Multiplayer ==> s == Connect
    ensures m == Options ==> s == state
  {
    match m
    case Quit => GameState.Quit
    case NewGame => Loop
    case Multiplayer => Connect
    case Options => state
  }

  /** `menu_state`: DOWN moves the cursor down, otherwise UP moves it up,
      otherwise ENTER acts on the entry under the cursor. Only the cursor and
      the state can change, and never both. */
  function MenuStep(w: World, keys: Keys): (r: World)
    ensures r.(menu := w.menu, state := w.state) == w
    ensures r.menu == w.menu || r.state == w.state
    ensures Down in keys.pressed ==> r.menu == Next(w.menu)
    ensures Down !in keys.pressed && Up in keys.pressed ==> r.menu == Prev(w.menu)
    ensures Down !in keys.pressed && Up !in keys.pressed ==>
              r.menu == w.menu &&
              r.state == if Enter in keys.pressed then EnterTarget(w.menu, w.state) else w.state
  {
    if Down in keys.pressed then w.(menu := Next(w.menu))
    else if Up in keys.pressed then w.(menu := Prev(w.menu))
    else if Enter in keys.pressed then w.(state := EnterTarget(w.menu, w.state))
    else w
  }

  /** `scored_state`: once somebody has the winning score the match is finished
      and nothing else changes. Otherwise the ball and paddles are recentred, the
      ball is served at `BALL_SPEED` in the direction it had (rightward only if it
      was moving right) with vertical speed `serveY`, and the game resumes exactly
      when SPACE is held. Scores, cursor, multiplayer context, counter and the
      fixed fields of paddles and ball stay as they were. */
  function ScoredStep(w: World, serveY: int, spaceHeld: bool): (r: World)
    requires -3 - BALL_SPEED <= serveY <= BALL_SPEED + 3
    ensures SomeoneWon(w) ==> r == w.(state := Finished)
    ensures !SomeoneWon(w) ==>
              r.ball.posX == CENTRE_X && r.ball.posY == CENTRE_Y &&
              r.left.posY == CENTRE_Y && r.right.posY == CENTRE_Y &&
              Abs(r.ball.velocityX) == BALL_SPEED &&
              (r.ball.velocityX > 0 <==> w.ball.velocityX > 0) &&
              r.ball.velocityY == serveY &&
              r.scoreLeft == w.scoreLeft && r.scoreRight == w.scoreRight &&
              r.state == if spaceHeld then Loop else w.state
    ensures !SomeoneWon(w) ==>
              r.left == w.left.(posY := CENTRE_Y) && r.right == w.right.(posY := CENTRE_Y) &&
              r.ball.width == w.ball.width && r.ball.height == w.ball.height &&
              r.(ball := w.ball, left := w.left, right := w.right, state := w.state) == w
  {
    if SomeoneWon(w) then w.(state := Finished)
    else
      var vx := if w.ball.velocityX > 0 then BALL_SPEED else -BALL_SPEED;
      var w1 := Recentred(w).(ball := Recentred(w).ball.(velocityX := vx, velocityY := serveY));
      if spaceHeld then w1.(state := Loop) else w1
  }

  function RallyOf(w: World): Rally
  {
    Rally(w.ball, w.scoreLeft, w.scoreRight, w.state)
  }

  /** The i32 arithmetic of a play tick does not overflow (paddle moves never can). */
  predicate LoopFits(w: World, f: Frame)
  {
    BallUpdateFits(RallyOf(w), w.left.width, HitOf(f.collidesLeft, f.collidesRight), f.bounceX)
  }

  function MovePaddle(p: PaddleView, keys: Keys): PaddleView
  {
    p.(posY := PaddleMove(p.posY, p.height, p.keyUp in keys.down, p.keyDown in keys.down))
  }

  /** `loop_state`: the left paddle, then the right paddle, then the ball update. */
  function LoopStep(w: World, f: Frame): (r: World)
    requires WellFormedFrame(f) && LoopFits(w, f)
    ensures r.left == MovePaddle(w.left, f.keys) && r.right == MovePaddle(w.right, f.keys)
    ensures RallyOf(r) == BallUpdate(RallyOf(w), w.left.width,
                                     HitOf(f.collidesLeft, f.collidesRight), f.bounceX, f.bounceY)
    ensures r.menu == w.menu && r.multiplayer == w.multiplayer && r.waitingCounter == w.waitingCounter
  {
    var rally := BallUpdate(RallyOf(w), w.left.width,
                            HitOf(f.collidesLeft, f.collidesRight), f.bounceX, f.bounceY);
    w.(left := MovePaddle(w.left, f.keys), right := MovePaddle(w.right, f.keys),
       ball := rally.ball, scoreLeft := rally.scoreLeft, scoreRight := rally.scoreRight,
       state := rally.state)
  }

  /** `connect_state`: the multiplayer context is updated and the game always
      moves on to the waiting screen. */
  function ConnectStep(w: World, f: Frame): (r: World)
    requires w.multiplayer.connected || f.socketOpens
    ensures r.state == Waiting
    ensures r.multiplayer == ConnectUpdate(w.multiplayer, f.socketOpens, f.idReply)
    ensures r.(state := w.state, multiplayer := w.multiplayer) == w
  {
    w.(multiplayer := ConnectUpdate(w.multiplayer, f.socketOpens, f.idReply), state := Waiting)
  }

  predicate WaitingSafe(w: World)
  {
    w.waitingCounter < WAITING_CYCLE &&
    (WaitingCounterTick(w.waitingCounter).sendRequest ==> w.multiplayer.connected)
  }

  /** `waiting_state`: the counter advances and, on the ticks that send a context
      request, the reply updates the side. The state never changes: nothing in
      the handler leaves the waiting screen. */
  function WaitingStep(w: World, f: Frame): (r: World)
    requires WaitingSafe(w)
    ensures r.waitingCounter == WaitingCounterTick(w.waitingCounter).counter
    ensures r.multiplayer == if WaitingCounterTick(w.waitingCounter).sendRequest
                             then CtxUpdate(w.multiplayer, f.ctxReply) else w.multiplayer
    ensures r.(waitingCounter := w.waitingCounter, multiplayer := w.multiplayer) == w
  {
    var t := WaitingCounterTick(w.waitingCounter);
    w.(waitingCounter := t.counter,
       multiplayer := if t.sendRequest then CtxUpdate(w.multiplayer, f.ctxReply) else w.multiplayer)
  }

  /** Whether this tick's waiting handler prints that the second player is
      connected: a request went out, got a reply, and both slots are filled. */
  predicate AnnouncesStart(w: World, f: Frame)
    requires w.waitingCounter < WAITING_CYCLE
  {
    WaitingCounterTick(w.waitingCounter).sendRequest && f.ctxReply.Some? &&
    BothPlayersConnected(f.ctxReply.value)
  }

  /** The source's comment at the second-player test says the game can then go
      on to the next state, but the handler only prints: a tick that announces
      the start still leaves the game waiting, with the side derived from that
      very reply. */
  lemma AnnouncedStartStaysWaiting(w: World, f: Frame)
    requires w.state == Waiting && WaitingSafe(w) && AnnouncesStart(w, f)
    ensures WellFormedFrame(f) ==> Tick(w, f).state == Waiting
    ensures WaitingStep(w, f).multiplayer.side ==
              DeriveSide(f.ctxReply.value, w.multiplayer.id, w.multiplayer.side)
  {
  }

  /** The handler for this tick would panic: `srv_connect` failing to open the
      socket, `ws.as_mut().unwrap()` on a missing socket, the message index out
      of range, or an i32 overflow (Rust panics on overflow in a debug build). */
  predicate Panics(w: World, f: Frame)
  {
    match w.state
    case Connect => !w.multiplayer.connected && !f.socketOpens
    case Waiting => !WaitingSafe(w)
    case Loop => !LoopFits(w, f)
    case _ => false
  }

  /** The screen changes the source allows, read off the handlers. */
  function Successors(s: GameState): set<GameState>
  {
    match s
    case Menu => {Menu, Loop, Connect, GameState.Quit}
    case Connect => {Waiting}
    case Waiting => {Waiting}
    case Init => {Loop}
    case Loop => {Loop, Scored}
    case Scored => {Scored, Loop, Finished}
    case Finished => {Finished, Loop, Init, GameState.Quit}
    case Quit => {GameState.Quit}
  }

  /** One pass of the `pong()` loop body: dispatch on the state. */
  function Tick(w: World, f: Frame): (r: World)
    requires WellFormedFrame(f) && !Panics(w, f)
    ensures r.state in Successors(w.state)
    ensures w.state == GameState.Quit ==> r == w
  {
    match w.state
    case Connect => ConnectStep(w, f)
    case Waiting => WaitingStep(w, f)
    case Init => InitStep(w)
    case Loop => LoopStep(w, f)
    case Scored => ScoredStep(w, f.serveY, Space in f.keys.down)
    case Menu => MenuStep(w, f.keys)
    case Finished => FinishedStep(w, f.keys)
    case Quit => w.(state := GameState.Quit)
  }

  /** The `pong()` loop over a sequence of frames: it stops when the frames run
      out (the window closes), when the state is Quit, or at a panic. */
  function Run(w: World, frames: seq<Frame>): (r: World)
    requires AllWellFormed(frames)
    ensures |frames| == 0 || w.state == GameState.Quit ==> r == w
    ensures |frames| > 0 && Panics(w, frames[0]) ==> r == w
    decreases |frames|
  {
    if |frames| == 0 || w.state == GameState.Quit || Panics(w, frames[0]) then w
    else Run(Tick(w, frames[0]), frames[1..])
  }

  /** The paddles, keys and ball size `pong()` sets up; no handler changes them. */
  predicate FixedShapes(w: World)
  {
    w.left.(posY := 0) == PaddleView(0, 0, PADDLE_WIDTH, PADDLE_HEIGHT, Left, Q, A) &&
    w.right.(posY := 0) == PaddleView(RES_WIDTH, 0, PADDLE_WIDTH, PADDLE_HEIGHT, Right, P, L) &&
    w.ball.width == BALL_WIDTH && w.ball.height == BALL_HEIGHT
  }

  /** Scores never pass the winning score, at most one player has it, play and
      the menu only happen below it, and the finished screen only with it. */
  predicate ScoresConsistent(w: World)
  {
    0 <= w.scoreLeft <= WINNING_SCORE && 0 <= w.scoreRight <= WINNING_SCORE &&
    (w.scoreLeft < WINNING_SCORE || w.scoreRight < WINNING_SCORE) &&
    (w.state == Menu || w.state == Loop ==>
       w.scoreLeft < WINNING_SCORE && w.scoreRight < WINNING_SCORE) &&
    (w.state == Finished ==> w.scoreLeft == WINNING_SCORE || w.scoreRight == WINNING_SCORE)
  }

  /** What holds of every world the game loop reaches. */
  predicate Inv(w: World)
  {
    FixedShapes(w) &&
    PaddleInBounds(w.left.posY, w.left.height) && PaddleInBounds(w.right.posY, w.right.height) &&
    Abs(w.ball.velocityY) <= BALL_SPEED + 3 &&
    ScoresConsistent(w) &&
    w.waitingCounter < WAITING_CYCLE &&
    (w.state == Waiting ==> w.multiplayer.connected)
  }

  lemma InitialWorldInv()
    ensures Inv(InitialWorld())
  {
  }

  /** Every handler keeps the invariant. */
  lemma TickKeepsInv(w: World, f: Frame)
    requires Inv(w) && WellFormedFrame(f) && !Panics(w, f)
    ensures Inv(Tick(w, f))
  {
    if w.state == Loop {
      var r := Tick(w, f);
      PaddleMoveKeepsBounds(w.left.posY, w.left.height, Q in f.keys.down, A in f.keys.down);
      PaddleMoveKeepsBounds(w.right.posY, w.right.height, P in f.keys.down, L in f.keys.down);
      assert RallyOf(r) == BallUpdate(RallyOf(w), w.left.width,
                                      HitOf(f.collidesLeft, f.collidesRight), f.bounceX, f.bounceY);
    }
  }

  /** Under the invariant the only ways a tick can panic are a failed connection
      and an overflow in the ball update. */
  lemma InvLimitsPanics(w: World, f: Frame)
    requires Inv(w)
    ensures Panics(w, f) ==>
              (w.state == Connect && !f.socketOpens) || (w.state == Loop && !LoopFits(w, f))
  {
  }

  lemma {:induction false} RunKeepsInv(w: World, frames: seq<Frame>)
    requires Inv(w) && AllWellFormed(frames)
    ensures Inv(Run(w, frames))
    decreases |frames|
  {
    if |frames| > 0 && w.state != GameState.Quit && !Panics(w, frames[0]) {
      TickKeepsInv(w, frames[0]);
      assert AllWellFormed(frames[1..]) by {
        forall i | 0 <= i < |frames[1..]| ensures WellFormedFrame(frames[1..][i]) {
          assert frames[1..][i] == frames[i + 1];
        }
      }
      RunKeepsInv(Tick(w, frames[0]), frames[1..]);
    }
  }

  /** Whatever the frames, the game as `pong()` starts it keeps the invariant:
      no score ever exceeds the winning score, and when the finished screen shows,
      `get_winner` names the one player who reached it. */
  lemma GameKeepsInv(frames: seq<Frame>)
    requires AllWellFormed(frames)
    ensures Inv(Run(InitialWorld(), frames))
    ensures var w := Run(InitialWorld(), frames);
            w.state == Finished ==>
              (GetWinner(w.scoreLeft) == "One" <==> w.scoreLeft == WINNING_SCORE && w.scoreRight < WINNING_SCORE) &&
              (GetWinner(w.scoreLeft) == "Two" <==> w.scoreRight == WINNING_SCORE && w.scoreLeft < WINNING_SCORE)
  {
    InitialWorldInv();
    RunKeepsInv(InitialWorld(), frames);
  }

  /** Quit is final: the loop does not run once the state is Quit. */
  lemma RunStopsAtQuit(w: World, frames: seq<Frame>)
    requires AllWellFormed(frames) && w.state == GameState.Quit
    ensures Run(w, frames) == w
  {
  }

  /** Once on the waiting screen the game stays there: no frame sequence leads
      out of it. */
  lemma {:induction false} WaitingNeverEnds(w: World, frames: seq<Frame>)
    requires AllWellFormed(frames) && w.state == Waiting
    ensures Run(w, frames).state == Waiting
    decreases |frames|
  {
    if |frames| > 0 && !Panics(w, frames[0]) {
      assert AllWellFormed(frames[1..]) by {
        forall i | 0 <= i < |frames[1..]| ensures WellFormedFrame(frames[1..][i]) {
          assert frames[1..][i] == frames[i + 1];
        }
      }
      WaitingNeverEnds(Tick(w, frames[0]), frames[1..]);
    }
  }
}
