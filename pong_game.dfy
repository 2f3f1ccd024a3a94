/** The game objects of src/pong.rs as the source has them: a `Paddle`, a `Ball`
    and a `GameContext` whose fields the handlers update in place, the handlers
    themselves, and the `pong()` loop. Each method is proved to do to the objects
    what the corresponding function of PongPhysics or PongStates does to values. */
module PongGame {
  import opened Int32
  import opened Wrappers
  import opened Keyboard
  import opened PongTypes
  import opened PongPhysics
  import opened PongMultiplayer
  import opened PongStates

  class Paddle {
    const posX: i32
    var posY: i32
    const width: i32
    const height: i32
    const side: ScreenSide
    const keyUp: Key
    const keyDown: Key

    constructor (posX: i32, posY: i32, width: i32, height: i32, side: ScreenSide,
                 keyUp: Key, keyDown: Key)
      ensures View() == PaddleView(posX, posY, width, height, side, keyUp, keyDown)
    {
      this.posX, this.posY, this.width, this.height := posX, posY, width, height;
      this.side, this.keyUp, this.keyDown := side, keyUp, keyDown;
    }

    function View(): PaddleView
      reads this
    {
      PaddleView(posX, posY, width, height, side, keyUp, keyDown)
    }

    /** `Paddle::update`, given the keys held this frame; hands back the game
        state untouched. */
    method Update(down: set<Key>, game: GameContext) returns (st: GameState)
      modifies this
      ensures View() == old(View()).(posY := PaddleMove(old(posY), height, keyUp in down, keyDown in down))
      ensures st == game.state
    {
      if keyDown in down && keyUp in down {
        return game.state;
      }
      if posY > Half(height) && keyUp in down {
        posY := posY - PADDLE_SPEED;
      } else if posY < RES_HEIGHT - Half(height) && keyDown in down {
        posY := posY + PADDLE_SPEED;
      }
      st := game.state;
    }
  }

  class Ball {
    var posX: i32
    var posY: i32
    const width: i32
    const height: i32
    var velocityX: i32
    var velocityY: i32

    constructor (posX: i32, posY: i32, width: i32, height: i32, velocityX: i32, velocityY: i32)
      ensures View() == BallView(posX, posY, width, height, velocityX, velocityY)
    {
      this.posX, this.posY, this.width, this.height := posX, posY, width, height;
      this.velocityX, this.velocityY := velocityX, velocityY;
    }

    function View(): BallView
      reads this
    {
      BallView(posX, posY, width, height, velocityX, velocityY)
    }

    /** Lines 173-178 and 182-187 of `Ball::update`: the paddle rebound. */
    method Bounce(dx: int, randX: int, randY: int)
      requires 0 <= randX <= 5 && 0 <= randY <= 3
      requires ReboundFits(View(), dx, randX)
      modifies this
      ensures View() == Rebound(old(View()), dx, randX, randY)
    {
      var velocityYSign := if velocityY < 0 then -1 else 1;
      posX := posX + dx;
      posY := posY + velocityY;
      velocityX := -(velocityX + randX);
      velocityY := velocityYSign * (BALL_SPEED + randY);
    }

    /** Lines 192-202 of `Ball::update`: free flight and the wall bounce. */
    method Fly()
      requires FlightFits(View())
      modifies this
      ensures View() == BallFlight(old(View()))
    {
      posX := posX + velocityX;
      posY := posY + velocityY;
      if posY <= Half(height) || posY >= RES_HEIGHT - Half(height) {
        velocityY := -velocityY;
        posY := if posY < Half(height) then Half(height) + 1 else posY;
        posY := if posY > RES_HEIGHT - Half(height) then RES_HEIGHT - Half(height) - 1 else posY;
      }
    }

    /** `Ball::update`. The two collision tests and the two random draws of a
        rebound come in as parameters. */
    method Update(playerLeft: Paddle, game: GameContext, collidesLeft: bool, collidesRight: bool,
                  randX: int, randY: int) returns (st: GameState)
      requires 0 <= randX <= 5 && 0 <= randY <= 3
      requires BallUpdateFits(Rally(View(), game.scoreLeft, game.scoreRight, game.state),
                              playerLeft.width, HitOf(collidesLeft, collidesRight), randX)
      modifies this, game
      ensures Rally(View(), game.scoreLeft, game.scoreRight, game.state) ==
              BallUpdate(old(Rally(View(), game.scoreLeft, game.scoreRight, game.state)),
                         playerLeft.width, HitOf(collidesLeft, collidesRight), randX, randY)
      ensures game.menu == old(game.menu) && game.multiplayer == old(game.multiplayer)
      ensures game.waitingCounter == old(game.waitingCounter)
      ensures st == game.state
    {
      if collidesLeft {
        Bounce(playerLeft.width, randX, randY);
        return game.state;
      } else if collidesRight {
        Bounce(-(width as int), randX, randY);
        return game.state;
      }

      Fly();

      if posX < Half(width) {
        game.scoreRight := game.scoreRight + 1;
        velocityX := -velocityX;
        game.state := Scored;
      } else if posX > RES_WIDTH - Half(width) {
        game.scoreLeft := game.scoreLeft + 1;
        velocityX := -velocityX;
        game.state := Scored;
      }
      st := game.state;
    }
  }

  /** `GameContext` without its sound assets; `menu` is `state_menu.current`,
      and `waitingCounter` the waiting screen's static counter. */
  class GameContext {
    var scoreLeft: i32
    var scoreRight: i32
    var state: GameState
    var menu: MenuState
    var multiplayer: MultiplayerContext
    var waitingCounter: nat

    constructor ()
      ensures scoreLeft == 0 && scoreRight == 0 && state == Menu && menu == NewGame
      ensures multiplayer == NO_MULTIPLAYER && waitingCounter == 0
    {
      scoreLeft, scoreRight, state, menu := 0, 0, Menu, NewGame;
      multiplayer, waitingCounter := NO_MULTIPLAYER, 0;
    }
  }

  /** Everything the handlers can see, as one value. */
  function Snapshot(left: Paddle, right: Paddle, ball: Ball, game: GameContext): World
    reads left, right, ball, game
  {
    World(left.View(), right.View(), ball.View(), game.scoreLeft, game.scoreRight,
          game.state, game.menu, game.multiplayer, game.waitingCounter)
  }

  method InitState(left: Paddle, right: Paddle, ball: Ball, game: GameContext)
    requires left != right
    modifies left, right, ball, game
    ensures Snapshot(left, right, ball, game) == InitStep(old(Snapshot(left, right, ball, game)))
  {
    ball.posX := CENTRE_X;
    ball.posY := CENTRE_Y;
    left.posY := CENTRE_Y;
    right.posY := CENTRE_Y;
    game.scoreLeft := 0;
    game.scoreRight := 0;
    game.state := Loop;
  }

  method FinishedState(left: Paddle, right: Paddle, ball: Ball, game: GameContext, f: Frame)
    modifies game
    ensures Snapshot(left, right, ball, game) == FinishedStep(old(Snapshot(left, right, ball, game)), f.keys)
  {
    if !(game.scoreLeft >= WINNING_SCORE || game.scoreRight >= WINNING_SCORE) {
      game.state := Loop;
    }
    if N in f.keys.pressed {
      game.state := GameState.Quit;
      return;
    }
    if Y in f.keys.pressed {
      game.state := Init;
      return;
    }
  }

  /** `menu_state` (named apart from the `MenuState` type). */
  method MenuScreen(left: Paddle, right: Paddle, ball: Ball, game: GameContext, f: Frame)
    modifies game
    ensures Snapshot(left, right, ball, game) == MenuStep(old(Snapshot(left, right, ball, game)), f.keys)
  {
    if Down in f.keys.pressed {
      game.menu := Next(game.menu);
    } else if Up in f.keys.pressed {
      game.menu := Prev(game.menu);
    } else if Enter in f.keys.pressed {
      if game.menu == MenuState.Quit {
        game.state := GameState.Quit;
        return;
      } else if game.menu == NewGame {
        game.state := Loop;
        return;
      } else if game.menu == Multiplayer {
        game.state := Connect;
        return;
      }
    }
  }

  method ScoredState(left: Paddle, right: Paddle, ball: Ball, game: GameContext, f: Frame)
    requires left != right && WellFormedFrame(f)
    modifies left, right, ball, game
    ensures Snapshot(left, right, ball, game) ==
            ScoredStep(old(Snapshot(left, right, ball, game)), f.serveY, Space in f.keys.down)
  {
    if game.scoreRight >= WINNING_SCORE || game.scoreLeft >= WINNING_SCORE {
      game.state := Finished;
      return;
    }
    ball.posX := CENTRE_X;
    ball.posY := CENTRE_Y;
    if ball.velocityX > 0 {
      ball.velocityX := BALL_SPEED;
    } else {
      ball.velocityX := -BALL_SPEED;
    }
    ball.velocityY := f.serveY;
    left.posY := CENTRE_Y;
    right.posY := CENTRE_Y;
    var canContinue := Space in f.keys.down;
    if canContinue {
      game.state := Loop;
    }
  }

  method LoopState(left: Paddle, right: Paddle, ball: Ball, game: GameContext, f: Frame)
    requires left != right && WellFormedFrame(f)
    requires LoopFits(Snapshot(left, right, ball, game), f)
    modifies left, right, ball, game
    ensures Snapshot(left, right, ball, game) == LoopStep(old(Snapshot(left, right, ball, game)), f)
  {
    var _ := left.Update(f.keys.down, game);
    var _ := right.Update(f.keys.down, game);
    var _ := ball.Update(left, game, f.collidesLeft, f.collidesRight, f.bounceX, f.bounceY);
  }

  method ConnectState(left: Paddle, right: Paddle, ball: Ball, game: GameContext, f: Frame)
    requires game.multiplayer.connected || f.socketOpens
    modifies game
    ensures Snapshot(left, right, ball, game) == ConnectStep(old(Snapshot(left, right, ball, game)), f)
  {
    if !game.multiplayer.connected {
      game.multiplayer := game.multiplayer.(connected := true);
    }
    match f.idReply {
      case None =>
      case Some(reply) =>
        game.multiplayer := game.multiplayer.(id := reply.id, session := reply.session);
    }
    game.state := Waiting;
  }

  /** `waiting_state`; `startAnnounced` tells whether it prints that the second
      player has connected, which is all the source does with that test. */
  method WaitingState(left: Paddle, right: Paddle, ball: Ball, game: GameContext, f: Frame)
    returns (startAnnounced: bool)
    requires WaitingSafe(Snapshot(left, right, ball, game))
    modifies game
    ensures Snapshot(left, right, ball, game) == WaitingStep(old(Snapshot(left, right, ball, game)), f)
    ensures startAnnounced == AnnouncesStart(old(Snapshot(left, right, ball, game)), f)
  {
    var waitingMessage := WAITING_MESSAGES[game.waitingCounter / TICKS_PER_MESSAGE];
    game.waitingCounter := (game.waitingCounter + 1) % WAITING_CYCLE;
    var sendRequest := game.waitingCounter % TICKS_PER_MESSAGE == 0;
    startAnnounced := false;
    if sendRequest {
      match f.ctxReply
      case None =>
      case Some(ctx) =>
        if ctx.leftId == game.multiplayer.id {
          game.multiplayer := game.multiplayer.(side := Some(Left));
        } else if ctx.rightId == game.multiplayer.id {
          game.multiplayer := game.multiplayer.(side := Some(Right));
        }
        if ctx.leftId != U32_MAX && ctx.rightId != U32_MAX {
          startAnnounced := true;
        }
    }
  }

  /** The `match game.state` of the `pong()` loop. */
  method Dispatch(left: Paddle, right: Paddle, ball: Ball, game: GameContext, f: Frame)
    requires left != right && WellFormedFrame(f)
    requires !Panics(Snapshot(left, right, ball, game), f)
    modifies left, right, ball, game
    ensures Snapshot(left, right, ball, game) == Tick(old(Snapshot(left, right, ball, game)), f)
  {
    match game.state
    case Connect => ConnectState(left, right, ball, game, f);
    case Waiting => var _ := WaitingState(left, right, ball, game, f);
    case Init => InitState(left, right, ball, game);
    case Loop => LoopState(left, right, ball, game, f);
    case Scored => ScoredState(left, right, ball, game, f);
    case Menu => MenuScreen(left, right, ball, game, f);
    case Finished => FinishedState(left, right, ball, game, f);
    case Quit => game.state := GameState.Quit;
  }

  /** `pong()`: creates the paddles, the ball and the context, then runs the
      state loop over `frames`, one frame per pass, until the frames run out (the
      window closes), the state is Quit, or a handler would panic. The final
      objects are what `Run` gives, so they keep the game invariant. */
  method Pong(frames: seq<Frame>) returns (left: Paddle, right: Paddle, ball: Ball, game: GameContext)
    requires AllWellFormed(frames)
    ensures Snapshot(left, right, ball, game) == Run(InitialWorld(), frames)
    ensures Inv(Snapshot(left, right, ball, game))
  {
    left := new Paddle(0, CENTRE_Y, PADDLE_WIDTH, PADDLE_HEIGHT, Left, Q, A);
    right := new Paddle(RES_WIDTH, CENTRE_Y, PADDLE_WIDTH, PADDLE_HEIGHT, Right, P, L);
    ball := new Ball(CENTRE_X, CENTRE_Y, BALL_WIDTH, BALL_HEIGHT, BALL_SPEED, BALL_SPEED);
    game := new GameContext();
    var i := 0;
    while i < |frames| && game.state != GameState.Quit
      invariant 0 <= i <= |frames|
      invariant Run(Snapshot(left, right, ball, game), frames[i..]) == Run(InitialWorld(), frames)
      decreases |frames| - i
    {
      assert frames[i..][0] == frames[i] && frames[i..][1..] == frames[i + 1..];
      assert WellFormedFrame(frames[i]);
      assert AllWellFormed(frames[i..]) by {
        forall j | 0 <= j < |frames[i..]| ensures WellFormedFrame(frames[i..][j]) {
          assert frames[i..][j] == frames[i + j];
        }
      }
      if Panics(Snapshot(left, right, ball, game), frames[i]) {
        break;
      }
      Dispatch(left, right, ball, game, frames[i]);
      i := i + 1;
    }
    GameKeepsInv(frames);
  }
}
