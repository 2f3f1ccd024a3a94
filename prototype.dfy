/** The earlier single-file version of the game, src/main.rs: two paddles and a
    ball that bounces off all four walls, updated in place once per frame. */
module Prototype {
  import opened Int32
  import opened Keyboard

  const RES_WIDTH: int := 1280
  const RES_HEIGHT: int := 720

  const PADDLE_WIDTH: int := 40
  const PADDLE_HEIGHT: int := 200
  const PADDLE_SPEED: int := 5

  const BALL_WIDTH: int := 40
  const BALL_HEIGHT: int := 40
  const BALL_SPEED: int := 10

  datatype ScreenSide = Left | Right

  datatype PaddleView = PaddleView(posX: i32, posY: i32, width: i32, height: i32,
                                   side: ScreenSide, keyUp: Key, keyDown: Key)

  datatype BallView = BallView(posX: i32, posY: i32, width: i32, height: i32,
                               velocityX: i32, velocityY: i32)

  /** `Paddle::update` on `pos_y`: one step of `PADDLE_SPEED` or none, up only
      below the top margin, down only above the bottom margin, still when both
      keys are held. */
  function PaddleMove(posY: i32, height: i32, upHeld: bool, downHeld: bool): (r: i32)
    ensures upHeld && downHeld ==> r == posY
    ensures r == posY || Abs(r - posY) == PADDLE_SPEED
    ensures r < posY <==> upHeld && !downHeld && posY > Half(height)
    ensures r > posY <==> downHeld && !upHeld && posY < RES_HEIGHT - Half(height)
  {
    if upHeld && downHeld then posY
    else if posY > Half(height) && upHeld then posY - PADDLE_SPEED
    else if posY < RES_HEIGHT - Half(height) && downHeld then posY + PADDLE_SPEED
    else posY
  }

  function MovePaddle(p: PaddleView, down: set<Key>): PaddleView
  {
    p.(posY := PaddleMove(p.posY, p.height, p.keyUp in down, p.keyDown in down))
  }

  /** The paddle after one frame per element of `frames`. */
  function PaddleAfter(p: PaddleView, frames: seq<set<Key>>): (r: PaddleView)
    ensures r.(posY := p.posY) == p
    decreases |frames|
  {
    if |frames| == 0 then p else PaddleAfter(MovePaddle(p, frames[0]), frames[1..])
  }

  /** One frame of a run of paddle updates. */
  lemma PaddleAfterStep(p: PaddleView, frames: seq<set<Key>>, i: nat)
    requires i < |frames|
    ensures PaddleAfter(p, frames[i..]) == PaddleAfter(MovePaddle(p, frames[i]), frames[i + 1..])
  {
    assert frames[i..][0] == frames[i] && frames[i..][1..] == frames[i + 1..];
  }

  predicate PaddleInBounds(p: PaddleView)
  {
    Half(p.height) - PADDLE_SPEED <= p.posY <= RES_HEIGHT - Half(p.height) + PADDLE_SPEED
  }

  /** However the keys are pressed, a paddle that starts within a step of the
      margins stays within a step of them. */
  lemma {:induction false} PaddleAfterKeepsBounds(p: PaddleView, frames: seq<set<Key>>)
    requires PaddleInBounds(p)
    ensures PaddleInBounds(PaddleAfter(p, frames))
    decreases |frames|
  {
    if |frames| > 0 {
      assert PaddleInBounds(MovePaddle(p, frames[0]));
      PaddleAfterKeepsBounds(MovePaddle(p, frames[0]), frames[1..]);
    }
  }

  /** The ball is strictly outside the band `[lo, hi]`. */
  predicate Outside(v: int, lo: int, hi: int) { v < lo || v > hi }

  predicate BallMoveFits(b: BallView)
  {
    IsI32(b.posX + b.velocityX) && IsI32(b.posY + b.velocityY) &&
    IsI32(-(b.velocityX as int)) && IsI32(-(b.velocityY as int))
  }

  /** `Ball::update`: the ball advances by its velocity, and each velocity
      component is reversed exactly when the new position on that axis is
      strictly outside the margins. The speed on each axis never changes. */
  function BallMove(b: BallView): (r: BallView)
    requires BallMoveFits(b)
    ensures r.posX == b.posX + b.velocityX && r.posY == b.posY + b.velocityY
    ensures r.velocityY == if Outside(r.posY, Half(b.height), RES_HEIGHT - Half(b.height))
                           then -b.velocityY else b.velocityY
    ensures r.velocityX == if Outside(r.posX, Half(b.width), RES_WIDTH - Half(b.width))
                           then -b.velocityX else b.velocityX
    ensures Abs(r.velocityX) == Abs(b.velocityX) && Abs(r.velocityY) == Abs(b.velocityY)
    ensures r.width == b.width && r.height == b.height
  {
    var x, y := b.posX + b.velocityX, b.posY + b.velocityY;
    var vy := if y < Half(b.height) || y > RES_HEIGHT - Half(b.height) then -b.velocityY else b.velocityY;
    var vx := if x < Half(b.width) || x > RES_WIDTH - Half(b.width) then -b.velocityX else b.velocityX;
    b.(posX := x, posY := y, velocityX := vx, velocityY := vy)
  }

  /** On one axis: the position is at most one step outside the band, and when it
      is outside the velocity already points back in. */
  predicate AxisInv(pos: int, v: int, lo: int, hi: int)
  {
    lo <= hi && lo - Abs(v) <= pos <= hi + Abs(v) &&
    (pos < lo ==> v > 0) && (pos > hi ==> v < 0)
  }

  /** Any speed below this keeps every position the ball can reach in a `i32`. */
  const MAX_SPEED: int := 0x1000_0000

  predicate BallInv(b: BallView)
  {
    0 <= b.width && 0 <= b.height &&
    Abs(b.velocityX) <= MAX_SPEED && Abs(b.velocityY) <= MAX_SPEED &&
    AxisInv(b.posX, b.velocityX, Half(b.width), RES_WIDTH - Half(b.width)) &&
    AxisInv(b.posY, b.velocityY, Half(b.height), RES_HEIGHT - Half(b.height))
  }

  lemma AxisStep(pos: int, v: int, lo: int, hi: int)
    requires AxisInv(pos, v, lo, hi)
    ensures AxisInv(pos + v, if Outside(pos + v, lo, hi) then -v else v, lo, hi)
  {
  }

  /** One frame keeps the ball near the field and so cannot overflow. */
  lemma BallMoveKeepsInv(b: BallView)
    requires BallInv(b)
    ensures BallMoveFits(b) && BallInv(BallMove(b))
  {
    AxisStep(b.posX, b.velocityX, Half(b.width), RES_WIDTH - Half(b.width));
    AxisStep(b.posY, b.velocityY, Half(b.height), RES_HEIGHT - Half(b.height));
  }

  /** The ball after `n` frames. It stays within one step of the field and keeps
      its speed on both axes. */
  function BallAfter(b: BallView, n: nat): (r: BallView)
    requires BallInv(b)
    ensures BallInv(r)
    ensures Abs(r.velocityX) == Abs(b.velocityX) && Abs(r.velocityY) == Abs(b.velocityY)
    ensures r.width == b.width && r.height == b.height
  {
    if n == 0 then b
    else
      var p := BallAfter(b, n - 1);
      BallMoveKeepsInv(p);
      BallMove(p)
  }

  class Paddle {
    const posX: i32
    var posY: i32
    const width: i32
    const height: i32
    const side: ScreenSide
    const keyUp: Key
    const keyDown: Key

    constructor (posX: i32, posY: i32, width: i32, height: i32, side: ScreenSide,
                 keyUp: Key, keyDown: Key)
      ensures View() == PaddleView(posX, posY, width, height, side, keyUp, keyDown)
    {
      this.posX, this.posY, this.width, this.height := posX, posY, width, height;
      this.side, this.keyUp, this.keyDown := side, keyUp, keyDown;
    }

    function View(): PaddleView
      reads this
    {
      PaddleView(posX, posY, width, height, side, keyUp, keyDown)
    }

    /** `Paddle::update`, given the keys held this frame. */
    method Update(down: set<Key>)
      modifies this
      ensures View() == MovePaddle(old(View()), down)
    {
      if keyDown in down && keyUp in down {
        return;
      }
      if posY > Half(height) && keyUp in down {
        posY := posY - PADDLE_SPEED;
      } else if posY < RES_HEIGHT - Half(height) && keyDown in down {
        posY := posY + PADDLE_SPEED;
      }
    }
  }

  class Ball {
    var posX: i32
    var posY: i32
    const width: i32
    const height: i32
    var velocityX: i32
    var velocityY: i32

    constructor (posX: i32, posY: i32, width: i32, height: i32, velocityX: i32, velocityY: i32)
      ensures View() == BallView(posX, posY, width, height, velocityX, velocityY)
    {
      this.posX, this.posY, this.width, this.height := posX, posY, width, height;
      this.velocityX, this.velocityY := velocityX, velocityY;
    }

    function View(): BallView
      reads this
    {
      BallView(posX, posY, width, height, velocityX, velocityY)
    }

    /** `Ball::update`. */
    method Update()
      requires BallMoveFits(View())
      modifies this
      ensures View() == BallMove(old(View()))
    {
      posX := posX + velocityX;
      posY := posY + velocityY;
      if posY < Half(height) || posY > RES_HEIGHT - Half(height) {
        velocityY := -velocityY;
      }
      if posX < Half(width) || posX > RES_WIDTH - Half(width) {
        velocityX := -velocityX;
      }
    }
  }

  /** One pass of `main`'s loop: both paddles, then the ball. */
  method UpdateAll(player1: Paddle, player2: Paddle, ball: Ball, down: set<Key>)
    requires player1 != player2 && BallMoveFits(ball.View())
    modifies player1, player2, ball
    ensures player1.View() == MovePaddle(old(player1.View()), down)
    ensures player2.View() == MovePaddle(old(player2.View()), down)
    ensures ball.View() == BallMove(old(ball.View()))
  {
    player1.Update(down);
    player2.Update(down);
    ball.Update();
  }

  /** `main`: creates the two paddles and the ball and runs one update of each
      per frame while the window is open (one element of `frames` per frame: the
      keys held). The ball keeps its speed of 10 on both axes throughout. */
  method RunPrototype(frames: seq<set<Key>>) returns (player1: Paddle, player2: Paddle, ball: Ball)
    ensures player1.View() ==
            PaddleAfter(PaddleView(0, RES_HEIGHT / 2, PADDLE_WIDTH, PADDLE_HEIGHT, Left, Q, A), frames)
    ensures player2.View() ==
            PaddleAfter(PaddleView(RES_WIDTH, RES_HEIGHT / 2, PADDLE_WIDTH, PADDLE_HEIGHT, Right, P, L), frames)
    ensures PaddleInBounds(player1.View()) && PaddleInBounds(player2.View())
    ensures var start := BallView(RES_WIDTH / 2, RES_HEIGHT / 2, BALL_WIDTH, BALL_HEIGHT, BALL_SPEED, BALL_SPEED);
            BallInv(start) && ball.View() == BallAfter(start, |frames|)
    ensures Abs(ball.velocityX) == BALL_SPEED && Abs(ball.velocityY) == BALL_SPEED
  {
    player1 := new Paddle(0, RES_HEIGHT / 2, PADDLE_WIDTH, PADDLE_HEIGHT, Left, Q, A);
    player2 := new Paddle(RES_WIDTH, RES_HEIGHT / 2, PADDLE_WIDTH, PADDLE_HEIGHT, Right, P, L);
    ball := new Ball(RES_WIDTH / 2, RES_HEIGHT / 2, BALL_WIDTH, BALL_HEIGHT, BALL_SPEED, BALL_SPEED);
    ghost var p1, p2, b0 := player1.View(), player2.View(), ball.View();
    var i := 0;
    while i < |frames|
      invariant 0 <= i <= |frames|
      invariant PaddleAfter(player1.View(), frames[i..]) == PaddleAfter(p1, frames)
      invariant PaddleAfter(player2.View(), frames[i..]) == PaddleAfter(p2, frames)
      invariant ball.View() == BallAfter(b0, i)
    {
      PaddleAfterStep(player1.View(), frames, i);
      PaddleAfterStep(player2.View(), frames, i);
      BallMoveKeepsInv(ball.View());
      UpdateAll(player1, player2, ball, frames[i]);
      i := i + 1;
    }
    PaddleAfterKeepsBounds(p1, frames);
    PaddleAfterKeepsBounds(p2, frames);
  }
}
