/** Per-tick physics of src/pong.rs: `Paddle::update` and `Ball::update`, on
    values. The classes in PongGame are proved to follow these functions. */
module PongPhysics {
  import opened Int32
  import opened Keyboard
  import opened PongTypes

  /** The fields of a `Paddle` except its colour. Only `pos_y` ever changes. */
  datatype PaddleView = PaddleView(posX: i32, posY: i32, width: i32, height: i32,
                                   side: ScreenSide, keyUp: Key, keyDown: Key)

  /** The fields of a `Ball` except its colour. */
  datatype BallView = BallView(posX: i32, posY: i32, width: i32, height: i32,
                               velocityX: i32, velocityY: i32)

  /** `Paddle::update` on `pos_y`, given whether the paddle's up and down keys are
      held. The paddle moves by exactly one step or not at all; it moves up only
      while its centre is below the top margin and down only while it is above the
      bottom margin, and holding both keys keeps it still. */
  function PaddleMove(posY: i32, height: i32, upHeld: bool, downHeld: bool): (r: i32)
    ensures upHeld && downHeld ==> r == posY
    ensures r == posY || Abs(r - posY) == PADDLE_SPEED
    ensures r < posY <==> upHeld && !downHeld && posY > Half(height)
    ensures r > posY <==> downHeld && !upHeld && posY < RES_HEIGHT - Half(height)
  {
    if upHeld && downHeld then posY
    else if posY > Half(height) && upHeld then posY - PADDLE_SPEED
    else if posY < RES_HEIGHT - Half(height) && downHeld then posY + PADDLE_SPEED
    else posY
  }

  /** The band a paddle's centre stays in: one step past either margin at most. */
  predicate PaddleInBounds(posY: int, height: int)
  {
    Half(height) - PADDLE_SPEED <= posY <= RES_HEIGHT - Half(height) + PADDLE_SPEED
  }

  lemma PaddleMoveKeepsBounds(posY: i32, height: i32, upHeld: bool, downHeld: bool)
    requires PaddleInBounds(posY, height)
    ensures PaddleInBounds(PaddleMove(posY, height, upHeld, downHeld), height)
  {
  }

  /** Which paddle the ball's rectangle overlaps this tick. The left paddle is
      checked first, so it wins when the ball touches both. */
  datatype Hit = LeftPaddle | RightPaddle | NoPaddle

  function HitOf(collidesLeft: bool, collidesRight: bool): (h: Hit)
    ensures h == LeftPaddle <==> collidesLeft
    ensures h == RightPaddle <==> !collidesLeft && collidesRight
  {
    if collidesLeft then LeftPaddle else if collidesRight then RightPaddle else NoPaddle
  }

  /** The i32 operations of a paddle rebound do not overflow. */
  predicate ReboundFits(b: BallView, dx: int, randX: int)
  {
    IsI32(b.posX + dx) && IsI32(b.posY + b.velocityY) &&
    IsI32(b.velocityX + randX) && IsI32(-(b.velocityX + randX))
  }

  /** A paddle rebound: the ball is pushed `dx` sideways and moves vertically as
      before; it turns round with up to 5 extra horizontal speed and gets a fresh
      vertical speed of 10 to 13 in the direction it was already going. */
  function Rebound(b: BallView, dx: int, randX: int, randY: int): (r: BallView)
    requires 0 <= randX <= 5 && 0 <= randY <= 3
    requires ReboundFits(b, dx, randX)
    ensures r.posX == b.posX + dx && r.posY == b.posY + b.velocityY
    ensures r.velocityX == -(b.velocityX + randX)
    ensures Abs(r.velocityY) == BALL_SPEED + randY
    ensures r.velocityY < 0 <==> b.velocityY < 0
    ensures r.width == b.width && r.height == b.height
  {
    var sign := if b.velocityY < 0 then -1 else 1;
    b.(posX := b.posX + dx, posY := b.posY + b.velocityY,
       velocityX := -(b.velocityX + randX), velocityY := sign * (BALL_SPEED + randY))
  }

  /** The ball's centre is on or past the top or bottom margin. */
  predicate HitsWall(y: int, height: int)
  {
    y <= Half(height) || y >= RES_HEIGHT - Half(height)
  }

  predicate FlightFits(b: BallView)
  {
    IsI32(b.posX + b.velocityX) && IsI32(b.posY + b.velocityY) &&
    (HitsWall(b.posY + b.velocityY, b.height) ==> IsI32(-(b.velocityY as int)))
  }

  /** Free flight: the ball advances by its velocity; on reaching a wall margin it
      turns round vertically and is pulled back inside the margins. */
  function BallFlight(b: BallView): (r: BallView)
    requires FlightFits(b)
    ensures r.posX == b.posX + b.velocityX && r.velocityX == b.velocityX
    ensures HitsWall(b.posY + b.velocityY, b.height) ==> r.velocityY == -b.velocityY
    ensures !HitsWall(b.posY + b.velocityY, b.height) ==>
              r.velocityY == b.velocityY && r.posY == b.posY + b.velocityY
    ensures 2 * Half(b.height) < RES_HEIGHT ==>
              Half(b.height) <= r.posY <= RES_HEIGHT - Half(b.height)
    ensures r.width == b.width && r.height == b.height
  {
    var x, y := b.posX + b.velocityX, b.posY + b.velocityY;
    if HitsWall(y, b.height) then
      var y1 := if y < Half(b.height) then Half(b.height) + 1 else y;
      var y2 := if y1 > RES_HEIGHT - Half(b.height) then RES_HEIGHT - Half(b.height) - 1 else y1;
      b.(posX := x, posY := y2, velocityY := -b.velocityY)
    else
      b.(posX := x, posY := y)
  }

  /** What `Ball::update` writes: the ball, both scores and the game state. */
  datatype Rally = Rally(ball: BallView, scoreLeft: i32, scoreRight: i32, state: GameState)

  predicate PastLeftEdge(b: BallView) { b.posX < Half(b.width) }
  predicate PastRightEdge(b: BallView) { b.posX > RES_WIDTH - Half(b.width) }

  predicate ScoringFits(r: Rally)
  {
    (PastLeftEdge(r.ball) ==> IsI32(r.scoreRight + 1) && IsI32(-(r.ball.velocityX as int))) &&
    (!PastLeftEdge(r.ball) && PastRightEdge(r.ball) ==>
       IsI32(r.scoreLeft + 1) && IsI32(-(r.ball.velocityX as int)))
  }

  /** Scoring after free flight: past the left edge the right player scores,
      past the right edge the left player does; either way the ball turns round
      horizontally and the game goes to the Scored screen. */
  function Scoring(r: Rally): (s: Rally)
    requires ScoringFits(r)
    ensures PastLeftEdge(r.ball) ==>
              s.scoreRight == r.scoreRight + 1 && s.scoreLeft == r.scoreLeft
    ensures !PastLeftEdge(r.ball) && PastRightEdge(r.ball) ==>
              s.scoreLeft == r.scoreLeft + 1 && s.scoreRight == r.scoreRight
    ensures PastLeftEdge(r.ball) || PastRightEdge(r.ball) ==>
              s.state == Scored && s.ball == r.ball.(velocityX := -r.ball.velocityX)
    ensures !PastLeftEdge(r.ball) && !PastRightEdge(r.ball) ==> s == r
  {
    if PastLeftEdge(r.ball) then
      r.(scoreRight := r.scoreRight + 1, ball := r.ball.(velocityX := -r.ball.velocityX),
         state := Scored)
    else if PastRightEdge(r.ball) then
      r.(scoreLeft := r.scoreLeft + 1, ball := r.ball.(velocityX := -r.ball.velocityX),
         state := Scored)
    else
      r
  }

  /** The i32 operations `Ball::update` performs on this input do not overflow. */
  predicate BallUpdateFits(r: Rally, leftWidth: int, hit: Hit, randX: int)
  {
    match hit
    case LeftPaddle => ReboundFits(r.ball, leftWidth, randX)
    case RightPaddle => ReboundFits(r.ball, -(r.ball.width as int), randX)
    case NoPaddle => FlightFits(r.ball) && ScoringFits(r.(ball := BallFlight(r.ball)))
  }

  /** `Ball::update`. `leftWidth` is `player_left.width`; `randX` and `randY` are
      the two `GetRandomValue` draws of a rebound. */
  function BallUpdate(r: Rally, leftWidth: i32, hit: Hit, randX: int, randY: int): (s: Rally)
    requires 0 <= randX <= 5 && 0 <= randY <= 3
    requires BallUpdateFits(r, leftWidth, hit, randX)
    ensures hit == LeftPaddle ==> s == r.(ball := Rebound(r.ball, leftWidth, randX, randY))
    ensures hit == RightPaddle ==> s == r.(ball := Rebound(r.ball, -(r.ball.width as int), randX, randY))
    ensures hit == NoPaddle ==> s == Scoring(r.(ball := BallFlight(r.ball)))
    // at most one score changes, by exactly one, and only then is the state Scored
    ensures (s.scoreLeft == r.scoreLeft && r.scoreRight <= s.scoreRight <= r.scoreRight + 1) ||
            (s.scoreRight == r.scoreRight && s.scoreLeft == r.scoreLeft + 1)
    ensures s.state == if s.scoreLeft != r.scoreLeft || s.scoreRight != r.scoreRight
                       then Scored else r.state
    ensures hit != NoPaddle ==> s.scoreLeft == r.scoreLeft && s.scoreRight == r.scoreRight
    ensures s.ball.width == r.ball.width && s.ball.height == r.ball.height
  {
    match hit
    case LeftPaddle => r.(ball := Rebound(r.ball, leftWidth, randX, randY))
    case RightPaddle => r.(ball := Rebound(r.ball, -(r.ball.width as int), randX, randY))
    case NoPaddle => Scoring(r.(ball := BallFlight(r.ball)))
  }

  /** The two rebounds are not mirror images: the extra speed is added to the
      signed velocity, so a ball coming from the left (`velocityX < 0`) loses up
      to 5 of its speed on the left paddle, while one hitting the right paddle
      gains it. A slow ball can even keep moving left after a left rebound. */
  lemma ReboundSpeedChange(b: BallView, dx: int, randX: int, randY: int)
    requires 0 <= randX <= 5 && 0 <= randY <= 3
    requires ReboundFits(b, dx, randX)
    ensures b.velocityX > 0 ==> Abs(Rebound(b, dx, randX, randY).velocityX) == b.velocityX + randX
    ensures b.velocityX < 0 ==> Rebound(b, dx, randX, randY).velocityX == Abs(b.velocityX) - randX
    ensures b.velocityX < 0 && Abs(b.velocityX) < randX ==> Rebound(b, dx, randX, randY).velocityX < 0
  {
  }
}
