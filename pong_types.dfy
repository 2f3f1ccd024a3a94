/** Constants, screen states and the main-menu cursor of the game in src/pong.rs. */
module PongTypes {
  const RES_WIDTH: int := 1280
  const RES_HEIGHT: int := 720

  const PADDLE_WIDTH: int := 40
  const PADDLE_HEIGHT: int := 200
  const PADDLE_SPEED: int := 8

  const BALL_WIDTH: int := 40
  const BALL_HEIGHT: int := 40
  const BALL_SPEED: int := 10

  /** `get_winning_score()` */
  const WINNING_SCORE: int := 10

  /** The screen the game loop dispatches on. */
  datatype GameState = Menu | Connect | Waiting | Init | Loop | Scored | Finished | Quit

  /** The entry the main-menu cursor is on. */
  datatype MenuState = NewGame | Multiplayer | Options | Quit

  datatype ScreenSide = Left | Right

  /** Position of an entry in the declared order, which is the derived `Ord` of
      the enum and the order in which the menu is drawn, top to bottom. */
  function Ordinal(m: MenuState): (r: nat)
    ensures r < 4
  {
    match m
    case NewGame => 0
    case Multiplayer => 1
    case Options => 2
    case Quit => 3
  }

  /** `MenuState::next`: the cursor moves one entry down, wrapping to the top. */
  function Next(m: MenuState): (r: MenuState)
    ensures Ordinal(r) == (Ordinal(m) + 1) % 4
  {
    match m
    case NewGame => Multiplayer
    case Multiplayer => Options
    case Options => MenuState.Quit
    case Quit => NewGame
  }

  /** `MenuState::prev`: the cursor moves one entry up, wrapping to the bottom. */
  function Prev(m: MenuState): (r: MenuState)
    ensures Ordinal(r) == (Ordinal(m) + 3) % 4
  {
    match m
    case NewGame => MenuState.Quit
    case Multiplayer => NewGame
    case Options => Multiplayer
    case Quit => Options
  }

  lemma OrdinalInjective(m: MenuState, n: MenuState)
    ensures Ordinal(m) == Ordinal(n) ==> m == n
  {
  }

  lemma NextPrevInverse(m: MenuState)
    ensures Prev(Next(m)) == m
    ensures Next(Prev(m)) == m
  {
  }

  /** `next` applied `k` times. */
  function NextIter(m: MenuState, k: nat): MenuState
  {
    if k == 0 then m else Next(NextIter(m, k - 1))
  }

  lemma {:induction false} NextIterOrdinal(m: MenuState, k: nat)
    ensures Ordinal(NextIter(m, k)) == (Ordinal(m) + k) % 4
  {
    if k > 0 {
      NextIterOrdinal(m, k - 1);
    }
  }

  lemma ModFour(a: nat, k: nat)
    ensures (a + k) % 4 == (a + k % 4) % 4
  {
    var q := k / 4;
    assert a + k == 4 * q + (a + k % 4);
  }

  /** The cursor cycles through the four entries: `k` presses of DOWN land where
      `k % 4` presses do, so four presses return to the starting entry. */
  lemma {:induction false} NextCycle(m: MenuState, k: nat)
    ensures NextIter(m, k) == NextIter(m, k % 4)
    ensures NextIter(m, 4) == m
  {
    var a, b := NextIter(m, k), NextIter(m, k % 4);
    NextIterOrdinal(m, k);
    NextIterOrdinal(m, k % 4);
    ModFour(Ordinal(m), k);
    assert Ordinal(a) == Ordinal(b);
    OrdinalInjective(a, b);
    NextIterOrdinal(m, 4);
    assert (Ordinal(m) + 4) % 4 == Ordinal(m);
    OrdinalInjective(NextIter(m, 4), m);
  }

  /** `get_winner`: the message names player "One" (left) exactly when the left
      score equals the winning score, and "Two" otherwise. */
  function GetWinner(scoreLeft: int): (r: string)
    ensures r == "One" <==> scoreLeft == WINNING_SCORE
    ensures r == "One" || r == "Two"
  {
    if scoreLeft == WINNING_SCORE then "One" else "Two"
  }
}
