/**
 The game's entities (ball, two paddles), its phases, the whole mutable state
 of the program gathered in one record, and `init_game`'s starting layout.
 */
module Entities {
  import opened Arith

  const ScreenWidth: int := 128
  const ScreenHeight: int := 64

  /** `game_state_t`. */
  datatype Phase = Waiting | Playing | Paused | GameOver | Win

  /** A square ball: top-left corner, velocity in pixels per tick, side length. */
  datatype Ball = Ball(x: int, y: int, vx: int, vy: int, size: int)

  /** A paddle: top-left corner and its dimensions. */
  datatype Paddle = Paddle(x: int, y: int, width: int, height: int)

  /**
   Everything the program keeps between events: the phase, the three
   entities, and the last accepted press time of each button (the static
   locals of the button callback).
   */
  datatype GameState = GameState(
    phase: Phase,
    ball: Ball,
    player: Paddle,
    cpu: Paddle,
    lastA: U32,
    lastJ: U32,
    lastB: U32)

  const PaddleWidth: int := 20
  const PaddleHeight: int := 3
  const BallSize: int := 8
  const BallSpeed: int := 3

  /** The starting layout: both paddles centred, the ball centred moving down-right. */
  function InitGame(s: GameState): (r: GameState)
    ensures r.player == Paddle(54, 60, 20, 3)
    ensures r.cpu == Paddle(54, 1, 20, 3)
    ensures r.ball == Ball(60, 28, 3, 3, 8)
    ensures r.phase == s.phase && r.lastA == s.lastA && r.lastJ == s.lastJ && r.lastB == s.lastB
  {
    var player := Paddle(TruncDiv(ScreenWidth - PaddleWidth, 2),
                         ScreenHeight - PaddleHeight - 1, PaddleWidth, PaddleHeight);
    var cpu := Paddle(TruncDiv(ScreenWidth - PaddleWidth, 2), 1, PaddleWidth, PaddleHeight);
    var ball := Ball(TruncDiv(ScreenWidth - BallSize, 2),
                     TruncDiv(ScreenHeight, 2) - TruncDiv(BallSize, 2),
                     BallSpeed, BallSpeed, BallSize);
    s.(player := player, cpu := cpu, ball := ball)
  }

  /** The layout does not depend on where the entities were before. */
  lemma InitGameIgnoresEntities(s: GameState, t: GameState)
    requires s.phase == t.phase && s.lastA == t.lastA && s.lastJ == t.lastJ && s.lastB == t.lastB
    ensures InitGame(s) == InitGame(t)
  {
  }

  /** Calling `init_game` twice gives the same state as calling it once. */
  lemma InitGameIdempotent(s: GameState)
    ensures InitGame(InitGame(s)) == InitGame(s)
  {
  }
}
