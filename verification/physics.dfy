/**
 One simulation tick (`update_game`): joystick normalisation, smoothed player
 paddle, CPU paddle placed under the ball, one Euler step of the ball, side
 wall reflection, then the top (CPU) and bottom (player) resolutions.
 */
module Physics {
  import opened Arith
  import opened Entities

  const MinAdc: int := 600
  const MaxAdc: int := 3400
  const AdcSpan: int := MaxAdc - MinAdc
  const PlayerSpeed: int := 3

  function Abs(v: int): int {
    if v < 0 then -v else v
  }

  // ---------------------------------------------------------------------
  // Player paddle

  /** Calibrates a raw joystick sample: below the minimum reads as 0, above the maximum as the full span. */
  function NormalizeAdc(sample: U16): (r: U16)
    ensures 0 <= r <= AdcSpan
    ensures MinAdc <= sample <= MaxAdc ==> r == sample - MinAdc
    ensures sample < MinAdc ==> r == 0
    ensures sample > MaxAdc ==> r == AdcSpan
  {
    if sample < MinAdc then 0
    else if sample > MaxAdc then AdcSpan
    else sample - MinAdc
  }

  /** Normalisation is the clamp of the sample into the calibrated window, shifted to start at 0. */
  lemma NormalizeIsShiftedClamp(sample: U16)
    ensures NormalizeAdc(sample) == Clamp(sample, MinAdc, MaxAdc) - MinAdc
  {
  }

  /**
   The target x of a paddle of the given width: the normalised sample mapped
   linearly onto `[0, ScreenWidth - width]`, computed in `uint32_t` as the
   source does.
   */
  function TargetX(normalized: U16, width: int): (r: int)
  {
    ToInt32(MulU32(normalized, ToU32(ScreenWidth - width)) / AdcSpan)
  }

  /** For any realistic width the 32-bit arithmetic does not wrap and the target stays on screen. */
  lemma TargetXInRange(normalized: U16, width: int)
    requires normalized <= AdcSpan
    requires 0 <= width <= ScreenWidth
    ensures TargetX(normalized, width) == normalized * (ScreenWidth - width) / AdcSpan
    ensures 0 <= TargetX(normalized, width) <= ScreenWidth - width
  {
    var k := ScreenWidth - width;
    MulLeRight(normalized, AdcSpan, k);
    assert AdcSpan * k <= AdcSpan * ScreenWidth;
    assert 0 <= normalized * k < Two32;
    DivLeMono(normalized * k, AdcSpan * k, AdcSpan);
    assert AdcSpan * k / AdcSpan == k;
  }

  /** Pushing the joystick further right never moves the target left. */
  lemma TargetXMonotone(s1: U16, s2: U16, width: int)
    requires s1 <= s2
    requires 0 <= width <= ScreenWidth
    ensures TargetX(NormalizeAdc(s1), width) <= TargetX(NormalizeAdc(s2), width)
  {
    var n1, n2 := NormalizeAdc(s1), NormalizeAdc(s2);
    TargetXInRange(n1, width);
    TargetXInRange(n2, width);
    MulLeRight(n1, n2, ScreenWidth - width);
    DivLeMono(n1 * (ScreenWidth - width), n2 * (ScreenWidth - width), AdcSpan);
  }

  /**
   One step of the smoothed paddle: the new x lies between the old x and the
   target, and it has moved by the distance to the target or by the speed,
   whichever is smaller.
   */
  function MoveToward(x: int, target: int): (r: int)
    ensures x <= r <= target || target <= r <= x
    ensures Abs(r - x) == if Abs(target - x) < PlayerSpeed then Abs(target - x) else PlayerSpeed
  {
    if x < target then
      var x1 := x + PlayerSpeed;
      if x1 > target then target else x1
    else if x > target then
      var x1 := x - PlayerSpeed;
      if x1 < target then target else x1
    else x
  }

  /** The paddle x after `n` ticks toward a fixed target. */
  function MoveTowardTicks(x: int, target: int, n: nat): int
    decreases n
  {
    if n == 0 then x else MoveTowardTicks(MoveToward(x, target), target, n - 1)
  }

  /** Holding the joystick still, the paddle reaches the target once `n` ticks cover the distance. */
  lemma {:induction false} MoveTowardReaches(x: int, target: int, n: nat)
    requires n * PlayerSpeed >= Abs(target - x)
    ensures MoveTowardTicks(x, target, n) == target
    decreases n
  {
    if n == 0 {
    } else {
      var x1 := MoveToward(x, target);
      assert (n - 1) * PlayerSpeed >= Abs(target - x1);
      if x1 == target {
        MoveTowardStaysAtTarget(target, n - 1);
      } else {
        MoveTowardReaches(x1, target, n - 1);
      }
    }
  }

  /** A paddle already at its target stays there. */
  lemma {:induction false} MoveTowardStaysAtTarget(target: int, n: nat)
    ensures MoveTowardTicks(target, target, n) == target
  {
    if n > 0 {
      MoveTowardStaysAtTarget(target, n - 1);
    }
  }

  // ---------------------------------------------------------------------
  // CPU paddle

  /** Where the CPU paddle wants to be: its centre under the ball's centre (C truncating halves). */
  function CpuAim(cpu: Paddle, ball: Ball): int {
    ball.x + TruncDiv(ball.size, 2) - TruncDiv(cpu.width, 2)
  }

  /** The CPU paddle jumps to its aim, clamped to the screen; only its x changes. */
  function TrackCpu(cpu: Paddle, ball: Ball): (r: Paddle)
    ensures r == cpu.(x := r.x)
    ensures r.x + cpu.width <= ScreenWidth
    ensures 0 <= cpu.width <= ScreenWidth ==> r.x == Clamp(CpuAim(cpu, ball), 0, ScreenWidth - cpu.width)
  {
    var aim := CpuAim(cpu, ball);
    var x1 := if aim < 0 then 0 else aim;
    var x2 := if x1 + cpu.width > ScreenWidth then ScreenWidth - cpu.width else x1;
    cpu.(x := x2)
  }

  // ---------------------------------------------------------------------
  // Ball

  predicate HitsSideWall(b: Ball) {
    b.x <= 0 || b.x + b.size >= ScreenWidth
  }

  /** One Euler step followed by the side wall reflection, which flips `vx` without correcting x. */
  function MoveBall(b: Ball): (r: Ball)
    ensures r.x == b.x + b.vx && r.y == b.y + b.vy
    ensures r.size == b.size && r.vy == b.vy
    ensures HitsSideWall(r) ==> r.vx == -b.vx
    ensures !HitsSideWall(r) ==> r.vx == b.vx
  {
    var moved := b.(x := b.x + b.vx, y := b.y + b.vy);
    if HitsSideWall(moved) then moved.(vx := -moved.vx) else moved
  }

  /**
   The horizontal band the ball lives in: at most `|vx| - 1` pixels past a side
   wall, and when it touches or passes a wall it is already heading back.
   */
  predicate InBand(b: Ball) {
    && b.vx != 0
    && 1 - Abs(b.vx) <= b.x <= ScreenWidth - b.size + Abs(b.vx) - 1
    && (b.x <= 0 ==> b.vx > 0)
    && (b.x + b.size >= ScreenWidth ==> b.vx < 0)
  }

  /** The wall reflection keeps the ball in its band: it can overshoot a wall by less than one step, never escape. */
  lemma MoveBallStaysInBand(b: Ball)
    requires InBand(b)
    ensures InBand(MoveBall(b))
    ensures Abs(MoveBall(b).vx) == Abs(b.vx)
  {
  }

  // ---------------------------------------------------------------------
  // Top and bottom resolution

  /** The inclusive horizontal overlap test used for both paddles. */
  predicate Overlaps(b: Ball, p: Paddle) {
    b.x + b.size >= p.x && b.x <= p.x + p.width
  }

  /**
   The CPU side: a ball at or above the CPU paddle's lower edge bounces off
   it and is snapped to that edge when they overlap; otherwise, once it
   reaches the top of the screen, the player has won. Nothing else changes.
   */
  function ResolveTop(b: Ball, cpu: Paddle, phase: Phase): (r: (Ball, Phase))
    ensures b.y <= cpu.y + cpu.height && Overlaps(b, cpu) ==>
      r.0 == b.(vy := -b.vy, y := cpu.y + cpu.height) && r.1 == phase
    ensures b.y <= cpu.y + cpu.height && !Overlaps(b, cpu) && b.y <= 0 ==> r == (b, Win)
    ensures b.y > cpu.y + cpu.height || (!Overlaps(b, cpu) && b.y > 0) ==> r == (b, phase)
  {
    if b.y <= cpu.y + cpu.height then
      if Overlaps(b, cpu) then
        (b.(vy := -b.vy, y := cpu.y + cpu.height), phase)
      else if b.y <= 0 then (b, Win)
      else (b, phase)
    else (b, phase)
  }

  /**
   The player side: a ball reaching the player paddle's upper edge bounces
   off it and is snapped to sit on it when they overlap; otherwise, once it
   reaches the bottom of the screen, the game is over. Nothing else changes.
   */
  function ResolveBottom(b: Ball, player: Paddle, phase: Phase): (r: (Ball, Phase))
    ensures b.y + b.size >= player.y && Overlaps(b, player) ==>
      r.0 == b.(vy := -b.vy, y := player.y - b.size) && r.1 == phase
    ensures b.y + b.size >= player.y && !Overlaps(b, player) && b.y + b.size >= ScreenHeight ==>
      r == (b, GameOver)
    ensures b.y + b.size < player.y || (!Overlaps(b, player) && b.y + b.size < ScreenHeight) ==>
      r == (b, phase)
  {
    if b.y + b.size >= player.y then
      if Overlaps(b, player) then
        (b.(vy := -b.vy, y := player.y - b.size), phase)
      else if b.y + b.size >= ScreenHeight then (b, GameOver)
      else (b, phase)
    else (b, phase)
  }

  /**
   The CPU paddle is placed from the ball's position before it moves, yet it
   always overlaps the ball after the move: at speed 3 with an 8-pixel ball
   and a 20-pixel paddle the CPU cannot miss.
   */
  lemma CpuAlwaysCovers(b: Ball, cpu: Paddle)
    requires InBand(b)
    requires b.size == BallSize && cpu.width == PaddleWidth
    requires Abs(b.vx) <= BallSpeed
    ensures Overlaps(MoveBall(b), TrackCpu(cpu, b))
  {
  }

  // ---------------------------------------------------------------------
  // The tick

  /** The player paddle's target for the current joystick sample. */
  function PlayerTarget(player: Paddle, adcSample: U16): int {
    TargetX(NormalizeAdc(adcSample), player.width)
  }

  /**
   One tick of `update_game`. The CPU paddle is computed from the ball's
   position before this tick's step; the top resolution runs before the
   bottom one and sees the phase the tick started with.
   */
  function UpdateGame(s: GameState, adcSample: U16): (r: GameState)
    ensures r.lastA == s.lastA && r.lastJ == s.lastJ && r.lastB == s.lastB
    ensures r.player == s.player.(x := r.player.x) && r.cpu == s.cpu.(x := r.cpu.x)
    ensures Abs(r.player.x - s.player.x) <= PlayerSpeed
    ensures r.player.x == s.player.x <==> s.player.x == PlayerTarget(s.player, adcSample)
    ensures r.player.x == MoveToward(s.player.x, PlayerTarget(s.player, adcSample))
    ensures var top := ResolveTop(MoveBall(s.ball), r.cpu, s.phase);
      (r.ball, r.phase) == ResolveBottom(top.0, r.player, top.1)
    ensures r.cpu == TrackCpu(s.cpu, s.ball)
    ensures r.ball.x == s.ball.x + s.ball.vx && r.ball.size == s.ball.size
    ensures Abs(r.ball.vx) == Abs(s.ball.vx) && Abs(r.ball.vy) == Abs(s.ball.vy)
    ensures r.phase == s.phase || r.phase == Win || r.phase == GameOver
    ensures 0 <= s.player.width <= ScreenWidth && 0 <= s.player.x <= ScreenWidth - s.player.width ==>
      0 <= r.player.x <= ScreenWidth - s.player.width
  {
    var target := PlayerTarget(s.player, adcSample);
    var player := s.player.(x := MoveToward(s.player.x, target));
    var cpu := TrackCpu(s.cpu, s.ball);
    var ball := MoveBall(s.ball);
    var top := ResolveTop(ball, cpu, s.phase);
    var bottom := ResolveBottom(top.0, player, top.1);
    assert 0 <= s.player.width <= ScreenWidth ==> 0 <= target <= ScreenWidth - s.player.width by {
      if 0 <= s.player.width <= ScreenWidth {
        TargetXInRange(NormalizeAdc(adcSample), s.player.width);
      }
    }
    s.(player := player, cpu := cpu, ball := bottom.0, phase := bottom.1)
  }
}
