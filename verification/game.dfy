/**
 The main loop's tick guard and whole runs of the program: a run is a
 sequence of ticks and button presses applied one at a time to the state the
 program boots with. The reachable-state invariant shows that the paddles
 and ball stay in a small, well-shaped region and that no run ever reaches
 Win: the CPU paddle, placed under the ball every tick, cannot miss.
 */
module Game {
  import opened Arith
  import opened Entities
  import opened Physics
  import opened Buttons

  /** One pass of the main loop: the physics runs only while Playing. */
  function Step(s: GameState, adcSample: U16): (r: GameState)
    ensures s.phase != Playing ==> r == s
    ensures s.phase == Playing ==> r.ball.x == s.ball.x + s.ball.vx && r.cpu == TrackCpu(s.cpu, s.ball)
  {
    if s.phase == Playing then UpdateGame(s, adcSample) else s
  }

  /** What can happen to the program: a main-loop pass with a joystick sample, or a button edge at a time. */
  datatype Event = Tick(adcSample: U16) | Press(gpio: U32, now: U32)

  function Apply(s: GameState, e: Event): GameState {
    match e
    case Tick(a) => Step(s, a)
    case Press(g, t) => OnButton(s, g, t)
  }

  function Run(s: GameState, events: seq<Event>): GameState
    decreases |events|
  {
    if |events| == 0 then s else Run(Apply(s, events[0]), events[1..])
  }

  /** The state at power-on: Waiting, every global zero; `init_game` has not run yet. */
  function Boot(): GameState {
    GameState(Waiting, Ball(0, 0, 0, 0, 0), Paddle(0, 0, 0, 0), Paddle(0, 0, 0, 0), 0, 0, 0)
  }

  /**
   The shape of a round in progress: fixed paddle rows and sizes, both
   paddles on screen, ball speed 3 on both axes, the ball within its side
   wall band on a multiple of 3 (so in fact on screen) and between the
   paddles' rows, and, near the player's row, only ever heading down.
   */
  predicate Layout(s: GameState) {
    && s.player == Paddle(s.player.x, 60, PaddleWidth, PaddleHeight)
    && 0 <= s.player.x <= ScreenWidth - PaddleWidth
    && s.cpu == Paddle(s.cpu.x, 1, PaddleWidth, PaddleHeight)
    && 0 <= s.cpu.x <= ScreenWidth - PaddleWidth
    && s.ball.size == BallSize
    && (s.ball.vx == BallSpeed || s.ball.vx == -BallSpeed)
    && (s.ball.vy == BallSpeed || s.ball.vy == -BallSpeed)
    && InBand(s.ball)
    && s.ball.x % BallSpeed == 0
    && 4 <= s.ball.y <= 58
    && (s.ball.y >= 55 ==> s.ball.vy > 0)
    && (s.phase == Playing || s.phase == Paused ==> s.ball.y <= 55)
  }

  /** The reachable-state invariant. */
  predicate Inv(s: GameState) {
    s.phase != Win && (s.phase != Waiting ==> Layout(s))
  }

  lemma InitGameHasLayout(s: GameState)
    ensures Layout(InitGame(s))
  {
  }

  /** A main-loop pass keeps the invariant; in particular a tick never ends the round with Win. */
  lemma StepKeepsInv(s: GameState, adcSample: U16)
    requires Inv(s)
    ensures Inv(Step(s, adcSample))
  {
    if s.phase == Playing {
      TargetXInRange(NormalizeAdc(adcSample), s.player.width);
      MoveBallStaysInBand(s.ball);
      CpuAlwaysCovers(s.ball, s.cpu);
    }
  }

  lemma OnButtonKeepsInv(s: GameState, gpio: U32, now: U32)
    requires Inv(s)
    ensures Inv(OnButton(s, gpio, now))
  {
    InitGameHasLayout(s);
  }

  lemma {:induction false} RunKeepsInv(s: GameState, events: seq<Event>)
    requires Inv(s)
    ensures Inv(Run(s, events))
    decreases |events|
  {
    if |events| > 0 {
      match events[0] {
        case Tick(a) => StepKeepsInv(s, a);
        case Press(g, t) => OnButtonKeepsInv(s, g, t);
      }
      RunKeepsInv(Apply(s, events[0]), events[1..]);
    }
  }

  /**
   No sequence of ticks and presses from power-on ever shows "voce ganhou":
   the Win phase is unreachable.
   */
  lemma WinUnreachable(events: seq<Event>)
    ensures Run(Boot(), events).phase != Win
  {
    RunKeepsInv(Boot(), events);
  }

  /**
   Every reachable state outside Waiting has the ball and both paddles on
   screen horizontally and the ball between the paddles' rows, so the
   source's 32-bit `int` arithmetic never overflows during a round.
   */
  lemma ReachableCoordinatesOnScreen(events: seq<Event>)
    ensures var s := Run(Boot(), events);
      s.phase != Waiting ==>
        && 0 <= s.ball.x <= ScreenWidth - BallSize && 4 <= s.ball.y <= 58
        && 0 <= s.player.x <= 108 && 0 <= s.cpu.x <= 108
  {
    RunKeepsInv(Boot(), events);
  }

  /**
   A paddle contact flips the vertical direction exactly once and sends the
   ball away from the paddle it touched, so an inclusive edge touch cannot
   bounce the ball twice.
   */
  lemma BounceSendsBallAway(s: GameState, adcSample: U16)
    requires Inv(s) && s.phase == Playing
    ensures var r := Step(s, adcSample);
      r.ball.vy != s.ball.vy ==>
        (r.ball.y == r.cpu.y + r.cpu.height && r.ball.vy > 0) ||
        (r.ball.y == r.player.y - r.ball.size && r.ball.vy < 0)
  {
    MoveBallStaysInBand(s.ball);
    CpuAlwaysCovers(s.ball, s.cpu);
  }

  /** Outside Playing, any number of main-loop passes leaves the state exactly as it was. */
  lemma {:induction false} FrozenUnlessPlaying(s: GameState, events: seq<Event>)
    requires s.phase != Playing
    requires forall i :: 0 <= i < |events| ==> events[i].Tick?
    ensures Run(s, events) == s
    decreases |events|
  {
    if |events| > 0 {
      FrozenUnlessPlaying(s, events[1..]);
    }
  }

  /** Right after power-on, button A is ignored for the first 200 ms and starts the first round after that. */
  lemma FirstStart(now: U32)
    ensures now < DebounceMs ==> Run(Boot(), [Press(ButtonA, now)]) == Boot()
    ensures now >= DebounceMs ==>
      Run(Boot(), [Press(ButtonA, now)]) == InitGame(Boot()).(phase := Playing, lastA := now)
  {
  }
}
