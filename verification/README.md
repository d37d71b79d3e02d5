# Ping-pong game core: a Dafny model

This project models the game core of a two-paddle ball game for a
microcontroller with a 128×64 monochrome display. The player steers the
bottom paddle with a joystick axis. The CPU paddle at the top follows the
ball. Three buttons drive the phases: A starts, the joystick button pauses
and resumes, and B restarts. The whole core is `ping_pong/main.c`.

The model is functional. One immutable `GameState` record holds what the C
program keeps in globals and static locals:

- the phase (`Waiting`, `Playing`, `Paused`, `GameOver`, `Win`);
- the ball and both paddles;
- the last accepted press time of each button.

The program's three entry points are pure functions of that state:

- `Entities.InitGame` is `init_game`.
- `Physics.UpdateGame(s, adcSample)` is `update_game`. The joystick reading
  `adc_read()` becomes the `U16` argument `adcSample`.
- `Buttons.OnButton(s, gpio, now)` is `gpio_callback`. The clock reading
  `to_ms_since_boot(...)` becomes the `U32` argument `now`.

`Game.Step` is the main loop's tick guard. `Game.Run` applies a sequence of
ticks and presses to the power-on state `Game.Boot`.

Modules:

- `Arith` holds the C integer behaviour the model needs:
  - `uint32_t` subtraction and multiplication with wrap-around;
  - the `uint16_t` sample type;
  - C's truncating `/`;
  - the conversion of a `uint32_t` back to a signed `int`.
- `Entities` holds the types, the screen and layout constants, and `init_game`.
- `Physics` holds one tick: input normalisation, the two paddles, the ball
  step, wall reflection, and the top and bottom resolutions.
- `Buttons` holds the button handler and its per-button 200 ms debounce.
- `Game` holds the tick guard, event runs and the reachable-state invariant.

Main results:

- `Game.WinUnreachable`: no run from power-on ever reaches `Win`. The CPU
  paddle jumps under the ball's pre-step position on every tick. At speed 3,
  with an 8-pixel ball and a 20-pixel paddle, the ball still overlaps that
  paddle after its step (`Physics.CpuAlwaysCovers`). So the top-side "player
  wins" branch (main.c:153-154) can never fire.
- On every run from power-on the ball stays on screen horizontally, inside
  `[0, 128 - size]` = `[0, 120]` (`Game.ReachableCoordinatesOnScreen`).
  Wall reflection flips `vx` but does not correct `x`. From an arbitrary
  state the ball can therefore sit up to `|vx| - 1` pixels past a wall for
  one tick, and `Physics.MoveBallStaysInBand` proves that band. From
  power-on this never happens: the ball starts at x = 60 and moves in steps
  of exactly 3, so x is always a multiple of 3, and the band's multiples of
  3 lie in `[0, 120]`.
- The inclusive overlap tests never bounce the ball twice off one contact
  (`Game.BounceSendsBallAway`).

Behaviour worth noting:

- The overlap test is inclusive (`>=`/`<=`) on both sides.
- The player paddle moves smoothly toward the target, 3 px per tick at most.
- The CPU paddle tracks the ball perfectly; it is not speed-bounded.
- A miss at the top means `Win`.
- `init_game` does not run at power-on. All entities start at zero in
  `Waiting` and are laid out only when A is accepted. A press within the
  first 200 ms after boot is rejected, because every last-press time starts
  at 0 (`Game.FirstStart`).

## Model

| member | source | states |
|---|---|---|
| Entities.InitGame | ping_pong/main.c:54-70 | Player paddle (54,60,20,3), CPU paddle (54,1,20,3), ball at (60,28) with velocity (3,3) and size 8; phase and button times untouched |
| Entities.InitGameIdempotent | ping_pong/main.c:54-70 | Calling init_game twice equals calling it once |
| Entities.InitGameIgnoresEntities | ping_pong/main.c:54-70 | The layout does not depend on the entities' previous positions |
| Arith.SubU32 | ping_pong/main.c:173 | The uint32_t difference of two times: the plain difference when no wrap occurs, the difference plus 2^32 across a wrap |
| Physics.NormalizeAdc | ping_pong/main.c:110-123 | The normalised sample is in [0, 2800]: 0 below 600, 2800 above 3400, sample − 600 in between |
| Physics.NormalizeIsShiftedClamp | ping_pong/main.c:116-123 | Normalisation equals clamping the sample into [600, 3400] and subtracting 600 |
| Physics.TargetXInRange | ping_pong/main.c:124 | For paddle widths in [0,128] the uint32_t product does not wrap; the target is normalised×(128−width)/2800 and lies in [0, 128−width] |
| Physics.TargetXMonotone | ping_pong/main.c:116-124 | A larger joystick sample never gives a smaller target x |
| Physics.MoveToward | ping_pong/main.c:127-133 | The paddle moves toward the target by min(distance, 3), never overshoots, and stays put when already on target |
| Physics.MoveTowardReaches | ping_pong/main.c:127-133 | With a fixed target, the paddle reaches it exactly after n ticks once 3n covers the distance |
| Physics.MoveTowardStaysAtTarget | ping_pong/main.c:127-133 | A paddle on its target stays there over any number of ticks |
| Physics.TrackCpu | ping_pong/main.c:136-140 | Only the CPU x changes; it never extends past the right edge, and for widths in [0,128] it is the ball-centred aim clamped to [0, 128−width] |
| Physics.MoveBall | ping_pong/main.c:143-147 | Position advances by exactly (vx,vy); vx is negated exactly when the new x ≤ 0 or x+size ≥ 128; vy and size unchanged |
| Physics.MoveBallStaysInBand | ping_pong/main.c:143-147 | A ball within abs(vx)−1 px past a wall and heading back stays so after the step and reflection; abs(vx) is unchanged |
| Physics.ResolveTop | ping_pong/main.c:149-156 | At or above the CPU paddle's lower edge with inclusive overlap: vy negated, y snapped to cpu.y+height; no overlap and y ≤ 0: phase Win; otherwise nothing changes |
| Physics.ResolveBottom | ping_pong/main.c:158-165 | Reaching the player paddle row with inclusive overlap: vy negated, y snapped to player.y−size; no overlap and y+size ≥ 64: phase GameOver; otherwise nothing changes |
| Physics.CpuAlwaysCovers | ping_pong/main.c:136-150 | With ball size 8, paddle width 20 and abs(vx) ≤ 3, the CPU paddle placed from the pre-step ball overlaps the ball after its step |
| Physics.UpdateGame | ping_pong/main.c:109-166 | One tick keeps paddle sizes and rows, button times and abs(vx), abs(vy). The player takes exactly one MoveToward step toward the joystick target, so it moves at most 3 px, never away from the target, and stays on screen. The CPU is placed from the pre-step ball. The ball and phase are the result of the ball step, then the top resolution against the new CPU paddle, then the bottom resolution against the new player paddle; so the phase is unchanged, Win or GameOver |
| Buttons.OnButton | ping_pong/main.c:169-196 | The transition table: other pins and presses within 200 ms do nothing; accepted presses record their time; A starts from Waiting; the joystick button toggles Playing/Paused; B resets from every phase but Waiting; no press gives Win |
| Buttons.BounceIsIgnored | ping_pong/main.c:170-195 | After an accepted press, a second press of the same button under 200 ms later (wrapping clock) leaves the state unchanged |
| Buttons.SpacedPressesBothAccepted | ping_pong/main.c:170-195 | Two presses of one button at least 200 ms apart are both accepted |
| Buttons.PauseResumeRoundTrip | ping_pong/main.c:181-187 | Pausing then resuming restores the exact paused state except the joystick button's press time |
| Buttons.RestartThenStart | ping_pong/main.c:173-195 | From any phase but Waiting, B then A gives a fresh Playing layout |
| Game.Step | ping_pong/main.c:244-247 | Outside Playing a main-loop pass changes nothing; in Playing the ball advances and the CPU paddle tracks it |
| Game.StepKeepsInv | ping_pong/main.c:109-166 | A tick keeps the reachable-state invariant, and in particular never produces Win |
| Game.OnButtonKeepsInv | ping_pong/main.c:169-196 | A button press keeps the reachable-state invariant |
| Game.RunKeepsInv | ping_pong/main.c:244-247 | Any sequence of ticks and presses keeps the reachable-state invariant |
| Game.WinUnreachable | ping_pong/main.c:149-156 | From power-on, no sequence of ticks and presses reaches Win |
| Game.ReachableCoordinatesOnScreen | ping_pong/main.c:143-165 | During a round, ball x ∈ [0, 128−size] = [0,120] (the ball never leaves the screen sideways), ball y ∈ [4,58], both paddles' x ∈ [0,108]; so 32-bit int arithmetic never overflows |
| Game.BounceSendsBallAway | ping_pong/main.c:149-165 | When a tick flips vy, the ball sits on the paddle it touched and now heads away from it |
| Game.FrozenUnlessPlaying | ping_pong/main.c:245-247 | Outside Playing, any number of main-loop passes leaves the state unchanged |
| Game.FirstStart | ping_pong/main.c:170-178 | After power-on, an A press before 200 ms is ignored; a later one starts the first round |

## Left out

- `draw_game` and the display calls: rendering through a display library; ssd1306.h and font.h are not part of this model.
- Hardware bring-up in `main` (I2C, ADC, GPIO, interrupt registration) and `sleep_ms`: these only configure I/O.
- The three LED outputs: each is just a boolean read of the phase.
- `adc_read()` and `to_ms_since_boot(get_absolute_time())`: these hardware reads become the `adcSample` and `now` parameters.
- The `events` argument of `gpio_callback`: the handler never reads it.
- Interrupt preemption and `volatile`: button presses and ticks are atomic steps applied one after another to one state.
- Signed 32-bit `int` overflow in the ball, paddle and CPU arithmetic: the model uses unbounded integers. `Game.ReachableCoordinatesOnScreen` shows that every reachable coordinate stays on the 128×64 screen, so no overflow can occur. Only the `uint32_t` target computation and the debounce subtraction, which can wrap, are modelled with explicit wrap-around.
- Game.Step: for Playing, its contract only says that the ball advances and the CPU paddle tracks. The full effect of a tick is stated by `Physics.UpdateGame` and the resolution functions it is built from.
