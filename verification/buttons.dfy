/**
 The button interrupt handler (`gpio_callback`): button A starts a round,
 the joystick button pauses and resumes, button B restarts. Each button has
 its own 200 ms debounce measured on the 32-bit millisecond clock.
 */
module Buttons {
  import opened Arith
  import opened Entities

  const ButtonA: U32 := 5
  const ButtonB: U32 := 6
  const JoystickButton: U32 := 22
  const DebounceMs: int := 200

  predicate IsButton(gpio: U32) {
    gpio == ButtonA || gpio == ButtonB || gpio == JoystickButton
  }

  /** The last accepted press time of the given button. */
  function LastPress(s: GameState, gpio: U32): U32
    requires IsButton(gpio)
  {
    if gpio == ButtonA then s.lastA else if gpio == ButtonB then s.lastB else s.lastJ
  }

  /** A press is accepted when at least 200 ms have passed since the last one, counted with 32-bit wrap-around. */
  predicate Accepted(now: U32, last: U32) {
    SubU32(now, last) >= DebounceMs
  }

  function PressA(s: GameState, gpio: U32, now: U32): GameState {
    if gpio == ButtonA && Accepted(now, s.lastA) then
      if s.phase == Waiting then InitGame(s).(lastA := now, phase := Playing)
      else s.(lastA := now)
    else s
  }

  function PressJoystick(s: GameState, gpio: U32, now: U32): GameState {
    if gpio == JoystickButton && Accepted(now, s.lastJ) then
      if s.phase == Playing then s.(lastJ := now, phase := Paused)
      else if s.phase == Paused then s.(lastJ := now, phase := Playing)
      else s.(lastJ := now)
    else s
  }

  function PressB(s: GameState, gpio: U32, now: U32): GameState {
    if gpio == ButtonB && Accepted(now, s.lastB) then
      if s.phase == Playing || s.phase == Paused || s.phase == GameOver || s.phase == Win then
        InitGame(s).(lastB := now, phase := Waiting)
      else s.(lastB := now)
    else s
  }

  /**
   The interrupt handler: the three button checks in the order the source
   makes them. The contract is the transition table.
   */
  function OnButton(s: GameState, gpio: U32, now: U32): (r: GameState)
    // Other pins and presses inside the debounce window change nothing.
    ensures !IsButton(gpio) ==> r == s
    ensures IsButton(gpio) && !Accepted(now, LastPress(s, gpio)) ==> r == s
    // An accepted press records its time, whatever the phase.
    ensures IsButton(gpio) && Accepted(now, LastPress(s, gpio)) ==> LastPress(r, gpio) == now
    // No press touches another button's timestamp.
    ensures gpio != ButtonA ==> r.lastA == s.lastA
    ensures gpio != ButtonB ==> r.lastB == s.lastB
    ensures gpio != JoystickButton ==> r.lastJ == s.lastJ
    // Button A: starts a fresh round from Waiting only.
    ensures gpio == ButtonA && Accepted(now, s.lastA) && s.phase == Waiting ==>
      r == InitGame(s).(lastA := now, phase := Playing)
    ensures gpio == ButtonA && Accepted(now, s.lastA) && s.phase != Waiting ==> r == s.(lastA := now)
    // Joystick button: toggles Playing and Paused, nothing else.
    ensures gpio == JoystickButton && Accepted(now, s.lastJ) && s.phase == Playing ==>
      r == s.(lastJ := now, phase := Paused)
    ensures gpio == JoystickButton && Accepted(now, s.lastJ) && s.phase == Paused ==>
      r == s.(lastJ := now, phase := Playing)
    ensures gpio == JoystickButton && Accepted(now, s.lastJ) && s.phase != Playing && s.phase != Paused ==>
      r == s.(lastJ := now)
    // Button B: from every phase but Waiting, back to a fresh Waiting.
    ensures gpio == ButtonB && Accepted(now, s.lastB) && s.phase != Waiting ==>
      r == InitGame(s).(lastB := now, phase := Waiting)
    ensures gpio == ButtonB && Accepted(now, s.lastB) && s.phase == Waiting ==> r == s.(lastB := now)
    // No button ever declares a win.
    ensures r.phase == Win ==> s.phase == Win
  {
    PressB(PressJoystick(PressA(s, gpio, now), gpio, now), gpio, now)
  }

  /**
   Contact bounce: once a press is accepted, a second press of the same
   button less than 200 ms later (on the wrapping clock) changes nothing,
   so one physical press makes at most one transition.
   */
  lemma BounceIsIgnored(s: GameState, gpio: U32, t1: U32, t2: U32)
    requires IsButton(gpio)
    requires Accepted(t1, LastPress(s, gpio))
    requires SubU32(t2, t1) < DebounceMs
    ensures OnButton(OnButton(s, gpio, t1), gpio, t2) == OnButton(s, gpio, t1)
  {
  }

  /** Two presses at least 200 ms apart are both accepted. */
  lemma SpacedPressesBothAccepted(s: GameState, gpio: U32, t1: U32, t2: U32)
    requires IsButton(gpio)
    requires Accepted(t1, LastPress(s, gpio))
    requires SubU32(t2, t1) >= DebounceMs
    ensures LastPress(OnButton(s, gpio, t1), gpio) == t1
    ensures LastPress(OnButton(OnButton(s, gpio, t1), gpio, t2), gpio) == t2
  {
  }

  /** Pausing and then resuming gives back the exact state that was paused. */
  lemma PauseResumeRoundTrip(s: GameState, t1: U32, t2: U32)
    requires s.phase == Playing
    requires Accepted(t1, s.lastJ)
    requires SubU32(t2, t1) >= DebounceMs
    ensures OnButton(s, JoystickButton, t1).phase == Paused
    ensures OnButton(OnButton(s, JoystickButton, t1), JoystickButton, t2) == s.(lastJ := t2)
  {
  }

  /** Restart then start: from any phase but Waiting, B followed by A begins a fresh round. */
  lemma RestartThenStart(s: GameState, t1: U32, t2: U32)
    requires s.phase != Waiting
    requires Accepted(t1, s.lastB)
    requires Accepted(t2, s.lastA)
    ensures OnButton(s, ButtonB, t1).phase == Waiting
    ensures OnButton(OnButton(s, ButtonB, t1), ButtonA, t2)
         == InitGame(s).(lastA := t2, lastB := t1, phase := Playing)
  {
  }
}
