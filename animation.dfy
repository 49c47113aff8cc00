/** The per-frame state update at the end of `render`: speed easing toward the
    slider's target, blade and rotor angle accumulation, and the oscillation
    phase. Speeds and angles (in degrees) are reals. */
module Animation {

  /** Largest speed change per frame. */
  const Acceleration: real := 0.5
  /** No easing happens while the speed is within this of the target. */
  const DeadBand: real := 0.1
  /** Degrees the blades turn per frame per unit of speed. */
  const BladeRate: real := 0.15
  /** Degrees the hub turns per frame, whatever the speed. */
  const RotorStep: real := 2.0
  /** Oscillation phase advance per frame per unit of oscillation speed. */
  const PhaseRate: real := 0.02

  function Abs(x: real): real {
    if x < 0.0 then -x else x
  }

  function Min(a: real, b: real): real {
    if a <= b then a else b
  }

  function Max(a: real, b: real): real {
    if a >= b then a else b
  }

  /** r lies on the closed segment from a to b. */
  predicate Between(a: real, r: real, b: real) {
    (a <= r <= b) || (b <= r <= a)
  }

  /** The momentum rule: the speed after one frame. Within the dead band it is
      left as it is; otherwise it moves toward the target by at most one step
      and never past it, so its distance to the target shrinks by exactly one
      step or reaches zero. */
  function Eased(current: real, target: real): (r: real)
    ensures Abs(current - target) <= DeadBand ==> r == current
    ensures Abs(current - target) > DeadBand ==>
      Between(current, r, target) && Abs(r - current) <= Acceleration &&
      Abs(r - target) == Max(Abs(current - target) - Acceleration, 0.0)
    ensures Abs(r - target) <= Abs(current - target)
  {
    if Abs(current - target) > DeadBand then
      if current < target then Min(target, current + Acceleration) else Max(target, current - Acceleration)
    else
      current
  }

  /** The animated quantities of the fan. */
  datatype Motion = Motion(currentSpeed: real, targetSpeed: real, bladeAngle: real, rotorAngle: real)

  /** One frame: ease the speed, turn the blades by the new speed, turn the hub
      by a fixed step. */
  function Advance(m: Motion): Motion {
    var speed := Eased(m.currentSpeed, m.targetSpeed);
    Motion(speed, m.targetSpeed, m.bladeAngle + speed * BladeRate, m.rotorAngle + RotorStep)
  }

  /** n frames. */
  function Run(n: nat, m: Motion): Motion {
    if n == 0 then m else Advance(Run(n - 1, m))
  }

  /** The blades turn by the speed after easing, not before: from rest with a
      far target they already move in the first frame. */
  lemma BladesUseEasedSpeed(m: Motion)
    ensures Advance(m).bladeAngle - m.bladeAngle == Advance(m).currentSpeed * BladeRate
    ensures m.currentSpeed == 0.0 && m.targetSpeed > DeadBand ==> Advance(m).bladeAngle > m.bladeAngle
  {
  }

  /** The hub turns 2 degrees every frame whatever the speed, including at
      rest, and the target is never changed by the animation. */
  lemma {:induction false} RotorTurnsSteadily(n: nat, m: Motion)
    ensures Run(n, m).rotorAngle == m.rotorAngle + n as real * RotorStep
    ensures Run(n, m).targetSpeed == m.targetSpeed
  {
    if n > 0 {
      RotorTurnsSteadily(n - 1, m);
    }
  }

  /** Spinning up from rest to full speed 60: after k <= 120 frames the speed
      is exactly k/2, and it is 60 from frame 120 on. */
  lemma {:induction false} SpinUp(k: nat, bladeAngle: real, rotorAngle: real)
    ensures var s := Run(k, Motion(0.0, 60.0, bladeAngle, rotorAngle)).currentSpeed;
      if k <= 120 then s == k as real * Acceleration else s == 60.0
  {
    if k > 0 {
      var m := Motion(0.0, 60.0, bladeAngle, rotorAngle);
      SpinUp(k - 1, bladeAngle, rotorAngle);
      RotorTurnsSteadily(k - 1, m);
      var prev := Run(k - 1, m);
      assert Run(k, m).currentSpeed == Eased(prev.currentSpeed, 60.0);
      if k <= 120 {
        assert prev.currentSpeed == (k - 1) as real * Acceleration;
      }
    }
  }

  /** Once within the dead band the speed never changes again: there is no
      final snap onto the target. */
  lemma {:induction false} Settled(n: nat, m: Motion)
    requires Abs(m.currentSpeed - m.targetSpeed) <= DeadBand
    ensures Run(n, m).currentSpeed == m.currentSpeed
  {
    if n > 0 {
      Settled(n - 1, m);
      RotorTurnsSteadily(n - 1, m);
    }
  }

  /** The distance to the target shrinks by a full step every frame until it is
      within the dead band. */
  lemma {:induction false} Converges(n: nat, m: Motion)
    ensures Abs(Run(n, m).currentSpeed - m.targetSpeed)
            <= Max(Abs(m.currentSpeed - m.targetSpeed) - n as real * Acceleration, DeadBand)
  {
    if n > 0 {
      Converges(n - 1, m);
      RotorTurnsSteadily(n - 1, m);
    }
  }

  /** With a non-negative speed and target the speed stays non-negative, so
      the blades never turn backwards. */
  lemma {:induction false} BladesNeverReverse(n: nat, m: Motion)
    requires m.currentSpeed >= 0.0 && m.targetSpeed >= 0.0
    ensures Run(n, m).currentSpeed >= 0.0
    ensures Run(n, m).bladeAngle >= m.bladeAngle
  {
    if n > 0 {
      BladesNeverReverse(n - 1, m);
      RotorTurnsSteadily(n - 1, m);
    }
  }

  /** The oscillation controls and the yaw they drive. */
  datatype Swing = Swing(oscillating: bool, speed: real, range: real, phase: real, yaw: real)

  /** A sine value in [-1, 1] times a non-negative range lies within that
      range either way. */
  lemma ScaleWithin(v: real, r: real, p: real)
    requires -1.0 <= v <= 1.0 && r >= 0.0 && p == v * r
    ensures -r <= p <= r
  {
    NonNegative(1.0 - v, r);
    NonNegative(1.0 + v, r);
  }

  lemma NonNegative(a: real, b: real)
    requires a >= 0.0 && b >= 0.0
    ensures a * b >= 0.0
  {
  }

  /** One frame of oscillation: when it is on, the phase advances and the yaw
      is sine(phase) times the range; `sine` stands for `Math.sin`. When it is
      off nothing changes, so the yaw keeps the slider's value. */
  function Oscillated(s: Swing, sine: real -> real): Swing {
    if s.oscillating then
      var phase := s.phase + s.speed * PhaseRate;
      s.(phase := phase, yaw := sine(phase) * s.range)
    else
      s
  }

  /** n frames of oscillation. */
  function Oscillations(n: nat, s: Swing, sine: real -> real): Swing {
    if n == 0 then s else Oscillated(Oscillations(n - 1, s, sine), sine)
  }

  /** With a sine bounded by 1 and a non-negative range, an oscillating fan
      never turns further than the range either way. */
  lemma SwingWithinRange(s: Swing, sine: real -> real)
    requires s.oscillating && s.range >= 0.0
    requires forall a :: -1.0 <= sine(a) <= 1.0
    ensures -s.range <= Oscillated(s, sine).yaw <= s.range
  {
    var phase := s.phase + s.speed * PhaseRate;
    ScaleWithin(sine(phase), s.range, Oscillated(s, sine).yaw);
  }

  /** After n frames the phase has advanced by n * speed * 0.02 when
      oscillating and not at all otherwise; the controls never change. */
  lemma {:induction false} PhaseAdvances(n: nat, s: Swing, sine: real -> real)
    ensures var r := Oscillations(n, s, sine);
      r.oscillating == s.oscillating && r.speed == s.speed && r.range == s.range &&
      r.phase == (if s.oscillating then s.phase + n as real * s.speed * PhaseRate else s.phase)
    ensures !s.oscillating ==> Oscillations(n, s, sine) == s
  {
    if n > 0 {
      PhaseAdvances(n - 1, s, sine);
    }
  }
}
