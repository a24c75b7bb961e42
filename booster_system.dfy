/** The speed booster: a fuel tank that drains while the boost is held, a
    latch that locks the booster once the tank runs dry until it is full
    again, linear recharge, and an exponential approach of the speed to its
    target. */
module BoosterSystem {
  import opened Numerics
  import opened Core

  /** First-order lag: moves `current` towards `target` by the fraction
      1 - exp(-dt / tau) of the remaining gap. */
  function ExponentialApproach(m: Math, current: real, target: real, deltaTime: real, timeConstantSeconds: real): (r: real)
    requires ValidMath(m)
    ensures Min(current, target) <= r <= Max(current, target)
    ensures deltaTime <= 0.0 ==> r == current
    ensures deltaTime > 0.0 && current < target ==> current < r < target
    ensures deltaTime > 0.0 && target < current ==> target < r < current
  {
    var alpha := LagFraction(m, deltaTime, timeConstantSeconds);
    MoveByFraction(current, target, alpha);
    current + (target - current) * alpha
  }

  /** The fraction of the gap closed in one step, 1 - exp(-dt / tau) with a
      non-negative dt and tau at least 0.001: in [0, 1), zero exactly when
      no time passes. */
  function LagFraction(m: Math, deltaTime: real, timeConstantSeconds: real): (alpha: real)
    requires ValidMath(m)
    ensures 0.0 <= alpha < 1.0
    ensures deltaTime <= 0.0 ==> alpha == 0.0
    ensures deltaTime > 0.0 ==> 0.0 < alpha
  {
    var safeDt := Max(0.0, deltaTime);
    var tau := Max(0.001, timeConstantSeconds);
    assert 0.0 <= safeDt / tau by { DivNonNegative(safeDt, tau); }
    assert deltaTime > 0.0 ==> 0.0 < safeDt / tau by {
      if deltaTime > 0.0 { DivPositive(safeDt, tau); }
    }
    assert deltaTime <= 0.0 ==> -safeDt / tau == 0.0;
    1.0 - m.exp(-safeDt / tau)
  }

  /** Moving by a fraction in [0, 1) of the gap stays within the gap, and
      strictly inside it for a positive fraction. */
  lemma MoveByFraction(current: real, target: real, alpha: real)
    requires 0.0 <= alpha < 1.0
    ensures Min(current, target) <= current + (target - current) * alpha <= Max(current, target)
    ensures 0.0 < alpha && current < target ==> current < current + (target - current) * alpha < target
    ensures 0.0 < alpha && target < current ==> target < current + (target - current) * alpha < current
  {
    var gap := target - current;
    MulNonNegative(if gap >= 0.0 then gap else -gap, alpha);
    MulNonNegative(if gap >= 0.0 then gap else -gap, 1.0 - alpha);
    assert gap * (1.0 - alpha) == gap - gap * alpha;
    if 0.0 < alpha && gap != 0.0 {
      MulPositive(if gap > 0.0 then gap else -gap, alpha);
      MulPositive(if gap > 0.0 then gap else -gap, 1.0 - alpha);
    }
  }

  /** The tank size, with a negative setting read as an empty tank. */
  function MaxFuel(s: PlaneState): real {
    Max(0.0, s.boosterMaxFuelSeconds)
  }

  function RechargeSeconds(s: PlaneState): real {
    Max(0.001, s.boosterRechargeSeconds)
  }

  /** The stored fuel after it is forced into 0 .. MaxFuel. */
  function ClampedFuel(s: PlaneState): real {
    Clamp(s.boosterFuelSeconds, 0.0, MaxFuel(s))
  }

  /** The booster may fire: not latched, a tank, and fuel in it. */
  predicate CanBoost(s: PlaneState) {
    !s.boosterExhausted && MaxFuel(s) > 0.0 && ClampedFuel(s) > 0.0
  }

  predicate ShouldBoost(s: PlaneState) {
    s.boostHeld && CanBoost(s)
  }

  /** The speed the plane heads for: base speed, multiplied (by at least 1)
      while boosting, never negative. */
  function TargetSpeed(s: PlaneState, boosting: bool): real {
    Max(0.0, s.baseSpeed * (if boosting then Max(1.0, s.boosterSpeedMultiplier) else 1.0))
  }

  function RampSeconds(s: PlaneState, boosting: bool): real {
    if boosting then Max(0.001, s.boosterRampUpSeconds) else Max(0.001, s.boosterRampDownSeconds)
  }

  /** `t` agrees with `s` except in the booster's runtime fields and speed. */
  predicate OnlyBoosterChanged(s: PlaneState, t: PlaneState) {
    t == s.(isBoosting := t.isBoosting, boosterFuelSeconds := t.boosterFuelSeconds,
            boosterExhausted := t.boosterExhausted, speed := t.speed)
  }

  /** One booster tick. */
  method Update(m: Math, s: PlaneState, deltaTime: real) returns (t: PlaneState)
    requires ValidMath(m)
    // A dead plane stops boosting and snaps to base speed; fuel and latch stay.
    ensures !s.isAlive ==> t == s.(isBoosting := false, speed := s.baseSpeed)
    // Otherwise only the booster's runtime fields and the speed change.
    ensures s.isAlive ==> OnlyBoosterChanged(s, t)
    ensures s.isAlive ==> 0.0 <= t.boosterFuelSeconds <= MaxFuel(s)
    // Boosting drains fuel; a tick that drains the tank latches the booster.
    ensures s.isAlive && ShouldBoost(s) ==>
              var drained := ClampedFuel(s) - Max(0.0, deltaTime);
              if drained > 0.0 then t.isBoosting && t.boosterFuelSeconds == drained && !t.boosterExhausted
              else !t.isBoosting && t.boosterFuelSeconds == 0.0 && t.boosterExhausted
    // Any other tick recharges linearly, capped at a full tank, and a full
    // tank releases the latch.
    ensures s.isAlive && !ShouldBoost(s) ==>
              && !t.isBoosting
              && t.boosterFuelSeconds == Min(MaxFuel(s), ClampedFuel(s) + MaxFuel(s) / RechargeSeconds(s) * Max(0.0, deltaTime))
              && (t.boosterExhausted <==> s.boosterExhausted && t.boosterFuelSeconds < MaxFuel(s))
    // The boost needs the button, an unlatched booster, a tank and fuel.
    ensures t.isBoosting ==> s.isAlive && s.boostHeld && !s.boosterExhausted && MaxFuel(s) > 0.0 && ClampedFuel(s) > 0.0
    // The latch: it blocks boosting, and is released only at a full tank.
    ensures s.isAlive && s.boosterExhausted ==> !t.isBoosting
    ensures s.isAlive && s.boosterExhausted && !t.boosterExhausted ==> t.boosterFuelSeconds == MaxFuel(s)
    ensures !s.boosterExhausted && t.boosterExhausted ==> s.boostHeld && t.boosterFuelSeconds == 0.0
    // Speed approaches the target without overshooting it.
    ensures s.isAlive ==> t.speed == ExponentialApproach(m, s.speed, TargetSpeed(s, t.isBoosting), deltaTime, RampSeconds(s, t.isBoosting))
    ensures s.isAlive ==> Min(s.speed, TargetSpeed(s, t.isBoosting)) <= t.speed <= Max(s.speed, TargetSpeed(s, t.isBoosting))
  {
    t := s;
    if !t.isAlive {
      t := t.(isBoosting := false);
      t := t.(speed := t.baseSpeed);
      return;
    }

    t := UpdateFuel(t, deltaTime);

    var multiplier := if t.isBoosting then Max(1.0, t.boosterSpeedMultiplier) else 1.0;
    var targetSpeed := Max(0.0, t.baseSpeed * multiplier);
    var rampSeconds := if t.isBoosting then Max(0.001, t.boosterRampUpSeconds) else Max(0.001, t.boosterRampDownSeconds);
    t := t.(speed := ExponentialApproach(m, t.speed, targetSpeed, deltaTime, rampSeconds));
  }

  /** The fuel and latch part of a tick of a living plane: clamp, drain or
      recharge, latch or release. */
  method UpdateFuel(s: PlaneState, deltaTime: real) returns (t: PlaneState)
    ensures t == s.(isBoosting := t.isBoosting, boosterFuelSeconds := t.boosterFuelSeconds, boosterExhausted := t.boosterExhausted)
    ensures 0.0 <= t.boosterFuelSeconds <= MaxFuel(s)
    ensures ShouldBoost(s) ==>
              var drained := ClampedFuel(s) - Max(0.0, deltaTime);
              if drained > 0.0 then t.isBoosting && t.boosterFuelSeconds == drained && !t.boosterExhausted
              else !t.isBoosting && t.boosterFuelSeconds == 0.0 && t.boosterExhausted
    ensures !ShouldBoost(s) ==>
              && !t.isBoosting
              && t.boosterFuelSeconds == Min(MaxFuel(s), ClampedFuel(s) + MaxFuel(s) / RechargeSeconds(s) * Max(0.0, deltaTime))
              && (t.boosterExhausted <==> s.boosterExhausted && t.boosterFuelSeconds < MaxFuel(s))
  {
    t := s;
    var maxFuel := Max(0.0, t.boosterMaxFuelSeconds);
    var rechargeSeconds := Max(0.001, t.boosterRechargeSeconds);

    t := t.(boosterFuelSeconds := Clamp(t.boosterFuelSeconds, 0.0, maxFuel));

    var canBoost := !t.boosterExhausted && maxFuel > 0.0 && t.boosterFuelSeconds > 0.0;
    var shouldBoost := t.boostHeld && canBoost;
    assert maxFuel == MaxFuel(s) && rechargeSeconds == RechargeSeconds(s);
    assert t == s.(boosterFuelSeconds := ClampedFuel(s)) && shouldBoost == ShouldBoost(s);

    if shouldBoost {
      t := DrainFuel(t, deltaTime);
    } else {
      t := RechargeFuel(t, maxFuel, rechargeSeconds, deltaTime);
    }
  }

  /** The boosting branch: burn the frame's time from the tank; an empty
      tank stops the boost and latches the exhaustion. */
  method DrainFuel(t: PlaneState, deltaTime: real) returns (u: PlaneState)
    ensures var drained := t.boosterFuelSeconds - Max(0.0, deltaTime);
            if drained > 0.0 then u == t.(isBoosting := true, boosterFuelSeconds := drained)
            else u == t.(isBoosting := false, boosterFuelSeconds := 0.0, boosterExhausted := true)
  {
    u := t.(isBoosting := true);
    u := u.(boosterFuelSeconds := Max(0.0, u.boosterFuelSeconds - Max(0.0, deltaTime)));
    if u.boosterFuelSeconds <= 0.0 {
      u := u.(boosterFuelSeconds := 0.0);
      u := u.(isBoosting := false);
      u := u.(boosterExhausted := true);
    }
  }

  /** The idle branch: refill at maxFuel / rechargeSeconds per second up to
      the capacity, and release the exhaustion latch once the tank is full. */
  method RechargeFuel(t: PlaneState, maxFuel: real, rechargeSeconds: real, deltaTime: real) returns (u: PlaneState)
    requires 0.0 <= maxFuel && 0.0 < rechargeSeconds && 0.0 <= t.boosterFuelSeconds <= maxFuel
    ensures u == t.(isBoosting := false, boosterFuelSeconds := u.boosterFuelSeconds, boosterExhausted := u.boosterExhausted)
    ensures u.boosterFuelSeconds == Min(maxFuel, t.boosterFuelSeconds + maxFuel / rechargeSeconds * Max(0.0, deltaTime))
    ensures u.boosterExhausted <==> t.boosterExhausted && u.boosterFuelSeconds < maxFuel
  {
    DivNonNegative(maxFuel, rechargeSeconds);
    MulNonNegative(maxFuel / rechargeSeconds, Max(0.0, deltaTime));
    u := t.(isBoosting := false);
    if maxFuel > 0.0 && u.boosterFuelSeconds < maxFuel {
      var rechargeRate := maxFuel / rechargeSeconds;
      u := u.(boosterFuelSeconds := Min(maxFuel, u.boosterFuelSeconds + rechargeRate * Max(0.0, deltaTime)));
    }
    if u.boosterExhausted && u.boosterFuelSeconds >= maxFuel {
      u := u.(boosterFuelSeconds := maxFuel);
      u := u.(boosterExhausted := false);
    }
  }
}
