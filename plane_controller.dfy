/** Flight integration: bank turns the heading, the heading is wrapped into
    [0, 360), and the plane moves along its unit forward vector. */
module PlaneController {
  import opened Numerics
  import opened Core

  /** Degrees of yaw per second per degree of roll. */
  const TurnRate: real := 0.5

  /** The reference meaning of a wrapped heading: the representative of
      `y` modulo 360 in [0, 360). */
  function WrapDegrees(y: real): real {
    y - 360.0 * ((y / 360.0).Floor as real)
  }

  /** The wrapped heading lies in [0, 360) and differs from its input by a
      whole number of turns. */
  lemma WrapDegreesRange(y: real)
    ensures 0.0 <= WrapDegrees(y) < 360.0
  {
    var k := (y / 360.0).Floor;
    assert k as real <= y / 360.0 < k as real + 1.0;
  }

  /** Any value in [0, 360) that differs from `y` by whole turns is the
      wrapped heading. */
  lemma WrapDegreesUnique(y: real, r: real, k: int)
    requires 0.0 <= r < 360.0
    requires r == y + 360.0 * (k as real)
    ensures WrapDegrees(y) == r
  {
    var q := y / 360.0;
    assert q == r / 360.0 - k as real;
    assert (-k) as real <= q < (-k) as real + 1.0;
    assert q.Floor == -k;
  }

  /** Wrapping leaves a heading already in [0, 360) unchanged. */
  lemma WrapDegreesIdempotent(y: real)
    requires 0.0 <= y < 360.0
    ensures WrapDegrees(y) == y
  {
    WrapDegreesUnique(y, y, 0);
  }

  /** The two correcting loops of the simulation: add 360 while negative,
      then subtract 360 while at or above 360. */
  method NormalizeYaw(yaw: real) returns (r: real)
    ensures 0.0 <= r < 360.0
    ensures r == WrapDegrees(yaw)
  {
    r := yaw;
    ghost var turns: int := 0;
    while r < 0.0
      invariant r == yaw + 360.0 * (turns as real)
      invariant yaw < 0.0 ==> r < 360.0
      invariant yaw >= 0.0 ==> r == yaw
      decreases (-r).Floor
    {
      r := r + 360.0;
      turns := turns + 1;
    }
    while r >= 360.0
      invariant r == yaw + 360.0 * (turns as real)
      invariant 0.0 <= r
      decreases r.Floor
    {
      r := r - 360.0;
      turns := turns - 1;
    }
    WrapDegreesUnique(yaw, r, turns);
  }

  /** The direction of flight for the given heading and pitch, normalised
      as glm::normalize does it. */
  function CalculateForwardVector(m: Math, s: PlaneState): (f: Vec3)
    requires ValidMath(m)
    ensures IsUnit(f)
    ensures f == Vec3(m.sin(Radians(s.yaw)) * m.cos(Radians(s.pitch)),
                      -m.sin(Radians(s.pitch)),
                      m.cos(Radians(s.yaw)) * m.cos(Radians(s.pitch)))
    ensures s.pitch == 0.0 ==> f.y == 0.0
  {
    var yawRad := Radians(s.yaw);
    var pitchRad := Radians(s.pitch);
    var forward := Vec3(m.sin(yawRad) * m.cos(pitchRad), -m.sin(pitchRad), m.cos(yawRad) * m.cos(pitchRad));
    RawForwardIsUnit(m, yawRad, pitchRad);
    Normalize(m, forward)
  }

  /** The raw forward vector already has length 1, so normalising it does
      not change it. */
  lemma RawForwardIsUnit(m: Math, yawRad: real, pitchRad: real)
    requires ValidMath(m)
    ensures var v := Vec3(m.sin(yawRad) * m.cos(pitchRad), -m.sin(pitchRad), m.cos(yawRad) * m.cos(pitchRad));
            Dot(v, v) == 1.0 && m.sqrt(Dot(v, v)) == 1.0
  {
    var sy, cy, sp, cp := m.sin(yawRad), m.cos(yawRad), m.sin(pitchRad), m.cos(pitchRad);
    assert sy * sy + cy * cy == 1.0;
    assert sp * sp + cp * cp == 1.0;
    calc {
      (sy * cp) * (sy * cp) + (-sp) * (-sp) + (cy * cp) * (cy * cp);
      (sy * sy + cy * cy) * (cp * cp) + sp * sp;
      cp * cp + sp * sp;
      1.0;
    }
  }

  /** One integration step: the roll turns the heading, the heading is
      wrapped, then the plane advances by speed * dt along its forward
      vector.  Nothing else changes. */
  method UpdateFlightDynamics(m: Math, s: PlaneState, deltaTime: real) returns (t: PlaneState)
    requires ValidMath(m)
    ensures t.yaw == WrapDegrees(s.yaw - s.roll * TurnRate * deltaTime)
    ensures 0.0 <= t.yaw < 360.0
    ensures t == s.(yaw := t.yaw, position := t.position)
    ensures var f := CalculateForwardVector(m, s.(yaw := t.yaw));
            IsUnit(f) && t.position == Add(s.position, Scale(f, s.speed * deltaTime))
    ensures s.pitch == 0.0 ==> t.position.y == s.position.y
  {
    var yaw := s.yaw - s.roll * TurnRate * deltaTime;
    yaw := NormalizeYaw(yaw);

    var forward := CalculateForwardVector(m, s.(yaw := yaw));
    var position := Add(s.position, Scale(forward, s.speed * deltaTime));
    t := s.(yaw := yaw, position := position);
  }
}
