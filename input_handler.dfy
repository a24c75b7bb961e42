/** Keyboard flight controls and mouse-look bookkeeping.  The window's key
    states arrive as booleans; closing the window is returned as a request. */
module InputHandler {
  import opened Numerics
  import opened Core
  import PlaneController

  /** Degrees per second of pitch or roll while a key is held. */
  const RotationSpeed: real := 10.0
  /** Units per second squared of throttle while a key is held. */
  const Acceleration: real := 10.0

  /** Which keys are down this frame. */
  datatype Keys = Keys(escape: bool, w: bool, s: bool, d: bool, a: bool, z: bool, x: bool)

  /** The net change from a pair of opposing keys that each move a value by
      `step`: +step, -step, or nothing when both or neither are held. */
  function KeyDelta(positive: bool, negative: bool, step: real): (r: real)
    ensures positive == negative ==> r == 0.0
    ensures positive && !negative ==> r == step
    ensures !positive && negative ==> r == -step
  {
    (if positive then step else 0.0) - (if negative then step else 0.0)
  }

  /** One frame of keyboard input: W/S pitch, D/A roll, Z/X throttle, each
      followed by its clamp, and the heading rewrapped. */
  method ProcessInput(p: PlaneState, keys: Keys, deltaTime: real) returns (t: PlaneState, closeWindow: bool)
    ensures closeWindow == keys.escape
    ensures t == p.(pitch := t.pitch, roll := t.roll, yaw := t.yaw, speed := t.speed)
    ensures t.pitch == Clamp(p.pitch + KeyDelta(keys.w, keys.s, RotationSpeed * deltaTime), -89.0, 89.0)
    ensures t.roll == Clamp(p.roll + KeyDelta(keys.d, keys.a, RotationSpeed * deltaTime), -45.0, 45.0)
    ensures t.speed == Clamp(p.speed + KeyDelta(keys.z, keys.x, Acceleration * deltaTime), 1.0, 50.0)
    ensures -89.0 <= t.pitch <= 89.0 && -45.0 <= t.roll <= 45.0 && 1.0 <= t.speed <= 50.0
    // No key turns the heading: it is only rewrapped.
    ensures t.yaw == PlaneController.WrapDegrees(p.yaw) && 0.0 <= t.yaw < 360.0
    // Opposite keys held together cancel before the clamp.
    ensures keys.w == keys.s ==> t.pitch == Clamp(p.pitch, -89.0, 89.0)
    ensures keys.d == keys.a ==> t.roll == Clamp(p.roll, -45.0, 45.0)
  {
    closeWindow := keys.escape;

    var pitch := HoldKeys(p.pitch, keys.w, keys.s, RotationSpeed * deltaTime);
    var roll := HoldKeys(p.roll, keys.d, keys.a, RotationSpeed * deltaTime);
    pitch := CapAboveThenBelow(pitch, -89.0, 89.0);

    var yaw := PlaneController.NormalizeYaw(p.yaw);

    roll := CapAboveThenBelow(roll, -45.0, 45.0);

    var speed := HoldKeys(p.speed, keys.z, keys.x, Acceleration * deltaTime);
    speed := CapBelowThenAbove(speed, 1.0, 50.0);

    t := p.(pitch := pitch, yaw := yaw, roll := roll, speed := speed);
  }

  /** A pair of opposing keys: the first adds `step`, the second takes it
      away again. */
  method HoldKeys(value: real, positive: bool, negative: bool, step: real) returns (r: real)
    ensures r == value + KeyDelta(positive, negative, step)
  {
    r := value;
    if positive {
      r := r + step;
    }
    if negative {
      r := r - step;
    }
  }

  /** The pitch and roll limits: the upper bound is checked first. */
  method CapAboveThenBelow(value: real, lo: real, hi: real) returns (r: real)
    requires lo <= hi
    ensures r == Clamp(value, lo, hi)
  {
    r := value;
    if r > hi {
      r := hi;
    }
    if r < lo {
      r := lo;
    }
  }

  /** The throttle limits: the lower bound is checked first. */
  method CapBelowThenAbove(value: real, lo: real, hi: real) returns (r: real)
    requires lo <= hi
    ensures r == Clamp(value, lo, hi)
  {
    r := value;
    if r < lo {
      r := lo;
    }
    if r > hi {
      r := hi;
    }
  }

  /** Mouse-look: the first event only records the cursor; every event
      reports the motion since the last one, with y inverted, and records
      the cursor. */
  method OnMouseMove(xpos: real, ypos: real, rig: CameraRig) returns (next: CameraRig, xoffset: real, yoffset: real)
    ensures next == CameraRig(xpos, ypos, false)
    ensures rig.firstMouse ==> xoffset == 0.0 && yoffset == 0.0
    ensures !rig.firstMouse ==> xoffset == xpos - rig.lastX && yoffset == rig.lastY - ypos
  {
    next := rig;
    if next.firstMouse {
      next := next.(lastX := xpos, lastY := ypos);
      next := next.(firstMouse := false);
    }

    xoffset := xpos - next.lastX;
    yoffset := next.lastY - ypos;

    next := next.(lastX := xpos, lastY := ypos);
  }
}
