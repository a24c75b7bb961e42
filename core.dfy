/** The per-aircraft record that every system reads and updates, and the
    mouse bookkeeping of the chase camera. */
module Core {
  import opened Numerics

  /** Mutable flight parameters, updated every frame.  Both structs are passed
      by reference in the simulation; here an update takes the old value and
      returns the new one. */
  datatype PlaneState = PlaneState(
    position: Vec3,
    pitch: real,
    yaw: real,
    roll: real,
    baseSpeed: real,
    speed: real,
    health: real,
    isAlive: bool,
    boosterMaxFuelSeconds: real,
    boosterRechargeSeconds: real,
    boosterSpeedMultiplier: real,
    boosterRampUpSeconds: real,
    boosterRampDownSeconds: real,
    boosterFuelSeconds: real,
    boostHeld: bool,
    isBoosting: bool,
    boosterExhausted: bool,
    pitchInputTime: real,
    rollInputTime: real,
    fireCooldown: real,
    fireRatePerSec: real)

  /** Health stays within 0..100 and the plane is alive exactly while it has
      health left. */
  predicate HealthInvariant(s: PlaneState) {
    0.0 <= s.health <= 100.0 && (s.isAlive <==> s.health > 0.0)
  }

  /** The tuning constants of the booster are usable as they are. */
  predicate BoosterConfigPositive(s: PlaneState) {
    && s.boosterMaxFuelSeconds > 0.0
    && s.boosterRechargeSeconds > 0.0
    && s.boosterSpeedMultiplier > 0.0
    && s.boosterRampUpSeconds > 0.0
    && s.boosterRampDownSeconds > 0.0
  }

  /** The state of a fresh plane, with the default member initialisers. */
  function DefaultPlaneState(): (s: PlaneState)
    ensures s.boosterFuelSeconds == s.boosterMaxFuelSeconds == 3.0
    ensures s.speed == s.baseSpeed == 25.0
    ensures s.health == 100.0 && s.isAlive && HealthInvariant(s)
    ensures !s.boostHeld && !s.isBoosting && !s.boosterExhausted
    ensures s.pitchInputTime == 0.0 && s.rollInputTime == 0.0
    ensures s.fireCooldown == 0.0 && s.fireRatePerSec == 8.0
    ensures BoosterConfigPositive(s)
    ensures s.boosterSpeedMultiplier >= 1.0
  {
    PlaneState(
      position := Vec3(100.0, 26.0, 0.0),
      pitch := 0.0,
      yaw := 0.0,
      roll := 0.0,
      baseSpeed := 25.0,
      speed := 25.0,
      health := 100.0,
      isAlive := true,
      boosterMaxFuelSeconds := 3.0,
      boosterRechargeSeconds := 5.0,
      boosterSpeedMultiplier := 5.0,
      boosterRampUpSeconds := 0.5,
      boosterRampDownSeconds := 0.5,
      boosterFuelSeconds := 3.0,
      boostHeld := false,
      isBoosting := false,
      boosterExhausted := false,
      pitchInputTime := 0.0,
      rollInputTime := 0.0,
      fireCooldown := 0.0,
      fireRatePerSec := 8.0)
  }

  const ScreenWidth: nat := 1920
  const ScreenHeight: nat := 1080

  /** The chase camera's mouse bookkeeping.  The camera itself is not part of
      this model: the offsets it would receive are returned instead. */
  datatype CameraRig = CameraRig(lastX: real, lastY: real, firstMouse: bool)

  /** The rig at start-up: centred cursor, first move not seen yet. */
  function DefaultCameraRig(): CameraRig {
    CameraRig(ScreenWidth as real / 2.0, ScreenHeight as real / 2.0, true)
  }
}
