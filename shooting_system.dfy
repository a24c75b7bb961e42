/** Bullets: fired from the plane's position along its forward vector at a
    fixed speed, advanced every frame and dropped when their lifetime runs
    out. */
module Shooting {
  import opened Numerics
  import opened Core
  import opened Sequences
  import PlaneController

  /** Units per second. */
  const BulletSpeed: real := 80.0
  /** Seconds a fired bullet lives. */
  const BulletLifetime: real := 3.0
  const BulletRadius: real := 0.5

  datatype Bullet = Bullet(position: Vec3, velocity: Vec3, radius: real, lifetime: real)

  /** A bullet is kept while some lifetime remains. */
  predicate Live(b: Bullet) {
    !(b.lifetime <= 0.0)
  }

  /** One frame of flight: move by velocity * dt and age by dt. */
  function Advance(b: Bullet, deltaTime: real): (r: Bullet)
    ensures r.velocity == b.velocity && r.radius == b.radius
    ensures r.lifetime == b.lifetime - deltaTime
    ensures r.position == Add(b.position, Scale(b.velocity, deltaTime))
  {
    b.(position := Add(b.position, Scale(b.velocity, deltaTime)), lifetime := b.lifetime - deltaTime)
  }

  /** The bullet list after one update: every bullet advanced, the expired
      ones removed, the rest in their original order. */
  function Step(bullets: seq<Bullet>, deltaTime: real): seq<Bullet> {
    Filter(MapSeq(bullets, b => Advance(b, deltaTime)), Live)
  }

  /** After an update every remaining bullet has lifetime left, no bullet
      is added, and each advanced bullet that is still live survives as
      often as it occurred before. */
  lemma StepProperties(bullets: seq<Bullet>, deltaTime: real)
    ensures forall i :: 0 <= i < |Step(bullets, deltaTime)| ==> Step(bullets, deltaTime)[i].lifetime > 0.0
    ensures |Step(bullets, deltaTime)| <= |bullets|
    ensures forall b :: multiset(Step(bullets, deltaTime))[b] ==
              if Live(b) then multiset(MapSeq(bullets, b' => Advance(b', deltaTime)))[b] else 0
  {
    var advanced := MapSeq(bullets, b => Advance(b, deltaTime));
    FilterKept(advanced, Live);
    forall b
      ensures multiset(Step(bullets, deltaTime))[b] == if Live(b) then multiset(advanced)[b] else 0
    {
      FilterMultiset(advanced, Live, b);
    }
  }

  /** When every bullet outlives the frame, the update only advances them. */
  lemma StepWithoutExpiry(bullets: seq<Bullet>, deltaTime: real)
    requires forall i :: 0 <= i < |bullets| ==> bullets[i].lifetime > deltaTime
    ensures |Step(bullets, deltaTime)| == |bullets|
    ensures forall i :: 0 <= i < |bullets| ==> Step(bullets, deltaTime)[i] == Advance(bullets[i], deltaTime)
  {
    FilterAllKept(MapSeq(bullets, b => Advance(b, deltaTime)), Live);
  }

  /** Updates of two lists of bullets compose: the update treats bullets
      independently. */
  lemma StepAppend(a: seq<Bullet>, b: seq<Bullet>, deltaTime: real)
    ensures Step(a + b, deltaTime) == Step(a, deltaTime) + Step(b, deltaTime)
  {
    var f := x => Advance(x, deltaTime);
    assert MapSeq(a + b, f) == MapSeq(a, f) + MapSeq(b, f);
    FilterAppend(MapSeq(a, f), MapSeq(b, f), Live);
  }

  /** The bullet fired by a plane: at the plane's position, along its unit
      forward vector at BulletSpeed, with the full lifetime. */
  function NewBullet(m: Math, s: PlaneState): (b: Bullet)
    requires ValidMath(m)
    ensures b.position == s.position
    ensures b.velocity == Scale(PlaneController.CalculateForwardVector(m, s), BulletSpeed)
    ensures Dot(b.velocity, b.velocity) == BulletSpeed * BulletSpeed
    ensures b.radius == BulletRadius && b.lifetime == BulletLifetime
  {
    var yawRad := Radians(s.yaw);
    var pitchRad := Radians(s.pitch);
    var forward := Normalize(m, Vec3(m.sin(yawRad) * m.cos(pitchRad), -m.sin(pitchRad), m.cos(yawRad) * m.cos(pitchRad)));
    PlaneController.RawForwardIsUnit(m, yawRad, pitchRad);
    assert forward == PlaneController.CalculateForwardVector(m, s);
    UnitScaled(forward, BulletSpeed);
    Bullet(s.position, Scale(forward, BulletSpeed), BulletRadius, BulletLifetime)
  }

  /** A unit vector scaled by k has squared length k * k. */
  lemma UnitScaled(v: Vec3, k: real)
    requires IsUnit(v)
    ensures Dot(Scale(v, k), Scale(v, k)) == k * k
  {
    calc {
      Dot(Scale(v, k), Scale(v, k));
      (v.x * k) * (v.x * k) + (v.y * k) * (v.y * k) + (v.z * k) * (v.z * k);
      (v.x * v.x + v.y * v.y + v.z * v.z) * (k * k);
      { assert Dot(v, v) == 1.0; }
      k * k;
    }
  }

  class ShootingSystem {
    var bullets: seq<Bullet>

    constructor ()
      ensures bullets == []
    {
      bullets := [];
    }

    /** Appends the bullet the plane fires now. */
    method FireBullet(m: Math, s: PlaneState)
      requires ValidMath(m)
      modifies this`bullets
      ensures bullets == old(bullets) + [NewBullet(m, s)]
    {
      var bullet := NewBullet(m, s);
      bullets := bullets + [bullet];
    }

    /** Advances every bullet in place, then erases the expired ones. */
    method Update(deltaTime: real)
      modifies this`bullets
      ensures bullets == Step(old(bullets), deltaTime)
    {
      if |bullets| == 0 {
        return;
      }

      for i := 0 to |bullets|
        invariant |bullets| == |old(bullets)|
        invariant forall j :: 0 <= j < i ==> bullets[j] == Advance(old(bullets)[j], deltaTime)
        invariant forall j :: i <= j < |bullets| ==> bullets[j] == old(bullets)[j]
      {
        var bullet := bullets[i];
        bullet := bullet.(position := Add(bullet.position, Scale(bullet.velocity, deltaTime)));
        bullet := bullet.(lifetime := bullet.lifetime - deltaTime);
        bullets := bullets[i := bullet];
      }

      assert bullets == MapSeq(old(bullets), b => Advance(b, deltaTime));
      bullets := Filter(bullets, Live);
    }
  }
}
