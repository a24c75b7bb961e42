/** Ground collision: the highest terrain point under and around the plane
    (heightmap terrain when one is attached, legacy round islands otherwise,
    never below the flat water surface), and the response when the plane
    sinks below it. */
module Physics {
  import opened Numerics
  import opened Core
  import Terrain

  /** The water surface. */
  const GroundLevel: real := 0.0
  /** Number of points sampled on the circle around the plane. */
  const RaycastSamples: nat := 8
  /** Half-extents of a legacy island. */
  const IslandRadiusX: real := 150.0
  const IslandRadiusZ: real := 120.0
  /** Vertical half-extent of an island's dome; zero makes islands flat. */
  const IslandHeightExtent: real := 0.0
  /** 2 pi as the ring sampler writes it. */
  const TwoPi: real := 3.14159265359 * 2.0

  datatype CircleCollider = CircleCollider(center: Vec3, radius: real)

  /** The flat water surface, whatever the position. */
  function GroundHeightAt(x: real, z: real): (h: real)
    ensures h == GroundLevel
  {
    GroundLevel
  }

  /** The distance from the island at `pos` to (x, z), measured in island
      half-extents: below 1 inside the island's ellipse. */
  function IslandDistance(m: Math, pos: Vec3, x: real, z: real): real {
    var dx := x - pos.x;
    var dz := z - pos.z;
    var nx := dx / IslandRadiusX;
    var nz := dz / IslandRadiusZ;
    m.sqrt(nx * nx + nz * nz)
  }

  /** Whether (x, z) lies strictly inside the ellipse of the island at `pos`. */
  predicate OverIsland(m: Math, pos: Vec3, x: real, z: real) {
    IslandDistance(m, pos, x, z) < 1.0
  }

  /** The height of the island dome at (x, z): the smoothstep profile
      scaled by the extent.  With a zero extent every island is flat at its
      own y. */
  function IslandHeight(m: Math, pos: Vec3, x: real, z: real): (h: real)
    ensures h == pos.y
  {
    var t := 1.0 - IslandDistance(m, pos, x, z);
    var heightFactor := t * t * (3.0 - 2.0 * t);
    (pos.y - IslandHeightExtent) + (IslandHeightExtent * 2.0 * heightFactor)
  }

  /** The reference value of the island loop: the highest island covering
      (x, z), if it is above `init`. */
  function IslandFold(m: Math, islands: seq<Vec3>, x: real, z: real, init: real): real {
    if |islands| == 0 then init
    else
      var prev := IslandFold(m, islands[..|islands| - 1], x, z, init);
      var pos := islands[|islands| - 1];
      if OverIsland(m, pos, x, z) && IslandHeight(m, pos, x, z) > prev then IslandHeight(m, pos, x, z) else prev
  }

  /** The island fold is the maximum: at least the initial value and every
      covering island's height, and equal to one of them. */
  lemma {:induction false} IslandFoldIsMax(m: Math, islands: seq<Vec3>, x: real, z: real, init: real)
    ensures IslandFold(m, islands, x, z, init) >= init
    ensures forall j :: 0 <= j < |islands| && OverIsland(m, islands[j], x, z) ==>
              IslandFold(m, islands, x, z, init) >= islands[j].y
    ensures IslandFold(m, islands, x, z, init) == init ||
            exists j :: 0 <= j < |islands| && OverIsland(m, islands[j], x, z) && IslandFold(m, islands, x, z, init) == islands[j].y
  {
    if |islands| > 0 {
      var front := islands[..|islands| - 1];
      IslandFoldIsMax(m, front, x, z, init);
      var prev := IslandFold(m, front, x, z, init);
      var last := |islands| - 1;
      assert forall j :: 0 <= j < last ==> islands[j] == front[j];
      if IslandFold(m, islands, x, z, init) != init && IslandFold(m, islands, x, z, init) == prev {
        var j :| 0 <= j < |front| && OverIsland(m, front[j], x, z) && prev == front[j].y;
        assert islands[j] == front[j];
      }
    }
  }

  /** The angle of the i-th point on the sampling circle. */
  function SampleAngle(i: int): real {
    (TwoPi * i as real) / RaycastSamples as real
  }

  /** The i-th point on the circle of radius `radius` around (x, z). */
  function SampleX(m: Math, x: real, radius: real, i: int): real {
    x + radius * m.cos(SampleAngle(i))
  }

  function SampleZ(m: Math, z: real, radius: real, i: int): real {
    z + radius * m.sin(SampleAngle(i))
  }

  /** The ground response for terrain height `minSafeY`: below it, the
      plane is lifted onto it, loses 0.1 health (dying at zero), has its
      pitch capped at 90 degrees and loses 5% of its speed.  Otherwise
      nothing changes. */
  method ResolveGroundContact(s: PlaneState, minSafeY: real) returns (t: PlaneState, hit: bool)
    ensures hit <==> s.position.y < minSafeY
    ensures !hit ==> t == s
    // The plane is never left below the terrain.
    ensures t.position.y >= minSafeY
    ensures hit ==> t.position.y == minSafeY && t.position.y > s.position.y
    ensures hit ==> t.health == Max(0.0, s.health - 0.1) && (t.isAlive <==> s.isAlive && s.health - 0.1 > 0.0)
    ensures hit ==> t.pitch == Min(s.pitch, 90.0) && t.speed == s.speed * 0.95
    ensures t == s.(position := t.position, health := t.health, isAlive := t.isAlive, pitch := t.pitch, speed := t.speed)
    ensures t.position == s.position.(y := t.position.y)
    // Health never rises, and stays consistent with being alive.
    ensures s.health >= 0.0 ==> t.health <= s.health
    ensures HealthInvariant(s) ==> HealthInvariant(t)
  {
    t := s;
    hit := false;
    if t.position.y < minSafeY {
      t := t.(position := t.position.(y := minSafeY));

      t := t.(health := t.health - 0.1);
      if t.health <= 0.0 {
        t := t.(health := 0.0, isAlive := false);
      }

      t := t.(pitch := t.pitch + 0.0);
      if t.pitch > 90.0 {
        t := t.(pitch := 90.0);
      }

      t := t.(speed := t.speed * 0.95);
      hit := true;
    }
  }

  class CollisionSystem {
    var planeCollider: CircleCollider
    var islandPositions: seq<Vec3>
    var terrainPlane: Terrain.TerrainPlane?

    /** A collider of radius 5 at the origin, no islands, no terrain. */
    constructor ()
      ensures planeCollider == CircleCollider(Zero, 5.0)
      ensures islandPositions == [] && terrainPlane == null
    {
      planeCollider := CircleCollider(Zero, 5.0);
      islandPositions := [];
      terrainPlane := null;
    }

    /** An attached terrain has been generated. */
    ghost predicate Valid()
      reads this, terrainPlane
    {
      terrainPlane != null ==> terrainPlane.Valid()
    }

    /** Records the islands and the terrain, and tightens the collider. */
    method Initialize(islands: seq<Vec3>, terrain: Terrain.TerrainPlane?)
      requires terrain != null ==> terrain.Valid()
      modifies this
      ensures Valid()
      ensures islandPositions == islands && terrainPlane == terrain
      ensures planeCollider == old(planeCollider).(radius := 3.0)
    {
      islandPositions := islands;
      terrainPlane := terrain;
      planeCollider := planeCollider.(radius := 3.0);
    }

    /** The reference terrain height at (x, z): the heightmap, raised to the
        water surface where it is below it, when a terrain is attached;
        otherwise the highest covering island, at least the water surface. */
    function TerrainHeightAt(m: Math, x: real, z: real): real
      reads this, terrainPlane
      requires Valid()
    {
      if terrainPlane != null then
        var terrainHeight := terrainPlane.GetHeightAt(x, z);
        var waterLevel := GroundHeightAt(x, z);
        if terrainHeight > waterLevel then terrainHeight else waterLevel
      else
        IslandFold(m, islandPositions, x, z, GroundHeightAt(x, z))
    }

    /** The terrain is never below the water surface, and never below the
        heightmap when there is one. */
    lemma TerrainHeightAbove(m: Math, x: real, z: real)
      requires Valid()
      ensures TerrainHeightAt(m, x, z) >= GroundLevel
      ensures terrainPlane != null ==> TerrainHeightAt(m, x, z) == Max(GroundLevel, terrainPlane.GetHeightAt(x, z))
      ensures terrainPlane == null ==> forall j :: 0 <= j < |islandPositions| && OverIsland(m, islandPositions[j], x, z) ==>
                TerrainHeightAt(m, x, z) >= islandPositions[j].y
    {
      if terrainPlane == null {
        IslandFoldIsMax(m, islandPositions, x, z, GroundLevel);
      }
    }

    /** Height query with the island loop of the legacy fallback. */
    method GetTerrainHeightAt(m: Math, x: real, z: real) returns (h: real)
      requires Valid()
      ensures h == TerrainHeightAt(m, x, z)
      ensures h >= GroundLevel
    {
      TerrainHeightAbove(m, x, z);
      if terrainPlane != null {
        var terrainHeight := terrainPlane.GetHeightAt(x, z);
        var waterLevel := GroundHeightAt(x, z);
        h := if terrainHeight > waterLevel then terrainHeight else waterLevel;
        return;
      }

      var maxHeight := GroundHeightAt(x, z);
      for i := 0 to |islandPositions|
        invariant maxHeight == IslandFold(m, islandPositions[..i], x, z, GroundHeightAt(x, z))
      {
        var islandPos := islandPositions[i];
        var r := IslandDistance(m, islandPos, x, z);
        if r < 1.0 {
          var t := 1.0 - r;
          var heightFactor := t * t * (3.0 - 2.0 * t);
          var islandHeight := (islandPos.y - IslandHeightExtent) + (IslandHeightExtent * 2.0 * heightFactor);
          maxHeight := if islandHeight > maxHeight then islandHeight else maxHeight;
        }
        ghost var prefix := islandPositions[..i + 1];
        assert prefix[..i] == islandPositions[..i] && prefix[i] == islandPos;
      }
      assert islandPositions[..|islandPositions|] == islandPositions;
      h := maxHeight;
    }

    /** The reference value of the ring sampler after k samples: the
        highest terrain at the centre and the first k points of the circle. */
    function RingMax(m: Math, x: real, z: real, radius: real, k: nat): real
      reads this, terrainPlane
      requires Valid()
    {
      if k == 0 then TerrainHeightAt(m, x, z)
      else
        var prev := RingMax(m, x, z, radius, k - 1);
        var h := TerrainHeightAt(m, SampleX(m, x, radius, k - 1), SampleZ(m, z, radius, k - 1));
        if h > prev then h else prev
    }

    /** The ring maximum is at least the terrain at the centre and at each
        of the sampled points, and at least the water surface. */
    lemma {:induction false} RingMaxIsUpperBound(m: Math, x: real, z: real, radius: real, k: nat)
      requires Valid()
      ensures RingMax(m, x, z, radius, k) >= TerrainHeightAt(m, x, z)
      ensures forall i :: 0 <= i < k ==>
                RingMax(m, x, z, radius, k) >= TerrainHeightAt(m, SampleX(m, x, radius, i), SampleZ(m, z, radius, i))
      ensures RingMax(m, x, z, radius, k) >= GroundLevel
    {
      if k == 0 {
        TerrainHeightAbove(m, x, z);
      } else {
        RingMaxIsUpperBound(m, x, z, radius, k - 1);
      }
    }

    /** The ring maximum is attained: it is the terrain at the centre or at
        one of the first k points of the circle. */
    lemma {:induction false} RingMaxIsAttained(m: Math, x: real, z: real, radius: real, k: nat)
      requires Valid()
      ensures RingMax(m, x, z, radius, k) == TerrainHeightAt(m, x, z) ||
              exists i :: 0 <= i < k &&
                RingMax(m, x, z, radius, k) == TerrainHeightAt(m, SampleX(m, x, radius, i), SampleZ(m, z, radius, i))
    {
      if k > 0 {
        RingMaxIsAttained(m, x, z, radius, k - 1);
      }
    }

    /** The multi-point raycast: the centre and RaycastSamples points on
        the circle of radius `sampleRadius`. */
    method GetMaxTerrainHeightAround(m: Math, x: real, z: real, sampleRadius: real) returns (maxHeight: real)
      requires Valid()
      ensures maxHeight == RingMax(m, x, z, sampleRadius, RaycastSamples)
      ensures maxHeight >= GroundLevel
      // The highest of the centre and the circle points: at least each ...
      ensures maxHeight >= TerrainHeightAt(m, x, z)
      ensures forall i :: 0 <= i < RaycastSamples ==>
                maxHeight >= TerrainHeightAt(m, SampleX(m, x, sampleRadius, i), SampleZ(m, z, sampleRadius, i))
      // ... and equal to one of them.
      ensures maxHeight == TerrainHeightAt(m, x, z) ||
              exists i :: 0 <= i < RaycastSamples &&
                maxHeight == TerrainHeightAt(m, SampleX(m, x, sampleRadius, i), SampleZ(m, z, sampleRadius, i))
    {
      maxHeight := GetTerrainHeightAt(m, x, z);
      for i := 0 to RaycastSamples
        invariant maxHeight == RingMax(m, x, z, sampleRadius, i)
      {
        maxHeight := SampleRing(m, x, z, sampleRadius, i, maxHeight);
      }
      RingMaxIsUpperBound(m, x, z, sampleRadius, RaycastSamples);
      RingMaxIsAttained(m, x, z, sampleRadius, RaycastSamples);
    }

    /** One iteration of the ring sampler: the i-th point of the circle
        raises the running maximum if its terrain is higher. */
    method SampleRing(m: Math, x: real, z: real, sampleRadius: real, i: nat, maxHeight: real) returns (next: real)
      requires Valid()
      requires maxHeight == RingMax(m, x, z, sampleRadius, i)
      ensures next == RingMax(m, x, z, sampleRadius, i + 1)
      ensures next >= maxHeight
    {
      var sampleX := SampleX(m, x, sampleRadius, i);
      var sampleZ := SampleZ(m, z, sampleRadius, i);
      var heightAtSample := GetTerrainHeightAt(m, sampleX, sampleZ);
      next := if heightAtSample > maxHeight then heightAtSample else maxHeight;
    }

    /** The highest terrain the ground check compares the plane against. */
    function ProbeHeight(m: Math, s: PlaneState): real
      reads this, terrainPlane
      requires Valid()
    {
      RingMax(m, s.position.x, s.position.z, planeCollider.radius + 2.0, RaycastSamples)
    }

    /** Below the probed terrain, the plane is lifted onto it and suffers
        the crash response; otherwise nothing changes. */
    method CheckGroundCollision(m: Math, s: PlaneState) returns (t: PlaneState, hit: bool)
      requires Valid()
      ensures hit <==> s.position.y < ProbeHeight(m, s)
      ensures !hit ==> t == s
      // The plane is never left below the probed terrain.
      ensures t.position.y >= ProbeHeight(m, s)
      ensures hit ==> t.position.y == ProbeHeight(m, s) && t.position.y > s.position.y
      ensures hit ==> t.health == Max(0.0, s.health - 0.1) && (t.isAlive <==> s.isAlive && s.health - 0.1 > 0.0)
      ensures hit ==> t.pitch == Min(s.pitch, 90.0) && t.speed == s.speed * 0.95
      ensures t == s.(position := t.position, health := t.health, isAlive := t.isAlive, pitch := t.pitch, speed := t.speed)
      ensures t.position == s.position.(y := t.position.y)
      ensures s.health >= 0.0 ==> t.health <= s.health
      ensures HealthInvariant(s) ==> HealthInvariant(t)
    {
      var maxTerrainHeight := GetMaxTerrainHeightAround(m, s.position.x, s.position.z, planeCollider.radius + 2.0);
      t, hit := ResolveGroundContact(s, maxTerrainHeight);
    }
    /** Moves the collider to the plane and runs the ground check; the
        result says whether a collision was resolved. */
    method CheckAndResolveCollisions(m: Math, s: PlaneState, deltaTime: real) returns (t: PlaneState, collisionDetected: bool)
      requires Valid()
      modifies this`planeCollider
      ensures planeCollider == old(planeCollider).(center := s.position)
      ensures collisionDetected <==> s.position.y < ProbeHeight(m, s)
      ensures !collisionDetected ==> t == s
      ensures t.position.y >= ProbeHeight(m, s)
      ensures collisionDetected ==> t.position.y == ProbeHeight(m, s)
      ensures collisionDetected ==>
                && t.health == Max(0.0, s.health - 0.1) && (t.isAlive <==> s.isAlive && s.health - 0.1 > 0.0)
                && t.pitch == Min(s.pitch, 90.0) && t.speed == s.speed * 0.95
      ensures t == s.(position := t.position, health := t.health, isAlive := t.isAlive, pitch := t.pitch, speed := t.speed)
      ensures t.position == s.position.(y := t.position.y)
      ensures s.health >= 0.0 ==> t.health <= s.health
      ensures HealthInvariant(s) ==> HealthInvariant(t)
    {
      planeCollider := planeCollider.(center := s.position);
      collisionDetected := false;
      var hit;
      t, hit := CheckGroundCollision(m, s);
      if hit {
        collisionDetected := true;
      }
    }
  }
}
