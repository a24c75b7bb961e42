/** Procedural heightfield terrain: a sine-based hash, smoothstep value
    noise, a five-octave heightmap over a (res+1) x (res+1) grid, grid
    sampling with a sea-level fallback, bilinear height queries, and the
    vertex and triangle-index arrays of the terrain mesh. */
module Terrain {
  import opened Numerics

  // ---------------------------------------------------------------------
  // Noise

  /** Pseudo-random value in [0, 1): the fractional part of a scaled sine. */
  function Hash(m: Math, x: real, z: real): (r: real)
    ensures 0.0 <= r < 1.0
  {
    var n := m.sin(x * 12.9898 + z * 78.233) * 43758.5453;
    n - n.Floor as real
  }

  function Lerp(a: real, b: real, t: real): (r: real)
    ensures 0.0 <= t <= 1.0 ==> Min(a, b) <= r <= Max(a, b)
    ensures t == 0.0 ==> r == a
    ensures t == 1.0 ==> r == b
  {
    assert 0.0 <= t <= 1.0 ==> Min(a, b) <= a + t * (b - a) <= Max(a, b) by {
      if 0.0 <= t <= 1.0 {
        if a <= b {
          MulNonNegative(t, b - a);
          MulNonNegative(1.0 - t, b - a);
        } else {
          MulNonNegative(t, a - b);
          MulNonNegative(1.0 - t, a - b);
        }
      }
    }
    a + t * (b - a)
  }

  /** The cubic smoothstep 3t^2 - 2t^3. */
  function SmoothStep(t: real): (r: real)
    ensures 0.0 <= t <= 1.0 ==> 0.0 <= r <= 1.0
    ensures t == 0.0 ==> r == 0.0
    ensures t == 1.0 ==> r == 1.0
  {
    assert 0.0 <= t <= 1.0 ==> 0.0 <= t * t * (3.0 - 2.0 * t) <= 1.0 by {
      if 0.0 <= t <= 1.0 {
        MulNonNegative(t * t, 3.0 - 2.0 * t);
        MulNonNegative((1.0 - t) * (1.0 - t), 1.0 + 2.0 * t);
        assert 1.0 - t * t * (3.0 - 2.0 * t) == (1.0 - t) * (1.0 - t) * (1.0 + 2.0 * t);
      }
    }
    t * t * (3.0 - 2.0 * t)
  }

  /** Value noise: hashes at the four integer corners around (x, z),
      blended with smoothstep weights and mapped from [0, 1] to [-1, 1]. */
  function PerlinNoise(m: Math, x: real, z: real): (r: real)
    ensures -1.0 <= r <= 1.0
  {
    var xi := x.Floor;
    var zi := z.Floor;
    var xf := x - xi as real;
    var zf := z - zi as real;
    var n00 := Hash(m, xi as real, zi as real);
    var n10 := Hash(m, (xi + 1) as real, zi as real);
    var n01 := Hash(m, xi as real, (zi + 1) as real);
    var n11 := Hash(m, (xi + 1) as real, (zi + 1) as real);
    var sx := SmoothStep(xf);
    var sz := SmoothStep(zf);
    var nx0 := Lerp(n00, n10, sx);
    var nx1 := Lerp(n01, n11, sx);
    Lerp(nx0, nx1, sz) * 2.0 - 1.0
  }

  // ---------------------------------------------------------------------
  // Layered heights

  const OctaveCount: nat := 5
  const BaseAmplitude: real := 150.0
  const BaseFrequency: real := 2.5
  const HeightOffset: real := 10.0

  /** The value noise as a function of the sample position; the octave
      loop below is written against any such function. */
  function Noise(m: Math): (real, real) -> real {
    (x: real, z: real) => PerlinNoise(m, x, z)
  }

  /** A noise function whose samples all lie in [-1, 1]. */
  ghost predicate UnitRange(noise: (real, real) -> real) {
    forall x, z :: -1.0 <= noise(x, z) <= 1.0
  }

  lemma NoiseInUnitRange(m: Math)
    ensures UnitRange(Noise(m))
  {
  }

  /** The reference value of the octave loop: `n` octaves of `noise`, the
      frequency doubling and the amplitude halving from one to the next. */
  function OctaveSum(noise: (real, real) -> real, wx: real, wz: real, n: nat, amplitude: real, frequency: real): real {
    if n == 0 then 0.0
    else noise(wx * frequency, wz * frequency) * amplitude
         + OctaveSum(noise, wx, wz, n - 1, amplitude * 0.5, frequency * 2.0)
  }

  /** The height the generator stores for the normalised position (wx, wz). */
  function LayeredHeight(noise: (real, real) -> real, wx: real, wz: real): real {
    OctaveSum(noise, wx, wz, OctaveCount, BaseAmplitude, BaseFrequency) + HeightOffset
  }

  /** The five octaves written out: frequencies 2.5, 5, 10, 20, 40 with
      amplitudes 150, 75, 37.5, 18.75, 9.375, over the offset 10. */
  lemma LayeredHeightUnrolled(noise: (real, real) -> real, wx: real, wz: real)
    ensures LayeredHeight(noise, wx, wz)
            == noise(wx * 2.5, wz * 2.5) * 150.0 + noise(wx * 5.0, wz * 5.0) * 75.0
               + noise(wx * 10.0, wz * 10.0) * 37.5 + noise(wx * 20.0, wz * 20.0) * 18.75
               + noise(wx * 40.0, wz * 40.0) * 9.375 + 10.0
  {
    var s1 := noise(wx * 2.5, wz * 2.5);
    var s2 := noise(wx * 5.0, wz * 5.0);
    var s3 := noise(wx * 10.0, wz * 10.0);
    var s4 := noise(wx * 20.0, wz * 20.0);
    var s5 := noise(wx * 40.0, wz * 40.0);
    assert OctaveSum(noise, wx, wz, 1, 9.375, 40.0) == s5 * 9.375;
    assert OctaveSum(noise, wx, wz, 2, 18.75, 20.0) == s4 * 18.75 + s5 * 9.375;
    assert OctaveSum(noise, wx, wz, 3, 37.5, 10.0) == s3 * 37.5 + s4 * 18.75 + s5 * 9.375;
    assert OctaveSum(noise, wx, wz, 4, 75.0, 5.0) == s2 * 75.0 + s3 * 37.5 + s4 * 18.75 + s5 * 9.375;
  }

  /** Every generated height lies within 10 +- (150 + 75 + 37.5 + 18.75 + 9.375). */
  lemma LayeredHeightBound(noise: (real, real) -> real, wx: real, wz: real)
    requires UnitRange(noise)
    ensures HeightOffset - 290.625 <= LayeredHeight(noise, wx, wz) <= HeightOffset + 290.625
  {
    LayeredHeightUnrolled(noise, wx, wz);
    assert -1.0 <= noise(wx * 2.5, wz * 2.5) <= 1.0 && -1.0 <= noise(wx * 5.0, wz * 5.0) <= 1.0;
    assert -1.0 <= noise(wx * 10.0, wz * 10.0) <= 1.0 && -1.0 <= noise(wx * 20.0, wz * 20.0) <= 1.0;
    assert -1.0 <= noise(wx * 40.0, wz * 40.0) <= 1.0;
  }

  /** The octave loop of the generator, run for one grid node. */
  method LayeredNoise(noise: (real, real) -> real, worldX: real, worldZ: real) returns (height: real)
    ensures height == LayeredHeight(noise, worldX, worldZ)
  {
    height := 0.0;
    var amplitude := BaseAmplitude;
    var frequency := BaseFrequency;
    for octave := 0 to OctaveCount
      invariant height + OctaveSum(noise, worldX, worldZ, OctaveCount - octave, amplitude, frequency)
                == OctaveSum(noise, worldX, worldZ, OctaveCount, BaseAmplitude, BaseFrequency)
    {
      var sample := noise(worldX * frequency, worldZ * frequency);
      assert OctaveSum(noise, worldX, worldZ, OctaveCount - octave, amplitude, frequency)
             == sample * amplitude + OctaveSum(noise, worldX, worldZ, OctaveCount - octave - 1, amplitude * 0.5, frequency * 2.0);
      height := height + sample * amplitude;
      amplitude := amplitude * 0.5;
      frequency := frequency * 2.0;
    }
    height := height + HeightOffset;
  }

  /** The height stored for grid node (x, z) of a grid `res` cells wide. */
  function NodeHeight(noise: (real, real) -> real, res: int, x: int, z: int): real
    requires res > 0
  {
    LayeredHeight(noise, x as real / res as real, z as real / res as real)
  }

  /** The height stored at flat index `i` of the heightmap. */
  function HeightAtIndex(noise: (real, real) -> real, res: int, i: int): real
    requires res > 0 && i >= 0
  {
    NodeHeight(noise, res, i % (res + 1), i / (res + 1))
  }

  /** std::vector::resize: keep a prefix, or pad with zeros. */
  function Resize(s: seq<real>, n: nat): (r: seq<real>)
    ensures |r| == n
    ensures forall i :: 0 <= i < n && i < |s| ==> r[i] == s[i]
  {
    if n <= |s| then s[..n] else s + seq(n - |s|, _ => 0.0)
  }

  /** Bilinear interpolation between four corner heights. */
  function Bilinear(h00: real, h10: real, h01: real, h11: real, fx: real, fz: real): (r: real)
    ensures 0.0 <= fx <= 1.0 && 0.0 <= fz <= 1.0 ==>
              Min(Min(h00, h10), Min(h01, h11)) <= r <= Max(Max(h00, h10), Max(h01, h11))
    ensures fx == 0.0 && fz == 0.0 ==> r == h00
  {
    var h0 := Lerp(h00, h10, fx);
    var h1 := Lerp(h01, h11, fx);
    Lerp(h0, h1, fz)
  }

  // ---------------------------------------------------------------------
  // Mesh indices

  /** The six indices of the two triangles of cell (z, x):
      top-left, bottom-left, top-right, then top-right, bottom-left, bottom-right. */
  function QuadIndices(res: int, z: int, x: int): seq<int> {
    var topLeft := z * (res + 1) + x;
    var bottomLeft := (z + 1) * (res + 1) + x;
    [topLeft, bottomLeft, topLeft + 1, topLeft + 1, bottomLeft, bottomLeft + 1]
  }

  /** The index the builder emits at position `j`. */
  function IndexAt(res: int, j: int): int
    requires res > 0 && j >= 0
  {
    var cell := j / 6;
    QuadIndices(res, cell / res, cell % res)[j % 6]
  }

  /** The index count the draw call uses. */
  function DrawIndexCount(res: int): int {
    res * res * 6
  }

  /** Every index of a cell inside the grid names one of its (res+1)^2 vertices. */
  lemma QuadIndicesInRange(res: int, z: int, x: int)
    requires 0 <= z < res && 0 <= x < res
    ensures forall k :: 0 <= k < 6 ==> 0 <= QuadIndices(res, z, x)[k] < (res + 1) * (res + 1)
  {
    FlatIndex(z + 1, x + 1, res + 1, res + 1);
    MulMonotone(z, z + 1, res + 1);
  }

  /** The triangle-index builder: two triangles per cell, cells row by row. */
  method BuildIndices(gridResolution: int) returns (indices: seq<int>)
    ensures gridResolution <= 0 ==> indices == []
    ensures gridResolution > 0 ==> |indices| == DrawIndexCount(gridResolution)
    ensures gridResolution > 0 ==> forall j :: 0 <= j < |indices| ==> indices[j] == IndexAt(gridResolution, j)
    ensures forall j :: 0 <= j < |indices| ==> 0 <= indices[j] < (gridResolution + 1) * (gridResolution + 1)
  {
    indices := [];
    var res := gridResolution;
    var z := 0;
    while z < res
      invariant 0 <= z <= Max0(res)
      invariant |indices| == 6 * (z * res)
      invariant forall j :: 0 <= j < |indices| ==> indices[j] == IndexAt(res, j)
      invariant forall j :: 0 <= j < |indices| ==> 0 <= indices[j] < (res + 1) * (res + 1)
    {
      var x := 0;
      while x < res
        invariant 0 <= x <= res
        invariant |indices| == 6 * (z * res + x)
        invariant forall j :: 0 <= j < |indices| ==> indices[j] == IndexAt(res, j)
        invariant forall j :: 0 <= j < |indices| ==> 0 <= indices[j] < (res + 1) * (res + 1)
      {
        var topLeft := z * (res + 1) + x;
        var topRight := topLeft + 1;
        var bottomLeft := (z + 1) * (res + 1) + x;
        var bottomRight := bottomLeft + 1;

        ghost var before := indices;
        indices := indices + [topLeft, bottomLeft, topRight];
        indices := indices + [topRight, bottomLeft, bottomRight];

        QuadAppended(res, z, x, before, indices);
        x := x + 1;
      }
      assert z * res + res == (z + 1) * res;
      z := z + 1;
    }
  }

  function Max0(n: int): nat {
    if n < 0 then 0 else n
  }

  /** Appending cell (z, x)'s six indices extends the IndexAt pattern. */
  lemma QuadAppended(res: int, z: int, x: int, before: seq<int>, after: seq<int>)
    requires 0 <= z < res && 0 <= x < res
    requires |before| == 6 * (z * res + x)
    requires forall j :: 0 <= j < |before| ==> before[j] == IndexAt(res, j)
    requires forall j :: 0 <= j < |before| ==> 0 <= before[j] < (res + 1) * (res + 1)
    requires after == before + QuadIndices(res, z, x)
    ensures |after| == 6 * (z * res + x + 1)
    ensures forall j :: 0 <= j < |after| ==> after[j] == IndexAt(res, j)
    ensures forall j :: 0 <= j < |after| ==> 0 <= after[j] < (res + 1) * (res + 1)
  {
    var cell := z * res + x;
    FlatIndex(z, x, res, res);
    QuadIndicesInRange(res, z, x);
    forall j | |before| <= j < |after|
      ensures after[j] == IndexAt(res, j)
    {
      FlatIndex(cell, j - 6 * cell, 6, cell + 1);
    }
  }

  // ---------------------------------------------------------------------
  // The terrain object

  class TerrainPlane {
    var size: real
    var gridResolution: int
    var heightmap: seq<real>

    /** The default member values: a 2000 x 2000 world in 100 x 100 cells,
        with no heights generated yet. */
    constructor ()
      ensures size == 2000.0 && gridResolution == 100 && heightmap == []
    {
      size := 2000.0;
      gridResolution := 100;
      heightmap := [];
    }

    /** A generated terrain: positive extent and cell count, one height per
        grid node. */
    ghost predicate Valid()
      reads this
    {
      size > 0.0 && gridResolution > 0 && |heightmap| == (gridResolution + 1) * (gridResolution + 1)
    }

    /** Stores the layered-noise height of every grid node at index
        z * (res + 1) + x. */
    method GenerateHeightmap(m: Math)
      requires gridResolution > 0
      modifies this`heightmap
      ensures |heightmap| == (gridResolution + 1) * (gridResolution + 1)
      ensures forall i :: 0 <= i < |heightmap| ==> heightmap[i] == HeightAtIndex(Noise(m), gridResolution, i)
      ensures forall i :: 0 <= i < |heightmap| ==> HeightOffset - 290.625 <= heightmap[i] <= HeightOffset + 290.625
    {
      var n := gridResolution + 1;
      var noise := Noise(m);
      heightmap := Resize(heightmap, n * n);

      for z := 0 to n
        invariant |heightmap| == n * n
        invariant HeightsStored(noise, gridResolution, heightmap, z * n)
      {
        GenerateRow(noise, z);
      }
      NoiseInUnitRange(m);
      HeightsBounded(noise, gridResolution, heightmap);
    }

    /** The inner loop of the generator: the nodes of row z, left to right. */
    method GenerateRow(noise: (real, real) -> real, z: int)
      requires gridResolution > 0 && 0 <= z <= gridResolution
      requires |heightmap| == (gridResolution + 1) * (gridResolution + 1)
      requires HeightsStored(noise, gridResolution, heightmap, z * (gridResolution + 1))
      modifies this`heightmap
      ensures |heightmap| == (gridResolution + 1) * (gridResolution + 1)
      ensures HeightsStored(noise, gridResolution, heightmap, (z + 1) * (gridResolution + 1))
    {
      var res := gridResolution;
      var n := res + 1;
      for x := 0 to n
        invariant |heightmap| == n * n
        invariant HeightsStored(noise, res, heightmap, z * n + x)
      {
        var worldX := x as real / res as real;
        var worldZ := z as real / res as real;
        var height := LayeredNoise(noise, worldX, worldZ);

        var index := z * n + x;
        FlatIndex(z, x, n, n);
        ghost var before := heightmap;
        heightmap := heightmap[index := height];
        HeightStored(noise, res, z, x, before, heightmap);
      }
      assert z * n + n == (z + 1) * n;
    }

    /** The stored height of grid node (gridX, gridZ); sea level 0 off the grid. */
    function SampleHeight(gridX: int, gridZ: int): (r: real)
      reads this
      requires Valid()
      ensures gridX < 0 || gridX > gridResolution || gridZ < 0 || gridZ > gridResolution ==> r == 0.0
      ensures 0 <= gridX <= gridResolution && 0 <= gridZ <= gridResolution ==>
                0 <= gridZ * (gridResolution + 1) + gridX < |heightmap| &&
                r == heightmap[gridZ * (gridResolution + 1) + gridX]
    {
      if gridX < 0 || gridX > gridResolution || gridZ < 0 || gridZ > gridResolution then 0.0
      else
        FlatIndex(gridZ, gridX, gridResolution + 1, gridResolution + 1);
        heightmap[gridZ * (gridResolution + 1) + gridX]
    }

    /** World coordinate to fractional grid coordinate. */
    function GridCoord(w: real): real
      reads this
      requires Valid()
    {
      (w + size * 0.5) / (size / gridResolution as real)
    }

    /** (x, z) falls in a cell of the grid: both grid coordinates in [0, res). */
    predicate InGrid(x: real, z: real)
      reads this
      requires Valid()
    {
      0.0 <= GridCoord(x) < gridResolution as real && 0.0 <= GridCoord(z) < gridResolution as real
    }

    /** Terrain height at a world position: sea level 0 outside the grid,
        otherwise the bilinear blend of the four samples around it. */
    function GetHeightAt(x: real, z: real): (r: real)
      reads this
      requires Valid()
      ensures !InGrid(x, z) ==> r == 0.0
      ensures InGrid(x, z) ==>
                var x0, z0 := GridCoord(x).Floor, GridCoord(z).Floor;
                var a, b, c, d := SampleHeight(x0, z0), SampleHeight(x0 + 1, z0), SampleHeight(x0, z0 + 1), SampleHeight(x0 + 1, z0 + 1);
                Min(Min(a, b), Min(c, d)) <= r <= Max(Max(a, b), Max(c, d))
    {
      var gridX := GridCoord(x);
      var gridZ := GridCoord(z);
      if gridX < 0.0 || gridX >= gridResolution as real || gridZ < 0.0 || gridZ >= gridResolution as real then 0.0
      else CellHeight(gridX, gridZ)
    }

    /** The bilinear blend inside the cell that holds grid coordinate
        (gridX, gridZ); the far neighbour index is capped at the last node. */
    function CellHeight(gridX: real, gridZ: real): (r: real)
      reads this
      requires Valid()
      requires 0.0 <= gridX < gridResolution as real && 0.0 <= gridZ < gridResolution as real
      ensures var x0, z0 := gridX.Floor, gridZ.Floor;
              var a, b, c, d := SampleHeight(x0, z0), SampleHeight(x0 + 1, z0), SampleHeight(x0, z0 + 1), SampleHeight(x0 + 1, z0 + 1);
              && Min(Min(a, b), Min(c, d)) <= r <= Max(Max(a, b), Max(c, d))
              && (gridX == x0 as real && gridZ == z0 as real ==> r == a)
    {
      var x0 := gridX.Floor;
      var z0 := gridZ.Floor;
      var x1 := if gridResolution < x0 + 1 then gridResolution else x0 + 1;
      var z1 := if gridResolution < z0 + 1 then gridResolution else z0 + 1;
      var fx := gridX - x0 as real;
      var fz := gridZ - z0 as real;
      Bilinear(SampleHeight(x0, z0), SampleHeight(x1, z0), SampleHeight(x0, z1), SampleHeight(x1, z1), fx, fz)
    }

    /** The world coordinate of grid line k, on either axis. */
    function NodeCoord(k: int): real
      reads this
      requires Valid()
    {
      -size * 0.5 + k as real * (size / gridResolution as real)
    }

    /** At a grid node strictly inside the far edges, the query returns the
        stored sample; in particular at the near corner (-size/2, -size/2). */
    lemma HeightAtNode(gx: int, gz: int)
      requires Valid()
      requires 0 <= gx < gridResolution && 0 <= gz < gridResolution
      ensures GetHeightAt(NodeCoord(gx), NodeCoord(gz)) == SampleHeight(gx, gz)
    {
      GridCoordOfNode(gx);
      GridCoordOfNode(gz);
      assert (gx as real).Floor == gx && (gz as real).Floor == gz;
      assert GetHeightAt(NodeCoord(gx), NodeCoord(gz)) == CellHeight(gx as real, gz as real);
    }

    /** The world coordinate of node k maps back to grid coordinate k. */
    lemma GridCoordOfNode(k: int)
      requires Valid()
      ensures GridCoord(NodeCoord(k)) == k as real
    {
      var cell := size / gridResolution as real;
      DivPositive(size, gridResolution as real);
      assert NodeCoord(k) + size * 0.5 == k as real * cell;
      DivCancel(k as real, cell);
    }

    /** The far edge x = +size/2 is off the grid and reads as sea level,
        whatever is stored in the last column. */
    lemma FarEdgeIsSeaLevel(z: real)
      requires Valid()
      ensures GetHeightAt(size * 0.5, z) == 0.0
    {
      DivPositive(size, gridResolution as real);
      assert GridCoord(size * 0.5) == gridResolution as real;
    }

    /** The approximate normal of node (x, z): central differences of the
        neighbouring samples (the node's own height at an edge), normalised. */
    function VertexNormal(m: Math, x: int, z: int): Vec3
      reads this
      requires Valid()
    {
      var cellSize := size / gridResolution as real;
      var height := SampleHeight(x, z);
      var heightL := if x > 0 then SampleHeight(x - 1, z) else height;
      var heightR := if x < gridResolution then SampleHeight(x + 1, z) else height;
      var heightD := if z > 0 then SampleHeight(x, z - 1) else height;
      var heightU := if z < gridResolution then SampleHeight(x, z + 1) else height;
      Normalize(m, Vec3(heightL - heightR, 2.0 * cellSize, heightD - heightU))
    }

    /** One vertex of the mesh: the node's world position with its stored
        height, the approximate normal, and a texture coordinate in [0, 1];
        8 numbers. */
    function VertexData(m: Math, x: int, z: int): (v: seq<real>)
      reads this
      requires Valid()
      requires 0 <= x <= gridResolution && 0 <= z <= gridResolution
      ensures |v| == 8
      ensures v[0] == NodeCoord(x) && v[1] == SampleHeight(x, z) && v[2] == NodeCoord(z)
      ensures var normal := VertexNormal(m, x, z); v[3] == normal.x && v[4] == normal.y && v[5] == normal.z
      ensures 0.0 <= v[6] <= 1.0 && 0.0 <= v[7] <= 1.0
    {
      var normal := VertexNormal(m, x, z);
      var u := x as real / gridResolution as real;
      var w := z as real / gridResolution as real;
      UnitCoordinate(x, gridResolution);
      UnitCoordinate(z, gridResolution);
      [NodeCoord(x), SampleHeight(x, z), NodeCoord(z), normal.x, normal.y, normal.z, u, w]
    }

    /** The vertex-array builder: (res+1)^2 vertices, row by row, 8 numbers
        each; vertex k is node (k % (res+1), k / (res+1)). */
    method BuildVertices(m: Math) returns (vertices: seq<real>)
      requires ValidMath(m) && Valid()
      ensures |vertices| == 8 * ((gridResolution + 1) * (gridResolution + 1))
      ensures forall k :: 0 <= k < (gridResolution + 1) * (gridResolution + 1) ==>
                vertices[8 * k .. 8 * k + 8] == VertexAt(m, k)
    {
      vertices := [];
      var n := gridResolution + 1;
      for z := 0 to n
        invariant |vertices| == 8 * (z * n)
        invariant forall k :: 0 <= k < z * n ==> vertices[8 * k .. 8 * k + 8] == VertexAt(m, k)
      {
        for x := 0 to n
          invariant |vertices| == 8 * (z * n + x)
          invariant forall k :: 0 <= k < z * n + x ==> vertices[8 * k .. 8 * k + 8] == VertexAt(m, k)
        {
          FlatIndex(z, x, n, n);
          ghost var before := vertices;
          vertices := vertices + VertexData(m, x, z);
          VertexAppended(m, before, vertices, z * n + x);
        }
        assert z * n + n == (z + 1) * n;
      }
    }

    /** The vertex the builder emits in position k. */
    function VertexAt(m: Math, k: int): (v: seq<real>)
      reads this
      requires ValidMath(m) && Valid()
      requires 0 <= k < (gridResolution + 1) * (gridResolution + 1)
      ensures |v| == 8
    {
      var n := gridResolution + 1;
      FlatIndexBounds(k, n);
      VertexData(m, k % n, k / n)
    }

    /** Appending vertex `count` keeps the earlier vertices in place. */
    lemma VertexAppended(m: Math, before: seq<real>, after: seq<real>, count: int)
      requires ValidMath(m) && Valid()
      requires 0 <= count < (gridResolution + 1) * (gridResolution + 1)
      requires |before| == 8 * count
      requires forall k :: 0 <= k < count ==> before[8 * k .. 8 * k + 8] == VertexAt(m, k)
      requires after == before + VertexAt(m, count)
      ensures |after| == 8 * (count + 1)
      ensures forall k :: 0 <= k < count + 1 ==> after[8 * k .. 8 * k + 8] == VertexAt(m, k)
    {
      forall k | 0 <= k < count + 1
        ensures after[8 * k .. 8 * k + 8] == VertexAt(m, k)
      {
        if k < count {
          MulMonotone(k + 1, count, 8);
          assert after[8 * k .. 8 * k + 8] == before[8 * k .. 8 * k + 8];
        } else {
          assert after[8 * k .. 8 * k + 8] == after[|before| ..];
        }
      }
    }

    /** Initialize: record the extent, generate the heightmap, and build the
        mesh arrays that are handed to the graphics buffers. */
    method Initialize(m: Math, worldSize: real, resolution: int) returns (vertices: seq<real>, indices: seq<int>)
      requires ValidMath(m) && worldSize > 0.0 && resolution > 0
      modifies this
      ensures Valid() && size == worldSize && gridResolution == resolution
      ensures forall i :: 0 <= i < |heightmap| ==> heightmap[i] == HeightAtIndex(Noise(m), resolution, i)
      ensures |vertices| == 8 * ((resolution + 1) * (resolution + 1))
      ensures forall k :: 0 <= k < (resolution + 1) * (resolution + 1) ==> vertices[8 * k .. 8 * k + 8] == VertexAt(m, k)
      ensures |indices| == DrawIndexCount(resolution)
      ensures forall j :: 0 <= j < |indices| ==> indices[j] == IndexAt(resolution, j)
      ensures forall j :: 0 <= j < |indices| ==> 0 <= indices[j] < (resolution + 1) * (resolution + 1)
    {
      size := worldSize;
      gridResolution := resolution;
      GenerateHeightmap(m);
      vertices := BuildVertices(m);
      indices := BuildIndices(gridResolution);
    }
  }

  /** A flat index below n * n names a node inside the n x n grid. */
  lemma FlatIndexBounds(k: int, n: int)
    requires 0 < n && 0 <= k < n * n
    ensures 0 <= k % n < n && 0 <= k / n < n
  {
    if k / n >= n {
      MulMonotone(n, k / n, n);
      assert false;
    }
  }

  /** The first `count` entries of a heightmap hold the layered heights of
      their nodes. */
  ghost predicate HeightsStored(noise: (real, real) -> real, res: int, heights: seq<real>, count: int) {
    res > 0 && 0 <= count <= |heights| && forall i :: 0 <= i < count ==> heights[i] == HeightAtIndex(noise, res, i)
  }

  /** Storing the height of node (z, x) at its flat index completes the
      heightmap up to and including that index. */
  lemma HeightStored(noise: (real, real) -> real, res: int, z: int, x: int, before: seq<real>, after: seq<real>)
    requires res > 0 && 0 <= z < res + 1 && 0 <= x < res + 1
    requires |before| == (res + 1) * (res + 1)
    requires HeightsStored(noise, res, before, z * (res + 1) + x)
    requires 0 <= z * (res + 1) + x < |before|
    requires after == before[z * (res + 1) + x := NodeHeight(noise, res, x, z)]
    ensures HeightsStored(noise, res, after, z * (res + 1) + x + 1)
  {
    var k := z * (res + 1) + x;
    FlatIndex(z, x, res + 1, res + 1);
    assert HeightAtIndex(noise, res, k) == NodeHeight(noise, res, x, z);
  }

  /** Every generated heightmap lies within the layered-noise bound. */
  lemma HeightsBounded(noise: (real, real) -> real, res: int, heights: seq<real>)
    requires res > 0 && UnitRange(noise)
    requires forall i :: 0 <= i < |heights| ==> heights[i] == HeightAtIndex(noise, res, i)
    ensures forall i :: 0 <= i < |heights| ==> HeightOffset - 290.625 <= heights[i] <= HeightOffset + 290.625
  {
    forall i | 0 <= i < |heights|
      ensures HeightOffset - 290.625 <= heights[i] <= HeightOffset + 290.625
    {
      LayeredHeightBound(noise, (i % (res + 1)) as real / res as real, (i / (res + 1)) as real / res as real);
    }
  }

  /** A grid index divided by the cell count is a texture coordinate in [0, 1]. */
  lemma UnitCoordinate(k: int, res: int)
    requires 0 <= k <= res && res > 0
    ensures 0.0 <= k as real / res as real <= 1.0
  {
  }
}
