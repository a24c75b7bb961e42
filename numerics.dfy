/** Shared numeric vocabulary: 3-vectors over the reals, the min/max/clamp
    helpers of <algorithm>, and the transcendental functions of <cmath>.

    The simulation computes in single-precision floats; this model computes in
    `real`.  `sin`, `cos`, `exp` and `sqrt` are not definable here, so every
    operation that needs them takes a `Math` record and requires
    `ValidMath(m)`, which states only the facts the simulation relies on. */
module Numerics {

  datatype Vec3 = Vec3(x: real, y: real, z: real)

  function Add(a: Vec3, b: Vec3): Vec3 {
    Vec3(a.x + b.x, a.y + b.y, a.z + b.z)
  }

  function Sub(a: Vec3, b: Vec3): Vec3 {
    Vec3(a.x - b.x, a.y - b.y, a.z - b.z)
  }

  function Scale(v: Vec3, k: real): Vec3 {
    Vec3(v.x * k, v.y * k, v.z * k)
  }

  function Neg(v: Vec3): Vec3 {
    Vec3(-v.x, -v.y, -v.z)
  }

  function Dot(a: Vec3, b: Vec3): real {
    a.x * b.x + a.y * b.y + a.z * b.z
  }

  function Cross(a: Vec3, b: Vec3): Vec3 {
    Vec3(a.y * b.z - a.z * b.y, a.z * b.x - a.x * b.z, a.x * b.y - a.y * b.x)
  }

  const Zero: Vec3 := Vec3(0.0, 0.0, 0.0)
  const Up: Vec3 := Vec3(0.0, 1.0, 0.0)

  /** std::max for floats: the first argument unless it is smaller. */
  function Max(a: real, b: real): real {
    if a < b then b else a
  }

  /** std::min for floats: the first argument unless the second is smaller. */
  function Min(a: real, b: real): real {
    if b < a then b else a
  }

  /** std::clamp(v, lo, hi); the standard leaves hi < lo undefined. */
  function Clamp(v: real, lo: real, hi: real): (r: real)
    requires lo <= hi
    ensures lo <= r <= hi
    ensures lo <= v <= hi ==> r == v
  {
    if v < lo then lo else if hi < v then hi else v
  }

  /** glm::radians, with pi written out. */
  const Pi: real := 3.14159265358979323846

  function Radians(degrees: real): real {
    degrees * Pi / 180.0
  }

  /** The transcendental functions of <cmath>, as parameters. */
  datatype Math = Math(sin: real -> real, cos: real -> real, exp: real -> real, sqrt: real -> real)

  /** What the simulation relies on about `m`: the Pythagorean identity and the
      values at 0, the range of exp on non-positive arguments, and the few
      order facts about sqrt that the island test and the normalisations use. */
  ghost predicate ValidMath(m: Math) {
    && (forall t :: m.sin(t) * m.sin(t) + m.cos(t) * m.cos(t) == 1.0)
    && m.sin(0.0) == 0.0 && m.cos(0.0) == 1.0
    && (forall t :: t <= 0.0 ==> 0.0 < m.exp(t) <= 1.0)
    && (forall t :: t < 0.0 ==> m.exp(t) < 1.0)
    && m.exp(0.0) == 1.0
    && (forall t :: 0.0 <= t ==> 0.0 <= m.sqrt(t))
    && (forall t :: 0.0 <= t ==> (m.sqrt(t) < 1.0 <==> t < 1.0))
    && (forall t :: 0.0 <= t ==> (0.0 < m.sqrt(t) <==> 0.0 < t))
    && m.sqrt(1.0) == 1.0
  }

  /** A record that meets `ValidMath`, so the requirement can be met. */
  function Witness(): Math {
    Math(t => 0.0, t => 1.0, t => if t < 0.0 then 1.0 / (1.0 - t) else 1.0, t => if t < 0.0 then 0.0 else t)
  }

  lemma WitnessIsValid()
    ensures ValidMath(Witness())
  {
    var m := Witness();
    forall t: real | t < 0.0 ensures 0.0 < m.exp(t) < 1.0 {
      assert m.exp(t) == 1.0 / (1.0 - t);
    }
  }

  /** glm::normalize: the vector divided by its length.  For a zero vector
      the float result is NaN; here the zero vector is returned unchanged. */
  function Normalize(m: Math, v: Vec3): Vec3 {
    var length := m.sqrt(Dot(v, v));
    if length > 0.0 then Scale(v, 1.0 / length) else v
  }

  /** A vector of unit length, written without sqrt. */
  ghost predicate IsUnit(v: Vec3) {
    Dot(v, v) == 1.0
  }

  // Helpers, not part of the simulation: small facts of ordered-field and
  // integer arithmetic that the proofs of the other modules call because
  // the solver does not find them on its own in those larger contexts.

  lemma MulNonNegative(a: real, b: real)
    requires 0.0 <= a && 0.0 <= b
    ensures 0.0 <= a * b
  {
  }

  lemma MulPositive(a: real, b: real)
    requires 0.0 < a && 0.0 < b
    ensures 0.0 < a * b
  {
  }

  /** Dividing a multiple of a non-zero number by it gives the factor back. */
  lemma DivCancel(a: real, c: real)
    requires c != 0.0
    ensures (a * c) / c == a
  {
  }

  lemma DivNonNegative(a: real, b: real)
    requires 0.0 <= a && 0.0 < b
    ensures 0.0 <= a / b
  {
  }

  lemma DivPositive(a: real, b: real)
    requires 0.0 < a && 0.0 < b
    ensures 0.0 < a / b
  {
  }

  /** Multiplying by a non-negative integer keeps the order. */
  lemma MulMonotone(a: int, b: int, n: int)
    requires a <= b && 0 <= n
    ensures a * n <= b * n
  {
  }

  /** Row-major flattening: cell (row, col) of a grid `width` wide lands in
      bounds, and division and remainder recover it. */
  lemma FlatIndex(row: int, col: int, width: int, height: int)
    requires 0 <= row < height && 0 <= col < width
    ensures 0 <= row * width + col < height * width
    ensures (row * width + col) / width == row
    ensures (row * width + col) % width == col
  {
    MulMonotone(row, height - 1, width);
    assert (height - 1) * width + width == height * width;
    DivModUnique(row * width + col, width, row, col);
  }

  /** Euclidean division is unique: a quotient and a remainder in [0, w)
      that rebuild i are the ones `/` and `%` return. */
  lemma DivModUnique(i: int, w: int, q: int, r: int)
    requires 0 <= r < w && i == q * w + r
    ensures i / w == q && i % w == r
  {
    var q', r' := i / w, i % w;
    assert i == q' * w + r';
    if q' > q {
      MulMonotone(q + 1, q', w);
      assert false;
    } else if q' < q {
      MulMonotone(q' + 1, q, w);
      assert false;
    }
  }
}
