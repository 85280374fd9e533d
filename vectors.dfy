/** Real-valued 3D vectors and quaternions, and the transcendental operations the game
    borrows from its math libraries, kept uninterpreted. */
module Vectors {

  datatype Vec3 = Vec3(x: real, y: real, z: real)

  /** A quaternion (x, y, z, w); only ever copied or handed to `MathLib.rotate`. */
  datatype Quat = Quat(x: real, y: real, z: real, w: real)

  datatype Option<T> = None | Some(value: T)

  const Zero: Vec3 := Vec3(0.0, 0.0, 0.0)

  /** The operations the source takes from its libraries (Math.sin/cos, Vec3.length,
      applyQuaternion). They are passed in as values so that nothing is assumed about
      them beyond `Lawful`. */
  datatype MathLib = MathLib(
    length: Vec3 -> real,
    rotate: (Quat, Vec3) -> Vec3,
    sin: real -> real,
    cos: real -> real)

  /** The only facts the proofs use about the library operations: a Euclidean length is
      non-negative and absolutely homogeneous, and sine and cosine lie in [-1, 1]. */
  ghost predicate Lawful(m: MathLib) {
    && (forall v :: m.length(v) >= 0.0)
    && m.length(Zero) == 0.0
    && (forall v, k :: m.length(Scale(v, k)) == Abs(k) * m.length(v))
    && (forall a :: -1.0 <= m.sin(a) <= 1.0)
    && (forall a :: -1.0 <= m.cos(a) <= 1.0)
  }

  /** `Math.PI`, as a double. */
  const Pi: real := 3.141592653589793

  /** An angle `r·2π` drawn about the vertical axis from `r = Math.random()`. */
  function Azimuth(draw: real): real {
    draw * Pi * 2.0
  }

  /** An elevation `r·π − π/2`, from straight down to straight up. */
  function Elevation(draw: real): real {
    draw * Pi - Pi / 2.0
  }

  function Add(a: Vec3, b: Vec3): Vec3 {
    Vec3(a.x + b.x, a.y + b.y, a.z + b.z)
  }

  function Sub(a: Vec3, b: Vec3): Vec3 {
    Vec3(a.x - b.x, a.y - b.y, a.z - b.z)
  }

  function Scale(a: Vec3, k: real): Vec3 {
    Vec3(a.x * k, a.y * k, a.z * k)
  }

  function Dot(a: Vec3, b: Vec3): real {
    a.x * b.x + a.y * b.y + a.z * b.z
  }

  /** a × b, as `Vec3.cross` computes it. */
  function Cross(a: Vec3, b: Vec3): Vec3 {
    Vec3(a.y * b.z - a.z * b.y, a.z * b.x - a.x * b.z, a.x * b.y - a.y * b.x)
  }

  /** `v.normalize()`: v divided by its length, or the zero vector when the length is 0. */
  function Normalize(m: MathLib, v: Vec3): Vec3 {
    var n := m.length(v);
    if n == 0.0 then Zero else Scale(v, 1.0 / n)
  }

  /** `a.distanceTo(b)`. */
  function Distance(m: MathLib, a: Vec3, b: Vec3): real {
    m.length(Sub(a, b))
  }

  function Abs(a: real): real {
    if a < 0.0 then -a else a
  }

  function Min(a: real, b: real): real {
    if a <= b then a else b
  }

  function Max(a: real, b: real): real {
    if a >= b then a else b
  }

  /** `Math.min(hi, Math.max(lo, v))`. */
  function Clamp(v: real, lo: real, hi: real): (r: real)
    requires lo <= hi
    ensures lo <= r <= hi
    ensures lo <= v <= hi ==> r == v
    ensures v < lo ==> r == lo
    ensures v > hi ==> r == hi
  {
    Min(hi, Max(lo, v))
  }

  /** |a·b| <= 1 when both factors lie in [-1, 1]. */
  lemma ProductOfUnitsBounded(a: real, b: real)
    requires -1.0 <= a <= 1.0 && -1.0 <= b <= 1.0
    ensures -1.0 <= a * b <= 1.0
  {
    if a >= 0.0 {
      if b >= 0.0 {
        assert a * b <= 1.0 * b;
      } else {
        assert a * b >= a * -1.0;
      }
    } else {
      if b >= 0.0 {
        assert a * b >= -1.0 * b;
      } else {
        assert a * b <= -1.0 * b;
      }
    }
  }

  /** With a lawful length, `k >= 0` times a normalised vector has length `k`, or 0 when the
      vector had none. */
  lemma ScaledNormalLength(m: MathLib, v: Vec3, k: real)
    requires Lawful(m) && k >= 0.0
    ensures m.length(v) != 0.0 ==> m.length(Scale(Normalize(m, v), k)) == k
    ensures m.length(v) == 0.0 ==> m.length(Scale(Normalize(m, v), k)) == 0.0
  {
    var n := m.length(v);
    assert m.length(Scale(Normalize(m, v), k)) == Abs(k) * m.length(Normalize(m, v));
    if n != 0.0 {
      assert m.length(Scale(v, 1.0 / n)) == Abs(1.0 / n) * n;
      UnitLength(n, m.length(Normalize(m, v)));
    } else {
      assert Normalize(m, v) == Zero;
    }
  }

  lemma UnitLength(n: real, length: real)
    requires n > 0.0 && length == Abs(1.0 / n) * n
    ensures length == 1.0
  {
  }

  lemma NonNegativeProduct(a: real, b: real)
    requires a >= 0.0 && b >= 0.0
    ensures a * b >= 0.0
  {
  }

  /** A value in [-1,1] times a non-negative scale lies in [-scale, scale]. */
  lemma ScaledUnitBounded(a: real, k: real)
    requires -1.0 <= a <= 1.0 && k >= 0.0
    ensures -k <= a * k <= k
  {
    if a >= 0.0 {
      assert a * k <= 1.0 * k;
    } else {
      assert a * k >= -1.0 * k;
    }
  }
}
