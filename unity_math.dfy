/** Values and arithmetic helpers shared by the flight, plane and race models:
    single-precision floats become mathematical reals, a NaN becomes `None`,
    and the few `Mathf` and `Vector3` operations the scripts use are written
    out the way the engine defines them. */
module UnityMath {

  /** `None` stands for an IEEE NaN (or, for a quotient, an undefined one). */
  datatype Option<+T> = None | Some(value: T)

  /** Unity's `Vector3`, over reals. */
  datatype Vec3 = Vec3(x: real, y: real, z: real)

  const Zero := Vec3(0.0, 0.0, 0.0)
  /** `Vector3.up` */
  const Up := Vec3(0.0, 1.0, 0.0)
  /** `Vector3.forward` */
  const Forward := Vec3(0.0, 0.0, 1.0)

  function Add(a: Vec3, b: Vec3): Vec3 {
    Vec3(a.x + b.x, a.y + b.y, a.z + b.z)
  }

  function Sub(a: Vec3, b: Vec3): Vec3 {
    Vec3(a.x - b.x, a.y - b.y, a.z - b.z)
  }

  function Scale(k: real, v: Vec3): Vec3 {
    Vec3(k * v.x, k * v.y, k * v.z)
  }

  function Dot(a: Vec3, b: Vec3): real {
    a.x * b.x + a.y * b.y + a.z * b.z
  }

  /** `x * x`, kept as a function of its own so that facts about squares
      survive the solver's rewriting of products. */
  function Sq(a: real): real {
    a * a
  }

  /** `v.sqrMagnitude`; `v.magnitude` is its square root. */
  function SqrMagnitude(v: Vec3): real {
    Sq(v.x) + Sq(v.y) + Sq(v.z)
  }

  lemma SqNonNegative(a: real)
    ensures Sq(a) >= 0.0
  {
  }

  lemma SqEven(a: real)
    ensures Sq(-a) == Sq(a)
    ensures Sq(Abs(a)) == Sq(a)
  {
  }

  lemma PositiveProduct(a: real, b: real)
    requires a > 0.0 && b > 0.0
    ensures a * b > 0.0
  {
  }

  /** Squaring is strictly increasing on the non-negative reals. */
  lemma SqStrictMono(x: real, y: real)
    requires 0.0 <= x < y
    ensures Sq(x) < Sq(y)
  {
    PositiveProduct(y - x, y + x);
    assert (y - x) * (y + x) == y * y - x * x;
  }

  lemma SqPositive(a: real)
    requires a != 0.0
    ensures Sq(a) > 0.0
  {
    if a > 0.0 {
      SqStrictMono(0.0, a);
    } else {
      SqStrictMono(0.0, -a);
      SqEven(a);
    }
  }

  /** On [0, 1] squaring never enlarges. */
  lemma SqBelowUnit(a: real)
    requires 0.0 <= a <= 1.0
    ensures Sq(a) <= a
  {
    NonNegativeProduct(a, 1.0 - a);
    assert a * (1.0 - a) == a - a * a;
  }

  lemma NonNegativeProduct(a: real, b: real)
    requires a >= 0.0 && b >= 0.0
    ensures a * b >= 0.0
  {
  }

  /** A square no larger than another bounds the base by the other's
      (non-negative) base. */
  lemma SqBound(v: real, e: real)
    requires 0.0 <= e
    requires Sq(v) <= Sq(e)
    ensures -e <= v <= e
  {
    if v > e {
      SqStrictMono(e, v);
    } else if v < -e {
      SqStrictMono(e, -v);
      SqEven(v);
    }
  }

  /** The squared magnitude is positive exactly off the zero vector. */
  lemma SqrMagnitudeSign(v: Vec3)
    ensures SqrMagnitude(v) >= 0.0
    ensures v == Zero ==> SqrMagnitude(v) == 0.0
    ensures v != Zero ==> SqrMagnitude(v) > 0.0
  {
    SqNonNegative(v.x);
    SqNonNegative(v.y);
    SqNonNegative(v.z);
    if v.x != 0.0 {
      SqPositive(v.x);
    } else if v.y != 0.0 {
      SqPositive(v.y);
    } else if v.z != 0.0 {
      SqPositive(v.z);
    }
  }

  /** Multiplying by a non-negative factor keeps an order. */
  lemma MulMono(a: real, b: real, c: real)
    requires a <= b && 0.0 <= c
    ensures a * c <= b * c
  {
    assert b * c - a * c == (b - a) * c;
  }

  /** Multiplying by a positive factor keeps a strict order. */
  lemma MulStrictMono(a: real, b: real, c: real)
    requires a < b && 0.0 < c
    ensures a * c < b * c
  {
    PositiveProduct(b - a, c);
    assert (b - a) * c == b * c - a * c;
  }

  /** The engine's square root and `Mathf.Asin(q) * Mathf.Rad2Deg`, which
      the model treats as uninterpreted functions supplied by the caller. */
  datatype MathLib = MathLib(sqrt: real -> real, asinDeg: real -> real)

  /** `Vector3.Distance(a, b)`. */
  function Distance(a: Vec3, b: Vec3, math: MathLib): real {
    math.sqrt(SqrMagnitude(Sub(a, b)))
  }

  function Abs(x: real): (r: real)
    ensures r >= 0.0
    ensures r == x || r == -x
  {
    if x < 0.0 then -x else x
  }

  lemma AbsWithin(x: real, e: real)
    requires -e <= x <= e
    ensures Abs(x) <= e
  {
  }

  /** Scaling by a non-negative factor keeps a bound on the size. */
  lemma ScaledWithin(k: real, x: real, m: real, p: real)
    requires 0.0 <= k && Abs(x) <= Abs(m) && p == k * x
    ensures Abs(p) <= k * Abs(m)
  {
    var e := Abs(m);
    NonNegativeProduct(k, e - x);
    NonNegativeProduct(k, e + x);
    assert k * (e - x) == k * e - p;
    assert k * (e + x) == k * e + p;
    AbsWithin(p, k * e);
  }

  /** The range of an input axis. */
  predicate InUnit(x: real) {
    -1.0 <= x <= 1.0
  }

  /** A factor from [-1, 1] never enlarges what it scales. */
  lemma UnitScaleBounded(u: real, k: real)
    requires InUnit(u)
    ensures Abs(u * k) <= Abs(k)
  {
    var p := u * k;
    if k >= 0.0 {
      NonNegativeProduct(1.0 - u, k);
      NonNegativeProduct(u + 1.0, k);
      assert (1.0 - u) * k == k - p;
      assert (u + 1.0) * k == p + k;
      AbsWithin(p, k);
    } else {
      NonNegativeProduct(1.0 - u, -k);
      NonNegativeProduct(u + 1.0, -k);
      assert (1.0 - u) * (-k) == p - k;
      assert (u + 1.0) * (-k) == -p - k;
      AbsWithin(p, -k);
    }
  }

  /** `Mathf.Sign`: note that it answers 1 for zero. */
  function Sign(x: real): (r: real)
    ensures r == 1.0 || r == -1.0
    ensures r * x == Abs(x)
    ensures r < 0.0 <==> x < 0.0
  {
    if x >= 0.0 then 1.0 else -1.0
  }

  /** `Mathf.Min` */
  function Min(a: real, b: real): (r: real)
    ensures r <= a && r <= b
    ensures r == a || r == b
  {
    if a < b then a else b
  }

  /** `Mathf.Max` */
  function Max(a: real, b: real): (r: real)
    ensures r >= a && r >= b
    ensures r == a || r == b
  {
    if a > b then a else b
  }

  /** `Mathf.Clamp(value, min, max)`, written as the engine writes it: the
      lower bound is tested first, so an empty range (`min > max`) is not an
      error. */
  function Clamp(value: real, min: real, max: real): (r: real)
    ensures min <= max ==> min <= r <= max
    ensures min <= value <= max ==> r == value
    ensures r == value || r == min || r == max
  {
    if value < min then min else if value > max then max else value
  }

  /** `x / y` on floats: `None` when `y` is zero. For `x == 0` the source
      gets a NaN there; for `x != 0` it gets an infinity, which the callers
      show cannot arise. */
  function Quotient(x: real, y: real): (r: Option<real>)
    ensures r.Some? <==> y != 0.0
    ensures r.Some? ==> r.value * y == x
  {
    if y == 0.0 then None else Some(x / y)
  }
}
