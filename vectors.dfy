/**
 * Plain vector values shared by the sketches.  three.js `Vector2`/`Vector3`
 * objects are mutated in place by `add`, `sub`, `multiplyScalar`, ...; every
 * such object in the modelled code is owned by exactly one field, so a value
 * that the field is reassigned to stands for the mutated object.
 */
module Vectors {

  datatype Vec2 = Vec2(x: real, y: real)
  datatype Vec3 = Vec3(x: real, y: real, z: real)

  function Add2(a: Vec2, b: Vec2): Vec2 { Vec2(a.x + b.x, a.y + b.y) }
  function Sub2(a: Vec2, b: Vec2): Vec2 { Vec2(a.x - b.x, a.y - b.y) }
  function Scale2(a: Vec2, k: real): Vec2 { Vec2(a.x * k, a.y * k) }

  function Add3(a: Vec3, b: Vec3): Vec3 { Vec3(a.x + b.x, a.y + b.y, a.z + b.z) }
  function Sub3(a: Vec3, b: Vec3): Vec3 { Vec3(a.x - b.x, a.y - b.y, a.z - b.z) }
  function Scale3(a: Vec3, k: real): Vec3 { Vec3(a.x * k, a.y * k, a.z * k) }

  const Zero2 := Vec2(0.0, 0.0)
  const Zero3 := Vec3(0.0, 0.0, 0.0)

  /** Squared Euclidean length. */
  function LengthSq2(a: Vec2): real { a.x * a.x + a.y * a.y }

  /**
   * `len` is the Euclidean length of (x, y), i.e. what `Math.sqrt(x*x + y*y)`
   * or `Vector2.length()` returns.  Dafny's reals have no square root, so the
   * model receives lengths from its caller together with this fact.
   */
  predicate IsLength(len: real, x: real, y: real)
  {
    0.0 <= len && len * len == x * x + y * y
  }

  /** `hypot` returns the Euclidean length of every argument pair. */
  ghost predicate IsHypot(hypot: (real, real) -> real)
  {
    forall x: real, y: real :: IsLength(hypot(x, y), x, y)
  }

  /** `Math.max(lo, Math.min(hi, v))` */
  function Clamp(v: real, lo: real, hi: real): real { Max(lo, Min(hi, v)) }

  /** `Math.min(a, b)` */
  function Min(a: real, b: real): real { if a <= b then a else b }

  /** `Math.max(a, b)` */
  function Max(a: real, b: real): real { if a >= b then a else b }

  /** The absolute value, `Math.abs`. */
  function Abs(a: real): real { if a < 0.0 then -a else a }

  // Small facts about products of reals.  The solver handles products best
  // when they are stated about fresh variables, so the proofs elsewhere call
  // these instead of leaving the non-linear step to it.

  lemma MulLe(a: int, b: int, n: int)
    requires a <= b && n >= 0
    ensures a * n <= b * n
  {
    assert b * n - a * n == (b - a) * n;
  }

  /** Euclidean remainder of a value below twice the divisor: at most one wrap. */
  lemma ModOnce(x: int, n: int)
    requires 0 <= x < 2 * n
    ensures x % n == if x < n then x else x - n
  {
    var q := x / n;
    assert q * n <= x < q * n + n;
    assert 2 * n == (1 + 1) * n;
    assert (q + 1) * n == q * n + n;
    if q < 0 {
      MulLe(q + 1, 0, n);
    } else if q > 1 {
      MulLe(2, q, n);
    } else if q == 1 {
      assert q * n == n;
    } else {
      assert q * n == 0;
    }
  }

  lemma MulNonNeg(a: real, b: real)
    requires a >= 0.0 && b >= 0.0
    ensures a * b >= 0.0
  {}

  lemma MulPositive(a: real, b: real)
    requires a > 0.0 && b > 0.0
    ensures a * b > 0.0
  {}

  lemma MulAtMost(a: real, b: real)
    requires a >= 0.0 && 0.0 <= b <= 1.0
    ensures 0.0 <= a * b <= a
  {}

  lemma MulMono(a: real, b: real, c: real)
    requires 0.0 <= a <= b && c >= 0.0
    ensures a * c <= b * c
  {}

  lemma MulMono2(a: real, b: real, c: real, d: real)
    requires 0.0 <= a <= b && 0.0 <= c <= d
    ensures 0.0 <= a * c <= b * d
  {
    MulMono(a, b, c);
    assert b * c <= b * d;
  }

  /**
   * The exponential follower used by every sketch, `value += (target - value) / k`:
   * each call closes the k-th part of the remaining gap.
   */
  function Approach(value: real, target: real, k: real): real
    requires k != 0.0
  {
    value + (target - value) / k
  }

  function Approach2(value: Vec2, target: Vec2, k: real): Vec2
    requires k != 0.0
  {
    Vec2(Approach(value.x, target.x, k), Approach(value.y, target.y, k))
  }

  function Approach3(value: Vec3, target: Vec3, k: real): Vec3
    requires k != 0.0
  {
    Vec3(Approach(value.x, target.x, k), Approach(value.y, target.y, k), Approach(value.z, target.z, k))
  }

  /** With k >= 1 the follower never overshoots: it lands between value and target. */
  lemma ApproachBetween(value: real, target: real, k: real)
    requires k >= 1.0
    ensures value <= target ==> value <= Approach(value, target, k) <= target
    ensures target <= value ==> target <= Approach(value, target, k) <= value
  {
    var d := target - value;
    assert d / k * k == d;
  }

  /** `Math.pow(v, n)` for a natural exponent. */
  function Pow(v: real, n: nat): real { if n == 0 then 1.0 else v * Pow(v, n - 1) }

  lemma {:induction false} PowMono(a: real, b: real, n: nat)
    requires 0.0 <= a <= b
    ensures 0.0 <= Pow(a, n) <= Pow(b, n)
  {
    if n > 0 {
      PowMono(a, b, n - 1);
      MulMono2(a, b, Pow(a, n - 1), Pow(b, n - 1));
    }
  }

  lemma {:induction false} PowScale(k: real, v: real, n: nat)
    ensures Pow(k * v, n) == Pow(k, n) * Pow(v, n)
  {
    if n > 0 {
      PowScale(k, v, n - 1);
      var p, q := Pow(k, n - 1), Pow(v, n - 1);
      assert k * v * (p * q) == (k * p) * (v * q);
    }
  }

  lemma {:induction false} PowOne(n: nat)
    ensures Pow(1.0, n) == 1.0
  {
    if n > 0 { PowOne(n - 1); }
  }

  lemma PowBelowOne(v: real, n: nat)
    requires 0.0 <= v < 1.0 && n > 0
    ensures Pow(v, n) < 1.0
  {
    PowMono(v, 1.0, n - 1);
    PowOne(n - 1);
    MulMono2(v, v, Pow(v, n - 1), 1.0);
  }
}
