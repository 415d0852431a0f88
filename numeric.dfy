/**
 * Scalar helpers shared by the animation components: the two linear
 * interpolation rules of three.js (THREE.MathUtils.lerp and the in-place
 * Vector3.lerp), repeated damping toward a fixed goal, powers and the
 * monotonicity of cubes used by the easing curves.
 */
module Numeric {

  datatype Option<T> = None | Some(value: T)

  /** The range of the host's sine and cosine. */
  predicate Unit(v: real)
  {
    -1.0 <= v <= 1.0
  }

  /** THREE.MathUtils.lerp(x, y, t) = (1 - t) * x + t * y. */
  function Lerp(x: real, y: real, t: real): (r: real)
    ensures t == 0.0 ==> r == x
    ensures t == 1.0 ==> r == y
    ensures x == y ==> r == x
    ensures 0.0 <= t <= 1.0 && x <= y ==> x <= r <= y
    ensures 0.0 <= t <= 1.0 && y <= x ==> y <= r <= x
    // the distance to the far end shrinks by the factor (1 - t)
    ensures r - y == (1.0 - t) * (x - y)
  {
    ProductSigns(t, y - x);
    ProductSigns(1.0 - t, y - x);
    (1.0 - t) * x + t * y
  }

  /** One step of Vector3.lerp on one component: c += (g - c) * alpha. */
  function Approach(c: real, g: real, alpha: real): (r: real)
    ensures c == g ==> r == g
    // the distance to the goal shrinks by exactly the factor (1 - alpha)
    ensures r - g == (1.0 - alpha) * (c - g)
  {
    c + (g - c) * alpha
  }

  lemma ProductSigns(a: real, b: real)
    ensures a >= 0.0 && b >= 0.0 ==> a * b >= 0.0
    ensures a >= 0.0 && b <= 0.0 ==> a * b <= 0.0
    ensures a <= 1.0 && b >= 0.0 ==> a * b <= b
    ensures a <= 1.0 && b <= 0.0 ==> a * b >= b
  {
  }

  lemma ProductPositive(a: real, b: real)
    requires a > 0.0 && b > 0.0
    ensures a * b > 0.0
  {
  }

  function Pow(b: real, n: nat): (r: real)
    ensures 0.0 <= b ==> 0.0 <= r
    ensures 0.0 <= b <= 1.0 ==> r <= 1.0
  {
    if n == 0 then 1.0
    else
      var q := Pow(b, n - 1);
      ProductSigns(b, q);
      b * q
  }

  /** Powers of a positive base are positive. */
  lemma {:induction false} PowPositive(b: real, n: nat)
    requires 0.0 < b
    ensures 0.0 < Pow(b, n)
  {
    if n > 0 {
      var q := Pow(b, n - 1);
      PowPositive(b, n - 1);
      assert Pow(b, n) == b * q;
      ProductPositive(b, q);
    }
  }

  /** Scaling a positive value by a factor below 1 makes it smaller. */
  lemma ScaleBelow(b: real, q: real, r: real)
    requires 0.0 < b < 1.0
    requires 0.0 < q
    requires r == b * q
    ensures 0.0 < r
    ensures r < q
  {
    assert 0.0 < b * q by { ProductPositive(b, q); }
    assert q - r > 0.0;
  }

  /** Powers of a base strictly between 0 and 1 fall strictly. */
  lemma PowDecreasing(b: real, n: nat)
    requires 0.0 < b < 1.0
    ensures 0.0 < Pow(b, n + 1) < Pow(b, n)
  {
    PowPositive(b, n);
    ScaleBelow(b, Pow(b, n), Pow(b, n + 1));
  }

  /** The value after n successive Approach steps toward a fixed goal g. */
  function Damped(c: real, g: real, alpha: real, n: nat): real
    decreases n
  {
    if n == 0 then c else Damped(Approach(c, g, alpha), g, alpha, n - 1)
  }

  /** n damping steps with factor alpha leave (1 - alpha)^n of the initial distance. */
  lemma {:induction false} DampedDistance(c: real, g: real, alpha: real, n: nat)
    ensures Damped(c, g, alpha, n) - g == Pow(1.0 - alpha, n) * (c - g)
    decreases n
  {
    if n > 0 {
      var k, d := 1.0 - alpha, c - g;
      var c' := Approach(c, g, alpha);
      assert Damped(c, g, alpha, n) == Damped(c', g, alpha, n - 1);
      DampedDistance(c', g, alpha, n - 1);
      var q := Pow(k, n - 1);
      assert Pow(k, n) == k * q;
      ScaleStep(q, k, d, c' - g);
    }
  }

  /** q * e == (k * q) * d whenever e == k * d. */
  lemma ScaleStep(q: real, k: real, d: real, e: real)
    requires e == k * d
    ensures q * e == (k * q) * d
  {
    MulAssoc(q, k, d);
  }

  lemma MulAssoc(a: real, b: real, c: real)
    ensures a * (b * c) == (b * a) * c
  {
  }

  /** A goal that is reached stays reached, whatever the number of steps. */
  lemma {:induction false} DampedAtGoal(g: real, alpha: real, n: nat)
    ensures Damped(g, g, alpha, n) == g
  {
    if n > 0 {
      DampedAtGoal(g, alpha, n - 1);
    }
  }

  /** Multiplying by a non-negative factor keeps the order. */
  lemma MulMonotone(x: real, y: real, z: real)
    requires x <= y && 0.0 <= z
    ensures x * z <= y * z
  {
    ProductSigns(z, y - x);
  }

  /** Squares are monotone on the non-negative reals. */
  lemma SquareMonotone(a: real, b: real)
    requires 0.0 <= a <= b
    ensures a * a <= b * b
  {
    MulMonotone(a, b, a);
    MulMonotone(a, b, b);
  }

  /** Cubes are monotone on the non-negative reals. */
  lemma CubeMonotone(a: real, b: real)
    requires 0.0 <= a <= b
    ensures a * a * a <= b * b * b
  {
    SquareMonotone(a, b);
    MulMonotone(a * a, b * b, a);
    MulMonotone(a, b, b * b);
  }

  lemma RatioInUnit(n: real, d: real)
    requires 0.0 <= n <= d && d > 0.0
    ensures 0.0 <= n / d <= 1.0
  {
  }

  function Min(a: real, b: real): (r: real)
    ensures r <= a && r <= b && (r == a || r == b)
  {
    if a <= b then a else b
  }

  function Max(a: real, b: real): (r: real)
    ensures r >= a && r >= b && (r == a || r == b)
  {
    if a >= b then a else b
  }
}
