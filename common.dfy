/** Definitions shared by the three scenes and the content manager.
    JavaScript numbers are modelled as `real`, an idealisation of IEEE doubles
    without rounding, NaN or infinities. */
module Common {

  datatype Option<T> = None | Some(value: T)

  /** A point or vector in scene space. */
  datatype Vec3 = Vec3(x: real, y: real, z: real)

  function Add(a: Vec3, b: Vec3): Vec3 { Vec3(a.x + b.x, a.y + b.y, a.z + b.z) }

  function Sub(a: Vec3, b: Vec3): Vec3 { Vec3(a.x - b.x, a.y - b.y, a.z - b.z) }

  function Scale(k: real, a: Vec3): Vec3 { Vec3(k * a.x, k * a.y, k * a.z) }

  /** The `i`-th point of a flat buffer that stores three coordinates per
      point, like the scenes' `Float32Array`s of positions and colours. */
  function At(s: seq<real>, i: int): Vec3
    requires 0 <= i && 3 * i + 2 < |s|
  {
    Vec3(s[3 * i], s[3 * i + 1], s[3 * i + 2])
  }

  /** Writing the three coordinates of point `i`: that point becomes `v` and
      every other point of the buffer keeps its value. */
  function Put(s: seq<real>, i: int, v: Vec3): (t: seq<real>)
    requires 0 <= i && 3 * i + 2 < |s|
    ensures |t| == |s|
    ensures At(t, i) == v
    ensures forall j :: 0 <= j && 3 * j + 2 < |s| && j != i ==> At(t, j) == At(s, j)
  {
    s[3 * i := v.x][3 * i + 1 := v.y][3 * i + 2 := v.z]
  }

  /** Writes the three coordinates of point `i` into a flat buffer. */
  method Store(a: array<real>, i: int, v: Vec3)
    requires 0 <= i && 3 * i + 2 < a.Length
    modifies a
    ensures a[..] == Put(old(a[..]), i, v)
  {
    a[3 * i] := v.x;
    a[3 * i + 1] := v.y;
    a[3 * i + 2] := v.z;
  }

  /** `Math.min(a, b)`: one of its arguments, and at most both. */
  function Min(a: real, b: real): (r: real)
    ensures r <= a && r <= b
    ensures r == a || r == b
  {
    if a <= b then a else b
  }

  function Max(a: real, b: real): real { if a <= b then b else a }

  /** `(1 - t) * a + t * b`: the blend used by the noise function and the
      particle colours. For a weight in [0,1] it is a convex combination, so it
      never leaves the interval spanned by its end points. */
  function Mix(a: real, b: real, t: real): (r: real)
    ensures t == 0.0 ==> r == a
    ensures t == 1.0 ==> r == b
    ensures 0.0 <= t <= 1.0 ==> Min(a, b) <= r <= Max(a, b)
  {
    MixBetween(a, b, t);
    (1.0 - t) * a + t * b
  }

  lemma MixBetween(a: real, b: real, t: real)
    ensures (1.0 - t) * a + t * b == a + t * (b - a)
    ensures 0.0 <= t <= 1.0 ==> Min(a, b) <= (1.0 - t) * a + t * b <= Max(a, b)
  {
    assert (1.0 - t) * a + t * b == a + t * (b - a);
    if 0.0 <= t <= 1.0 {
      NonNegProduct(t, if a <= b then b - a else a - b);
      NonNegProduct(1.0 - t, if a <= b then b - a else a - b);
    }
  }

  lemma NonNegProduct(x: real, y: real)
    requires 0.0 <= x && 0.0 <= y
    ensures 0.0 <= x * y
  {
  }

  lemma PositiveProduct(x: real, y: real)
    requires 0.0 < x && 0.0 < y
    ensures 0.0 < x * y
  {
  }

  /** `cur += (target - cur) * k`: the exponential smoothing step of the
      camera and the scroll position. The gap to the target shrinks by the
      factor `1 - k`, and for `k` in [0,1] the new value lies between the old
      value and the target. */
  function Approach(cur: real, target: real, k: real): (r: real)
    ensures target - r == (1.0 - k) * (target - cur)
    ensures 0.0 <= k <= 1.0 ==> Min(cur, target) <= r <= Max(cur, target)
  {
    MixBetween(cur, target, k);
    cur + (target - cur) * k
  }

  /** `Math.floor(r * n)` for a value `r` of `Math.random()`, which lies in
      [0,1): for a non-empty collection of size `n` this is a valid index. */
  function RandomIndex(r: real, n: nat): (k: int)
    requires 0.0 <= r < 1.0
    ensures n > 0 ==> 0 <= k < n
    ensures n == 0 ==> k == 0
  {
    ScaledBelow(r, n);
    (r * (n as real)).Floor
  }

  /** Each index `k` of a non-empty collection is drawn for exactly the
      values of `r` in [k/n, (k+1)/n): every entry gets an equal share of
      [0,1). */
  lemma RandomIndexShare(r: real, n: nat, k: int)
    requires 0.0 <= r < 1.0 && n > 0
    ensures RandomIndex(r, n) == k <==> (k as real) / (n as real) <= r < ((k + 1) as real) / (n as real)
  {
    var m := n as real;
    var lo, hi := (k as real) / m, ((k + 1) as real) / m;
    assert lo * m == k as real && hi * m == (k + 1) as real;
    ScaleOrder(lo, r, m);
    ScaleOrder(r, hi, m);
  }

  /** Multiplying by a positive factor keeps the order of two reals. */
  lemma ScaleOrder(a: real, b: real, m: real)
    requires 0.0 < m
    ensures a <= b <==> a * m <= b * m
    ensures a < b <==> a * m < b * m
  {
    assert b * m - a * m == (b - a) * m;
    if a <= b {
      NonNegProduct(b - a, m);
    } else {
      PositiveProduct(a - b, m);
    }
    if a < b {
      PositiveProduct(b - a, m);
    } else {
      NonNegProduct(a - b, m);
    }
  }

  lemma ScaledBelow(r: real, n: nat)
    requires 0.0 <= r < 1.0
    ensures 0.0 <= r * (n as real)
    ensures n > 0 ==> r * (n as real) < n as real
  {
    assert (n as real) - r * (n as real) == (1.0 - r) * (n as real);
  }

  /** `Math.sqrt`, which the model leaves abstract: any function that returns
      the non-negative square root of a non-negative argument. */
  ghost predicate IsSqrt(sqrt: real -> real)
  {
    forall a :: 0.0 <= a ==> 0.0 <= sqrt(a) && sqrt(a) * sqrt(a) == a
  }

  /** The zero vector: a particle at rest. */
  const Zero: Vec3 := Vec3(0.0, 0.0, 0.0)

  /** `(Math.cos(angle), Math.sin(angle))` for `angle = Math.atan2(dy, dx)`,
      given `dist`, the length of (dx, dy). */
  function Heading(dx: real, dy: real, dist: real): (real, real)
  {
    if dist == 0.0 then (1.0, 0.0) else (dx / dist, dy / dist)
  }

  /** The heading is the offset scaled down by its length, so it points
      from the particle towards the pointer; when the pointer is exactly on
      the particle it is (1, 0), since `atan2(0, 0)` is 0. */
  lemma HeadingScales(dx: real, dy: real, dist: real)
    ensures dist != 0.0 ==> Heading(dx, dy, dist).0 * dist == dx && Heading(dx, dy, dist).1 * dist == dy
    ensures dist == 0.0 ==> Heading(dx, dy, dist) == (1.0, 0.0)
  {
  }

  /** The length of a vector, `Math.sqrt(x * x + y * y + z * z)`. */
  function Length(sqrt: real -> real, v: Vec3): real
  {
    sqrt(v.x * v.x + v.y * v.y + v.z * v.z)
  }

  /** With a true square root, the length is non-negative and its square
      is the sum of the squared components. */
  lemma LengthSquared(sqrt: real -> real, v: Vec3)
    requires IsSqrt(sqrt)
    ensures 0.0 <= Length(sqrt, v)
    ensures Length(sqrt, v) * Length(sqrt, v) == v.x * v.x + v.y * v.y + v.z * v.z
  {
    SquaresNonNeg(v);
  }

  lemma SquaresNonNeg(v: Vec3)
    ensures 0.0 <= v.x * v.x + v.y * v.y + v.z * v.z
    ensures 0.0 <= v.x * v.x + v.y * v.y
  {
    NonNegSquare(v.x);
    NonNegSquare(v.y);
    NonNegSquare(v.z);
  }

  lemma NonNegSquare(a: real)
    ensures 0.0 <= a * a
  {
    if a < 0.0 {
      assert a * a == (-a) * (-a);
    }
  }

  /** `Math.sqrt(dx * dx + dy * dy)`: the distance in the plane. */
  function PlaneDistance(sqrt: real -> real, dx: real, dy: real): real
  {
    sqrt(dx * dx + dy * dy)
  }

  /** With a true square root, the plane distance is non-negative and its
      square is `dx * dx + dy * dy`. */
  lemma PlaneDistanceSquared(sqrt: real -> real, dx: real, dy: real)
    requires IsSqrt(sqrt)
    ensures 0.0 <= PlaneDistance(sqrt, dx, dy)
    ensures PlaneDistance(sqrt, dx, dy) * PlaneDistance(sqrt, dx, dy) == dx * dx + dy * dy
  {
    SquaresNonNeg(Vec3(dx, dy, 0.0));
  }

  /** A function whose values lie in [-1,1], like `Math.cos` and `Math.sin`,
      which the model leaves abstract. */
  ghost predicate IsWave(f: real -> real)
  {
    forall a :: -1.0 <= f(a) <= 1.0
  }

  /** The pointer handlers of the web and blog scenes (`onDocumentMouseMove`,
      `onMouseMove`): the pointer in normalised device coordinates,
      x from -1 at the left edge to 1 at the right, y from 1 at the top to
      -1 at the bottom. */
  function PointerNdc(clientX: real, clientY: real, width: real, height: real): (m: (real, real))
    requires 0.0 < width && 0.0 < height
    ensures clientX == 0.0 ==> m.0 == -1.0
    ensures clientX == width ==> m.0 == 1.0
    ensures clientY == 0.0 ==> m.1 == 1.0
    ensures clientY == height ==> m.1 == -1.0
    ensures 0.0 <= clientX <= width ==> -1.0 <= m.0 <= 1.0
    ensures 0.0 <= clientY <= height ==> -1.0 <= m.1 <= 1.0
  {
    ScaledInUnit(clientX, width);
    ScaledInUnit(clientY, height);
    ((clientX / width) * 2.0 - 1.0, -(clientY / height) * 2.0 + 1.0)
  }

  lemma NonNegQuotient(a: real, w: real)
    requires 0.0 <= a && 0.0 < w
    ensures 0.0 <= a / w
  {
  }

  lemma ScaledInUnit(a: real, w: real)
    requires 0.0 < w
    ensures 0.0 <= a <= w ==> 0.0 <= a / w <= 1.0
  {
    if 0.0 <= a <= w {
      NonNegQuotient(a, w);
      assert a / w <= 1.0;
    }
  }
}
