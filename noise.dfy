/** The gradient-noise object of the hero scene (sector/self/self.js:14-40):
    a table `p` of 256 random bytes, its doubled copy `perm`, and the noise
    function that hashes the integer lattice point through `perm` and blends
    the gradients of the eight surrounding corners. The model is about the
    index arithmetic, the `fade` and `mix` helpers, and the range of the
    result; `Math.random()` becomes a sequence of given values in [0,1). */
module Noise {
  import opened Common

  /** The twelve gradient directions `grad3`: each has exactly two non-zero
      components, each of them 1 or -1. */
  const Grad3: seq<(int, int, int)> := [
    (1, 1, 0), (-1, 1, 0), (1, -1, 0), (-1, -1, 0),
    (1, 0, 1), (-1, 0, 1), (1, 0, -1), (-1, 0, -1),
    (0, 1, 1), (0, -1, 1), (0, 1, -1), (0, -1, -1)
  ]

  /** A filled `perm`: 512 entries, each a byte, the upper half repeating the
      lower half. `p` need not be a permutation, so neither is `perm`. */
  predicate ValidPerm(perm: seq<int>)
  {
    && |perm| == 512
    && (forall i :: 0 <= i < 512 ==> 0 <= perm[i] <= 255)
    && perm[256..] == perm[..256]
  }

  /** The object `noise` with its two tables. The source starts them as empty
      JavaScript arrays that `init` grows; here they are allocated at their
      final sizes and `Init` fills them. */
  class NoiseTable {
    var p: array<int>
    var perm: array<int>

    constructor ()
      ensures fresh(p) && fresh(perm)
      ensures p.Length == 256 && perm.Length == 512
    {
      p := new int[256];
      perm := new int[512];
    }

    /** `init`: `p[i] = Math.floor(Math.random() * 256)` for each of the 256
        entries, then `perm[i] = p[i & 255]` for each of the 512. */
    method Init(randoms: seq<real>)
      requires p.Length == 256 && perm.Length == 512 && p != perm
      requires |randoms| == 256
      requires forall i :: 0 <= i < 256 ==> 0.0 <= randoms[i] < 1.0
      modifies p, perm
      ensures forall i :: 0 <= i < 256 ==> p[i] == RandomIndex(randoms[i], 256)
      ensures forall i :: 0 <= i < 512 ==> perm[i] == p[i % 256]
      ensures ValidPerm(perm[..])
    {
      for i := 0 to 256
        invariant forall j :: 0 <= j < i ==> p[j] == RandomIndex(randoms[j], 256)
      {
        p[i] := RandomIndex(randoms[i], 256);
      }
      for i := 0 to 512
        invariant forall j :: 0 <= j < 256 ==> p[j] == RandomIndex(randoms[j], 256)
        invariant forall j :: 0 <= j < i ==> perm[j] == p[j % 256]
      {
        // i & 255 == i % 256 for a non-negative i
        perm[i] := p[i % 256];
      }
      forall i | 0 <= i < 256
        ensures perm[..][256..][i] == perm[..][..256][i]
      {
        assert (i + 256) % 256 == i % 256;
      }
    }
  }

  /** `Math.floor(v) & 255`: the low byte of the integer part in two's
      complement, i.e. the integer part modulo 256, also when it is negative. */
  function LatticeByte(v: real): (k: int)
    ensures 0 <= k <= 255
    ensures (v.Floor - k) % 256 == 0
  {
    v.Floor % 256
  }

  /** `v - Math.floor(v)`: the position inside the unit cell. */
  function CellOffset(v: real): (f: real)
    ensures 0.0 <= f < 1.0
    ensures v == v.Floor as real + f
  {
    v - v.Floor as real
  }

  /** `fade`: the quintic smoothstep `6t^5 - 15t^4 + 10t^3`. It fixes 0 and 1
      and maps [0,1] into [0,1]. */
  function Fade(t: real): (r: real)
    ensures t == 0.0 ==> r == 0.0
    ensures t == 1.0 ==> r == 1.0
    ensures 0.0 <= t <= 1.0 ==> 0.0 <= r <= 1.0
  {
    FadeBounds(t);
    t * t * t * (t * (t * 6.0 - 15.0) + 10.0)
  }

  lemma FadeBounds(t: real)
    ensures 0.0 <= t <= 1.0 ==> 0.0 <= t * t * t * (t * (t * 6.0 - 15.0) + 10.0) <= 1.0
  {
    if 0.0 <= t <= 1.0 {
      var cube := t * t * t;
      var q := t * (t * 6.0 - 15.0) + 10.0;
      NonNegProduct(t, t);
      NonNegProduct(t * t, t);
      // q >= 1 on [0,1]: q - 1 = (1 - t) * (9 - 6t)
      assert q - 1.0 == (1.0 - t) * (9.0 - 6.0 * t);
      NonNegProduct(1.0 - t, 9.0 - 6.0 * t);
      NonNegProduct(cube, q);
      // 1 - fade(t) == (1 - t)^3 * (6t^2 + 3t + 1)
      var rest := (1.0 - t) * (1.0 - t) * (1.0 - t);
      assert 1.0 - cube * q == rest * (6.0 * t * t + 3.0 * t + 1.0);
      NonNegProduct(1.0 - t, 1.0 - t);
      NonNegProduct((1.0 - t) * (1.0 - t), 1.0 - t);
      NonNegProduct(t, t);
      NonNegProduct(rest, 6.0 * t * t + 3.0 * t + 1.0);
    }
  }

  /** `dot(g, x, y, z)`. */
  function Dot(g: (int, int, int), x: real, y: real, z: real): real
  {
    g.0 as real * x + g.1 as real * y + g.2 as real * z
  }

  /** The dot product of a gradient with an offset inside the unit cube
      around a corner is at most 2 in size. */
  lemma DotBound(k: int, x: real, y: real, z: real)
    requires 0 <= k < 12
    requires -1.0 <= x <= 1.0 && -1.0 <= y <= 1.0 && -1.0 <= z <= 1.0
    ensures -2.0 <= Dot(Grad3[k], x, y, z) <= 2.0
  {
    var g := Grad3[k];
    assert g.0 == 0 || g.1 == 0 || g.2 == 0;
    assert -1 <= g.0 <= 1 && -1 <= g.1 <= 1 && -1 <= g.2 <= 1;
    UnitTerm(g.0, x);
    UnitTerm(g.1, y);
    UnitTerm(g.2, z);
  }

  lemma UnitTerm(c: int, v: real)
    requires -1 <= c <= 1 && -1.0 <= v <= 1.0
    ensures -1.0 <= c as real * v <= 1.0
    ensures c == 0 ==> c as real * v == 0.0
  {
  }

  /** The six lattice hashes of `noise`: `A = perm[X] + Y`, `AA = perm[A] + Z`,
      `AB = perm[A + 1] + Z`, and likewise `B`, `BA`, `BB` from `perm[X + 1]`.
      Each is at most 510, so every `perm[...]` the function reads, including
      the `+ 1` forms, is within the 512 entries. */
  datatype Hashes = Hashes(a: int, b: int, aa: int, ab: int, ba: int, bb: int)

  function HashCorners(perm: seq<int>, x: int, y: int, z: int): (h: Hashes)
    requires ValidPerm(perm)
    requires 0 <= x <= 255 && 0 <= y <= 255 && 0 <= z <= 255
    ensures 0 <= h.a <= 510 && 0 <= h.b <= 510
    ensures 0 <= h.aa <= 510 && 0 <= h.ab <= 510 && 0 <= h.ba <= 510 && 0 <= h.bb <= 510
  {
    var a := perm[x] + y;
    var b := perm[x + 1] + y;
    Hashes(a, b, perm[a] + z, perm[a + 1] + z, perm[b] + z, perm[b + 1] + z)
  }

  /** `grad3[perm[k] % 12]` dotted with an offset: the gradient index lies in
      [0,11], and the value in [-2,2]. */
  function CornerGradient(perm: seq<int>, k: int, x: real, y: real, z: real): (d: real)
    requires ValidPerm(perm) && 0 <= k < 512
    requires -1.0 <= x <= 1.0 && -1.0 <= y <= 1.0 && -1.0 <= z <= 1.0
    ensures -2.0 <= d <= 2.0
  {
    var g := perm[k] % 12;
    DotBound(g, x, y, z);
    Dot(Grad3[g], x, y, z)
  }

  /** `noise.noise(x, y, z)`: every table access is in range for any input,
      and the value, a blend of corner gradients with weights in [0,1], lies
      in [-2,2]. */
  function NoiseAt(perm: seq<int>, x: real, y: real, z: real): (n: real)
    requires ValidPerm(perm)
    ensures -2.0 <= n <= 2.0
  {
    var cx, cy, cz := LatticeByte(x), LatticeByte(y), LatticeByte(z);
    var fx, fy, fz := CellOffset(x), CellOffset(y), CellOffset(z);
    var u, v, w := Fade(fx), Fade(fy), Fade(fz);
    var h := HashCorners(perm, cx, cy, cz);
    Mix(Mix(Mix(CornerGradient(perm, h.aa, fx, fy, fz),
                CornerGradient(perm, h.ba, fx - 1.0, fy, fz), u),
            Mix(CornerGradient(perm, h.ab, fx, fy - 1.0, fz),
                CornerGradient(perm, h.bb, fx - 1.0, fy - 1.0, fz), u), v),
        Mix(Mix(CornerGradient(perm, h.aa + 1, fx, fy, fz - 1.0),
                CornerGradient(perm, h.ba + 1, fx - 1.0, fy, fz - 1.0), u),
            Mix(CornerGradient(perm, h.ab + 1, fx, fy - 1.0, fz - 1.0),
                CornerGradient(perm, h.bb + 1, fx - 1.0, fy - 1.0, fz - 1.0), u), v), w)
  }

  /** The upper half of a filled table repeats the lower half: `perm[i] ==
      perm[i + 256]`. */
  lemma PermRepeats(perm: seq<int>, i: int)
    requires ValidPerm(perm) && 0 <= i < 256
    ensures perm[i] == perm[i + 256]
  {
    assert perm[256..][i] == perm[..256][i];
  }

  /** The field `noise.noise` computes once `init` has filled the tables,
      as a function of the three coordinates. */
  function NoiseField(perm: seq<int>): (f: (real, real, real) -> real)
    requires ValidPerm(perm)
    ensures forall x, y, z :: f(x, y, z) == NoiseAt(perm, x, y, z)
    ensures forall x, y, z :: -2.0 <= f(x, y, z) <= 2.0
  {
    (x, y, z) => if ValidPerm(perm) then NoiseAt(perm, x, y, z) else 0.0
  }
}
