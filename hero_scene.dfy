/** The hero scene of the personal page (sector/self/self.js): the name is
    rasterised and sampled into particles, each frame moves every particle
    under flow noise, pointer repulsion, a spring back to its origin and
    damping, and tints it between ink and gold; beside it, the information
    items reveal themselves once their detail panel has been closed, and the
    background blur shrinks with every type revealed.

    The canvas rasterisation is an input (the RGBA bytes of the 1024x512
    canvas), the pointer's projection into the scene is an input, and
    `Math.sqrt` is an abstract square root. */
module HeroScene {
  import opened Common
  import opened Noise

  // ---------------------------------------------------------------------------
  // createTextParticles: sampling the rasterised text
  // ---------------------------------------------------------------------------

  const CanvasWidth: int := 1024
  const CanvasHeight: int := 512
  /** Bytes of the canvas's RGBA image data: 1024 * 512 pixels of 4 bytes. */
  const ImageSize: int := 2097152
  /** Distance between samples in both directions. */
  const SampleStep: int := 3

  /** The alpha byte of pixel (x, y) exceeds 128. */
  predicate Opaque(data: seq<int>, x: int, y: int)
    requires |data| == ImageSize
    requires 0 <= x < CanvasWidth && 0 <= y < CanvasHeight
  {
    data[(y * 1024 + x) * 4 + 3] > 128
  }

  /** The particle made from pixel (x, y): the canvas centre becomes the
      origin, coordinates double, and y points up. */
  function SamplePoint(x: int, y: int): Vec3
  {
    Vec3(((x - 512) * 2) as real, (-(y - 256) * 2) as real, 0.0)
  }

  /** The pixel a particle was made from. */
  function SampleColumn(p: Vec3): int { (p.x / 2.0).Floor + 512 }

  function SampleRow(p: Vec3): int { 256 - (p.y / 2.0).Floor }

  /** Distinct pixels give distinct particles: the pixel can be read back. */
  lemma SamplePointInverse(x: int, y: int)
    ensures SampleColumn(SamplePoint(x, y)) == x && SampleRow(SamplePoint(x, y)) == y
  {
    var p := SamplePoint(x, y);
    assert p.x / 2.0 == (x - 512) as real;
    assert p.y / 2.0 == (256 - y) as real;
  }

  /** The particles of row `y`, from column `x` on, left to right. (`data`
      is listed in the `decreases` clauses of the scan so that the verifier
      does not unroll the scan at literal coordinates.) */
  function RowSamples(data: seq<int>, y: int, x: int): seq<Vec3>
    requires |data| == ImageSize && 0 <= y < CanvasHeight && 0 <= x
    decreases CanvasWidth - x, data
  {
    if x >= CanvasWidth then []
    else (if Opaque(data, x, y) then [SamplePoint(x, y)] else []) + RowSamples(data, y, x + SampleStep)
  }

  /** The particles of the rows from `y` on, top to bottom. */
  function RowsFrom(data: seq<int>, y: int): seq<Vec3>
    requires |data| == ImageSize && 0 <= y
    decreases CanvasHeight - y, data
  {
    if y >= CanvasHeight then []
    else RowSamples(data, y, 0) + RowsFrom(data, y + SampleStep)
  }

  /** All particles of the image, in the order the sampler emits them. */
  function TextParticles(data: seq<int>): seq<Vec3>
    requires |data| == ImageSize
  {
    RowsFrom(data, 0)
  }

  /** One sampled column of a row: the pixel's particle, if any, precedes
      the rest of the row. */
  lemma RowSamplesStep(data: seq<int>, y: int, x: int)
    requires |data| == ImageSize && 0 <= y < CanvasHeight && 0 <= x < CanvasWidth
    ensures RowSamples(data, y, x)
        == (if Opaque(data, x, y) then [SamplePoint(x, y)] else []) + RowSamples(data, y, x + SampleStep)
  {
  }

  /** One row of `createTextParticles`' scan: every third column of row `y`,
      left to right, emitting a particle for each opaque pixel. */
  method SampleRowOf(data: seq<int>, y: int) returns (row: seq<Vec3>)
    requires |data| == ImageSize && 0 <= y < CanvasHeight
    ensures row == RowSamples(data, y, 0)
  {
    row := [];
    var x := 0;
    while x < CanvasWidth
      invariant 0 <= x
      invariant row + RowSamples(data, y, x) == RowSamples(data, y, 0)
    {
      RowSamplesStep(data, y, x);
      var index := (y * 1024 + x) * 4;
      if data[index + 3] > 128 {
        row := row + [SamplePoint(x, y)];
      }
      x := x + SampleStep;
    }
  }

  /** `createTextParticles` over given image bytes: visits every third pixel of
      every third row, row by row, and emits a particle for each opaque one. */
  method CreateTextParticles(data: seq<int>) returns (particles: seq<Vec3>)
    requires |data| == ImageSize
    ensures particles == TextParticles(data)
  {
    particles := [];
    var y := 0;
    while y < CanvasHeight
      invariant 0 <= y
      invariant particles + RowsFrom(data, y) == TextParticles(data)
    {
      var row := SampleRowOf(data, y);
      assert RowsFrom(data, y) == row + RowsFrom(data, y + SampleStep);
      particles := particles + row;
      y := y + SampleStep;
    }
  }

  /** Row `y` from column `x` holds at most one particle per sampled column. */
  lemma {:induction false} RowSamplesCount(data: seq<int>, y: int, x: int)
    requires |data| == ImageSize && 0 <= y < CanvasHeight && 0 <= x <= 1026
    ensures |RowSamples(data, y, x)| <= (1026 - x) / 3
    decreases CanvasWidth - x
  {
    if x < CanvasWidth {
      RowSamplesCount(data, y, x + SampleStep);
    }
  }

  lemma {:induction false} RowsFromCount(data: seq<int>, y: int)
    requires |data| == ImageSize && 0 <= y <= 513 && y % SampleStep == 0
    ensures |RowsFrom(data, y)| <= 342 * ((513 - y) / 3)
    decreases CanvasHeight - y
  {
    if y < CanvasHeight {
      RowSamplesCount(data, y, 0);
      RowsFromCount(data, y + SampleStep);
      assert |RowsFrom(data, y)| == |RowSamples(data, y, 0)| + |RowsFrom(data, y + SampleStep)|;
      assert (513 - (y + 3)) / 3 == (513 - y) / 3 - 1;
    }
  }

  /** At most 342 x 171 particles: one per sampled pixel. */
  lemma TextParticlesCount(data: seq<int>)
    requires |data| == ImageSize
    ensures |TextParticles(data)| <= 342 * 171
  {
    RowsFromCount(data, 0);
  }

  /** Particle `p` comes from an opaque sampled pixel in a row at or below
      `y0`. */
  ghost predicate FromOpaqueSample(data: seq<int>, p: Vec3, y0: int)
    requires |data| == ImageSize
  {
    var x, y := SampleColumn(p), SampleRow(p);
    && 0 <= x < CanvasWidth && y0 <= y < CanvasHeight && 0 <= y
    && x % SampleStep == 0 && y % SampleStep == 0
    && p == SamplePoint(x, y) && Opaque(data, x, y)
  }

  lemma {:induction false} RowSamplesSound(data: seq<int>, y: int, x: int)
    requires |data| == ImageSize && 0 <= y < CanvasHeight && y % SampleStep == 0
    requires 0 <= x && x % SampleStep == 0
    ensures forall p :: p in RowSamples(data, y, x) ==> FromOpaqueSample(data, p, y)
    decreases CanvasWidth - x
  {
    if x < CanvasWidth {
      RowSamplesSound(data, y, x + SampleStep);
      SamplePointInverse(x, y);
    }
  }

  lemma {:induction false} RowsFromSound(data: seq<int>, y: int)
    requires |data| == ImageSize && 0 <= y && y % SampleStep == 0
    ensures forall p :: p in RowsFrom(data, y) ==> FromOpaqueSample(data, p, y)
    decreases CanvasHeight - y
  {
    if y < CanvasHeight {
      RowSamplesSound(data, y, 0);
      RowsFromSound(data, y + SampleStep);
    }
  }

  lemma {:induction false} RowSamplesComplete(data: seq<int>, y: int, x0: int, x: int)
    requires |data| == ImageSize && 0 <= y < CanvasHeight
    requires 0 <= x0 <= x < CanvasWidth && (x - x0) % SampleStep == 0
    requires Opaque(data, x, y)
    ensures SamplePoint(x, y) in RowSamples(data, y, x0)
    decreases x - x0
  {
    if x0 < x {
      RowSamplesComplete(data, y, x0 + SampleStep, x);
    }
  }

  lemma {:induction false} RowsFromComplete(data: seq<int>, y0: int, x: int, y: int)
    requires |data| == ImageSize
    requires 0 <= y0 <= y < CanvasHeight && (y - y0) % SampleStep == 0
    requires 0 <= x < CanvasWidth && x % SampleStep == 0
    requires Opaque(data, x, y)
    ensures SamplePoint(x, y) in RowsFrom(data, y0)
    decreases y - y0
  {
    RowsFromStep(data, y0);
    if y0 < y {
      assert (y - (y0 + SampleStep)) % SampleStep == 0;
      RowsFromComplete(data, y0 + SampleStep, x, y);
    } else {
      RowSamplesComplete(data, y, 0, x);
    }
  }

  /** One sampled row: its particles precede those of the rows below. */
  lemma RowsFromStep(data: seq<int>, y: int)
    requires |data| == ImageSize && 0 <= y < CanvasHeight
    ensures RowsFrom(data, y) == RowSamples(data, y, 0) + RowsFrom(data, y + SampleStep)
  {
  }

  /** A sampled pixel (both coordinates multiples of 3) yields a particle
      exactly when its alpha byte exceeds 128, and every particle comes from
      such a pixel. */
  lemma TextParticlesExactly(data: seq<int>, x: int, y: int)
    requires |data| == ImageSize
    requires 0 <= x < CanvasWidth && 0 <= y < CanvasHeight
    requires x % SampleStep == 0 && y % SampleStep == 0
    ensures SamplePoint(x, y) in TextParticles(data) <==> Opaque(data, x, y)
    ensures forall p :: p in TextParticles(data) ==> FromOpaqueSample(data, p, 0)
  {
    RowsFromSound(data, 0);
    SamplePointInverse(x, y);
    if Opaque(data, x, y) {
      RowsFromComplete(data, 0, x, y);
    }
  }

  // ---------------------------------------------------------------------------
  // render: one frame of one particle
  // ---------------------------------------------------------------------------

  /** The per-particle record of `particlesData`: the sampled position, the
      velocity, and the two random values drawn at start-up. */
  datatype HeroParticle = HeroParticle(origin: Vec3, vel: Vec3, life: real, offset: real)

  /** `COLOR_INK` (0x1d1d1f) and `COLOR_GOLD` (0xd4af37), channel bytes over 255. */
  const Ink: Vec3 := Vec3(29.0 / 255.0, 29.0 / 255.0, 31.0 / 255.0)
  const Gold: Vec3 := Vec3(212.0 / 255.0, 175.0 / 255.0, 55.0 / 255.0)

  /** `PARTICLE_SIZE`. */
  const ParticleSize: real := 3.0

  /** How strongly the pointer acts on a particle at distance `dist`: 1 on the
      pointer, falling linearly to 0 at the radius `maxDist` = 150, and 0
      beyond it. */
  function InteractionStrength(dist: real): (s: real)
    ensures 0.0 <= dist < 150.0 ==> 0.0 < s <= 1.0
    ensures 150.0 <= dist ==> s == 0.0
    ensures s == 1.0 <==> dist == 0.0
  {
    if dist < 150.0 then (150.0 - dist) / 150.0 else 0.0
  }

  /** The closer the pointer, the stronger its action. */
  lemma StrengthDecreasing(d1: real, d2: real)
    requires 0.0 <= d1 <= d2
    ensures InteractionStrength(d2) <= InteractionStrength(d1)
    ensures d1 < d2 && d1 < 150.0 ==> InteractionStrength(d2) < InteractionStrength(d1)
  {
  }

  /** The pointer's push on a particle whose offset to the pointer is
      (dx, dy) at distance `dist`: nothing outside the radius; inside it, a
      push of `3 * strength` per unit of distance directly away from the
      pointer in the plane, and a lift of `1.5 * strength` towards the
      camera. */
  function Repulsion(dx: real, dy: real, dist: real): (r: Vec3)
    ensures 150.0 <= dist ==> r == Zero
    ensures 0.0 <= dist < 150.0 ==> r.z == 1.5 * InteractionStrength(dist) && 0.0 < r.z
  {
    var s := InteractionStrength(dist);
    if dist < 150.0 then
      var h := Heading(dx, dy, dist);
      Vec3(-h.0 * s * 3.0, -h.1 * s * 3.0, s * 1.5)
    else
      Zero
  }

  /** Inside the radius the push points directly away from the pointer,
      with `3 * strength` per unit of distance; on the pointer itself it
      goes along -x. */
  lemma RepulsionDirection(dx: real, dy: real, dist: real)
    requires 0.0 <= dist
    ensures 0.0 < dist ==> Repulsion(dx, dy, dist).x * dist == -3.0 * InteractionStrength(dist) * dx
    ensures 0.0 < dist ==> Repulsion(dx, dy, dist).y * dist == -3.0 * InteractionStrength(dist) * dy
    ensures dist == 0.0 ==> Repulsion(dx, dy, dist) == Vec3(-3.0, 0.0, 1.5)
  {
    var s := InteractionStrength(dist);
    if 0.0 < dist < 150.0 {
      var h := Heading(dx, dy, dist);
      HeadingScales(dx, dy, dist);
      assert (-h.0 * s * 3.0) * dist == -3.0 * s * (h.0 * dist);
      assert (-h.1 * s * 3.0) * dist == -3.0 * s * (h.1 * dist);
    }
  }

  /** The new velocity: the old one plus the flow noise (gain 0.15), the
      pointer's push and the spring towards the origin (gain 0.035), all
      damped by 0.94. */
  function HeroVelocity(v: Vec3, noise: Vec3, push: Vec3, origin: Vec3, pos: Vec3): Vec3
  {
    Scale(0.94, Add(Add(Add(v, Scale(0.15, noise)), push), Scale(0.035, Sub(origin, pos))))
  }

  /** A particle at rest on its origin, with no noise and no pointer, stays
      there. */
  lemma RestAtOrigin(o: Vec3)
    ensures HeroVelocity(Zero, Zero, Zero, o, o) == Zero
    ensures Add(o, HeroVelocity(Zero, Zero, Zero, o, o)) == o
  {
  }

  /** Without noise and pointer, a particle at rest moves towards its origin:
      its offset from the origin shrinks by the factor 1 - 0.94 * 0.035. */
  lemma SpringContracts(o: Vec3, p: Vec3)
    ensures Sub(o, Add(p, HeroVelocity(Zero, Zero, Zero, o, p)))
         == Scale(1.0 - 0.94 * 0.035, Sub(o, p))
  {
  }

  /** Without noise, pointer or offset, the velocity only decays by 0.94. */
  lemma DampingOnly(v: Vec3, p: Vec3)
    ensures HeroVelocity(v, Zero, Zero, p, p) == Scale(0.94, v)
  {
  }

  /** The push adds to the velocity exactly its damped value; in particular
      the pointer lifts every particle in its radius towards the camera. */
  lemma PushIsAdditive(v: Vec3, noise: Vec3, push: Vec3, o: Vec3, p: Vec3)
    ensures HeroVelocity(v, noise, push, o, p)
         == Add(HeroVelocity(v, noise, Zero, o, p), Scale(0.94, push))
  {
  }

  /** `mixFactor`: speed and pointer strength push the colour towards gold,
      saturating at 1. */
  function MixFactor(speed: real, strength: real): (m: real)
    ensures m <= 1.0
    ensures 0.0 <= speed && 0.0 <= strength ==> 0.0 <= m
    ensures m == 1.0 <==> 1.0 <= speed * 0.15 + strength * 0.6
    ensures m < 1.0 ==> m == speed * 0.15 + strength * 0.6
  {
    Min(speed * 0.15 + strength * 0.6, 1.0)
  }

  /** The colour for a mix factor: ink at 0, gold at 1, and every channel
      between ink's and gold's in between. */
  function Tint(m: real): (c: Vec3)
    ensures m == 0.0 ==> c == Ink
    ensures m == 1.0 ==> c == Gold
    ensures 0.0 <= m <= 1.0 ==> Ink.x <= c.x <= Gold.x && Ink.y <= c.y <= Gold.y && Ink.z <= c.z <= Gold.z
  {
    assert Min(Ink.x, Gold.x) == Ink.x && Max(Ink.x, Gold.x) == Gold.x;
    assert Min(Ink.y, Gold.y) == Ink.y && Max(Ink.y, Gold.y) == Gold.y;
    assert Min(Ink.z, Gold.z) == Ink.z && Max(Ink.z, Gold.z) == Gold.z;
    Vec3(Mix(Ink.x, Gold.x, m), Mix(Ink.y, Gold.y, m), Mix(Ink.z, Gold.z, m))
  }

  /** The flow noise sampled for a particle at `pos`: three reads of the
      noise field at scale 0.005, with the time shifted by the particle's
      offset and by 100 and 200 for the second and third components. */
  function FlowNoise(noise: (real, real, real) -> real, time: real, offset: real, pos: Vec3): Vec3
  {
    Vec3(noise(pos.x * 0.005, pos.y * 0.005, time + offset),
         noise(pos.y * 0.005, pos.z * 0.005, time + offset + 100.0),
         noise(pos.z * 0.005, pos.x * 0.005, time + offset + 200.0))
  }

  /** With the noise field of a filled table, each component of the flow
      noise lies in [-2,2], so it changes a velocity by at most 0.3 per
      component before damping. */
  lemma FlowNoiseBounded(perm: seq<int>, time: real, offset: real, pos: Vec3)
    requires ValidPerm(perm)
    ensures var n := FlowNoise(NoiseField(perm), time, offset, pos);
            -2.0 <= n.x <= 2.0 && -2.0 <= n.y <= 2.0 && -2.0 <= n.z <= 2.0
  {
    var f := NoiseField(perm);
    assert f(pos.x * 0.005, pos.y * 0.005, time + offset)
        == NoiseAt(perm, pos.x * 0.005, pos.y * 0.005, time + offset);
    assert f(pos.y * 0.005, pos.z * 0.005, time + offset + 100.0)
        == NoiseAt(perm, pos.y * 0.005, pos.z * 0.005, time + offset + 100.0);
    assert f(pos.z * 0.005, pos.x * 0.005, time + offset + 200.0)
        == NoiseAt(perm, pos.z * 0.005, pos.x * 0.005, time + offset + 200.0);
  }

  /** The result of one frame for one particle. */
  datatype HeroFrame = HeroFrame(particle: HeroParticle, position: Vec3, color: Vec3)

  /** The loop body of `render` for one particle at position `pos`, at time
      `time`, with the pointer's projection onto the text plane at `pointer`
      and `noise` the field of the noise object. */
  function HeroUpdate(noise: (real, real, real) -> real, time: real, pointer: Vec3, sqrt: real -> real,
                      part: HeroParticle, pos: Vec3): (f: HeroFrame)
    ensures f.particle == part.(vel := NewVelocity(FlowNoise(noise, time, part.offset, pos), pointer, sqrt, part, pos))
    ensures f.position == Add(pos, f.particle.vel)
  {
    var dx, dy := pointer.x - pos.x, pointer.y - pos.y;
    var dist := PlaneDistance(sqrt, dx, dy);
    var vel := NewVelocity(FlowNoise(noise, time, part.offset, pos), pointer, sqrt, part, pos);
    var m := MixFactor(Length(sqrt, vel), InteractionStrength(dist));
    HeroFrame(part.(vel := vel), Add(pos, vel), Tint(m))
  }

  /** Every particle's colour stays between ink and gold, channel by
      channel: speed and pointer strength only move it along that range. */
  lemma HeroColorInRange(noise: (real, real, real) -> real, time: real, pointer: Vec3, sqrt: real -> real,
                         part: HeroParticle, pos: Vec3)
    requires IsSqrt(sqrt)
    ensures var c := HeroUpdate(noise, time, pointer, sqrt, part, pos).color;
            && Ink.x <= c.x <= Gold.x && Ink.y <= c.y <= Gold.y && Ink.z <= c.z <= Gold.z
  {
    var dx, dy := pointer.x - pos.x, pointer.y - pos.y;
    var vel := NewVelocity(FlowNoise(noise, time, part.offset, pos), pointer, sqrt, part, pos);
    PlaneDistanceSquared(sqrt, dx, dy);
    LengthSquared(sqrt, vel);
  }

  /** The particle's velocity after the frame's noise, push, spring and
      damping. */
  function NewVelocity(noise: Vec3, pointer: Vec3, sqrt: real -> real,
                       part: HeroParticle, pos: Vec3): Vec3
  {
    var dx, dy := pointer.x - pos.x, pointer.y - pos.y;
    HeroVelocity(part.vel, noise, Repulsion(dx, dy, PlaneDistance(sqrt, dx, dy)), part.origin, pos)
  }

  /** A pointer at least 150 away leaves the particle to noise and spring
      alone; a nearer one adds its damped push, which among other things
      lifts the particle towards the camera. */
  lemma PointerEffect(noise: Vec3, pointer: Vec3, sqrt: real -> real, part: HeroParticle, pos: Vec3)
    requires IsSqrt(sqrt)
    ensures var dx, dy := pointer.x - pos.x, pointer.y - pos.y;
            var dist := PlaneDistance(sqrt, dx, dy);
            var alone := HeroVelocity(part.vel, noise, Zero, part.origin, pos);
            var vel := NewVelocity(noise, pointer, sqrt, part, pos);
            && (150.0 <= dist ==> vel == alone)
            && (dist < 150.0 ==> vel == Add(alone, Scale(0.94, Repulsion(dx, dy, dist))) && vel.z > alone.z)
  {
    var dx, dy := pointer.x - pos.x, pointer.y - pos.y;
    var dist := PlaneDistance(sqrt, dx, dy);
    var push := Repulsion(dx, dy, dist);
    assert NewVelocity(noise, pointer, sqrt, part, pos) == HeroVelocity(part.vel, noise, push, part.origin, pos);
    PushIsAdditive(part.vel, noise, push, part.origin, pos);
    if 150.0 <= dist {
      assert push == Zero;
    } else {
      assert push.z > 0.0;
    }
  }

  // ---------------------------------------------------------------------------
  // init and render: the particle system
  // ---------------------------------------------------------------------------

  /** The particle system of the hero scene: the geometry's flat position,
      colour and size buffers (three numbers per particle for the first two),
      the `particlesData` records, and the scene clock `time`. */
  class HeroField {
    var positions: array<real>
    var colors: array<real>
    var sizes: array<real>
    var particles: array<HeroParticle>
    var time: real

    ghost predicate Valid()
      reads this
    {
      && positions.Length == 3 * particles.Length
      && colors.Length == 3 * particles.Length
      && sizes.Length == particles.Length
      && positions != colors && positions != sizes && colors != sizes
    }

    /** `init`'s loop over the sampled text: every particle starts on its
        sample, at rest, in ink, at size 3, with the two random values
        `life` and `offset` (the latter scaled by 100) drawn for it. */
    constructor (textData: seq<Vec3>, lives: seq<real>, offsets: seq<real>)
      requires |lives| == |textData| && |offsets| == |textData|
      ensures Valid() && particles.Length == |textData| && time == 0.0
      ensures fresh(positions) && fresh(colors) && fresh(sizes) && fresh(particles)
      ensures forall i :: 0 <= i < |textData| ==>
                Stored(particles[..], positions[..], colors[..], i, Spawned(textData[i], lives[i], offsets[i]))
      ensures forall i :: 0 <= i < |textData| ==> sizes[i] == ParticleSize
    {
      var n := |textData|;
      var pos := new real[3 * n];
      var col := new real[3 * n];
      var sz := new real[n];
      var parts := new HeroParticle[n](i => HeroParticle(Zero, Zero, 0.0, 0.0));
      for i := 0 to n
        invariant forall j :: 0 <= j < i ==>
                    Stored(parts[..], pos[..], col[..], j, Spawned(textData[j], lives[j], offsets[j]))
        invariant forall j :: 0 <= j < i ==> sz[j] == ParticleSize
      {
        StoreFrame(parts, pos, col, i, Spawned(textData[i], lives[i], offsets[i]));
        sz[i] := ParticleSize;
      }
      positions, colors, sizes, particles := pos, col, sz, parts;
      time := 0.0;
    }

    /** `render`: the clock advances by 0.002 and every particle takes one
        step of `HeroUpdate`, which writes its record, its position and its
        colour; the sizes stay as they are. The flow noise is the field of
        the noise object whose tables `init` filled as `perm`. */
    method Render(perm: seq<int>, pointer: Vec3, sqrt: real -> real)
      requires Valid() && ValidPerm(perm)
      modifies this, positions, colors, particles
      ensures Valid() && time == old(time) + 0.002
      ensures positions == old(positions) && colors == old(colors)
      ensures sizes == old(sizes) && particles == old(particles)
      ensures forall i :: 0 <= i < particles.Length ==>
                Stored(particles[..], positions[..], colors[..], i,
                       FrameAt(NoiseField(perm), time, pointer, sqrt, old(particles[..]), old(positions[..]), i))
    {
      var noise := NoiseField(perm);
      StepParticles(noise, time + 0.002, pointer, sqrt);
      time := time + 0.002;
    }

    /** The particle loop of `render`, at clock `now`, under a noise field
        bounded like that of a filled table. */
    method StepParticles(noise: (real, real, real) -> real, now: real, pointer: Vec3, sqrt: real -> real)
      requires Valid()
      requires forall x, y, z :: -2.0 <= noise(x, y, z) <= 2.0
      modifies positions, colors, particles
      ensures Valid()
      ensures forall i :: 0 <= i < particles.Length ==>
                Stored(particles[..], positions[..], colors[..], i,
                       FrameAt(noise, now, pointer, sqrt, old(particles[..]), old(positions[..]), i))
    {
      ghost var pos0 := positions[..];
      ghost var parts0 := particles[..];
      var i := 0;
      while i < particles.Length
        invariant 0 <= i <= particles.Length
        invariant positions == old(positions) && colors == old(colors)
        invariant sizes == old(sizes) && particles == old(particles)
        invariant Valid()
        invariant |pos0| == positions.Length && |parts0| == particles.Length
        invariant forall j :: 0 <= j < i ==>
                    Stored(particles[..], positions[..], colors[..], j,
                           FrameAt(noise, now, pointer, sqrt, parts0, pos0, j))
        invariant forall j :: i <= j < particles.Length ==> particles[j] == parts0[j]
        invariant forall j :: i <= j < particles.Length ==> At(positions[..], j) == At(pos0, j)
      {
        var f := HeroUpdate(noise, now, pointer, sqrt, particles[i], At(positions[..], i));
        assert f == FrameAt(noise, now, pointer, sqrt, parts0, pos0, i);
        StoreFrame(particles, positions, colors, i, f);
        i := i + 1;
      }
    }
  }

  /** The record and the buffers hold frame `f` at index `j`. */
  ghost predicate Stored(parts: seq<HeroParticle>, pos: seq<real>, col: seq<real>, j: int, f: HeroFrame)
  {
    && 0 <= j < |parts| && 3 * j + 2 < |pos| && 3 * j + 2 < |col|
    && parts[j] == f.particle && At(pos, j) == f.position && At(col, j) == f.color
  }

  /** Stores frame `f` at index `i`: its record, position and colour;
      every other index keeps its values. */
  method StoreFrame(parts: array<HeroParticle>, pos: array<real>, col: array<real>, i: int, f: HeroFrame)
    requires 0 <= i < parts.Length && pos.Length == 3 * parts.Length && col.Length == 3 * parts.Length
    requires pos != col
    modifies parts, pos, col
    ensures Stored(parts[..], pos[..], col[..], i, f)
    ensures parts[..] == old(parts[..])[i := f.particle]
    ensures pos[..] == Put(old(pos[..]), i, f.position)
    ensures col[..] == Put(old(col[..]), i, f.color)
  {
    parts[i] := f.particle;
    Store(pos, i, f.position);
    Store(col, i, f.color);
  }

  /** The first frame of a particle sampled at `origin`: on its sample, at
      rest, in ink, with its random life and its offset scaled by 100. */
  function Spawned(origin: Vec3, life: real, offset: real): HeroFrame
  {
    HeroFrame(HeroParticle(origin, Zero, life, offset * 100.0), origin, Ink)
  }

  /** The frame of the particle at index `i`, given the records and the
      position buffer before the frame. */
  ghost function FrameAt(noise: (real, real, real) -> real, time: real, pointer: Vec3, sqrt: real -> real,
                         parts: seq<HeroParticle>, pos: seq<real>, i: int): HeroFrame
    requires 0 <= i < |parts| && |pos| == 3 * |parts|
  {
    HeroUpdate(noise, time, pointer, sqrt, parts[i], At(pos, i))
  }
}
