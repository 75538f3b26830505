/** The link constellation of the web page (`sector/web/web.js`): 3000
    particles in six clusters, one per site, pushed away by the pointer and
    pulled back to where they were placed; the cluster under the pointer is
    enlarged, its site is shown in the info box and a click opens it. */
module WebScene {
  import opened Common

  // ---------------------------------------------------------------------------
  // The sites and the clusters
  // ---------------------------------------------------------------------------

  /** An entry of `sites`; `color` is the hex value given to `THREE.Color`. */
  datatype Site = Site(name: string, desc: string, url: string, color: int)

  const Sites: seq<Site> := [
    Site("GITHUB", "Where the world builds software.", "https://github.com", 0xffffff),
    Site("THREE.JS", "JavaScript 3D Library.", "https://threejs.org", 0x00ff00),
    Site("DRIBBBLE", "Discover the world’s top designers.", "https://dribbble.com", 0xea4c89),
    Site("AWWWARDS", "Website Awards.", "https://www.awwwards.com", 0x49c5b6),
    Site("NOTION", "All-in-one workspace.", "https://notion.so", 0x000000),
    Site("UNSPLASH", "The internet’s source for visuals.", "https://unsplash.com", 0xffffff)
  ]

  /** The index of a site. */
  type SiteIndex = s: int | 0 <= s < 6

  /** `PARTICLE_COUNT`. */
  const ParticleCount: nat := 3000

  /** `MOUSE_RADIUS`. */
  const MouseRadius: real := 150.0

  /** The size every particle starts with. */
  const InitialSize: real := 5.0

  /** `i % sites.length`: particles are dealt to the sites in turn. */
  function SiteOf(i: nat): (s: SiteIndex)
    ensures s == i % |Sites|
  {
    i % |Sites|
  }

  /** Particle `6 * m + j` belongs to site `j`. */
  lemma {:induction false} SiteOfRound(m: nat, j: SiteIndex)
    ensures SiteOf(6 * m + j) == j
  {
    if m > 0 {
      SiteOfRound(m - 1, j);
      assert 6 * m + j == 6 * (m - 1) + j + 6;
    }
  }

  /** The number of particles among the first `n` that belong to site `s`. */
  function Members(n: nat, s: SiteIndex): nat
  {
    if n == 0 then 0 else Members(n - 1, s) + (if SiteOf(n - 1) == s then 1 else 0)
  }

  /** Six consecutive particles starting at a multiple of six hold one
      particle of each site. */
  lemma MembersRound(m: nat, s: SiteIndex)
    ensures Members(6 * m + 6, s) == Members(6 * m, s) + 1
  {
    var b := 6 * m;
    SiteOfRound(m, 0);
    SiteOfRound(m, 1);
    SiteOfRound(m, 2);
    SiteOfRound(m, 3);
    SiteOfRound(m, 4);
    SiteOfRound(m, 5);
    assert Members(b + 6, s) == Members(b + 5, s) + (if s == 5 then 1 else 0);
    assert Members(b + 5, s) == Members(b + 4, s) + (if s == 4 then 1 else 0);
    assert Members(b + 4, s) == Members(b + 3, s) + (if s == 3 then 1 else 0);
    assert Members(b + 3, s) == Members(b + 2, s) + (if s == 2 then 1 else 0);
    assert Members(b + 2, s) == Members(b + 1, s) + (if s == 1 then 1 else 0);
    assert Members(b + 1, s) == Members(b, s) + (if s == 0 then 1 else 0);
  }

  /** After `m` full rounds every site has `m` particles. */
  lemma {:induction false} MembersOfRounds(m: nat, s: SiteIndex)
    ensures Members(6 * m, s) == m
  {
    if m > 0 {
      MembersOfRounds(m - 1, s);
      MembersRound(m - 1, s);
    }
  }

  /** The 3000 particles split evenly: 500 per site. */
  lemma ClusterSizes(s: SiteIndex)
    ensures Members(ParticleCount, s) == 500
  {
    MembersOfRounds(500, s);
  }

  /** A `THREE.Color` set from a hex value: each channel byte over 255. */
  function HexColor(hex: int): (c: Vec3)
    requires 0 <= hex < 0x1000000
    ensures 0.0 <= c.x <= 1.0 && 0.0 <= c.y <= 1.0 && 0.0 <= c.z <= 1.0
  {
    Vec3((hex / 0x10000) as real / 255.0, ((hex / 0x100) % 0x100) as real / 255.0, (hex % 0x100) as real / 255.0)
  }

  /** The three channels give the hex value back. */
  lemma HexColorRoundTrip(hex: int)
    requires 0 <= hex < 0x1000000
    ensures var c := HexColor(hex);
            (c.x * 255.0).Floor * 0x10000 + (c.y * 255.0).Floor * 0x100 + (c.z * 255.0).Floor == hex
  {
    var c := HexColor(hex);
    assert c.x * 255.0 == (hex / 0x10000) as real;
    assert c.y * 255.0 == ((hex / 0x100) % 0x100) as real;
    assert c.z * 255.0 == (hex % 0x100) as real;
  }

  /** The centre of the cluster of site `s`: on the circle of radius 400
      around the origin, at the angle `s / 6` of a full turn (`pi` stands
      for `Math.PI`). */
  function ClusterCenter(cos: real -> real, sin: real -> real, pi: real, s: SiteIndex): (c: Vec3)
    requires IsWave(cos) && IsWave(sin)
    ensures -400.0 <= c.x <= 400.0 && -400.0 <= c.y <= 400.0 && c.z == 0.0
  {
    var angle := ((s as real) / (|Sites| as real)) * pi * 2.0;
    Vec3(cos(angle) * 400.0, sin(angle) * 400.0, 0.0)
  }

  /** `(Math.random() - 0.5) * 300`: an offset in [-150,150). */
  function Scatter(r: real): (d: real)
    requires 0.0 <= r < 1.0
    ensures -150.0 <= d < 150.0
  {
    (r - 0.5) * 300.0
  }

  /** Three random values in [0,1). */
  predicate IsRandom(r: Vec3)
  {
    0.0 <= r.x < 1.0 && 0.0 <= r.y < 1.0 && 0.0 <= r.z < 1.0
  }

  /** Where particle `i` is placed: its cluster centre, moved by up to 150
      along each axis. */
  function Placement(cos: real -> real, sin: real -> real, pi: real, i: nat, r: Vec3): (p: Vec3)
    requires IsWave(cos) && IsWave(sin) && IsRandom(r)
    ensures var c := ClusterCenter(cos, sin, pi, SiteOf(i));
            && c.x - 150.0 <= p.x < c.x + 150.0
            && c.y - 150.0 <= p.y < c.y + 150.0
            && -150.0 <= p.z < 150.0
  {
    Add(ClusterCenter(cos, sin, pi, SiteOf(i)), Vec3(Scatter(r.x), Scatter(r.y), Scatter(r.z)))
  }

  // ---------------------------------------------------------------------------
  // render: one frame of one particle
  // ---------------------------------------------------------------------------

  /** The record of `particlesData`: where the particle was placed, its
      velocity and its site. */
  datatype WebParticle = WebParticle(origin: Vec3, vel: Vec3, site: SiteIndex)

  /** `(MOUSE_RADIUS - dist) / MOUSE_RADIUS` inside the radius: 1 on the
      pointer, towards 0 at the edge; it passes one half at distance 75. */
  function Force(dist: real): (f: real)
    requires dist < MouseRadius
    ensures 0.0 <= dist ==> 0.0 < f <= 1.0
    ensures f == 1.0 <==> dist == 0.0
    ensures f > 0.5 <==> dist < 75.0
  {
    (MouseRadius - dist) / MouseRadius
  }

  /** The pointer's push on a particle whose offset to the pointer is
      (dx, dy) at distance `dist`: nothing outside the radius; inside it,
      twice the force per unit of distance, directly away from the pointer
      in the plane. */
  function Push(dx: real, dy: real, dist: real): Vec3
  {
    if dist < MouseRadius then
      var f := Force(dist);
      var h := Heading(dx, dy, dist);
      Vec3(-h.0 * f * 2.0, -h.1 * f * 2.0, 0.0)
    else
      Zero
  }

  /** Outside the radius there is no push; inside it the push lies in the
      plane and points directly away from the pointer, with twice the force
      per unit of distance; on the pointer itself it goes along -x. */
  lemma PushDirection(dx: real, dy: real, dist: real)
    requires 0.0 <= dist
    ensures MouseRadius <= dist ==> Push(dx, dy, dist) == Zero
    ensures Push(dx, dy, dist).z == 0.0
    ensures 0.0 < dist < MouseRadius ==> Push(dx, dy, dist).x * dist == -2.0 * Force(dist) * dx
    ensures 0.0 < dist < MouseRadius ==> Push(dx, dy, dist).y * dist == -2.0 * Force(dist) * dy
    ensures dist == 0.0 ==> Push(dx, dy, dist) == Vec3(-2.0, 0.0, 0.0)
  {
    if 0.0 < dist < MouseRadius {
      var f := Force(dist);
      var h := Heading(dx, dy, dist);
      HeadingScales(dx, dy, dist);
      assert (-h.0 * f * 2.0) * dist == -2.0 * f * (h.0 * dist);
      assert (-h.1 * f * 2.0) * dist == -2.0 * f * (h.1 * dist);
    }
  }

  /** The new velocity: the old one plus the push and the spring towards the
      placement (gain 0.05), all damped by 0.9. */
  function WebVelocity(v: Vec3, push: Vec3, origin: Vec3, pos: Vec3): Vec3
  {
    Scale(0.9, Add(Add(v, push), Scale(0.05, Sub(origin, pos))))
  }

  /** A particle at rest where it was placed, away from the pointer, stays
      there. */
  lemma WebRestAtOrigin(o: Vec3)
    ensures WebVelocity(Zero, Zero, o, o) == Zero
  {
  }

  /** Starting at rest, one frame closes the gap to the placement by the
      factor `0.9 * 0.05`. */
  lemma WebSpringContracts(o: Vec3, p: Vec3)
    ensures Sub(o, Add(p, WebVelocity(Zero, Zero, o, p))) == Scale(1.0 - 0.9 * 0.05, Sub(o, p))
  {
  }

  /** The push adds to the velocity exactly its damped value. */
  lemma WebPushIsAdditive(v: Vec3, push: Vec3, o: Vec3, p: Vec3)
    ensures WebVelocity(v, push, o, p) == Add(WebVelocity(v, Zero, o, p), Scale(0.9, push))
  {
  }

  /** For non-negative `d` and `r`, `d < r` exactly when `d * d < r * r`. */
  lemma BelowBySquares(d: real, r: real)
    requires 0.0 <= d && 0.0 <= r
    ensures d < r <==> d * d < r * r
  {
    if d < r {
      NonNegProduct(d, r - d);
      assert d * (r - d) == d * r - d * d;
      PositiveProduct(r, r - d);
      assert r * (r - d) == r * r - r * d;
    } else {
      NonNegProduct(d, d - r);
      assert d * (d - r) == d * d - d * r;
      NonNegProduct(r, d - r);
      assert r * (d - r) == r * d - r * r;
    }
  }

  /** The result of one frame for one particle: its new record, its new
      position, and whether it claims the active site. */
  datatype WebFrame = WebFrame(particle: WebParticle, position: Vec3, claims: bool)

  /** The loop body of `render` for a particle at `pos`, with the pointer's
      projection onto the plane z = 0 at `pointer`. */
  function WebUpdate(pointer: Vec3, sqrt: real -> real, part: WebParticle, pos: Vec3): (f: WebFrame)
    ensures f.particle.origin == part.origin && f.particle.site == part.site
    ensures f.position == Add(pos, f.particle.vel)
  {
    var dx, dy := pointer.x - pos.x, pointer.y - pos.y;
    var dist := PlaneDistance(sqrt, dx, dy);
    var claims := dist < MouseRadius && Force(dist) > 0.5;
    var vel := WebVelocity(part.vel, Push(dx, dy, dist), part.origin, pos);
    WebFrame(part.(vel := vel), Add(pos, vel), claims)
  }

  /** A particle claims the active site exactly when it lies within 75 of
      the pointer in the plane, and the pointer leaves every particle at 150
      or more to the spring alone. */
  lemma UpdateBySquares(pointer: Vec3, sqrt: real -> real, part: WebParticle, pos: Vec3)
    requires IsSqrt(sqrt)
    ensures var dx, dy := pointer.x - pos.x, pointer.y - pos.y;
            var f := WebUpdate(pointer, sqrt, part, pos);
            && (f.claims <==> dx * dx + dy * dy < 75.0 * 75.0)
            && (MouseRadius * MouseRadius <= dx * dx + dy * dy ==>
                  f.particle.vel == WebVelocity(part.vel, Zero, part.origin, pos))
  {
    var dx, dy := pointer.x - pos.x, pointer.y - pos.y;
    var dist := PlaneDistance(sqrt, dx, dy);
    PlaneDistanceSquared(sqrt, dx, dy);
    BelowBySquares(dist, 75.0);
    BelowBySquares(dist, MouseRadius);
  }

  /** The frames of all particles in one call of `render`, each computed
      from the records and positions before it. */
  ghost function Frames(pointer: Vec3, sqrt: real -> real, parts: seq<WebParticle>, pos: seq<real>): (fs: seq<WebFrame>)
    requires |pos| == 3 * |parts|
    ensures |fs| == |parts|
    decreases |parts|
  {
    if parts == [] then []
    else
      var n := |parts| - 1;
      Frames(pointer, sqrt, parts[..n], pos[..3 * n]) + [WebUpdate(pointer, sqrt, parts[n], At(pos, n))]
  }

  /** Frame `j` is particle `j`'s step. */
  lemma {:induction false} FrameOf(pointer: Vec3, sqrt: real -> real, parts: seq<WebParticle>, pos: seq<real>, j: int)
    requires |pos| == 3 * |parts| && 0 <= j < |parts|
    ensures Frames(pointer, sqrt, parts, pos)[j] == WebUpdate(pointer, sqrt, parts[j], At(pos, j))
    decreases |parts|
  {
    var n := |parts| - 1;
    if j < n {
      FrameOf(pointer, sqrt, parts[..n], pos[..3 * n], j);
      assert At(pos[..3 * n], j) == At(pos, j);
    }
  }

  /** The last value of a trace, or -1 for an empty one. */
  function Last(t: seq<int>): int
  {
    if t == [] then -1 else t[|t| - 1]
  }

  /** `activeSiteIndex` as the loop leaves each particle: starting from -1,
      it takes the site of every particle that claims it and otherwise keeps
      its value. */
  function ActiveTrace(fs: seq<WebFrame>): (t: seq<int>)
    ensures |t| == |fs|
  {
    if fs == [] then []
    else
      var t := ActiveTrace(fs[..|fs| - 1]);
      var f := fs[|fs| - 1];
      t + [if f.claims then f.particle.site else Last(t)]
  }

  /** One more turn of the loop appends one value to the trace. */
  lemma TraceStep(fs: seq<WebFrame>, i: nat)
    requires i < |fs|
    ensures ActiveTrace(fs[..i + 1])
         == ActiveTrace(fs[..i]) + [if fs[i].claims then fs[i].particle.site else Last(ActiveTrace(fs[..i]))]
  {
    assert fs[..i + 1][..i] == fs[..i];
  }

  /** The state of `render`'s particle loop after `i` turns: the first `i`
      particles hold their frames and sizes, along the trace `t`, and the
      rest are as they were. */
  ghost predicate Progress(fs: seq<WebFrame>, parts0: seq<WebParticle>, pos0: seq<real>,
                           parts: seq<WebParticle>, pos: seq<real>, sz: seq<real>,
                           sin: real -> real, time: real, t: seq<int>, i: int)
  {
    && 0 <= i <= |fs| && |parts0| == |fs| && |parts| == |fs| && |sz| == |fs|
    && |pos0| == 3 * |fs| && |pos| == 3 * |fs|
    && t == ActiveTrace(fs[..i])
    && (forall j :: 0 <= j < i ==> parts[j] == fs[j].particle && At(pos, j) == fs[j].position)
    && (forall j :: 0 <= j < i ==> sz[j] == SizeFor(sin, time, j, t[j] == fs[j].particle.site))
    && (forall j :: i <= j < |fs| ==> parts[j] == parts0[j] && At(pos, j) == At(pos0, j))
  }

  /** One more turn of the loop stores frame `i` and extends the trace. */
  lemma ProgressStep(fs: seq<WebFrame>, parts0: seq<WebParticle>, pos0: seq<real>,
                     parts: seq<WebParticle>, pos: seq<real>, sz: seq<real>,
                     sin: real -> real, time: real, t: seq<int>, i: int, next: int)
    requires Progress(fs, parts0, pos0, parts, pos, sz, sin, time, t, i) && i < |fs|
    requires next == if fs[i].claims then fs[i].particle.site else Last(t)
    ensures Progress(fs, parts0, pos0, parts[i := fs[i].particle], Put(pos, i, fs[i].position),
                     sz[i := SizeFor(sin, time, i, next == fs[i].particle.site)], sin, time, t + [next], i + 1)
  {
    TraceStep(fs, i);
  }

  /** The active site after the loop is -1 when no particle claims it, and
      otherwise the site of the last particle that does. */
  lemma {:induction false} ActiveIsLastClaim(fs: seq<WebFrame>)
    ensures Last(ActiveTrace(fs)) == -1 <==> forall j :: 0 <= j < |fs| ==> !fs[j].claims
    ensures Last(ActiveTrace(fs)) != -1 ==>
            exists j :: 0 <= j < |fs| && fs[j].claims && fs[j].particle.site == Last(ActiveTrace(fs))
                     && forall l :: j < l < |fs| ==> !fs[l].claims
  {
    if fs != [] {
      var p := fs[..|fs| - 1];
      ActiveIsLastClaim(p);
      assert forall j :: 0 <= j < |p| ==> p[j] == fs[j];
      var last := fs[|fs| - 1];
      if !last.claims {
        var a := Last(ActiveTrace(p));
        assert Last(ActiveTrace(fs)) == a;
        if a != -1 {
          var j :| 0 <= j < |p| && p[j].claims && p[j].particle.site == a
                   && forall l :: j < l < |p| ==> !p[l].claims;
          assert forall l :: j < l < |fs| ==> !fs[l].claims;
        }
      } else {
        assert Last(ActiveTrace(fs)) == last.particle.site;
      }
    }
  }

  /** The trace of the first `k` frames is the first `k` entries of the
      whole trace: the loop never revises a value it has used. */
  lemma {:induction false} TracePrefix(fs: seq<WebFrame>, k: nat)
    requires k <= |fs|
    ensures ActiveTrace(fs[..k]) == ActiveTrace(fs)[..k]
  {
    if k < |fs| {
      var p := fs[..|fs| - 1];
      TracePrefix(p, k);
      assert p[..k] == fs[..k];
    } else {
      assert fs[..k] == fs;
    }
  }

  /** Because the active site is only known from the first claiming
      particle on, every particle handled before it keeps its plain size in
      that frame, even when it belongs to the cluster under the pointer. */
  lemma EarlierParticlesNotEnlarged(fs: seq<WebFrame>, first: nat, i: nat)
    requires first <= |fs| && forall j :: 0 <= j < first ==> !fs[j].claims
    requires i < first
    ensures ActiveTrace(fs)[i] == -1 && ActiveTrace(fs)[i] != fs[i].particle.site
  {
    var p := fs[..i + 1];
    TracePrefix(fs, i + 1);
    assert forall j :: 0 <= j < |p| ==> !p[j].claims;
    ActiveIsLastClaim(p);
    assert Last(ActiveTrace(p)) == ActiveTrace(fs)[i];
  }

  /** `4 + Math.sin(time + i) * 2`, the breathing size of particle `i`,
      enlarged by half when it belongs to the active site. */
  function SizeFor(sin: real -> real, time: real, i: nat, enlarged: bool): real
  {
    var breath := 4.0 + sin(time + i as real) * 2.0;
    if enlarged then breath * 1.5 else breath
  }

  /** Sizes breathe between 2 and 6, and between 3 and 9 when enlarged;
      an enlarged particle is half as large again as it would be. */
  lemma SizeBounds(sin: real -> real, time: real, i: nat)
    requires IsWave(sin)
    ensures 2.0 <= SizeFor(sin, time, i, false) <= 6.0
    ensures 3.0 <= SizeFor(sin, time, i, true) <= 9.0
    ensures SizeFor(sin, time, i, true) == 1.5 * SizeFor(sin, time, i, false)
  {
    assert -1.0 <= sin(time + i as real) <= 1.0;
  }

  // ---------------------------------------------------------------------------
  // The scene
  // ---------------------------------------------------------------------------

  /** The record and the buffers hold frame `f` at index `j`. */
  ghost predicate Moved(parts: seq<WebParticle>, pos: seq<real>, j: int, f: WebFrame)
  {
    0 <= j < |parts| && 3 * j + 2 < |pos| && parts[j] == f.particle && At(pos, j) == f.position
  }

  /** Every particle as `init` places it. */
  ghost function Layout(cos: real -> real, sin: real -> real, pi: real, randoms: seq<Vec3>): (ps: seq<WebParticle>)
    requires IsWave(cos) && IsWave(sin)
    requires forall i :: 0 <= i < |randoms| ==> IsRandom(randoms[i])
    ensures |ps| == |randoms|
    ensures forall i :: 0 <= i < |randoms| ==>
              ps[i] == WebParticle(Placement(cos, sin, pi, i, randoms[i]), Zero, SiteOf(i))
  {
    seq(|randoms|, i requires 0 <= i < |randoms| => WebParticle(Placement(cos, sin, pi, i, randoms[i]), Zero, SiteOf(i)))
  }

  /** The buffers hold particle `p` at index `j`, in its site's colour and
      at the initial size. */
  ghost predicate Spawned(parts: seq<WebParticle>, pos: seq<real>, col: seq<real>, sz: seq<real>, j: int, p: WebParticle)
  {
    && 0 <= j < |parts| && j < |sz| && 3 * j + 2 < |pos| && 3 * j + 2 < |col|
    && parts[j] == p && At(pos, j) == p.origin
    && At(col, j) == HexColor(Sites[p.site].color) && sz[j] == InitialSize
  }

  /** The particle system, the hovered site and the info box `#site-info`. */
  class WebField {
    var positions: array<real>
    var colors: array<real>
    var sizes: array<real>
    var particles: array<WebParticle>
    /** `hoveredIndex`: the site shown in the info box, or -1. */
    var hoveredIndex: int
    /** Whether the info box carries the `active` class. */
    var infoActive: bool
    var title: string
    var desc: string
    var href: string
    /** The hex value of the info box's border colour. */
    var borderColor: int
    /** `particleSystem.rotation.y` and `.z`. */
    var rotationY: real
    var rotationZ: real

    /** The buffers fit the 3000 particles; the info box is open exactly
        when a site is hovered, and then shows that site. */
    ghost predicate Valid()
      reads this
    {
      && BuffersFit()
      && (hoveredIndex == -1 || 0 <= hoveredIndex < |Sites|)
      && (infoActive <==> hoveredIndex != -1)
      && (hoveredIndex != -1 ==> ShowsSite(hoveredIndex))
    }

    /** The buffers fit the 3000 particles and are distinct. */
    ghost predicate BuffersFit()
      reads this
    {
      && particles.Length == ParticleCount
      && positions.Length == 3 * ParticleCount && colors.Length == 3 * ParticleCount
      && sizes.Length == ParticleCount
      && positions != colors && positions != sizes && colors != sizes
    }

    /** The info box shows site `s`. */
    ghost predicate ShowsSite(s: int)
      requires 0 <= s < |Sites|
      reads this
    {
      title == Sites[s].name && desc == Sites[s].desc && href == Sites[s].url && borderColor == Sites[s].color
    }

    /** `init`: particle `i` joins cluster `i % 6`, is placed around the
        cluster's centre with the three random values `randoms[i]`, at rest,
        in its site's colour and at size 5; nothing is hovered. */
    constructor (cos: real -> real, sin: real -> real, pi: real, randoms: seq<Vec3>)
      requires IsWave(cos) && IsWave(sin)
      requires |randoms| == ParticleCount && forall i :: 0 <= i < |randoms| ==> IsRandom(randoms[i])
      ensures Valid() && hoveredIndex == -1 && rotationY == 0.0 && rotationZ == 0.0
      ensures var ps := Layout(cos, sin, pi, randoms);
              forall i :: 0 <= i < ParticleCount ==> Spawned(particles[..], positions[..], colors[..], sizes[..], i, ps[i])
    {
      var parts, pos, col, sz := Spawn(cos, sin, pi, randoms);
      positions, colors, sizes, particles := pos, col, sz, parts;
      hoveredIndex, infoActive := -1, false;
      title, desc, href, borderColor := "", "", "", 0;
      rotationY, rotationZ := 0.0, 0.0;
    }

    /** `render`: every particle takes one step of `WebUpdate`, in index
        order; `activeSiteIndex` follows the claims as they come, and each
        particle's breathing size is enlarged when its site is the active
        one at that point of the loop. Then the scene turns a little and
        `updateUI` receives the final active site, which is returned. */
    method Render(pointer: Vec3, time: real, sqrt: real -> real, sin: real -> real) returns (active: int)
      requires Valid()
      modifies this, positions, sizes, particles
      ensures Valid()
      ensures positions == old(positions) && colors == old(colors)
      ensures sizes == old(sizes) && particles == old(particles)
      ensures var fs := Frames(pointer, sqrt, old(particles[..]), old(positions[..]));
              var t := ActiveTrace(fs);
              && active == Last(t)
              && (forall i :: 0 <= i < ParticleCount ==> Moved(particles[..], positions[..], i, fs[i]))
              && (forall i :: 0 <= i < ParticleCount ==>
                    sizes[i] == SizeFor(sin, time, i, t[i] == fs[i].particle.site))
      ensures rotationY == old(rotationY) + 0.001 && rotationZ == old(rotationZ) + 0.0005
      ensures hoveredIndex == active && (infoActive <==> active != -1)
      ensures active != -1 ==> ShowsSite(active)
      ensures active == -1 || active == old(hoveredIndex) ==>
                title == old(title) && desc == old(desc) && href == old(href) && borderColor == old(borderColor)
    {
      active := StepParticles(pointer, time, sqrt, sin);
      rotationY := rotationY + 0.001;
      rotationZ := rotationZ + 0.0005;
      UpdateUI(active);
    }

    /** The particle loop of `render`. */
    method StepParticles(pointer: Vec3, time: real, sqrt: real -> real, sin: real -> real) returns (active: int)
      requires BuffersFit()
      modifies positions, sizes, particles
      ensures active == -1 || 0 <= active < 6
      ensures var fs := Frames(pointer, sqrt, old(particles[..]), old(positions[..]));
              var t := ActiveTrace(fs);
              && active == Last(t)
              && (forall i :: 0 <= i < ParticleCount ==> Moved(particles[..], positions[..], i, fs[i]))
              && (forall i :: 0 <= i < ParticleCount ==>
                    sizes[i] == SizeFor(sin, time, i, t[i] == fs[i].particle.site))
    {
      ghost var pos0, parts0 := positions[..], particles[..];
      ghost var fs := Frames(pointer, sqrt, parts0, pos0);
      ghost var t: seq<int> := [];
      active := -1;
      var i := 0;
      while i < ParticleCount
        invariant 0 <= i <= ParticleCount
        invariant Progress(fs, parts0, pos0, particles[..], positions[..], sizes[..], sin, time, t, i)
        invariant active == Last(t) && (active == -1 || 0 <= active < 6)
      {
        FrameOf(pointer, sqrt, parts0, pos0, i);
        ghost var parts, pos, sz := particles[..], positions[..], sizes[..];
        active := StepParticle(pointer, time, sqrt, sin, i, active);
        ProgressStep(fs, parts0, pos0, parts, pos, sz, sin, time, t, i, active);
        t := t + [active];
        i := i + 1;
      }
      assert fs[..i] == fs;
    }

    /** One turn of the particle loop: particle `i` takes its step, claims
        the active site if it is close enough, and gets its size. */
    method StepParticle(pointer: Vec3, time: real, sqrt: real -> real, sin: real -> real, i: int, active: int)
      returns (next: int)
      requires BuffersFit() && 0 <= i < ParticleCount
      requires active == -1 || 0 <= active < 6
      modifies positions, sizes, particles
      ensures var f := WebUpdate(pointer, sqrt, old(particles[i]), At(old(positions[..]), i));
              && next == (if f.claims then f.particle.site else active)
              && particles[..] == old(particles[..])[i := f.particle]
              && positions[..] == Put(old(positions[..]), i, f.position)
              && sizes[..] == old(sizes[..])[i := SizeFor(sin, time, i, next == f.particle.site)]
      ensures next == -1 || 0 <= next < 6
    {
      var f := WebUpdate(pointer, sqrt, particles[i], At(positions[..], i));
      next := if f.claims then f.particle.site else active;
      MoveParticle(i, f);
      sizes[i] := SizeFor(sin, time, i, next == f.particle.site);
    }

    /** Stores frame `f` at index `i`; every other particle keeps its record
        and position. */
    method MoveParticle(i: int, f: WebFrame)
      requires BuffersFit() && 0 <= i < particles.Length
      modifies particles, positions
      ensures Moved(particles[..], positions[..], i, f)
      ensures particles[..] == old(particles[..])[i := f.particle]
      ensures positions[..] == Put(old(positions[..]), i, f.position)
    {
      particles[i] := f.particle;
      Store(positions, i, f.position);
    }

    /** `updateUI(index)`: a newly active site is shown and the box opens;
        -1 closes it; the site already shown leaves everything as it is.
        Either way the hovered site becomes `index`. */
    method UpdateUI(index: int)
      requires Valid() && (index == -1 || 0 <= index < |Sites|)
      modifies this
      ensures Valid() && hoveredIndex == index
      ensures infoActive <==> index != -1
      ensures index != -1 ==> ShowsSite(index)
      ensures index == -1 || index == old(hoveredIndex) ==>
                title == old(title) && desc == old(desc) && href == old(href) && borderColor == old(borderColor)
      ensures positions == old(positions) && colors == old(colors)
      ensures sizes == old(sizes) && particles == old(particles)
      ensures rotationY == old(rotationY) && rotationZ == old(rotationZ)
    {
      if index != -1 && index != hoveredIndex {
        hoveredIndex := index;
        var site := Sites[index];
        title, desc, href := site.name, site.desc, site.url;
        infoActive := true;
        borderColor := site.color;
      } else if index == -1 {
        hoveredIndex := -1;
        infoActive := false;
      }
    }

    /** `onDocumentClick`: the url opened in a new tab, if a site is hovered;
        it is the one the visit button links to. */
    method OnDocumentClick() returns (url: Option<string>)
      requires Valid()
      ensures url.Some? <==> hoveredIndex != -1
      ensures url.Some? ==> url.value == Sites[hoveredIndex].url && url.value == href
    {
      if hoveredIndex != -1 {
        url := Some(Sites[hoveredIndex].url);
      } else {
        url := None;
      }
    }
  }

  /** `init`'s loop: fresh buffers holding every particle as it is placed. */
  method Spawn(cos: real -> real, sin: real -> real, pi: real, randoms: seq<Vec3>)
    returns (parts: array<WebParticle>, pos: array<real>, col: array<real>, sz: array<real>)
    requires IsWave(cos) && IsWave(sin)
    requires |randoms| == ParticleCount && forall i :: 0 <= i < |randoms| ==> IsRandom(randoms[i])
    ensures fresh(parts) && fresh(pos) && fresh(col) && fresh(sz)
    ensures parts.Length == ParticleCount && sz.Length == ParticleCount
    ensures pos.Length == 3 * ParticleCount && col.Length == 3 * ParticleCount
    ensures pos != col && pos != sz && col != sz
    ensures var ps := Layout(cos, sin, pi, randoms);
            forall i :: 0 <= i < ParticleCount ==> Spawned(parts[..], pos[..], col[..], sz[..], i, ps[i])
  {
    ghost var ps := Layout(cos, sin, pi, randoms);
    pos := new real[3 * ParticleCount];
    col := new real[3 * ParticleCount];
    sz := new real[ParticleCount];
    parts := new WebParticle[ParticleCount](i => WebParticle(Zero, Zero, 0));
    for i := 0 to ParticleCount
      invariant forall j :: 0 <= j < i ==> Spawned(parts[..], pos[..], col[..], sz[..], j, ps[j])
    {
      var site := SiteOf(i);
      var p := WebParticle(Placement(cos, sin, pi, i, randoms[i]), Zero, site);
      assert p == ps[i];
      Place(parts, pos, col, sz, i, p);
    }
  }

  /** Writes particle `p` at index `i`, in its site's colour and at the
      initial size; every other index keeps its values. */
  method Place(parts: array<WebParticle>, pos: array<real>, col: array<real>, sz: array<real>, i: int, p: WebParticle)
    requires 0 <= i < parts.Length && sz.Length == parts.Length
    requires pos.Length == 3 * parts.Length && col.Length == 3 * parts.Length
    requires pos != col && pos != sz && col != sz
    modifies parts, pos, col, sz
    ensures Spawned(parts[..], pos[..], col[..], sz[..], i, p)
    ensures parts[..] == old(parts[..])[i := p] && sz[..] == old(sz[..])[i := InitialSize]
    ensures pos[..] == Put(old(pos[..]), i, p.origin)
    ensures col[..] == Put(old(col[..]), i, HexColor(Sites[p.site].color))
  {
    Store(pos, i, p.origin);
    parts[i] := p;
    Store(col, i, HexColor(Sites[p.site].color));
    sz[i] := InitialSize;
  }
}
