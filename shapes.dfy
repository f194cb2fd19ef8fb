/** The three target shapes of the particle cloud and the structure of the
    point clouds generated for them (style/script.js, initParticles).

    The coordinates themselves come from trigonometry, square roots and
    Math.random; they are not modelled here. A `Sampler` stands for that
    computation: given the branch of the generator a particle falls into and
    its index, it yields the particle's target point and the factor by which
    the point is stretched into its explosion direction. */
module Shapes {

  /** The shape the particles currently form. */
  datatype Shape = Star | Heart | Planet

  /** Number of particles, fixed for the lifetime of the program. */
  const ParticleCount: nat := 8000

  /** Share of the planet's particles drawn in the sphere branch; the rest are drawn in the ring branch. */
  const SphereShare: real := 0.6

  /** The material colour shown for each shape, as a 24-bit RGB value. */
  function ShapeColor(s: Shape): (c: int)
    ensures 0 <= c < 0x100_0000
  {
    match s
    case Star => 0xffff00
    case Heart => 0xff3366
    case Planet => 0x00ffff
  }

  /** The text written into the shape-name label. */
  function ShapeLabel(s: Shape): string
  {
    match s
    case Star => "Ngôi sao"
    case Heart => "Trái tim"
    case Planet => "Hành tinh"
  }

  /** Distinct shapes are shown in distinct colours and under distinct labels,
      so the colour and the label each identify the shape. */
  lemma ColorAndLabelIdentifyShape(s: Shape, t: Shape)
    ensures ShapeColor(s) == ShapeColor(t) <==> s == t
    ensures ShapeLabel(s) == ShapeLabel(t) <==> s == t
  {
  }

  datatype Vec3 = Vec3(x: real, y: real, z: real)

  function Add(a: Vec3, b: Vec3): Vec3
  {
    Vec3(a.x + b.x, a.y + b.y, a.z + b.z)
  }

  function Scale(a: Vec3, k: real): Vec3
  {
    Vec3(a.x * k, a.y * k, a.z * k)
  }

  /** The star's outer and inner radius and its number of points. */
  const StarPoints: nat := 5
  const OuterRadius: real := 5.0
  const InnerRadius: real := 2.0

  /** The fractional part of a non-negative number (what JavaScript's `% 1`
      gives for it). */
  function Frac(v: real): (f: real)
    requires 0.0 <= v
    ensures 0.0 <= f < 1.0
  {
    v - (v.Floor as real)
  }

  /** Distance from the centre of star particle `i`. Its angle is
      2π·i/ParticleCount, so the star section it lies in is
      5·i/ParticleCount; the radius runs linearly from the inner radius at
      the start of a section to the outer radius at its middle and back. */
  function StarRadius(i: nat): (r: real)
    ensures InnerRadius <= r <= OuterRadius
  {
    var section := (i as real) * (StarPoints as real) / (ParticleCount as real);
    var t := (if Frac(section) < 0.5 then 0.5 - Frac(section) else Frac(section) - 0.5) * 2.0;
    OuterRadius * (1.0 - t) + InnerRadius * t
  }

  /** The radius repeats with every one of the five points of the star, and
      within each point it is the inner radius at the section boundary and
      the outer radius halfway: star particle 1600·k lies on the inner radius
      and particle 1600·k + 800 on the outer one. */
  lemma StarRadiusPeriodic(i: nat)
    ensures StarRadius(i + 1600) == StarRadius(i)
    ensures i % 1600 == 0 ==> StarRadius(i) == InnerRadius
    ensures i % 1600 == 800 ==> StarRadius(i) == OuterRadius
  {
    var section := (i as real) * 5.0 / 8000.0;
    var next := ((i + 1600) as real) * 5.0 / 8000.0;
    assert next == section + 1.0;
    assert next.Floor == section.Floor + 1;
    assert Frac(next) == Frac(section);
    var k := i / 1600;
    if i % 1600 == 0 {
      assert i == 1600 * k;
      assert section == k as real;
      assert Frac(section) == 0.0;
    }
    if i % 1600 == 800 {
      assert i == 1600 * k + 800;
      assert section == (k as real) + 0.5;
      assert section.Floor == k;
      assert Frac(section) == 0.5;
    }
  }

  /** Which coordinate formula produces a particle; a star particle carries
      its radius, the rest of its position being trigonometry and jitter. */
  datatype Branch = StarOutline(radius: real) | HeartCurve | PlanetSphere | PlanetRing

  /** The branch particle `i` takes when the shape is `shape`: the star and
      the heart have one formula each; the planet puts indices below
      0.6·ParticleCount in the sphere branch and the others in the ring
      branch. Each shape uses only its own branches, and a star particle is
      handed a radius between the inner and the outer radius. */
  function BranchOf(shape: Shape, i: nat): (b: Branch)
    ensures shape == Star <==> b.StarOutline?
    ensures b.StarOutline? ==> InnerRadius <= b.radius <= OuterRadius
    ensures shape == Heart <==> b == HeartCurve
    ensures shape == Planet <==> b == PlanetSphere || b == PlanetRing
  {
    match shape
    case Star => StarOutline(StarRadius(i))
    case Heart => HeartCurve
    case Planet =>
      if (i as real) < (ParticleCount as real) * SphereShare then PlanetSphere else PlanetRing
  }

  /** The sphere indices of a planet form a prefix of the particle indices:
      with the program's particle count, the first 4800 particles are in the
      sphere branch and the remaining 3200 in the ring branch. */
  lemma PlanetSplit(i: nat)
    requires i < ParticleCount
    ensures BranchOf(Planet, i) == PlanetSphere <==> i < 4800
    ensures BranchOf(Planet, i) == PlanetRing <==> 4800 <= i
  {
  }

  /** One sampled particle: its target point and the factor that turns the
      point into its explosion direction. The factor stands for a random
      magnitude in [2, 10) divided by the point's length (three.js divides
      the zero vector by 1 instead). */
  datatype Draw = Draw(point: Vec3, stretch: real)

  /** The trigonometric and random part of the generator. */
  type Sampler = (Branch, nat) -> Draw

  /** The explosion direction of a sampled particle: its point, normalised
      and scaled, that is, stretched by the sampled factor. */
  function Direction(d: Draw): Vec3
  {
    Scale(d.point, d.stretch)
  }

  /** The draw for particle `i` of a freshly generated `shape`. */
  function DrawAt(shape: Shape, i: nat, sample: Sampler): Draw
  {
    sample(BranchOf(shape, i), i)
  }

  /** The target points of a freshly generated shape, one per particle. */
  function Targets(shape: Shape, sample: Sampler): seq<Vec3>
  {
    seq(ParticleCount, i requires 0 <= i => DrawAt(shape, i, sample).point)
  }

  /** The explosion directions of a freshly generated shape, one per particle. */
  function Directions(shape: Shape, sample: Sampler): seq<Vec3>
  {
    seq(ParticleCount, i requires 0 <= i => Direction(DrawAt(shape, i, sample)))
  }

  /** Every particle of a generated cloud has a target and a direction, the
      direction is its own target stretched, the star branch is handed the
      particle's star radius, every heart particle comes from the heart
      formula, and the planet's particle `i` comes from the
      sphere branch exactly when i < 0.6·ParticleCount. */
  lemma GeneratedCloud(shape: Shape, sample: Sampler, i: nat)
    requires i < ParticleCount
    ensures |Targets(shape, sample)| == |Directions(shape, sample)| == ParticleCount
    ensures Directions(shape, sample)[i] == Scale(Targets(shape, sample)[i], DrawAt(shape, i, sample).stretch)
    ensures shape == Star ==> Targets(shape, sample)[i] == sample(StarOutline(StarRadius(i)), i).point
    ensures shape == Heart ==> Targets(shape, sample)[i] == sample(HeartCurve, i).point
    ensures shape == Planet && (i as real) < (ParticleCount as real) * SphereShare ==>
      Targets(shape, sample)[i] == sample(PlanetSphere, i).point
    ensures shape == Planet && (i as real) >= (ParticleCount as real) * SphereShare ==>
      Targets(shape, sample)[i] == sample(PlanetRing, i).point
  {
  }

  /** The star branch places its point at horizontal/vertical distance
      `radius` from the centre (x = r·cos a, y = r·sin a, and
      cos² a + sin² a = 1); this is what the sampler must satisfy for it. */
  predicate PlacesAtRadius(sample: Sampler, r: real, i: nat)
  {
    var p := sample(StarOutline(r), i).point;
    p.x * p.x + p.y * p.y == r * r
  }

  /** For a sampler that places star points at the radius it is handed,
      every star target lies in the ring between the inner and the outer
      radius: its squared distance from the axis is between 2² and 5². */
  lemma StarTargetInRing(sample: Sampler, i: nat)
    requires i < ParticleCount
    requires PlacesAtRadius(sample, StarRadius(i), i)
    ensures var p := Targets(Star, sample)[i];
      InnerRadius * InnerRadius <= p.x * p.x + p.y * p.y <= OuterRadius * OuterRadius
  {
    var r := StarRadius(i);
    assert Targets(Star, sample)[i] == sample(StarOutline(r), i).point;
    SquareBetween(InnerRadius, r, OuterRadius);
  }

  lemma SquareBetween(a: real, r: real, b: real)
    requires 0.0 <= a <= r <= b
    ensures a * a <= r * r <= b * b
  {
    assert a * a <= a * r <= r * r;
    assert r * r <= r * b <= b * b;
  }
}
