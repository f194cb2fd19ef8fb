/** The arithmetic of one render tick (style/script.js, animate): the
    low-pass filter on the expansion factor, the decaying spin, and the
    position buffer handed to the renderer. */
module Animation {
  import opened Shapes

  /** Fraction of the remaining gap to the expansion factor closed per tick. */
  const SmoothingRate: real := 0.05
  /** Factor by which the rotation velocity decays per tick. */
  const VelocityDecay: real := 0.92
  /** Constant rotation added every tick. */
  const IdleSpin: real := 0.002

  function Pow(b: real, n: nat): (r: real)
    ensures 0.0 < b ==> 0.0 < r
    decreases n
  {
    if n == 0 then 1.0 else b * Pow(b, n - 1)
  }

  /** One step of the low-pass filter from `s` towards `target`. */
  function SmoothStep(s: real, target: real): (r: real)
    ensures s <= target ==> s <= r <= target
    ensures target <= s ==> target <= r <= s
    ensures target - r == (1.0 - SmoothingRate) * (target - s)
  {
    s + (target - s) * SmoothingRate
  }

  /** Values in [0, 1] stay in [0, 1] under smoothing. */
  lemma SmoothStepInUnit(s: real, target: real)
    requires 0.0 <= s <= 1.0 && 0.0 <= target <= 1.0
    ensures 0.0 <= SmoothStep(s, target) <= 1.0
  {
  }

  /** The filter after `n` ticks during which the target did not change. */
  function SmoothRun(s: real, target: real, n: nat): real
    decreases n
  {
    if n == 0 then s else SmoothRun(SmoothStep(s, target), target, n - 1)
  }

  /** Under a constant target the gap shrinks geometrically, by 0.95 per
      tick, and the filtered value never passes the target. */
  lemma {:induction false} SmoothRunConverges(s: real, target: real, n: nat)
    ensures target - SmoothRun(s, target, n) == Pow(1.0 - SmoothingRate, n) * (target - s)
    ensures s <= target ==> s <= SmoothRun(s, target, n) <= target
    ensures target <= s ==> target <= SmoothRun(s, target, n) <= s
    decreases n
  {
    if n > 0 {
      var s1 := SmoothStep(s, target);
      SmoothRunConverges(s1, target, n - 1);
      Regroup(Pow(1.0 - SmoothingRate, n - 1), 1.0 - SmoothingRate, target - s);
    }
  }

  lemma Regroup(p: real, k: real, g: real)
    ensures p * (k * g) == (k * p) * g
  {
  }

  /** The rotation angle of the cloud about its vertical axis and the
      velocity it turns with. */
  datatype Spin = Spin(angle: real, velocity: real)

  /** One tick of rotation: turn by the velocity, decay the velocity, and
      add the idle turn. The velocity keeps its sign and never grows in
      magnitude, and the cloud turns at least by the idle turn whenever it
      was turning forwards or not at all. */
  function SpinTick(sp: Spin): (next: Spin)
    ensures 0.0 <= sp.velocity ==> 0.0 <= next.velocity <= sp.velocity
    ensures sp.velocity <= 0.0 ==> sp.velocity <= next.velocity <= 0.0
    ensures 0.0 <= sp.velocity ==> sp.angle + IdleSpin <= next.angle
  {
    Spin(sp.angle + sp.velocity + IdleSpin, sp.velocity * VelocityDecay)
  }

  /** Spin after `n` ticks with no hand motion. */
  function SpinRun(sp: Spin, n: nat): Spin
    decreases n
  {
    if n == 0 then sp else SpinRun(SpinTick(sp), n - 1)
  }

  /** Without hand motion the velocity decays geometrically, by 0.92 per
      tick. */
  lemma {:induction false} SpinRunVelocity(sp: Spin, n: nat)
    ensures SpinRun(sp, n).velocity == sp.velocity * Pow(VelocityDecay, n)
    decreases n
  {
    if n > 0 {
      SpinRunVelocity(SpinTick(sp), n - 1);
    }
  }

  /** Without hand motion the angle advances by the geometric sum of the
      decaying velocities plus the idle turn per tick:
      angle_n = angle_0 + v_0·(1 − 0.92^n)/(1 − 0.92) + 0.002·n. */
  lemma {:induction false} SpinRunAngle(sp: Spin, n: nat)
    ensures SpinRun(sp, n).angle
         == sp.angle + sp.velocity * (1.0 - Pow(VelocityDecay, n)) / (1.0 - VelocityDecay) + IdleSpin * (n as real)
    decreases n
  {
    if n > 0 {
      var sp1 := SpinTick(sp);
      SpinRunAngle(sp1, n - 1);
      var p := Pow(VelocityDecay, n - 1);
      assert Pow(VelocityDecay, n) == VelocityDecay * p;
      calc {
        SpinRun(sp, n).angle;
        sp1.angle + sp1.velocity * (1.0 - p) / (1.0 - VelocityDecay) + IdleSpin * ((n - 1) as real);
        sp.angle + sp.velocity + IdleSpin
          + sp.velocity * VelocityDecay * (1.0 - p) / (1.0 - VelocityDecay) + IdleSpin * ((n - 1) as real);
        { GeometricStep(sp.velocity, VelocityDecay, p); }
        sp.angle + sp.velocity * (1.0 - VelocityDecay * p) / (1.0 - VelocityDecay) + IdleSpin * (n as real);
      }
    }
  }

  /** One more term of the geometric sum: v + k·v·(1 − p)/(1 − k) = v·(1 − k·p)/(1 − k). */
  lemma GeometricStep(v: real, k: real, p: real)
    requires k != 1.0
    ensures v + v * k * (1.0 - p) / (1.0 - k) == v * (1.0 - k * p) / (1.0 - k)
  {
    var d := 1.0 - k;
    assert v == v * d / d;
    assert v * d + v * k * (1.0 - p) == v * (1.0 - k * p);
  }

  /** A non-zero velocity keeps its sign and shrinks in magnitude, but never
      reaches zero in finitely many ticks. */
  lemma VelocityNeverVanishes(sp: Spin, n: nat)
    requires sp.velocity != 0.0 && 0 < n
    ensures SpinRun(sp, n).velocity != 0.0
    ensures (0.0 < sp.velocity ==> 0.0 < SpinRun(sp, n).velocity < sp.velocity)
    ensures (sp.velocity < 0.0 ==> sp.velocity < SpinRun(sp, n).velocity < 0.0)
  {
    SpinRunVelocity(sp, n);
    var p := Pow(VelocityDecay, n);
    PowBelowOne(VelocityDecay, n);
    assert 0.0 < p < 1.0;
    assert SpinRun(sp, n).velocity == sp.velocity * p;
    ShrinkKeepsSign(sp.velocity, p, SpinRun(sp, n).velocity);
  }

  lemma ShrinkKeepsSign(v: real, p: real, w: real)
    requires 0.0 < p < 1.0 && w == v * p
    ensures 0.0 < v ==> 0.0 < w < v
    ensures v < 0.0 ==> v < w < 0.0
  {
    if 0.0 < v {
      ScaleBelow(v, p);
    }
    if v < 0.0 {
      ScaleBelow(-v, p);
      assert (-v) * p == -(v * p);
    }
  }

  lemma ScaleBelow(v: real, p: real)
    requires 0.0 < v && 0.0 < p < 1.0
    ensures 0.0 < v * p < v
  {
  }

  lemma {:induction false} PowBelowOne(b: real, n: nat)
    requires 0.0 < b < 1.0 && 0 < n
    ensures Pow(b, n) < 1.0
    decreases n
  {
    if n > 1 {
      PowBelowOne(b, n - 1);
      assert b * Pow(b, n - 1) < 1.0 * Pow(b, n - 1);
    }
  }

  /** The decay outpaces a linear bound: 0.92ⁿ·(1 + 0.08·n) ≤ 1, so
      0.92ⁿ is at most 1/(1 + 0.08·n). */
  lemma {:induction false} DecayBelowReciprocal(n: nat)
    ensures Pow(VelocityDecay, n) * (1.0 + (1.0 - VelocityDecay) * (n as real)) <= 1.0
    decreases n
  {
    if n > 0 {
      DecayBelowReciprocal(n - 1);
      var p := Pow(VelocityDecay, n - 1);
      var m := (n - 1) as real;
      var q := p * (1.0 + (1.0 - VelocityDecay) * m);
      NonnegativeProduct(p, (1.0 - VelocityDecay) * m);
      assert p <= q;
      assert Pow(VelocityDecay, n) * (1.0 + (1.0 - VelocityDecay) * (n as real))
          == VelocityDecay * q + VelocityDecay * (1.0 - VelocityDecay) * p;
    }
  }

  lemma NonnegativeProduct(u: real, v: real)
    requires 0.0 <= u && 0.0 <= v
    ensures 0.0 <= u * v
  {
  }

  /** From a·p·L ≤ a < ε·L with L positive it follows that a·p < ε. */
  lemma BelowAfterScaling(a: real, p: real, eps: real, l: real)
    requires 0.0 < a && 0.0 < p && 1.0 <= l
    requires p * l <= 1.0 && a < eps * l
    ensures a * p < eps
  {
    assert a * (p * l) <= a * 1.0;
  }

  /** Without hand motion the velocity tends to zero: for every ε > 0 some
      tick brings it strictly inside (−ε, ε) (taking n = ⌊|v₀| / (0.08·ε)⌋ + 1). */
  lemma VelocityTendsToZero(sp: Spin, eps: real)
    requires 0.0 < eps
    ensures exists n: nat :: -eps < SpinRun(sp, n).velocity < eps
  {
    if sp.velocity == 0.0 {
      assert SpinRun(sp, 0).velocity == 0.0;
    } else {
      var a := if sp.velocity < 0.0 then -sp.velocity else sp.velocity;
      var c := 1.0 - VelocityDecay;
      var x := a / (c * eps);
      assert 0.0 <= x;
      var n: nat := x.Floor + 1;
      var l := 1.0 + c * (n as real);
      assert x < n as real;
      EnoughTicks(a, c, eps, n as real);
      SpinRunVelocity(sp, n);
      DecayBelowReciprocal(n);
      var p := Pow(VelocityDecay, n);
      BelowAfterScaling(a, p, eps, l);
      if sp.velocity < 0.0 {
        assert sp.velocity * p == -(a * p);
      }
      assert -eps < SpinRun(sp, n).velocity < eps;
    }
  }

  /** Past ⌊a / (c·ε)⌋ ticks the bound ε·(1 + c·t) exceeds a. */
  lemma EnoughTicks(a: real, c: real, eps: real, t: real)
    requires 0.0 < a && 0.0 < c && 0.0 < eps && a / (c * eps) < t
    ensures a < eps * (1.0 + c * t)
  {
    var k := c * eps;
    var x := a / k;
    assert a == x * k;
    ScaleStrict(x, t, k);
    assert t * k == eps * (c * t);
    assert eps * (1.0 + c * t) == eps + eps * (c * t);
  }

  lemma ScaleStrict(x: real, y: real, k: real)
    requires x < y && 0.0 < k
    ensures x * k < y * k
  {
  }

  /** Where each particle is drawn: its target pushed out along its direction
      by the smoothed expansion. */
  function Displaced(targets: seq<Vec3>, dirs: seq<Vec3>, s: real): (ps: seq<Vec3>)
    requires |targets| == |dirs|
  {
    seq(|targets|, i requires 0 <= i < |targets| => Add(targets[i], Scale(dirs[i], s)))
  }

  /** Component `k` (0, 1, 2 for x, y, z) of a vector. */
  function Component(v: Vec3, k: int): real
  {
    if k == 0 then v.x else if k == 1 then v.y else v.z
  }

  /** The interleaved buffer layout x0, y0, z0, x1, y1, z1, ... */
  function Flatten(ps: seq<Vec3>): seq<real>
  {
    if ps == [] then []
    else Flatten(ps[..|ps| - 1]) + [ps[|ps| - 1].x, ps[|ps| - 1].y, ps[|ps| - 1].z]
  }

  /** The flattened buffer holds three numbers per point, and entry 3i+k is
      component k of point i. */
  lemma {:induction false} FlattenAt(ps: seq<Vec3>, i: int, k: int)
    requires 0 <= i < |ps| && 0 <= k < 3
    ensures |Flatten(ps)| == 3 * |ps|
    ensures Flatten(ps)[3 * i + k] == Component(ps[i], k)
    decreases |ps|
  {
    var init := ps[..|ps| - 1];
    if i < |ps| - 1 {
      FlattenAt(init, i, k);
      assert init[i] == ps[i];
    } else if |ps| > 1 {
      FlattenAt(init, 0, 0);
    }
  }

  /** The three buffer entries of particle `i` are the coordinates of its
      target pushed out along its direction by `s`. */
  lemma DisplacedEntries(targets: seq<Vec3>, dirs: seq<Vec3>, s: real, i: int)
    requires |targets| == |dirs| && 0 <= i < |targets|
    ensures |Flatten(Displaced(targets, dirs, s))| == 3 * |targets|
    ensures var p := Add(targets[i], Scale(dirs[i], s));
      && Flatten(Displaced(targets, dirs, s))[3 * i] == p.x
      && Flatten(Displaced(targets, dirs, s))[3 * i + 1] == p.y
      && Flatten(Displaced(targets, dirs, s))[3 * i + 2] == p.z
  {
    var ps := Displaced(targets, dirs, s);
    FlattenAt(ps, i, 0);
    FlattenAt(ps, i, 1);
    FlattenAt(ps, i, 2);
  }

  /** Fill a newly allocated buffer with the drawn position of every particle. */
  method FillPositions(targets: seq<Vec3>, dirs: seq<Vec3>, s: real) returns (buf: array<real>)
    requires |targets| == |dirs|
    ensures fresh(buf)
    ensures buf.Length == 3 * |targets|
    ensures buf[..] == Flatten(Displaced(targets, dirs, s))
  {
    var n := |targets|;
    buf := new real[3 * n];
    ghost var flat := Flatten(Displaced(targets, dirs, s));
    if n > 0 {
      DisplacedEntries(targets, dirs, s, 0);
    } else {
      assert Displaced(targets, dirs, s) == [];
    }
    for i := 0 to n
      invariant |flat| == 3 * n
      invariant forall m :: 0 <= m < 3 * i ==> buf[m] == flat[m]
    {
      var p := Add(targets[i], Scale(dirs[i], s));
      DisplacedEntries(targets, dirs, s, i);
      buf[3 * i] := p.x;
      buf[3 * i + 1] := p.y;
      buf[3 * i + 2] := p.z;
    }
    assert buf[..] == flat;
  }

  /** Entry 3i+k of the position buffer is component k of target i plus
      component k of direction i times the smoothed expansion. */
  lemma PositionAt(targets: seq<Vec3>, dirs: seq<Vec3>, s: real, i: int, k: int)
    requires |targets| == |dirs| && 0 <= i < |targets| && 0 <= k < 3
    ensures |Flatten(Displaced(targets, dirs, s))| == 3 * |targets|
    ensures Flatten(Displaced(targets, dirs, s))[3 * i + k]
         == Component(targets[i], k) + Component(dirs[i], k) * s
  {
    var ps := Displaced(targets, dirs, s);
    FlattenAt(ps, i, k);
    assert ps[i] == Add(targets[i], Scale(dirs[i], s));
    if k == 0 {
      assert Component(ps[i], k) == targets[i].x + dirs[i].x * s;
    } else if k == 1 {
      assert Component(ps[i], k) == targets[i].y + dirs[i].y * s;
    } else {
      assert Component(ps[i], k) == targets[i].z + dirs[i].z * s;
    }
  }
}
