/** The spiral centreline built by gen_spiral / eqn (lamp.py, lines 27-49)
    and its two boundary points (lines 55-56).

    The curve uses scipy's erf, numpy's sin and cos and np.pi. Their numerics
    are not modelled: they are passed in as a Transcendentals record and the
    lemmas assume only the laws stated by Lawful. */
module Spiral {
  import opened Design

  datatype Point3 = Point3(x: real, y: real, z: real)

  datatype Transcendentals = Transcendentals(
    erf: real -> real,
    sin: real -> real,
    cos: real -> real,
    pi: real)

  /** The laws the model relies on: erf is odd, strictly increasing and lies
      strictly between -1 and 1; sin 0 = 0, cos 0 = 1 and pi is positive. */
  ghost predicate Lawful(k: Transcendentals) {
    && (forall x: real, y: real :: x + y == 0.0 ==> k.erf(x) + k.erf(y) == 0.0)
    && (forall x: real, y: real :: x < y ==> k.erf(x) < k.erf(y))
    && (forall x: real :: -1.0 < k.erf(x) < 1.0)
    && k.sin(0.0) == 0.0
    && k.cos(0.0) == 1.0
    && k.pi > 0.0
  }

  /** The keyword arguments of gen_spiral. */
  datatype SpiralParams = SpiralParams(
    erfStddev: real,
    minRad: real,
    zscale: real,
    rscale: real,
    loops: real)

  /** The spiral the lamp is swept along (lines 52-54). */
  function LampSpiral(c: Constants): SpiralParams {
    SpiralParams(1.2, c.minRadius, c.zScale, c.radiusScale, c.loops)
  }

  /** eqn divides by l = 2 * loops * pi and by erf_stddev * 2. */
  predicate Evaluable(p: SpiralParams, k: Transcendentals) {
    p.loops != 0.0 && p.erfStddev != 0.0 && k.pi != 0.0
  }

  /** l, the parameter length of the full coil. */
  function Span(p: SpiralParams, k: Transcendentals): real {
    2.0 * p.loops * k.pi
  }

  /** The parameter value at the end of the coil, as lines 56 and 58 write it. */
  function LoopEnd(p: SpiralParams, k: Transcendentals): real {
    p.loops * k.pi * 2.0
  }

  /** The argument handed to erf. */
  function ErfArg(p: SpiralParams, k: Transcendentals, t: real): real
    requires Evaluable(p, k)
  {
    assert Span(p, k) != 0.0;
    assert Span(p, k) / (p.erfStddev * 2.0) != 0.0;
    t / (Span(p, k) / (p.erfStddev * 2.0)) - p.erfStddev
  }

  /** erf_out, the envelope value shared by height and radius. */
  function ErfOut(p: SpiralParams, k: Transcendentals, t: real): real
    requires Evaluable(p, k)
  {
    -k.erf(ErfArg(p, k, t))
  }

  /** The radial distance for envelope value e. */
  function RadiusOf(p: SpiralParams, e: real): real {
    -e * p.rscale + p.minRad + p.rscale
  }

  /** The height for envelope value e. */
  function HeightOf(p: SpiralParams, e: real): real {
    e * p.zscale
  }

  /** The radial distance multiplying cos t and sin t. */
  function Radius(p: SpiralParams, k: Transcendentals, t: real): real
    requires Evaluable(p, k)
  {
    RadiusOf(p, ErfOut(p, k, t))
  }

  /** The height z of the curve. */
  function Height(p: SpiralParams, k: Transcendentals, t: real): real
    requires Evaluable(p, k)
  {
    HeightOf(p, ErfOut(p, k, t))
  }

  /** eqn(t). Height and radius are both affine in erf_out, so the radius is
      an affine function of the height. */
  function Eqn(p: SpiralParams, k: Transcendentals, t: real): (r: Point3)
    requires Evaluable(p, k)
    ensures r.x == Radius(p, k, t) * k.cos(t) && r.y == Radius(p, k, t) * k.sin(t)
    ensures r.z == Height(p, k, t)
    ensures p.zscale != 0.0 ==>
      Radius(p, k, t) == p.minRad + p.rscale - (p.rscale / p.zscale) * r.z
  {
    var e := ErfOut(p, k, t);
    var radius := -e * p.rscale + p.minRad + p.rscale;
    assert p.zscale != 0.0 ==> (p.rscale / p.zscale) * (e * p.zscale) == e * p.rscale by {
      if p.zscale != 0.0 {
        calc {
          (p.rscale / p.zscale) * (e * p.zscale);
          == e * ((p.rscale / p.zscale) * p.zscale);
          == e * p.rscale;
        }
      }
    }
    Point3(radius * k.cos(t), radius * k.sin(t), Height(p, k, t))
  }

  /** xs, ys, zs (line 55). */
  function StartPoint(p: SpiralParams, k: Transcendentals): Point3
    requires Evaluable(p, k)
  {
    Eqn(p, k, 0.0)
  }

  /** xe, ye, ze (line 56). */
  function EndPoint(p: SpiralParams, k: Transcendentals): Point3
    requires Evaluable(p, k)
  {
    Eqn(p, k, LoopEnd(p, k))
  }

  /** The erf argument is affine in t: 2 * erf_stddev * t / l - erf_stddev. */
  lemma ErfArgAffine(p: SpiralParams, k: Transcendentals, t: real)
    requires Evaluable(p, k)
    ensures Span(p, k) != 0.0
    ensures ErfArg(p, k, t) == 2.0 * p.erfStddev * t / Span(p, k) - p.erfStddev
  {
    var l, s := Span(p, k), p.erfStddev;
    var q := l / (s * 2.0);
    assert q * (s * 2.0) == l;
    assert (t / q) * q == t;
    assert (2.0 * s * t / l) * l == 2.0 * s * t;
    calc {
      (t / q) * l;
      == (t / q) * (q * (s * 2.0));
      == ((t / q) * q) * (s * 2.0);
      == 2.0 * s * t;
    }
  }

  /** The erf argument runs from -erf_stddev at t = 0 to +erf_stddev at the
      end of the coil. */
  lemma ErfArgAtEnds(p: SpiralParams, k: Transcendentals)
    requires Evaluable(p, k)
    ensures ErfArg(p, k, 0.0) == -p.erfStddev
    ensures ErfArg(p, k, LoopEnd(p, k)) == p.erfStddev
  {
    var l, s := Span(p, k), p.erfStddev;
    assert LoopEnd(p, k) == l;
    ErfArgAffine(p, k, l);
    assert 2.0 * s * l / l == 2.0 * s;
  }

  /** Because |erf| < 1, the radius stays strictly between min_rad and
      min_rad + 2 * rscale and the height strictly between -zscale and zscale. */
  lemma EnvelopeBounds(p: SpiralParams, k: Transcendentals, t: real)
    requires Lawful(k) && Evaluable(p, k)
    requires p.rscale > 0.0 && p.zscale > 0.0
    ensures p.minRad < Radius(p, k, t) < p.minRad + 2.0 * p.rscale
    ensures -p.zscale < Height(p, k, t) < p.zscale
  {
    var e := ErfOut(p, k, t);
    assert -1.0 < e < 1.0;
    MulStrictBounds(e, p.rscale);
    MulStrictBounds(e, p.zscale);
    assert -e * p.rscale == -(e * p.rscale);
    assert Radius(p, k, t) == p.minRad + p.rscale - e * p.rscale;
  }

  lemma MulStrictBounds(e: real, a: real)
    requires -1.0 < e < 1.0 && a > 0.0
    ensures -a < e * a < a
  {
  }

  /** The coil starts on the positive x axis, at radius
      min_rad + rscale * (1 - erf(erf_stddev)) and height zscale * erf(erf_stddev). */
  lemma StartPointOnAxis(p: SpiralParams, k: Transcendentals)
    requires Lawful(k) && Evaluable(p, k)
    ensures Radius(p, k, 0.0) == p.minRad + p.rscale * (1.0 - k.erf(p.erfStddev))
    ensures StartPoint(p, k) ==
      Point3(Radius(p, k, 0.0), 0.0, k.erf(p.erfStddev) * p.zscale)
  {
    ErfArgAtEnds(p, k);
    var s := p.erfStddev;
    assert k.erf(-s) + k.erf(s) == 0.0;
  }

  /** The two ends mirror each other: the end height is the negation of the
      start height and the two radii average to min_rad + rscale. */
  lemma EndpointSymmetry(p: SpiralParams, k: Transcendentals)
    requires Lawful(k) && Evaluable(p, k)
    ensures EndPoint(p, k).z == -StartPoint(p, k).z
    ensures Radius(p, k, 0.0) + Radius(p, k, LoopEnd(p, k)) == 2.0 * (p.minRad + p.rscale)
  {
    ErfArgAtEnds(p, k);
    var s := p.erfStddev;
    assert k.erf(-s) + k.erf(s) == 0.0;
    var e0, e1 := ErfOut(p, k, 0.0), ErfOut(p, k, LoopEnd(p, k));
    assert e0 == -e1;
    assert e1 * p.zscale == -(e0 * p.zscale);
  }

  /** As the code is written, the coil starts high and narrow and ends low and
      wide: for a positive spread, z(0) > 0 > z(end) and
      r(0) < min_rad + rscale < r(end). */
  lemma StartHighAndNarrow(p: SpiralParams, k: Transcendentals)
    requires Lawful(k) && Evaluable(p, k)
    requires p.erfStddev > 0.0 && p.rscale > 0.0 && p.zscale > 0.0
    ensures StartPoint(p, k).z > 0.0 > EndPoint(p, k).z
    ensures Radius(p, k, 0.0) < p.minRad + p.rscale < Radius(p, k, LoopEnd(p, k))
  {
    ErfArgAtEnds(p, k);
    var s := p.erfStddev;
    assert k.erf(-s) + k.erf(s) == 0.0;
    assert k.erf(-s) < k.erf(s);
    var e0, e1 := ErfOut(p, k, 0.0), ErfOut(p, k, LoopEnd(p, k));
    assert e0 > 0.0 && e1 < 0.0;
    assert e0 * p.zscale > 0.0;
    assert e1 * p.zscale < 0.0;
    assert e0 * p.rscale > 0.0;
    assert e1 * p.rscale < 0.0;
  }

  /** For a positive spread and loop count the height never rises and the
      radius never shrinks as t grows; both change strictly when the scale
      is positive. */
  lemma EnvelopeMonotone(p: SpiralParams, k: Transcendentals, t1: real, t2: real)
    requires Lawful(k) && Evaluable(p, k)
    requires p.erfStddev > 0.0 && p.loops > 0.0
    requires p.zscale >= 0.0 && p.rscale >= 0.0
    requires t1 <= t2
    ensures Height(p, k, t2) <= Height(p, k, t1)
    ensures Radius(p, k, t1) <= Radius(p, k, t2)
    ensures t1 < t2 && p.zscale > 0.0 ==> Height(p, k, t2) < Height(p, k, t1)
    ensures t1 < t2 && p.rscale > 0.0 ==> Radius(p, k, t1) < Radius(p, k, t2)
  {
    ErfArgMonotone(p, k, t1, t2);
    var a1, a2 := ErfArg(p, k, t1), ErfArg(p, k, t2);
    assert k.erf(a1) <= k.erf(a2);
    assert t1 < t2 ==> k.erf(a1) < k.erf(a2);
    EnvelopeOrder(p, ErfOut(p, k, t1), ErfOut(p, k, t2), t1 < t2);
  }

  /** Scaling preserves the order of two envelope values e2 <= e1. */
  lemma EnvelopeOrder(p: SpiralParams, e1: real, e2: real, strict: bool)
    requires e2 <= e1 && (strict ==> e2 < e1)
    requires p.zscale >= 0.0 && p.rscale >= 0.0
    ensures HeightOf(p, e2) <= HeightOf(p, e1)
    ensures RadiusOf(p, e1) <= RadiusOf(p, e2)
    ensures strict && p.zscale > 0.0 ==> HeightOf(p, e2) < HeightOf(p, e1)
    ensures strict && p.rscale > 0.0 ==> RadiusOf(p, e1) < RadiusOf(p, e2)
  {
    var d := e1 - e2;
    assert HeightOf(p, e1) - HeightOf(p, e2) == d * p.zscale;
    assert RadiusOf(p, e2) - RadiusOf(p, e1) == d * p.rscale;
    ProductSign(d, p.zscale);
    ProductSign(d, p.rscale);
  }

  lemma ProductSign(d: real, c: real)
    requires d >= 0.0 && c >= 0.0
    ensures d * c >= 0.0
    ensures d > 0.0 && c > 0.0 ==> d * c > 0.0
  {
  }

  /** For a positive spread and loop count the erf argument grows with t. */
  lemma ErfArgMonotone(p: SpiralParams, k: Transcendentals, t1: real, t2: real)
    requires Evaluable(p, k) && k.pi > 0.0
    requires p.erfStddev > 0.0 && p.loops > 0.0
    requires t1 <= t2
    ensures ErfArg(p, k, t1) <= ErfArg(p, k, t2)
    ensures t1 < t2 ==> ErfArg(p, k, t1) < ErfArg(p, k, t2)
  {
    var l, s := Span(p, k), p.erfStddev;
    assert l > 0.0;
    var q := l / (s * 2.0);
    assert q > 0.0;
    assert t2 / q - t1 / q == (t2 - t1) / q;
    assert (t2 - t1) / q >= 0.0;
    assert t1 < t2 ==> (t2 - t1) / q > 0.0;
  }

  /** The lamp's own boundary points: with its constants the coil starts at
      (105 - 75 erf(1.2), 0, 75 erf(1.2)) and ends at height -75 erf(1.2). */
  lemma LampBoundaryPoints(k: Transcendentals)
    requires Lawful(k)
    ensures Evaluable(LampSpiral(Lamp), k)
    ensures StartPoint(LampSpiral(Lamp), k) ==
      Point3(105.0 - 75.0 * k.erf(1.2), 0.0, 75.0 * k.erf(1.2))
    ensures EndPoint(LampSpiral(Lamp), k).z == -75.0 * k.erf(1.2)
    ensures 30.0 < StartPoint(LampSpiral(Lamp), k).x < 105.0
  {
    var p := LampSpiral(Lamp);
    StartPointOnAxis(p, k);
    EndpointSymmetry(p, k);
    StartHighAndNarrow(p, k);
  }
}
