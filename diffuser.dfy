/** The arithmetic of gen_diffuser (lamp.py, lines 202-230): the dimensions
    of the diffuser core, the core profile with its rounded bottom, and the
    cap rectangle added to the cutout. The offset that turns the core into
    the shell and every sweep and boolean are CAD-kernel operations. */
module Diffuser {
  import opened Plane
  import opened Sketch
  import opened Design

  /** w1, h1, ph1, h2 and ph2 of gen_diffuser. */
  datatype CoreDims = CoreDims(w1: real, h1: real, ph1: real, h2: real, ph2: real)

  /** The dimensions for wall thickness dt, gen_diffuser's own parameter
      (the script passes diffuser_thickness; cs_width keeps using the
      global value). */
  function CoreDimensions(c: Constants, dt: real): CoreDims {
    var w1 := CsWidth(c) - dt * 2.0 + c.diffuserTol;
    var h1 := c.depth + c.lipDepth;
    var ph1 := h1 / 2.0 - EdgeHeight(c) - c.diffuserGap;
    var h2 := CsHeight(c) - EdgeHeight(c) - c.diffuserGap + c.diffuserTol;
    CoreDims(w1, h1, ph1, h2, ph1 - h2)
  }

  /** The core's top edge ph1 sits half a tolerance plus the gap below the
      step of the shell wall, whatever the depths; the sides have length h2,
      half the cross-section height less the gap plus diffuser_tol; and with
      the script's wall thickness the core is the channel plus both lips
      plus diffuser_tol wide. */
  lemma CoreDimensionsClosedForm(c: Constants, dt: real)
    ensures CoreDimensions(c, dt).ph1 == -c.tolerance / 2.0 - c.diffuserGap
    ensures CoreDimensions(c, dt).h2 == CsHeight(c) / 2.0 - c.diffuserGap + c.diffuserTol
    ensures CoreDimensions(c, dt).ph2 ==
      -c.tolerance / 2.0 - c.diffuserGap - CoreDimensions(c, dt).h2
    ensures dt == c.diffuserThickness ==>
      CoreDimensions(c, dt).w1 == c.width + 2.0 * c.lipThickness + c.diffuserTol
  {
  }

  /** diffuser_core: down the left side, an arc through (0, -h2 - curve)
      to the bottom-right corner, up the right side, then close(). */
  function DiffuserCore(c: Constants, dt: real): Profile {
    var d := CoreDimensions(c, dt);
    Profile(Point(-d.w1 / 2.0, d.ph1), [
      Line(Point(0.0, -d.h2)),
      ThreePointArc(Point(0.0, -d.h2 - c.diffuserCurve), Point(d.w1 / 2.0, d.ph2)),
      Line(Point(0.0, d.h2))])
  }

  /** The core is a symmetric channel: vertical sides of length h2 at
      u = -w1/2 and u = w1/2, the arc joining their bottom ends, the last
      vertex the mirror image of the start, and close() a horizontal segment
      of length w1 across the top. */
  lemma DiffuserCoreShape(c: Constants, dt: real)
    ensures var d := CoreDimensions(c, dt);
      Vertices(DiffuserCore(c, dt)) == [
        Point(-d.w1 / 2.0, d.ph1), Point(-d.w1 / 2.0, d.ph2),
        Point(d.w1 / 2.0, d.ph2), Point(d.w1 / 2.0, d.ph1)]
    ensures End(DiffuserCore(c, dt)) == Mirror(DiffuserCore(c, dt).start)
    ensures ClosingSegment(DiffuserCore(c, dt)) == Point(-CoreDimensions(c, dt).w1, 0.0)
  {
    var p := DiffuserCore(c, dt);
    PathStep(p.start, p.segments, 0);
    PathStep(p.start, p.segments, 1);
    PathStep(p.start, p.segments, 2);
  }

  /** The arc's given mid point lies on the axis u = 0, halfway between its
      end points, and curve - tolerance/2 - gap below the bottom corners:
      the mid point is absolute, so the sag is not diffuser_curve itself. For
      the script's constants the sag is 2.395, so the bottom bulges down. */
  lemma DiffuserArcSag(c: Constants, dt: real)
    ensures var d := CoreDimensions(c, dt);
      var arc := DiffuserCore(c, dt).segments[1];
      arc.ThreePointArc? &&
      arc.mid.x == 0.0 &&
      arc.mid.x == (Vertices(DiffuserCore(c, dt))[1].x + arc.endPoint.x) / 2.0 &&
      d.ph2 - arc.mid.y == c.diffuserCurve - c.tolerance / 2.0 - c.diffuserGap
    ensures CoreDimensions(Lamp, Lamp.diffuserThickness).ph2
      - DiffuserCore(Lamp, Lamp.diffuserThickness).segments[1].mid.y == 2.395
  {
    DiffuserCoreShape(c, dt);
    CoreDimensionsClosedForm(c, dt);
    CoreDimensionsClosedForm(Lamp, Lamp.diffuserThickness);
  }

  /** A rectangle drawn by rect(xLen, yLen, centered=False) at `corner`:
      the corner, then the other three corners counter-clockwise. */
  function CornerRect(corner: Point, xLen: real, yLen: real): Profile {
    Profile(corner, [
      Line(Point(xLen, 0.0)),
      Line(Point(0.0, yLen)),
      Line(Point(-xLen, 0.0)),
      Line(Point(0.0, -yLen))])
  }

  /** cutout_cap */
  function CutoutCap(c: Constants, dt: real): Profile {
    var d := CoreDimensions(c, dt);
    CornerRect(Point(-d.w1 / 2.0 - dt * 1.1, d.ph1 - c.tolerance),
               d.w1 + 2.0 * dt * 1.1, dt * 1.1)
  }

  /** The cap is a closed rectangle symmetric about u = 0, reaching 1.1 wall
      thicknesses beyond each side of the core, whose bottom edge lies one
      tolerance below the core's top edge; when 1.1 wall thicknesses exceed
      the tolerance its top edge lies above it, so the cap straddles the
      core's open top. */
  lemma CutoutCapShape(c: Constants, dt: real)
    ensures var d := CoreDimensions(c, dt);
      Vertices(CutoutCap(c, dt)) == [
        Point(-d.w1 / 2.0 - 1.1 * dt, d.ph1 - c.tolerance),
        Point(d.w1 / 2.0 + 1.1 * dt, d.ph1 - c.tolerance),
        Point(d.w1 / 2.0 + 1.1 * dt, d.ph1 - c.tolerance + 1.1 * dt),
        Point(-d.w1 / 2.0 - 1.1 * dt, d.ph1 - c.tolerance + 1.1 * dt),
        Point(-d.w1 / 2.0 - 1.1 * dt, d.ph1 - c.tolerance)]
    ensures End(CutoutCap(c, dt)) == CutoutCap(c, dt).start
    ensures Mirror(Vertices(CutoutCap(c, dt))[0]) == Vertices(CutoutCap(c, dt))[1]
    ensures c.tolerance > 0.0 ==> Vertices(CutoutCap(c, dt))[0].y < CoreDimensions(c, dt).ph1
    ensures dt * 1.1 > c.tolerance ==>
      Vertices(CutoutCap(c, dt))[2].y > CoreDimensions(c, dt).ph1
  {
    var p := CutoutCap(c, dt);
    PathStep(p.start, p.segments, 0);
    PathStep(p.start, p.segments, 1);
    PathStep(p.start, p.segments, 2);
    PathStep(p.start, p.segments, 3);
  }
}
