/** The cross-sections of the lamp shell drawn with a cursor on the "XZ"
    workplane at the spiral's start: the shell wall (lamp.py, lines 65-81),
    the void swept near the tail end (lines 84-107) and the trim cut from
    the diffuser (lines 241-246). */
module CrossSections {
  import opened Plane
  import opened Sketch
  import opened Design

  /** main_cross_section: twelve relative lines from the top-left corner. */
  function MainCrossSection(c: Constants): Profile {
    var w, h, e := CsWidth(c), CsHeight(c), EdgeHeight(c);
    Profile(Point(-w / 2.0, h / 2.0), [
      Line(Point(w, 0.0)),
      Line(Point(0.0, -e)),
      Line(Point(-c.diffuserThickness, 0.0)),
      Line(Point(0.0, -(h - e))),
      Line(Point(-c.lipThickness, 0.0)),
      Line(Point(0.0, c.lipDepth)),
      Line(Point(-c.width, 0.0)),
      Line(Point(0.0, -c.lipDepth)),
      Line(Point(-c.lipThickness, 0.0)),
      Line(Point(0.0, h - e)),
      Line(Point(-c.diffuserThickness, 0.0)),
      Line(Point(0.0, e))])
  }

  /** The shell wall drawn in absolute coordinates: the full-width top, the
      outer walls stepping in by the diffuser thickness at mid height, the
      lips at the bottom and the recess of lip depth between them. */
  function MainOutline(c: Constants): seq<Point> {
    var hw, hh := CsWidth(c) / 2.0, CsHeight(c) / 2.0;
    var dt, cw := c.diffuserThickness, c.width / 2.0;
    [ Point(-hw, hh), Point(hw, hh), Point(hw, 0.0), Point(hw - dt, 0.0),
      Point(hw - dt, -hh), Point(cw, -hh), Point(cw, -hh + c.lipDepth),
      Point(-cw, -hh + c.lipDepth), Point(-cw, -hh), Point(-hw + dt, -hh),
      Point(-hw + dt, 0.0), Point(-hw, 0.0), Point(-hw, hh) ]
  }

  /** The cursor chain of main_cross_section visits exactly the outline. */
  lemma MainCrossSectionOutline(c: Constants)
    ensures Vertices(MainCrossSection(c)) == MainOutline(c)
  {
    var p := MainCrossSection(c);
    var s := p.segments;
    PathStep(p.start, s, 0); PathStep(p.start, s, 1); PathStep(p.start, s, 2);
    PathStep(p.start, s, 3); PathStep(p.start, s, 4); PathStep(p.start, s, 5);
    PathStep(p.start, s, 6); PathStep(p.start, s, 7); PathStep(p.start, s, 8);
    PathStep(p.start, s, 9); PathStep(p.start, s, 10); PathStep(p.start, s, 11);
  }

  /** The twelve offsets sum to zero: the cursor is back at the top-left
      corner when close() is called, so close() adds no length. */
  lemma MainCrossSectionCloses(c: Constants)
    ensures End(MainCrossSection(c)) == MainCrossSection(c).start
    ensures ClosingSegment(MainCrossSection(c)) == Origin
    ensures SumOffsets(MainCrossSection(c).segments) == Origin
  {
    MainCrossSectionOutline(c);
    LineProfileCloses(MainCrossSection(c));
  }

  /** Every vertex of the outline lies in the cs_width by cs_height box
      centred on the workplane origin. */
  lemma MainOutlineInBox(c: Constants, i: nat)
    requires NonNegative(c)
    requires i < |MainOutline(c)|
    ensures -CsWidth(c) / 2.0 <= MainOutline(c)[i].x <= CsWidth(c) / 2.0
    ensures -CsHeight(c) / 2.0 <= MainOutline(c)[i].y <= CsHeight(c) / 2.0
  {
    var hw, hh := CsWidth(c) / 2.0, CsHeight(c) / 2.0;
    assert 0.0 <= c.width / 2.0 <= hw - c.diffuserThickness <= hw;
    assert -hh <= -hh + c.lipDepth <= hh;
  }

  /** The profile spans exactly cs_width across and cs_height up: every
      vertex lies in the box [-cs_width/2, cs_width/2] x [-cs_height/2,
      cs_height/2] and vertices lie on each of its four sides. */
  lemma MainCrossSectionExtent(c: Constants)
    requires NonNegative(c)
    ensures forall i :: 0 <= i < |Vertices(MainCrossSection(c))| ==>
      -CsWidth(c) / 2.0 <= Vertices(MainCrossSection(c))[i].x <= CsWidth(c) / 2.0 &&
      -CsHeight(c) / 2.0 <= Vertices(MainCrossSection(c))[i].y <= CsHeight(c) / 2.0
    ensures Vertices(MainCrossSection(c))[0] == Point(-CsWidth(c) / 2.0, CsHeight(c) / 2.0)
    ensures Vertices(MainCrossSection(c))[1].x == CsWidth(c) / 2.0
    ensures Vertices(MainCrossSection(c))[4].y == -CsHeight(c) / 2.0
  {
    MainCrossSectionOutline(c);
    var o := MainOutline(c);
    forall i | 0 <= i < |o|
      ensures -CsWidth(c) / 2.0 <= o[i].x <= CsWidth(c) / 2.0
      ensures -CsHeight(c) / 2.0 <= o[i].y <= CsHeight(c) / 2.0
    {
      MainOutlineInBox(c, i);
    }
  }

  /** Because edge_height is half of cs_height, the outer step and the
      inner corners beside it lie on v = 0. */
  lemma MainCrossSectionStepAtMidHeight(c: Constants)
    ensures Vertices(MainCrossSection(c))[2].y == 0.0
    ensures Vertices(MainCrossSection(c))[3].y == 0.0
    ensures Vertices(MainCrossSection(c))[10].y == 0.0
    ensures Vertices(MainCrossSection(c))[11].y == 0.0
  {
    MainCrossSectionOutline(c);
  }

  /** The outline's vertex i and vertex 13 - i are mirror images about u = 0. */
  lemma MainOutlineMirror(c: Constants, i: nat)
    requires 1 <= i <= 12
    ensures Mirror(MainOutline(c)[i]) == MainOutline(c)[13 - i]
  {
    var o := MainOutline(c);
    if i <= 6 {
      assert i == 1 || i == 2 || i == 3 || i == 4 || i == 5 || i == 6;
    } else {
      assert i == 7 || i == 8 || i == 9 || i == 10 || i == 11 || i == 12;
    }
  }

  /** The shell wall is symmetric about u = 0: vertex i and vertex 13 - i
      are mirror images (and the start mirrors vertex 1), so the vertex set
      is closed under mirroring. */
  lemma MainCrossSectionSymmetric(c: Constants)
    ensures forall i :: 1 <= i <= 12 ==>
      Mirror(Vertices(MainCrossSection(c))[i]) == Vertices(MainCrossSection(c))[13 - i]
    ensures Mirror(Vertices(MainCrossSection(c))[0]) == Vertices(MainCrossSection(c))[1]
  {
    MainCrossSectionOutline(c);
    var o := MainOutline(c);
    forall i | 1 <= i <= 12 ensures Mirror(o[i]) == o[13 - i] {
      MainOutlineMirror(c, i);
    }
  }

  /** neg_cross_section_short_len and neg_cross_section_long_len. */
  function NegShortLen(c: Constants, xs: real): real {
    xs + c.lipThickness + c.width / 2.0
  }

  function NegLongLen(c: Constants, xs: real): real {
    NegShortLen(c, xs) + c.width
  }

  /** neg_cross_section, with xs the start point's x coordinate. */
  function NegCrossSection(c: Constants, xs: real): Profile {
    var w, h, e := CsWidth(c), CsHeight(c), EdgeHeight(c);
    var long := NegLongLen(c, xs);
    Profile(Point(-w / 2.0, h / 2.0), [
      Line(Point(w, 0.0)),
      Line(Point(0.0, -e)),
      Line(Point(-c.diffuserThickness, 0.0)),
      Line(Point(0.0, -(h - e))),
      Line(Point(-c.lipThickness, 0.0)),
      Line(Point(0.0, c.lipDepth)),
      Line(Point(-c.width, 0.0)),
      Line(Point(0.0, -c.lipDepth)),
      Line(Point(-c.lipThickness, 0.0)),
      Line(Point(0.0, c.lipDepth)),
      Line(Point(-xs, 0.0)),
      Line(Point(0.0, -c.depth)),
      Line(Point(long + c.width, 0.0)),
      Line(Point(0.0, c.depth * 3.0)),
      Line(Point(-long - c.width, 0.0)),
      Line(Point(0.0, -c.depth))])
  }

  /** The void starts like the shell wall: the same start point and the same
      first nine segments, hence the same first ten vertices. */
  lemma NegSharesMainPrefix(c: Constants, xs: real)
    ensures NegCrossSection(c, xs).start == MainCrossSection(c).start
    ensures NegCrossSection(c, xs).segments[..9] == MainCrossSection(c).segments[..9]
    ensures Vertices(NegCrossSection(c, xs))[..10] == Vertices(MainCrossSection(c))[..10]
  {
    var n, m := NegCrossSection(c, xs), MainCrossSection(c);
    assert n.segments[..9] == m.segments[..9];
    PathPrefix(n.start, n.segments, m.segments, 9);
  }

  /** The tail of the void: the two long horizontal lines cancel and the three
      verticals net +depth, so the cursor ends at
      (-cs_width/2 + diffuser_thickness - xs, cs_height/2 - tolerance) and
      close() runs (xs - diffuser_thickness, tolerance) back to the start. */
  lemma NegCrossSectionEnd(c: Constants, xs: real)
    ensures var s := NegCrossSection(c, xs).segments;
      s[12].offset.y == 0.0 && s[14].offset.y == 0.0 &&
      s[12].offset.x + s[14].offset.x == 0.0 &&
      s[11].offset.x == 0.0 && s[13].offset.x == 0.0 && s[15].offset.x == 0.0 &&
      s[11].offset.y + s[13].offset.y + s[15].offset.y == c.depth
    ensures End(NegCrossSection(c, xs)) ==
      Point(-CsWidth(c) / 2.0 + c.diffuserThickness - xs, CsHeight(c) / 2.0 - c.tolerance)
    ensures ClosingSegment(NegCrossSection(c, xs)) == Point(xs - c.diffuserThickness, c.tolerance)
  {
    var p := NegCrossSection(c, xs);
    var s := p.segments;
    PathStep(p.start, s, 0); PathStep(p.start, s, 1); PathStep(p.start, s, 2);
    PathStep(p.start, s, 3); PathStep(p.start, s, 4); PathStep(p.start, s, 5);
    PathStep(p.start, s, 6); PathStep(p.start, s, 7); PathStep(p.start, s, 8);
    PathStep(p.start, s, 9); PathStep(p.start, s, 10); PathStep(p.start, s, 11);
    PathStep(p.start, s, 12); PathStep(p.start, s, 13); PathStep(p.start, s, 14);
    PathStep(p.start, s, 15);
  }

  /** trim: three lines from the shell's top-left corner, then close(). */
  function TrimCrossSection(c: Constants): Profile {
    var w, h := CsWidth(c), CsHeight(c);
    Profile(Point(-w / 2.0, h / 2.0), [
      Line(Point(w - c.diffuserThickness - c.diffuserTol, 0.0)),
      Line(Point(0.0, -c.depth - c.diffuserTol)),
      Line(Point(-c.width * 2.0, 0.0))])
  }

  /** The trim starts at the shell's top-left corner and runs along its top
      edge to diffuser_tol short of the inner face x = cs_width/2 -
      diffuser_thickness of the shell's stepped wall, drops depth +
      diffuser_tol, runs back twice the channel width, and close() joins the
      quadrilateral. */
  lemma TrimCrossSectionShape(c: Constants)
    ensures Vertices(TrimCrossSection(c))[0] == Vertices(MainCrossSection(c))[0]
    ensures Vertices(TrimCrossSection(c))[1] ==
      Point(Vertices(MainCrossSection(c))[3].x - c.diffuserTol, CsHeight(c) / 2.0)
    ensures Vertices(TrimCrossSection(c))[2] ==
      Point(CsWidth(c) / 2.0 - c.diffuserThickness - c.diffuserTol,
            CsHeight(c) / 2.0 - c.depth - c.diffuserTol)
    ensures End(TrimCrossSection(c)) ==
      Point(CsWidth(c) / 2.0 - c.diffuserThickness - c.diffuserTol - 2.0 * c.width,
            CsHeight(c) / 2.0 - c.depth - c.diffuserTol)
    ensures ClosingSegment(TrimCrossSection(c)) ==
      Point(c.width - 2.0 * c.lipThickness - c.diffuserThickness + c.diffuserTol,
            c.depth + c.diffuserTol)
  {
    MainCrossSectionOutline(c);
    var p := TrimCrossSection(c);
    PathStep(p.start, p.segments, 0);
    PathStep(p.start, p.segments, 1);
    PathStep(p.start, p.segments, 2);
  }
}
