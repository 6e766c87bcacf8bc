/** The design constants of the lamp (lamp.py, lines 7-24) and the
    cross-section dimensions derived from them (lines 61-63). All lengths are
    millimetres; every generated shape is a function of these values. */
module Design {

  datatype Constants = Constants(
    width: real,              // inner width of the channel between the lips
    depth: real,
    diffuserThickness: real,
    lipThickness: real,
    lipDepth: real,
    minRadius: real,
    radiusScale: real,
    zScale: real,
    holeDia: real,
    tolerance: real,
    diffuserTol: real,
    diffuserGap: real,
    diffuserDepth: real,
    diffuserCurve: real,
    loops: real)

  /** The values the script is run with. */
  const Lamp := Constants(
    26.0, 8.0, 1.6, 1.0, 1.0, 30.0, 75.0, 75.0, 6.0,
    0.01, 0.1, 0.6, 3.0, 3.0,
    3.0)

  /** Every length and count of the design is positive. */
  predicate Positive(c: Constants) {
    c.width > 0.0 && c.depth > 0.0 && c.diffuserThickness > 0.0 &&
    c.lipThickness > 0.0 && c.lipDepth > 0.0 && c.minRadius > 0.0 &&
    c.radiusScale > 0.0 && c.zScale > 0.0 && c.holeDia > 0.0 &&
    c.tolerance > 0.0 && c.diffuserTol > 0.0 && c.diffuserGap > 0.0 &&
    c.diffuserDepth > 0.0 && c.diffuserCurve > 0.0 && c.loops > 0.0
  }

  /** The lengths the cross-section profiles are built from are not negative. */
  predicate NonNegative(c: Constants) {
    c.width >= 0.0 && c.depth >= 0.0 && c.diffuserThickness >= 0.0 &&
    c.lipThickness >= 0.0 && c.lipDepth >= 0.0 && c.tolerance >= 0.0
  }

  /** cs_width: the two lips, the two diffuser walls and the channel. */
  function CsWidth(c: Constants): real {
    c.lipThickness * 2.0 + c.diffuserThickness * 2.0 + c.width
  }

  /** cs_height */
  function CsHeight(c: Constants): real {
    c.depth + c.lipDepth + c.tolerance
  }

  /** edge_height: where the outer step of the main profile sits. */
  function EdgeHeight(c: Constants): real {
    CsHeight(c) / 2.0
  }

  /** The script's constants are all positive and give a 31.2 by 9.01
      cross-section whose step sits half way up. */
  lemma LampDimensions()
    ensures Positive(Lamp)
    ensures CsWidth(Lamp) == 31.2 && CsHeight(Lamp) == 9.01 && EdgeHeight(Lamp) == 4.505
  {
  }
}
