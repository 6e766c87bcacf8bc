# Spiral lamp geometry — a Dafny model

`lamp.py` generates two solids with CadQuery: a lamp shell made by sweeping
a cross-section along an error-function spiral, and a diffuser insert that
fits into it. Nearly all of the script is calls into the CAD kernel. This
project models the parts that are ordinary logic:

- **The spiral centreline** (`Spiral`): `gen_spiral`/`eqn` and the boundary
  points `xs, ys, zs` and `xe, ye, ze`. Height and radius are both affine in
  `erf_out = -erf(2·s·t/l − s)`. erf, sin, cos and π are passed in as a
  `Transcendentals` record of function values. The lemmas assume only the
  laws in `Lawful`: erf is odd, strictly increasing and lies in (−1, 1);
  sin 0 = 0; cos 0 = 1; π > 0.
- **The cursor-built cross-sections** (`Sketch`, `CrossSections`,
  `Diffuser`). A profile is a start point (`moveTo`) followed by segments.
  Each `line(dx, dy)` moves the cursor by a relative offset. A
  `threePointArc(mid, end)` moves it to an absolute end point. `close()`
  joins the cursor back to the start. `Path` is the fold that gives the
  vertices. `Trace` is the step-by-step cursor loop, proved equal to that
  fold. For chains of lines, every vertex is the start plus a running
  prefix sum of the offsets.
  - The main shell profile, the void profile and the trim profile are
    modelled exactly.
  - So are the diffuser's dimensions, its core profile and its cutout cap.
    The core's arc is modelled only by its end points and its given mid
    point.
  - All of this is exact `real` arithmetic over the design constants
    (`Design`).
- **The two selectors** (`Selectors`): `ApproxParallelDirSelector.filter`
  and `MinLengthSelector.filter`. Each is a loop that classifies the
  shapes and appends the accepted ones to a list. Both are proved equal
  to an order-preserving filter (`Keep`). The inherited `self.test` is a
  predicate fixed when the selector is constructed.

The code, not the intuitive picture of the design, is followed on one point.
One would expect the coil to start at radius `minRadius + 2·radiusScale`
and tighten toward `minRadius` at the bottom. In the code, the erf argument
runs from −erf_stddev at t = 0 to +erf_stddev at the end. So the radius is
smallest at the start (the top) and grows toward the bottom.
`Spiral.StartHighAndNarrow` and `Spiral.EnvelopeMonotone` state this.

The void profile shares the shell profile's first nine segments
(lamp.py:90-98 repeat lamp.py:68-76); its tenth segment (line 99) rises by
`lip_depth` where the shell's rises by `cs_height − edge_height`.

Line 105 of lamp.py carries stray text after `.line(0, -depth)`; the model
reads that line as `.line(0, -depth)`. Line 183 names an undefined `obj`, so
the intended `ValueError` would surface as a `NameError`; the model records
either as the single outcome `Failure`.

## Model

| member | source | states |
|---|---|---|
| `Design.LampDimensions` | lamp.py:7-63 | the script's constants are positive and give cs_width 31.2, cs_height 9.01, edge_height 4.505 |
| `Spiral.Eqn` | lamp.py:34-47 | x and y are the radius times cos t and sin t, z is the height, and the radius is min_rad + rscale − (rscale/zscale)·z: radius is affine in height |
| `Spiral.ErfArgAffine` | lamp.py:41-43 | the erf argument equals 2·erf_stddev·t/l − erf_stddev with l = 2·loops·π ≠ 0 |
| `Spiral.ErfArgAtEnds` | lamp.py:41-56 | the erf argument is −erf_stddev at t = 0 and +erf_stddev at t = 2π·loops |
| `Spiral.EnvelopeBounds` | lamp.py:43-46 | with positive scales, min_rad < radius < min_rad + 2·rscale and −zscale < z < zscale for every t |
| `Spiral.StartPointOnAxis` | lamp.py:43-55 | the start point is (r(0), 0, zscale·erf(s)) on the +x axis, with r(0) = min_rad + rscale·(1 − erf(s)) |
| `Spiral.EndpointSymmetry` | lamp.py:43-56 | z(end) = −z(0) and r(0) + r(end) = 2·(min_rad + rscale) |
| `Spiral.StartHighAndNarrow` | lamp.py:43-56 | for a positive spread and positive scales, z(0) > 0 > z(end) and r(0) < min_rad + rscale < r(end) |
| `Spiral.ErfArgMonotone` | lamp.py:41-43 | for positive spread and loops the erf argument is non-decreasing in t, strictly increasing for distinct t |
| `Spiral.EnvelopeMonotone` | lamp.py:41-46 | for positive spread and loops, z is non-increasing and the radius non-decreasing in t, strictly so for positive scales |
| `Spiral.LampBoundaryPoints` | lamp.py:52-56 | with the script's constants xs, ys, zs = 105 − 75·erf(1.2), 0, 75·erf(1.2); ze = −zs; 30 < xs < 105 |
| `Sketch.Path` | lamp.py:67-80 | a chain of n segments visits n + 1 cursor positions, the first being the start |
| `Sketch.PathStep` | lamp.py:67-80 | each vertex is the previous one moved by the segment between them |
| `Sketch.PathPrefix` | lamp.py:89-98 | profiles that agree on their first n segments agree on their first n + 1 vertices |
| `Sketch.LinePathIsPrefixSum` | lamp.py:67-79 | vertex k of a chain of lines is the start plus the sum of the first k offsets |
| `Sketch.LineProfileCloses` | lamp.py:67-80 | close() adds minus the offset sum; the cursor is back at the start exactly when the offsets sum to zero |
| `Sketch.Trace` | lamp.py:66-80 | the step-by-step cursor loop records exactly the vertices of the fold, ending at the cursor close() starts from |
| `CrossSections.MainCrossSectionOutline` | lamp.py:65-80 | the main cursor chain visits the absolute outline: full-width top, walls stepped in by diffuser_thickness at mid height, lips and recess at the bottom |
| `CrossSections.MainCrossSectionCloses` | lamp.py:67-80 | the twelve offsets sum to (0, 0): the cursor returns to (−cs_width/2, cs_height/2) and close() adds nothing |
| `CrossSections.MainOutlineInBox` | lamp.py:61-79 | for non-negative constants every outline vertex lies within ±cs_width/2 across and ±cs_height/2 up |
| `CrossSections.MainCrossSectionExtent` | lamp.py:61-79 | every vertex lies in that box and vertices touch its left, right, top and bottom sides, so the profile spans exactly cs_width by cs_height |
| `CrossSections.MainCrossSectionStepAtMidHeight` | lamp.py:63-79 | since edge_height = cs_height/2 the outer steps lie on v = 0 |
| `CrossSections.MainCrossSectionSymmetric` | lamp.py:65-79 | vertex i mirrors vertex 13 − i about u = 0; the vertex set is closed under mirroring |
| `CrossSections.NegSharesMainPrefix` | lamp.py:87-98 | the void has the main profile's start and first nine segments, so their first ten vertices coincide |
| `CrossSections.NegCrossSectionEnd` | lamp.py:84-106 | the horizontals of lines 102 and 104 cancel, the verticals of lines 101, 103, 105 net +depth; the cursor ends at (−cs_width/2 + diffuser_thickness − xs, cs_height/2 − tolerance) and close() adds (xs − diffuser_thickness, tolerance) |
| `CrossSections.TrimCrossSectionShape` | lamp.py:241-246 | the trim starts at the shell's top-left corner, its top edge stops diffuser_tol short of the shell's stepped inner wall, and its four vertices and closing segment are given in closed form |
| `Diffuser.CoreDimensionsClosedForm` | lamp.py:205-209 | ph1 = −tolerance/2 − diffuser_gap, h2 = cs_height/2 − gap + diffuser_tol, ph2 = ph1 − h2; with the script's thickness w1 = width + 2·lip_thickness + diffuser_tol |
| `Diffuser.DiffuserCoreShape` | lamp.py:211-216 | the core's vertices are (∓w1/2, ph1), (∓w1/2, ph2): vertical sides of length h2, last vertex the mirror of the start, close() horizontal of length w1 |
| `Diffuser.DiffuserArcSag` | lamp.py:205-215 | the arc's mid point lies on u = 0 halfway between its ends and diffuser_curve − tolerance/2 − gap below them (2.395 for the script's constants) |
| `Diffuser.CutoutCapShape` | lamp.py:226-230 | the cap is a closed rectangle symmetric about u = 0, 1.1 wall thicknesses wider than the core on each side, straddling the core's top edge ph1 |
| `Selectors.TestVector` | lamp.py:148-158 | a shape has a test vector exactly when it is a planar face (its normal) or a LINE/BSPLINE edge (its tangent) |
| `Selectors.KeepAppend` | lamp.py:145-163 | filtering a concatenation filters each part in turn: input order is kept |
| `Selectors.KeepMembers` | lamp.py:145-163 | an element is in the result exactly when it is in the input and passes |
| `Selectors.KeepLength` | lamp.py:145-163 | the result is never longer than the input, and as long exactly when every element passes |
| `Selectors.KeepIdempotent` | lamp.py:145-163 | filtering the result again changes nothing |
| `Selectors.ParallelKeptMembers` | lamp.py:145-163 | accepted shapes are exactly the planar faces whose normal passes test and the LINE/BSPLINE edges whose tangent passes; no more than the input |
| `Selectors.MinLengthResultMembers` | lamp.py:178-193 | the filter fails exactly when some planar face occurs; otherwise it keeps exactly the LINE/BSPLINE edges longer than min_length |
| `Selectors.ApproxParallelDirSelector.Filter` | lamp.py:137-163 | the loop returns the order-preserving filter of the input by the test-vector rule, never longer than the input |
| `Selectors.MinLengthSelector.constructor` | lamp.py:167-168 | the selector stores min_length |
| `Selectors.MinLengthSelector.Filter` | lamp.py:170-193 | the loop fails at a planar face and otherwise returns the long LINE/BSPLINE edges in input order |

## Left out

- CAD-kernel operations have no visible behaviour here: `parametricCurve` sampling, `sweep`, `union`/`cut`, `fillet`, `offset2D` (the diffuser shell), `extrudeLinear`, `NearestToPointSelector`, the hole's `sketch().circle().extrude`, `rotate`, `exportStep` and `Assembly`.
- Placement of the "XZ" workplanes at (xs, ys, zs) in 3D is a kernel transform; profiles are modelled in workplane coordinates.
- Solid-level properties are not modelled: watertightness, volume, connectivity, the support block's `rect`/`extrude` and the lamp's through-hole.
- The numerics of `erf`, `sin`, `cos` and `np.pi` are abstracted by the laws in `Spiral.Lawful`, and floating-point rounding by exact `real` arithmetic.
- The curve of `threePointArc` between its end points is not modelled; only its end points and mid point are.
- `ParallelDirSelector.test` and its angular tolerance live in the library; the model takes the test as a given predicate.
- The discarded `rotate` at lamp.py:219 and the unused `offset_inner` parameter at lamp.py:202 have no effect on any result.
- `Spiral.Eqn` requires non-zero loops, spread and π, because `eqn` divides by `2·loops·π` and by `erf_stddev·2`. For those inputs the source fails with a division by zero; the model does not represent that failure.
- `Selectors.MinLengthSelector.Filter` does not distinguish the `NameError` that line 183 actually raises from the intended `ValueError`; both are `Failure`.
