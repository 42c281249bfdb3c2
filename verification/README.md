# Linear gradient resolution of the iText SVG renderer, in Dafny

This project models how iText's `<linearGradient>` renderer
(`LinearGradientSvgNodeRenderer`) turns a gradient element and the bounding
box of the shape being painted into the inputs of its gradient builder.
It covers four parts:

- **Stop normalisation** (`ParseStops`). The `<stop>` children become colour
  stops in document order. A synthetic stop at offset 0 is put in front when
  the first offset is above 0, and a synthetic stop at offset 1 is put after
  when the last offset is below 1. Nothing is sorted, clamped or removed.
- **Coordinate resolution.** `x1`, `y1`, `x2` and `y2` are resolved in
  object-bounding-box units (`GetCoordinateForObjectBoundingBox`) or in
  user-space-on-use units (`GetCoordinateForUserSpaceOnUse`). `GetCoordinates`
  supplies the defaults of each mode.
- **Placement** (`GetGradientTransformToUserSpaceOnUse`). In
  object-bounding-box mode the matrix translates to the box origin and scales
  by the box extent divided by 0.75. The element's `gradientTransform` is then
  concatenated, so it acts on points first.
- **The entry point** (`CreateColor`). It hands nothing to the builder
  without a bounding box, and otherwise assembles the builder's inputs.

This is based on the gradient-vector rules of SVG 1.1 section 13.2.2 and the
stop rules of section 13.2.4, with two differences:
- Section 13.2.4 raises a stop offset that is below an earlier one to the
  largest earlier offset. The renderer passes offsets through unsorted and
  unadjusted.
- In object-bounding-box mode the renderer keeps the numeral of a value with
  a unit and drops the unit. This follows one browser's behaviour, not the
  standard.

All coordinates, offsets and matrix entries are exact
`real`s, so the 0.75 pre-scale and the division by 0.75 cancel exactly.

The CSS length grammar is a collaborator. An attribute is given as `Absent`,
or as `Present` with the two answers that grammar gives for its text:
- a `BoxReading`: a percentage, or a numeric/metric/relative value with the
  position where its unit starts and its numeral, or unrecognised;
- a parsed length (`Option<UnitValue>`, in points or percent).

Each mode reads only its own answer. `AffineTransform` is a 2×3 matrix. A
point (x, y) maps to (m00·x + m01·y + m02, m10·x + m11·y + m12).
`a.Concatenate(b)` is the product a·b, so `b` applies first. `Translate` and
`Scale` post-multiply in the same way.

Files: `wrappers.dfy` (Option), `geometry.dfy` (points, rectangles, matrices),
`stops.dfy`, `coordinates.dfy`, `placement.dfy`, `gradient.dfy`.

Two consequences of the renderer's code are worth stating:
- The renderer never clamps stop offsets. A padded list therefore starts at an
  offset ≤ 0 and ends at one ≥ 1 (`Stops.PaddedEndsReachBoundaries`). It runs
  exactly from 0 to 1 when every declared offset lies in [0, 1].
- The renderer tests only for a null bounding box. Any zero-area test belongs
  to the builder, which is not modelled.

## Model

| member | source | states |
|---|---|---|
| Geometry.ConcatenateApplies | itext/itext.svg/itext/svg/renderers/impl/LinearGradientSvgNodeRenderer.cs:82-85 | the concatenated matrix maps a point as the left matrix applied to the right matrix's image, so the right operand applies first |
| Geometry.TranslateApplies | itext/itext.svg/itext/svg/renderers/impl/LinearGradientSvgNodeRenderer.cs:71 | translating a matrix shifts points by (tx, ty) before the old matrix maps them |
| Geometry.ScaleApplies | itext/itext.svg/itext/svg/renderers/impl/LinearGradientSvgNodeRenderer.cs:80 | scaling a matrix stretches points by (sx, sy) before the old matrix maps them |
| Stops.Declared | itext/itext.svg/itext/svg/renderers/impl/LinearGradientSvgNodeRenderer.cs:48-53 | the declared list has exactly one stop per stop child, in document order: stop i carries child i's colour and offset |
| Stops.PadBoundaries | itext/itext.svg/itext/svg/renderers/impl/LinearGradientSvgNodeRenderer.cs:54-64 | empty in, empty out; otherwise the declared stops are kept unchanged and in order as one contiguous block; the result is 0 to 2 stops longer; a stop is added in front exactly when the first offset is above 0, with that stop's colour at offset 0; a stop is added at the end exactly when the last offset is below 1, with that stop's colour at offset 1 |
| Stops.ParseStops | itext/itext.svg/itext/svg/renderers/impl/LinearGradientSvgNodeRenderer.cs:45-65 | each child becomes one stop with its colour and offset, in document order, followed by the boundary padding; no children give an empty list; the result does not depend on the parent opacity |
| Stops.PaddedEndsReachBoundaries | itext/itext.svg/itext/svg/renderers/impl/LinearGradientSvgNodeRenderer.cs:55-62 | for any non-empty list the padded list starts at an offset ≤ 0 and ends at an offset ≥ 1 |
| Stops.PaddedEndsAreZeroAndOne | itext/itext.svg/itext/svg/renderers/impl/LinearGradientSvgNodeRenderer.cs:55-62 | if every declared offset lies in [0, 1], the padded list starts at offset 0 and ends at offset 1 |
| Stops.PadBoundariesIdempotent | itext/itext.svg/itext/svg/renderers/impl/LinearGradientSvgNodeRenderer.cs:54-63 | padding an already padded list leaves it unchanged |
| Coordinates.CoordinateForObjectBoundingBox | itext/itext.svg/itext/svg/renderers/impl/LinearGradientSvgNodeRenderer.cs:112-142 | the coordinate is 0.75 times the box fraction the attribute denotes: percent/100 for a percentage, else the numeral for a numeric, metric or relative value whose unit position is positive, else the default; an absent attribute gives 0.75 times the default |
| Coordinates.CoordinateForUserSpaceOnUse | itext/itext.svg/itext/svg/renderers/impl/LinearGradientSvgNodeRenderer.cs:144-163 | a value that does not parse gives the default; a percentage lies that fraction of the axis length past the axis start; any other length gives its parsed value |
| Coordinates.GetCoordinates | itext/itext.svg/itext/svg/renderers/impl/LinearGradientSvgNodeRenderer.cs:89-110 | in box mode the defaults of x1, y1, x2, y2 are 0, 0, 1, 0; in user-space mode they are the viewport's x, y, x + width and y; x is resolved against the width and y against the height |
| Coordinates.BoxDefaultsWhenAbsent | itext/itext.svg/itext/svg/renderers/impl/LinearGradientSvgNodeRenderer.cs:92-96 | in box mode with no attributes the vector runs from (0, 0) to (0.75, 0) |
| Coordinates.UserSpaceDefaultsWhenAbsent | itext/itext.svg/itext/svg/renderers/impl/LinearGradientSvgNodeRenderer.cs:99-107 | in user-space mode with no attributes the vector runs from (vx, vy) to (vx + vw, vy) |
| Coordinates.UserSpacePercentageSpansViewport | itext/itext.svg/itext/svg/renderers/impl/LinearGradientSvgNodeRenderer.cs:155-157 | whenever all four attributes parse as percentages, each with its own value, start and end points are measured from the viewport origin, x against its width and y against its height, whatever their box-mode reading; 0% is the origin and 100% the far corner |
| Placement.GradientTransformToUserSpaceOnUse | itext/itext.svg/itext/svg/renderers/impl/LinearGradientSvgNodeRenderer.cs:67-87 | in user-space mode the matrix is the identity without a gradient transform, and exactly the gradient transform with one |
| Placement.BoxPlacementRealisesFractions | itext/itext.svg/itext/svg/renderers/impl/LinearGradientSvgNodeRenderer.cs:69-81 | in box mode without a gradient transform, the point (0.75·fx, 0.75·fy) goes to (bx + fx·bw, by + fy·bh): the pre-scale and the counter-scale cancel |
| Placement.BoxPlacementCorners | itext/itext.svg/itext/svg/renderers/impl/LinearGradientSvgNodeRenderer.cs:72-80 | the origin goes to the box origin and (0.75, 0.75) to the opposite corner of the box |
| Placement.GradientTransformAppliesFirst | itext/itext.svg/itext/svg/renderers/impl/LinearGradientSvgNodeRenderer.cs:82-85 | in either mode the gradient transform acts on points before the box placement |
| Placement.TranslateShiftsByWholeBoxes | itext/itext.svg/itext/svg/renderers/impl/LinearGradientSvgNodeRenderer.cs:72-84 | in box mode a gradient transform translate(0.75·dx, 0.75·dy) shifts every point by dx box widths and dy box heights |
| Placement.UnitTranslateShiftsByOneBoxWidth | itext/itext.svg/itext/svg/renderers/impl/LinearGradientSvgNodeRenderer.cs:74-79 | translate(1, 0), parsed as a translation by 0.75, moves the ramp by exactly one box width |
| LinearGradient.CreateColor | itext/itext.svg/itext/svg/renderers/impl/LinearGradientSvgNodeRenderer.cs:17-36 | no builder input exactly when the bounding box is null; otherwise the builder gets the padded stops, the spread method, the resolved vector, the placement transform, the box with its margin and the canvas transform; nothing depends on the parent opacity |
| LinearGradient.PlacedVectorFollowsBoxFractions | itext/itext.svg/itext/svg/renderers/impl/LinearGradientSvgNodeRenderer.cs:138-141 | in box mode without a gradient transform, the placed start and end points are the points of the box at the fractions the attributes denote |
| LinearGradient.DefaultBoxVectorSpansBoxWidth | itext/itext.svg/itext/svg/renderers/impl/LinearGradientSvgNodeRenderer.cs:93-96 | in box mode with no attributes and no gradient transform, the placed vector runs from the box origin across the full box width |
| LinearGradient.UserSpaceVectorIsUnplaced | itext/itext.svg/itext/svg/renderers/impl/LinearGradientSvgNodeRenderer.cs:69-86 | in user-space mode without a gradient transform, the resolved vector is used unmoved |

## Left out

- `LinearGradientBuilder.BuildColor`: not modelled. This covers spread-method semantics (pad, repeat, reflect), zero-length vectors, colour interpolation and the use of the canvas transform. The builder's code is not part of this model. `CreateColor` stops at the builder's inputs.
- LinearGradient.CreateColor: the model stops at the builder's inputs. The colour the renderer returns is whatever `BuildColor` makes of them; when it gives no colour (for example with no stops) is not modelled.
- `Rectangle.ApplyMargins`: not modelled. The box and its margin are passed on separately, because `Rectangle` is not part of this model.
- The CSS length grammar: not modelled. This includes `IsPercentageValue`, `IsNumericValue`, `IsMetricValue`, `IsRelativeValue`, `DeterminePositionBetweenValueAndUnit`, `ParseRelativeValue`, `ParseDouble` and `ParseLengthValueToPt` with its fixed 12pt font bases. Its answers are inputs: the `BoxReading` and the parsed `UnitValue`.
- A failing `ParseDouble` in box mode (a null `.Value`, which would throw): not modelled. The `Dimension` reading always carries a numeral, because the model assumes that the numeral before a positive unit position always parses.
- Attribute lookup, the stop children, `IsObjectBoundingBoxUnits`, `GetGradientTransform` and `ParseSpreadMethod`: these are collaborators in the base renderer. Their results are fields of `LinearGradientElement`.
- Stop opacity and the internals of `GradientColorStop` (offset type, hints): not modelled. Opacity is unsupported by the renderer, and the parent opacity is ignored. The stop's constructors are not part of this model.
- `CreateDeepCopy`, the draw context and the node tree: not modelled. They are cloning and traversal infrastructure with no gradient logic.
- Single- and double-precision arithmetic: all values are exact reals. Rounding, NaN offsets and the inexact division by 0.75 are not modelled.
- `LicenseVersionException`: exception-message plumbing with no logic to verify.
