/** Resolution of the `x1`, `y1`, `x2`, `y2` attributes of a linear gradient
    into the start and end points of its gradient vector, in either of the
    two coordinate systems of SVG 1.1 section 13.2.2 (`gradientUnits`).

    The CSS length grammar is a collaborator: an attribute is given here by
    what that grammar reports for its text, once as read in object-bounding-box
    mode and once as a parsed length for user-space-on-use mode. */
module Coordinates {
  import opened Wrappers
  import opened Geometry

  /** What the CSS utilities report for an attribute value when asked whether
      it is a percentage, or a numeric, metric or relative value. */
  datatype BoxReading =
    | Percentage(percent: real)
      // a numeric, metric or relative value: where its unit starts, and the
      // numeral written before that position
    | Dimension(unitsPosition: int, numeral: real)
    | Unrecognised

  datatype UnitType = Points | Percent

  /** A length parsed to points (or left as a percentage). */
  datatype UnitValue = UnitValue(unitType: UnitType, value: real)

  /** An attribute of the gradient element: absent, or present with the two
      readings of its text that the CSS utilities give. */
  datatype Attribute =
    | Absent
    | Present(asBox: BoxReading, asLength: Option<UnitValue>)

  /** The fixed pre-scale of object-bounding-box coordinates; the placement
      transform divides the box extent by the same factor. */
  const PreScale: real := 0.75

  /** The fraction of the bounding box an attribute denotes in
      object-bounding-box units: a percentage of the whole box, or the
      numeral of a number whatever its unit, or else the attribute's default. */
  function BoxFraction(a: Attribute, default: real): real {
    match a
    case Absent => default
    case Present(Percentage(p), _) => p / 100.0
    case Present(Dimension(pos, n), _) => if pos > 0 then n else default
    case Present(Unrecognised, _) => default
  }

  /** `GetCoordinateForObjectBoundingBox`. */
  function CoordinateForObjectBoundingBox(a: Attribute, default: real): (r: real)
    ensures r == PreScale * BoxFraction(a, default)
    ensures a.Absent? ==> r == PreScale * default
  {
    var absolute :=
      if a.Present? && a.asBox.Percentage? then a.asBox.percent / 100.0
      else if a.Present? && a.asBox.Dimension? && a.asBox.unitsPosition > 0 then a.asBox.numeral
      else default;
    absolute * PreScale
  }

  /** The length an attribute parses to in user-space-on-use mode, if any. */
  function ParsedLength(a: Attribute): Option<UnitValue> {
    if a.Present? then a.asLength else None
  }

  /** `GetCoordinateForUserSpaceOnUse`: a percentage is taken along the axis
      that starts at `start` and is `length` long; another length is used as
      it is; a value that does not parse gives the default. */
  function CoordinateForUserSpaceOnUse(a: Attribute, default: real, start: real, length: real): (r: real)
    ensures ParsedLength(a).None? ==> r == default
    ensures ParsedLength(a).Some? && ParsedLength(a).value.unitType == Percent ==>
              r - start == length * (ParsedLength(a).value.value / 100.0)
    ensures ParsedLength(a).Some? && ParsedLength(a).value.unitType == Points ==>
              r == ParsedLength(a).value.value
  {
    var unitValue := ParsedLength(a);
    if unitValue.None? then default
    else if unitValue.value.unitType == Percent then start + (length * unitValue.value.value / 100.0)
    else unitValue.value.value
  }

  /** The four endpoint attributes of a gradient. */
  datatype VectorAttributes = VectorAttributes(x1: Attribute, y1: Attribute, x2: Attribute, y2: Attribute)

  /** The gradient vector, from `start` to `end`. */
  datatype GradientVector = GradientVector(start: Point, end: Point)

  /** `GetCoordinates`: the defaults are a horizontal vector across the unit
      box in object-bounding-box mode and across the viewport otherwise. */
  function GetCoordinates(attrs: VectorAttributes, isObjectBoundingBox: bool, viewport: Rect): (v: GradientVector)
    ensures isObjectBoundingBox ==>
      && v.start == Point(PreScale * BoxFraction(attrs.x1, 0.0), PreScale * BoxFraction(attrs.y1, 0.0))
      && v.end == Point(PreScale * BoxFraction(attrs.x2, 1.0), PreScale * BoxFraction(attrs.y2, 0.0))
    ensures !isObjectBoundingBox ==>
      && v.start.x == CoordinateForUserSpaceOnUse(attrs.x1, viewport.x, viewport.x, viewport.width)
      && v.start.y == CoordinateForUserSpaceOnUse(attrs.y1, viewport.y, viewport.y, viewport.height)
      && v.end.x == CoordinateForUserSpaceOnUse(attrs.x2, viewport.x + viewport.width, viewport.x, viewport.width)
      && v.end.y == CoordinateForUserSpaceOnUse(attrs.y2, viewport.y, viewport.y, viewport.height)
  {
    if isObjectBoundingBox then
      GradientVector(
        Point(CoordinateForObjectBoundingBox(attrs.x1, 0.0), CoordinateForObjectBoundingBox(attrs.y1, 0.0)),
        Point(CoordinateForObjectBoundingBox(attrs.x2, 1.0), CoordinateForObjectBoundingBox(attrs.y2, 0.0)))
    else
      var x := viewport.x;
      var y := viewport.y;
      var width := viewport.width;
      var height := viewport.height;
      GradientVector(
        Point(CoordinateForUserSpaceOnUse(attrs.x1, x, x, width), CoordinateForUserSpaceOnUse(attrs.y1, y, y, height)),
        Point(CoordinateForUserSpaceOnUse(attrs.x2, x + width, x, width), CoordinateForUserSpaceOnUse(attrs.y2, y, y, height)))
  }

  /** With none of the four attributes given, object-bounding-box mode runs
      from (0, 0) to (0.75, 0): the whole box width, pre-scaled. */
  lemma BoxDefaultsWhenAbsent(viewport: Rect)
    ensures GetCoordinates(VectorAttributes(Absent, Absent, Absent, Absent), true, viewport)
            == GradientVector(Point(0.0, 0.0), Point(0.75, 0.0))
  {
  }

  /** With none of the four attributes given, user-space-on-use mode runs
      along the top edge of the viewport from its left to its right side. */
  lemma UserSpaceDefaultsWhenAbsent(viewport: Rect)
    ensures GetCoordinates(VectorAttributes(Absent, Absent, Absent, Absent), false, viewport)
            == GradientVector(Point(viewport.x, viewport.y), Point(viewport.x + viewport.width, viewport.y))
  {
  }

  /** A percentage in user-space-on-use mode is a position along the viewport
      axis: 0% is its start, 100% its end, and x is measured against the
      width while y is measured against the height. This holds for both
      endpoints, whatever the attribute's object-bounding-box reading is. */
  lemma UserSpacePercentageSpansViewport(attrs: VectorAttributes, viewport: Rect,
                                         px1: real, py1: real, px2: real, py2: real)
    requires ParsedLength(attrs.x1) == Some(UnitValue(Percent, px1))
    requires ParsedLength(attrs.y1) == Some(UnitValue(Percent, py1))
    requires ParsedLength(attrs.x2) == Some(UnitValue(Percent, px2))
    requires ParsedLength(attrs.y2) == Some(UnitValue(Percent, py2))
    ensures var v := GetCoordinates(attrs, false, viewport);
            && v.start == Point(viewport.x + px1 / 100.0 * viewport.width, viewport.y + py1 / 100.0 * viewport.height)
            && v.end == Point(viewport.x + px2 / 100.0 * viewport.width, viewport.y + py2 / 100.0 * viewport.height)
    ensures px1 == 0.0 && py1 == 0.0 ==> GetCoordinates(attrs, false, viewport).start == Point(viewport.x, viewport.y)
    ensures px2 == 100.0 && py2 == 100.0 ==> GetCoordinates(attrs, false, viewport).end
                                             == Point(viewport.x + viewport.width, viewport.y + viewport.height)
  {
  }
}
