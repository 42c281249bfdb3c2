/** The transform from gradient-vector space to the user space of the painted
    shape (`GetGradientTransformToUserSpaceOnUse`).

    In object-bounding-box mode the matrix first places the box: translate to
    its origin, then scale by its extent divided by the 0.75 pre-scale of the
    resolved coordinates, so that the pre-scaled unit square (0.75 x 0.75)
    covers the box exactly. The gradient's own `gradientTransform` is
    concatenated last, so it acts on points first, in the box-local
    pre-scaled system; a translation by 0.75 there (how `translate(1, 0)`
    reads once lengths are parsed) moves by one whole box width. */
module Placement {
  import opened Wrappers
  import opened Geometry
  import opened Coordinates

  function GradientTransformToUserSpaceOnUse(box: Rect, isObjectBoundingBox: bool,
                                            gradientTransform: Option<Affine>): (t: Affine)
    ensures !isObjectBoundingBox && gradientTransform.None? ==> t == Identity()
    ensures !isObjectBoundingBox && gradientTransform.Some? ==> t == gradientTransform.value
  {
    var placed :=
      if isObjectBoundingBox then
        Scale(Translate(Identity(), box.x, box.y), box.width / PreScale, box.height / PreScale)
      else Identity();
    if gradientTransform.Some? then Concatenate(placed, gradientTransform.value) else placed
  }

  /** Without an explicit transform, the object-bounding-box placement maps the
      pre-scaled point of fractions (fx, fy) to the point that lies those
      fractions across the box: the 0.75 pre-scale and the division by 0.75
      cancel. In particular the origin goes to the box origin and
      (0.75, 0.75) to the opposite corner. */
  lemma BoxPlacementRealisesFractions(box: Rect, fx: real, fy: real)
    ensures Apply(GradientTransformToUserSpaceOnUse(box, true, None), Point(PreScale * fx, PreScale * fy))
            == Point(box.x + fx * box.width, box.y + fy * box.height)
  {
    var sx, sy := box.width / PreScale, box.height / PreScale;
    var p := Point(PreScale * fx, PreScale * fy);
    var translated := Translate(Identity(), box.x, box.y);
    ScaleApplies(translated, sx, sy, p);
    TranslateApplies(Identity(), box.x, box.y, Point(sx * p.x, sy * p.y));
    assert sx * p.x == fx * box.width;
    assert sy * p.y == fy * box.height;
  }

  /** The corners of the pre-scaled unit square land on the box's corners. */
  lemma BoxPlacementCorners(box: Rect)
    ensures var t := GradientTransformToUserSpaceOnUse(box, true, None);
            && Apply(t, Point(0.0, 0.0)) == Point(box.x, box.y)
            && Apply(t, Point(0.75, 0.75)) == Point(box.x + box.width, box.y + box.height)
  {
    BoxPlacementRealisesFractions(box, 0.0, 0.0);
    BoxPlacementRealisesFractions(box, 1.0, 1.0);
  }

  /** The explicit gradient transform is applied to points before the
      placement, in either mode. */
  lemma GradientTransformAppliesFirst(box: Rect, isObjectBoundingBox: bool, g: Affine, p: Point)
    ensures Apply(GradientTransformToUserSpaceOnUse(box, isObjectBoundingBox, Some(g)), p)
            == Apply(GradientTransformToUserSpaceOnUse(box, isObjectBoundingBox, None), Apply(g, p))
  {
    ConcatenateApplies(GradientTransformToUserSpaceOnUse(box, isObjectBoundingBox, None), g, p);
  }

  /** In object-bounding-box mode, an explicit translation by (0.75*dx, 0.75*dy),
      which is `translate(dx, dy)` once lengths are parsed, shifts every
      point by dx box widths and dy box heights. */
  lemma TranslateShiftsByWholeBoxes(box: Rect, dx: real, dy: real, p: Point)
    ensures var shifted := GradientTransformToUserSpaceOnUse(box, true, Some(TranslateInstance(PreScale * dx, PreScale * dy)));
            var plain := GradientTransformToUserSpaceOnUse(box, true, None);
            Apply(shifted, p) == Point(Apply(plain, p).x + dx * box.width, Apply(plain, p).y + dy * box.height)
  {
    var g := TranslateInstance(PreScale * dx, PreScale * dy);
    var plain := GradientTransformToUserSpaceOnUse(box, true, None);
    GradientTransformAppliesFirst(box, true, g, p);
    var q := Apply(g, p);
    assert q == Point(p.x + PreScale * dx, p.y + PreScale * dy);
    var sx, sy := box.width / PreScale, box.height / PreScale;
    var translated := Translate(Identity(), box.x, box.y);
    ScaleApplies(translated, sx, sy, q);
    ScaleApplies(translated, sx, sy, p);
    TranslateApplies(Identity(), box.x, box.y, Point(sx * q.x, sy * q.y));
    TranslateApplies(Identity(), box.x, box.y, Point(sx * p.x, sy * p.y));
    assert sx * q.x == sx * p.x + dx * box.width;
    assert sy * q.y == sy * p.y + dy * box.height;
  }

  /** The headline case: `translate(1, 0)` moves the ramp by exactly one box width. */
  lemma UnitTranslateShiftsByOneBoxWidth(box: Rect, p: Point)
    ensures var shifted := GradientTransformToUserSpaceOnUse(box, true, Some(TranslateInstance(0.75, 0.0)));
            var plain := GradientTransformToUserSpaceOnUse(box, true, None);
            Apply(shifted, p) == Point(Apply(plain, p).x + box.width, Apply(plain, p).y)
  {
    TranslateShiftsByWholeBoxes(box, 1.0, 0.0, p);
  }
}
