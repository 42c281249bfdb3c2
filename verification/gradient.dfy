/** The `<linearGradient>` renderer's entry point (`CreateColor`): it gathers
    the padded stops, the spread method, the resolved gradient vector and the
    placement transform, and hands them, with the margin-inflated bounding
    box and the canvas transform, to the gradient builder. Without a bounding
    box there is nothing to paint and no colour is produced. */
module LinearGradient {
  import opened Wrappers
  import opened Geometry
  import opened Stops
  import opened Coordinates
  import opened Placement

  datatype SpreadMethod = Pad | Repeat | Reflect

  /** A parsed `<linearGradient>` element: its stop children, its endpoint
      attributes, its `gradientUnits` (true for objectBoundingBox), its
      `gradientTransform` and its `spreadMethod`. */
  datatype LinearGradientElement = LinearGradientElement(
    children: seq<StopNode>,
    attributes: VectorAttributes,
    objectBoundingBoxUnits: bool,
    gradientTransform: Option<Affine>,
    spreadMethod: SpreadMethod)

  /** What the draw context supplies: the current viewport and canvas transform. */
  datatype DrawContext = DrawContext(viewport: Rect, canvasTransform: Affine)

  /** Everything the gradient builder is given to build the colour from. */
  datatype BuilderInput = BuilderInput(
    stops: seq<ColorStop>,
    spreadMethod: SpreadMethod,
    vector: GradientVector,
    transform: Affine,
    box: Rect,
    margin: real,
    canvasTransform: Affine)

  method CreateColor(g: LinearGradientElement, context: DrawContext, objectBoundingBox: Option<Rect>,
                     objectBoundingBoxMargin: real, parentOpacity: real)
    returns (r: Option<BuilderInput>)
    ensures objectBoundingBox.None? <==> r.None?
    ensures r.Some? ==>
      && r.value.stops == PadBoundaries(Declared(g.children))
      && r.value.spreadMethod == g.spreadMethod
      && r.value.vector == GetCoordinates(g.attributes, g.objectBoundingBoxUnits, context.viewport)
      && r.value.transform == GradientTransformToUserSpaceOnUse(objectBoundingBox.value, g.objectBoundingBoxUnits,
                                                                g.gradientTransform)
      && r.value.box == objectBoundingBox.value
      && r.value.margin == objectBoundingBoxMargin
      && r.value.canvasTransform == context.canvasTransform
  {
    if objectBoundingBox.None? {
      return None;
    }
    var stops := ParseStops(g.children, parentOpacity);
    var isObjectBoundingBox := g.objectBoundingBoxUnits;
    var coordinates := GetCoordinates(g.attributes, isObjectBoundingBox, context.viewport);
    var transform := GradientTransformToUserSpaceOnUse(objectBoundingBox.value, isObjectBoundingBox, g.gradientTransform);
    r := Some(BuilderInput(stops, g.spreadMethod, coordinates, transform,
                           objectBoundingBox.value, objectBoundingBoxMargin, context.canvasTransform));
  }

  /** In object-bounding-box mode without a gradient transform, the resolved
      vector, once placed, joins the points of the box at the fractions the
      attributes denote: the pre-scale of the coordinates and the counter-scale
      of the placement cancel end to end. */
  lemma PlacedVectorFollowsBoxFractions(attrs: VectorAttributes, box: Rect, viewport: Rect)
    ensures var v := GetCoordinates(attrs, true, viewport);
            var t := GradientTransformToUserSpaceOnUse(box, true, None);
            && Apply(t, v.start) == Point(box.x + BoxFraction(attrs.x1, 0.0) * box.width,
                                          box.y + BoxFraction(attrs.y1, 0.0) * box.height)
            && Apply(t, v.end) == Point(box.x + BoxFraction(attrs.x2, 1.0) * box.width,
                                        box.y + BoxFraction(attrs.y2, 0.0) * box.height)
  {
    BoxPlacementRealisesFractions(box, BoxFraction(attrs.x1, 0.0), BoxFraction(attrs.y1, 0.0));
    BoxPlacementRealisesFractions(box, BoxFraction(attrs.x2, 1.0), BoxFraction(attrs.y2, 0.0));
  }

  /** With no endpoint attributes and no gradient transform, an
      object-bounding-box gradient runs along the box's edge at its origin,
      from the origin across the full width. */
  lemma DefaultBoxVectorSpansBoxWidth(box: Rect, viewport: Rect)
    ensures var v := GetCoordinates(VectorAttributes(Absent, Absent, Absent, Absent), true, viewport);
            var t := GradientTransformToUserSpaceOnUse(box, true, None);
            && Apply(t, v.start) == Point(box.x, box.y)
            && Apply(t, v.end) == Point(box.x + box.width, box.y)
  {
    PlacedVectorFollowsBoxFractions(VectorAttributes(Absent, Absent, Absent, Absent), box, viewport);
  }

  /** In user-space-on-use mode without a gradient transform, the resolved
      vector is used as it is: the placement is the identity. */
  lemma UserSpaceVectorIsUnplaced(attrs: VectorAttributes, box: Rect, viewport: Rect)
    ensures var v := GetCoordinates(attrs, false, viewport);
            var t := GradientTransformToUserSpaceOnUse(box, false, None);
            Apply(t, v.start) == v.start && Apply(t, v.end) == v.end
  {
  }
}
