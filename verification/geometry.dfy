/** Points, rectangles and 2x3 affine matrices over exact reals.

    The matrix follows the `AffineTransform` convention the renderer relies on:
    a point (x, y) maps to (m00*x + m01*y + m02, m10*x + m11*y + m12);
    `Translate` and `Scale` post-multiply, so the new step acts on points
    BEFORE everything already in the matrix; and `a.Concatenate(b)` is the
    product a*b, so `b` is applied to points first. */
module Geometry {

  datatype Point = Point(x: real, y: real)

  /** A rectangle by its lower-left corner and its extent. */
  datatype Rect = Rect(x: real, y: real, width: real, height: real)

  datatype Affine = Affine(m00: real, m10: real, m01: real, m11: real, m02: real, m12: real)

  function Identity(): Affine {
    Affine(1.0, 0.0, 0.0, 1.0, 0.0, 0.0)
  }

  function TranslateInstance(tx: real, ty: real): Affine {
    Affine(1.0, 0.0, 0.0, 1.0, tx, ty)
  }

  /** The image of point `p` under `t`. */
  function Apply(t: Affine, p: Point): Point {
    Point(t.m00 * p.x + t.m01 * p.y + t.m02, t.m10 * p.x + t.m11 * p.y + t.m12)
  }

  /** `a.Concatenate(b)`: the matrix product a*b. */
  function Concatenate(a: Affine, b: Affine): Affine {
    Affine(a.m00 * b.m00 + a.m01 * b.m10,
           a.m10 * b.m00 + a.m11 * b.m10,
           a.m00 * b.m01 + a.m01 * b.m11,
           a.m10 * b.m01 + a.m11 * b.m11,
           a.m00 * b.m02 + a.m01 * b.m12 + a.m02,
           a.m10 * b.m02 + a.m11 * b.m12 + a.m12)
  }

  /** `a.Translate(tx, ty)`, written as the in-place update of the translation column. */
  function Translate(a: Affine, tx: real, ty: real): Affine {
    a.(m02 := tx * a.m00 + ty * a.m01 + a.m02,
       m12 := tx * a.m10 + ty * a.m11 + a.m12)
  }

  /** `a.Scale(sx, sy)`, written as the in-place update of the linear part. */
  function Scale(a: Affine, sx: real, sy: real): Affine {
    a.(m00 := a.m00 * sx, m10 := a.m10 * sx, m01 := a.m01 * sy, m11 := a.m11 * sy)
  }

  /** Concatenation is composition of the point maps, right operand first. */
  lemma ConcatenateApplies(a: Affine, b: Affine, p: Point)
    ensures Apply(Concatenate(a, b), p) == Apply(a, Apply(b, p))
  {
    var q := Apply(b, p);
    calc {
      Apply(a, q).x;
      a.m00 * (b.m00 * p.x + b.m01 * p.y + b.m02) + a.m01 * (b.m10 * p.x + b.m11 * p.y + b.m12) + a.m02;
      (a.m00 * b.m00 + a.m01 * b.m10) * p.x + (a.m00 * b.m01 + a.m01 * b.m11) * p.y
        + (a.m00 * b.m02 + a.m01 * b.m12 + a.m02);
      Apply(Concatenate(a, b), p).x;
    }
    calc {
      Apply(a, q).y;
      a.m10 * (b.m00 * p.x + b.m01 * p.y + b.m02) + a.m11 * (b.m10 * p.x + b.m11 * p.y + b.m12) + a.m12;
      (a.m10 * b.m00 + a.m11 * b.m10) * p.x + (a.m10 * b.m01 + a.m11 * b.m11) * p.y
        + (a.m10 * b.m02 + a.m11 * b.m12 + a.m12);
      Apply(Concatenate(a, b), p).y;
    }
  }

  /** Translating a matrix shifts points before the old matrix sees them. */
  lemma TranslateApplies(a: Affine, tx: real, ty: real, p: Point)
    ensures Apply(Translate(a, tx, ty), p) == Apply(a, Point(p.x + tx, p.y + ty))
  {
  }

  /** Scaling a matrix stretches points before the old matrix sees them. */
  lemma ScaleApplies(a: Affine, sx: real, sy: real, p: Point)
    ensures Apply(Scale(a, sx, sy), p) == Apply(a, Point(sx * p.x, sy * p.y))
  {
  }
}
