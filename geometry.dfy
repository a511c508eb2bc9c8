/**
 * CoreGraphics geometry over the reals: points, sizes and affine transforms,
 * with CoreGraphics' conventions for composing transforms.
 */
module Geometry {

  datatype Point = Point(x: real, y: real)

  datatype Size = Size(width: real, height: real)

  /**
   * A CGAffineTransform [a b c d tx ty]. CoreGraphics multiplies row vectors,
   * so a point (x, y) is sent to (a*x + c*y + tx, b*x + d*y + ty).
   */
  datatype Affine = Affine(a: real, b: real, c: real, d: real, tx: real, ty: real)

  /** CGPointApplyAffineTransform */
  function Apply(t: Affine, p: Point): Point {
    Point(t.a * p.x + t.c * p.y + t.tx, t.b * p.x + t.d * p.y + t.ty)
  }

  /** CGAffineTransform.identity */
  const Identity: Affine := Affine(1.0, 0.0, 0.0, 1.0, 0.0, 0.0)

  lemma IdentityFixesEveryPoint(p: Point)
    ensures Apply(Identity, p) == p
  {
  }

  /** CGAffineTransform(translationX:y:) */
  function Translation(tx: real, ty: real): (t: Affine)
    ensures forall p {:trigger Apply(t, p)} :: Apply(t, p) == Point(p.x + tx, p.y + ty)
  {
    Affine(1.0, 0.0, 0.0, 1.0, tx, ty)
  }

  /** CGAffineTransform(scaleX:y:) */
  function Scale(sx: real, sy: real): (t: Affine)
    ensures forall p {:trigger Apply(t, p)} :: Apply(t, p) == Point(sx * p.x, sy * p.y)
  {
    Affine(sx, 0.0, 0.0, sy, 0.0, 0.0)
  }

  /**
   * CGAffineTransform(rotationAngle:), given the cosine and the sine of the
   * angle: the trigonometry itself belongs to the caller.
   */
  function Rotation(cos: real, sin: real): (t: Affine)
    ensures forall p {:trigger Apply(t, p)} :: Apply(t, p) == Point(cos * p.x - sin * p.y, sin * p.x + cos * p.y)
  {
    Affine(cos, sin, -sin, cos, 0.0, 0.0)
  }

  /**
   * CGAffineTransformConcat(t1, t2): the transform that applies t1 first and
   * t2 second.
   */
  function Concat(t1: Affine, t2: Affine): (t: Affine)
    ensures forall p {:trigger Apply(t, p)} :: Apply(t, p) == Apply(t2, Apply(t1, p))
  {
    ProductApplies(t1, t2);
    Product(t1, t2)
  }

  /** The row-vector matrix product t1 * t2. */
  function Product(t1: Affine, t2: Affine): Affine {
    Affine(t1.a * t2.a + t1.b * t2.c,
           t1.a * t2.b + t1.b * t2.d,
           t1.c * t2.a + t1.d * t2.c,
           t1.c * t2.b + t1.d * t2.d,
           t1.tx * t2.a + t1.ty * t2.c + t2.tx,
           t1.tx * t2.b + t1.ty * t2.d + t2.ty)
  }

  lemma ProductApplies(t1: Affine, t2: Affine)
    ensures forall p {:trigger Apply(Product(t1, t2), p)} :: Apply(Product(t1, t2), p) == Apply(t2, Apply(t1, p))
  {
    forall p: Point
      ensures Apply(Product(t1, t2), p) == Apply(t2, Apply(t1, p))
    {
      var q := Apply(t1, p);
      var r := Product(t1, t2);
      assert r.a * p.x == t2.a * t1.a * p.x + t2.c * t1.b * p.x;
      assert r.c * p.y == t2.a * t1.c * p.y + t2.c * t1.d * p.y;
      assert r.b * p.x == t2.b * t1.a * p.x + t2.d * t1.b * p.x;
      assert r.d * p.y == t2.b * t1.c * p.y + t2.d * t1.d * p.y;
      assert t2.a * q.x == t2.a * t1.a * p.x + t2.a * t1.c * p.y + t2.a * t1.tx;
      assert t2.c * q.y == t2.c * t1.b * p.x + t2.c * t1.d * p.y + t2.c * t1.ty;
      assert t2.b * q.x == t2.b * t1.a * p.x + t2.b * t1.c * p.y + t2.b * t1.tx;
      assert t2.d * q.y == t2.d * t1.b * p.x + t2.d * t1.d * p.y + t2.d * t1.ty;
    }
  }

  /** `t.scaledBy(x:y:)`: the scaling is applied before t. */
  function ScaledBy(t: Affine, sx: real, sy: real): (r: Affine)
    ensures forall p {:trigger Apply(r, p)} :: Apply(r, p) == Apply(t, Point(sx * p.x, sy * p.y))
  {
    ApplyBefore(Scale(sx, sy), t);
    Concat(Scale(sx, sy), t)
  }

  /** `t.translatedBy(x:y:)`: the translation is applied before t. */
  function TranslatedBy(t: Affine, tx: real, ty: real): (r: Affine)
    ensures forall p {:trigger Apply(r, p)} :: Apply(r, p) == Apply(t, Point(p.x + tx, p.y + ty))
  {
    ApplyBefore(Translation(tx, ty), t);
    Concat(Translation(tx, ty), t)
  }

  /** Concat(s, t) sends each point to t's image of s's image, point by point. */
  lemma ApplyBefore(s: Affine, t: Affine)
    ensures forall p {:trigger Apply(Concat(s, t), p)} :: Apply(Concat(s, t), p) == Apply(t, Apply(s, p))
  {
    forall p: Point
      ensures Apply(Concat(s, t), p) == Apply(t, Apply(s, p))
    {
      var q := Apply(s, p);
      assert Apply(Concat(s, t), p) == Apply(t, q);
    }
  }

  /** Two transforms that agree on (0,0), (1,0) and (0,1) are the same transform. */
  lemma ExtensionalEquality(t1: Affine, t2: Affine)
    requires Apply(t1, Point(0.0, 0.0)) == Apply(t2, Point(0.0, 0.0))
    requires Apply(t1, Point(1.0, 0.0)) == Apply(t2, Point(1.0, 0.0))
    requires Apply(t1, Point(0.0, 1.0)) == Apply(t2, Point(0.0, 1.0))
    ensures t1 == t2
  {
  }

  /** Squared distance of a point from the origin. */
  function Norm2(p: Point): real {
    p.x * p.x + p.y * p.y
  }
}
