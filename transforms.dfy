/**
 * The video compositions of Crop, Upscale, Rotate, Flip and ChangeCanvas:
 * one instruction over the whole asset whose single layer instruction sets
 * an affine transform on the first video track at time zero.
 */
module Transforms {
  import opened Geometry
  import opened Media
  import opened Timeline

  /**
   * An AVMutableVideoComposition as these features fill it: the render size,
   * the timescale of the frame duration 1/timescale, the time range of the one
   * instruction, and the transform of its one layer instruction.
   */
  datatype VideoComposition = VideoComposition(
    renderSize: Size,
    frameTimescale: int,
    instructionRange: TimeRange,
    transform: Affine)

  /** Swift's `Int32(x)` on a floating-point value: truncation toward zero. */
  function TruncateTowardZero(x: real): (n: int)
    ensures 0.0 <= x ==> 0 <= n && n as real <= x < n as real + 1.0
    ensures x < 0.0 ==> n <= 0 && n as real - 1.0 < x <= n as real
  {
    if 0.0 <= x then x.Floor else -((-x).Floor)
  }

  /**
   * The composition every one of these features builds around its transform:
   * frames at the track's nominal rate and one instruction covering the
   * whole asset.
   */
  function Frame(source: SourceInfo, video: VideoTrackInfo, renderSize: Size, transform: Affine): (vc: VideoComposition)
    ensures vc.instructionRange.start == 0.0 && vc.instructionRange.End() == source.duration
    ensures vc.renderSize == renderSize && vc.transform == transform
    ensures vc.frameTimescale == TruncateTowardZero(video.nominalFrameRate)
  {
    VideoComposition(renderSize, TruncateTowardZero(video.nominalFrameRate),
                     TimeRange(0.0, source.duration), transform)
  }

  // --- Crop -----------------------------------------------------------------

  /** Crop: render a w by h frame, shifting the chosen rectangle's corner to the origin. */
  function CropTransform(x: real, y: real): Affine {
    Translation(-x, -y)
  }

  function CropComposition(source: SourceInfo, video: VideoTrackInfo, x: real, y: real, w: real, h: real): VideoComposition {
    Frame(source, video, Size(w, h), CropTransform(x, y))
  }

  predicate InRect(p: Point, x: real, y: real, w: real, h: real) {
    x <= p.x <= x + w && y <= p.y <= y + h
  }

  /**
   * A source point lands inside the w by h output frame exactly when it lies
   * in the crop rectangle with corner (x, y); that corner becomes the origin.
   */
  lemma CropKeepsExactlyTheRectangle(source: SourceInfo, video: VideoTrackInfo,
                                     x: real, y: real, w: real, h: real, p: Point)
    ensures var vc := CropComposition(source, video, x, y, w, h);
      && vc.renderSize == Size(w, h)
      && Apply(vc.transform, Point(x, y)) == Point(0.0, 0.0)
      && (InRect(Apply(vc.transform, p), 0.0, 0.0, w, h) <==> InRect(p, x, y, w, h))
  {
  }

  // --- Upscale --------------------------------------------------------------

  /** Upscale: stretch each axis by the ratio of the requested size to the natural size. */
  function UpscaleTransform(natural: NaturalSize, width: real, height: real): Affine {
    Scale(width / natural.width, height / natural.height)
  }

  function UpscaleComposition(source: SourceInfo, video: VideoTrackInfo, width: real, height: real): VideoComposition {
    Frame(source, video, Size(width, height), UpscaleTransform(video.naturalSize, width, height))
  }

  /**
   * The natural frame's origin stays put and its far corner goes to the
   * corner of the requested render size; for a positive requested size every
   * point of the natural frame lands in the output frame and vice versa.
   */
  lemma UpscaleFillsTheFrame(source: SourceInfo, video: VideoTrackInfo, width: real, height: real, p: Point)
    requires width > 0.0 && height > 0.0
    ensures var vc := UpscaleComposition(source, video, width, height);
      var n := video.naturalSize;
      && vc.renderSize == Size(width, height)
      && Apply(vc.transform, Point(0.0, 0.0)) == Point(0.0, 0.0)
      && Apply(vc.transform, Point(n.width, n.height)) == Point(width, height)
      && (InRect(p, 0.0, 0.0, n.width, n.height) <==> InRect(Apply(vc.transform, p), 0.0, 0.0, width, height))
  {
    var n := video.naturalSize;
    var sx, sy := width / n.width, height / n.height;
    var t := UpscaleTransform(n, width, height);
    assert Apply(t, p) == Point(sx * p.x, sy * p.y);
    assert Apply(t, Point(n.width, n.height)) == Point(sx * n.width, sy * n.height);
    assert sx * n.width == width && sy * n.height == height;
    PositiveFactorBetween(sx, p.x, n.width);
    PositiveFactorBetween(sy, p.y, n.height);
  }

  /** Multiplying by a positive factor keeps a value within [0, bound] scaled accordingly. */
  lemma PositiveFactorBetween(s: real, v: real, bound: real)
    requires s > 0.0
    ensures 0.0 <= v <= bound <==> 0.0 <= s * v <= s * bound
  {
    PositiveFactorKeepsSign(s, v);
    PositiveFactorKeepsSign(s, bound - v);
    assert s * (bound - v) == s * bound - s * v;
  }

  lemma PositiveFactorKeepsSign(s: real, z: real)
    requires s > 0.0
    ensures 0.0 <= z <==> 0.0 <= s * z
  {
    if z < 0.0 {
      assert s * -z > 0.0;
    }
  }

  // --- Rotate ---------------------------------------------------------------

  /** Rotate: the natural render size and a rotation about the origin. */
  function RotateComposition(source: SourceInfo, video: VideoTrackInfo, cos: real, sin: real): VideoComposition {
    Frame(source, video, video.naturalSize, Rotation(cos, sin))
  }

  /**
   * The rotation keeps the render size and the origin, and when cos and sin
   * belong to one angle (cos^2 + sin^2 == 1) it keeps every point's distance
   * from the origin.
   */
  lemma RotateIsRigid(source: SourceInfo, video: VideoTrackInfo, cos: real, sin: real, p: Point)
    requires cos * cos + sin * sin == 1.0
    ensures var vc := RotateComposition(source, video, cos, sin);
      && vc.renderSize == video.naturalSize
      && Apply(vc.transform, Point(0.0, 0.0)) == Point(0.0, 0.0)
      && Norm2(Apply(vc.transform, p)) == Norm2(p)
  {
    var x, y := p.x, p.y;
    var q := Apply(Rotation(cos, sin), p);
    assert q == Point(cos * x - sin * y, sin * x + cos * y);
    assert (cos * x - sin * y) * (cos * x - sin * y)
        == cos * cos * (x * x) - 2.0 * (cos * sin * x * y) + sin * sin * (y * y);
    assert (sin * x + cos * y) * (sin * x + cos * y)
        == sin * sin * (x * x) + 2.0 * (cos * sin * x * y) + cos * cos * (y * y);
    assert Norm2(q) == (cos * cos + sin * sin) * (x * x) + (cos * cos + sin * sin) * (y * y);
  }

  // --- Flip -----------------------------------------------------------------

  /** Where Flip sends a point of a w by h frame. */
  function Mirrored(horizontal: bool, vertical: bool, w: real, h: real, p: Point): Point {
    Point(if horizontal then w - p.x else p.x, if vertical then h - p.y else p.y)
  }

  /** The transform Flip ends up with, in closed form. */
  function FlipTransformOf(horizontal: bool, vertical: bool, w: real, h: real): (t: Affine)
    ensures forall p :: Apply(t, p) == Mirrored(horizontal, vertical, w, h, p)
  {
    Affine(if horizontal then -1.0 else 1.0, 0.0, 0.0, if vertical then -1.0 else 1.0,
           if horizontal then w else 0.0, if vertical then h else 0.0)
  }

  /**
   * Flip's `var t`: starts at the identity and, for each requested axis,
   * mirrors it and shifts it back by the frame's extent along that axis.
   */
  method FlipTransform(horizontal: bool, vertical: bool, w: real, h: real) returns (t: Affine)
    ensures t == FlipTransformOf(horizontal, vertical, w, h)
  {
    t := Identity;
    if horizontal {
      MirrorXStep(t, w);
      t := TranslatedBy(ScaledBy(t, -1.0, 1.0), -w, 0.0);
    }
    if vertical {
      MirrorYStep(t, h);
      t := TranslatedBy(ScaledBy(t, 1.0, -1.0), 0.0, -h);
    }
  }

  /**
   * `t.scaledBy(x: -1, y: 1).translatedBy(x: -w, y: 0)` sends (x, y) to
   * where t sends (w - x, y).
   */
  lemma MirrorXStep(t: Affine, w: real)
    ensures TranslatedBy(ScaledBy(t, -1.0, 1.0), -w, 0.0)
         == Affine(-t.a, -t.b, t.c, t.d, t.a * w + t.tx, t.b * w + t.ty)
  {
    var r := TranslatedBy(ScaledBy(t, -1.0, 1.0), -w, 0.0);
    var m := Affine(-t.a, -t.b, t.c, t.d, t.a * w + t.tx, t.b * w + t.ty);
    assert Apply(r, Point(0.0, 0.0)) == Apply(t, Point(w, 0.0));
    assert Apply(r, Point(1.0, 0.0)) == Apply(t, Point(w - 1.0, 0.0));
    assert Apply(r, Point(0.0, 1.0)) == Apply(t, Point(w, 1.0));
    ExtensionalEquality(r, m);
  }

  /**
   * `t.scaledBy(x: 1, y: -1).translatedBy(x: 0, y: -h)` sends (x, y) to
   * where t sends (x, h - y).
   */
  lemma MirrorYStep(t: Affine, h: real)
    ensures TranslatedBy(ScaledBy(t, 1.0, -1.0), 0.0, -h)
         == Affine(t.a, t.b, -t.c, -t.d, t.c * h + t.tx, t.d * h + t.ty)
  {
    var r := TranslatedBy(ScaledBy(t, 1.0, -1.0), 0.0, -h);
    var m := Affine(t.a, t.b, -t.c, -t.d, t.c * h + t.tx, t.d * h + t.ty);
    assert Apply(r, Point(0.0, 0.0)) == Apply(t, Point(0.0, h));
    assert Apply(r, Point(1.0, 0.0)) == Apply(t, Point(1.0, h));
    assert Apply(r, Point(0.0, 1.0)) == Apply(t, Point(0.0, h - 1.0));
    ExtensionalEquality(r, m);
  }

  function FlipComposition(source: SourceInfo, video: VideoTrackInfo, horizontal: bool, vertical: bool): VideoComposition {
    var n := video.naturalSize;
    Frame(source, video, n, FlipTransformOf(horizontal, vertical, n.width, n.height))
  }

  /**
   * Flipping keeps the natural render size, maps the frame onto itself, and
   * flipping twice by the same transform gives back every point.
   */
  lemma FlipIsAnInvolutionOfTheFrame(source: SourceInfo, video: VideoTrackInfo,
                                     horizontal: bool, vertical: bool, p: Point)
    ensures var vc := FlipComposition(source, video, horizontal, vertical);
      var n := video.naturalSize;
      && vc.renderSize == n
      && Apply(vc.transform, Apply(vc.transform, p)) == p
      && (InRect(p, 0.0, 0.0, n.width, n.height) <==> InRect(Apply(vc.transform, p), 0.0, 0.0, n.width, n.height))
  {
  }

  /** Composing the flip with itself is the identity transform. */
  lemma FlipTwiceIsIdentity(horizontal: bool, vertical: bool, w: real, h: real)
    ensures Concat(FlipTransformOf(horizontal, vertical, w, h), FlipTransformOf(horizontal, vertical, w, h)) == Identity
  {
    var t := FlipTransformOf(horizontal, vertical, w, h);
    ExtensionalEquality(Concat(t, t), Identity);
  }

  /** Without either flag the transform is the identity. */
  lemma NoFlipIsIdentity(w: real, h: real)
    ensures FlipTransformOf(false, false, w, h) == Identity
  {
  }

  // --- ChangeCanvas ---------------------------------------------------------

  /** ChangeCanvas: a width by height canvas with the natural frame shifted to its centre. */
  function CanvasTransform(natural: NaturalSize, width: real, height: real): Affine {
    Translation((width - natural.width) / 2.0, (height - natural.height) / 2.0)
  }

  function CanvasComposition(source: SourceInfo, video: VideoTrackInfo, width: real, height: real): VideoComposition {
    Frame(source, video, Size(width, height), CanvasTransform(video.naturalSize, width, height))
  }

  /**
   * The centre of the natural frame goes to the centre of the canvas, sizes
   * are kept, and the margins left on opposite sides are equal.
   */
  lemma CanvasCentres(source: SourceInfo, video: VideoTrackInfo, width: real, height: real, p: Point)
    ensures var vc := CanvasComposition(source, video, width, height);
      var n := video.naturalSize;
      var lo := Apply(vc.transform, Point(0.0, 0.0));
      var hi := Apply(vc.transform, Point(n.width, n.height));
      && vc.renderSize == Size(width, height)
      && Apply(vc.transform, Point(n.width / 2.0, n.height / 2.0)) == Point(width / 2.0, height / 2.0)
      && hi.x - lo.x == n.width && hi.y - lo.y == n.height
      && lo.x == width - hi.x && lo.y == height - hi.y
      && Apply(vc.transform, p) == Point(p.x + (width - n.width) / 2.0, p.y + (height - n.height) / 2.0)
  {
  }
}
