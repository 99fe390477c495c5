/**
 * Bitmaps reduced to their pixel dimensions, and the rescaling the engine
 * applies to every loaded variant when the drawing surface changes size.
 * Only the dimensions of Bitmap.createScaledBitmap's result are modelled;
 * float arithmetic is idealised as real arithmetic.
 */
module Bitmaps {
  import JavaArith

  /** A bitmap, as far as the engine looks at it: its width and height in pixels. */
  datatype Bitmap = Bitmap(width: int, height: int)

  /**
   * scaleBitmap: the target size is the current size times the factor, each
   * dimension cast back to int; a bitmap that already has the target size is
   * returned as it is, any other is replaced by one of the target size.
   */
  function ScaleBitmap(b: Bitmap, scale: real): (r: Bitmap)
    ensures r.width == JavaArith.FloatToInt(b.width as real * scale)
    ensures r.height == JavaArith.FloatToInt(b.height as real * scale)
  {
    var width := JavaArith.FloatToInt(b.width as real * scale);
    var height := JavaArith.FloatToInt(b.height as real * scale);
    if b.width != width || b.height != height then Bitmap(width, height) else b
  }

  /** What scaleBitmaps leaves in a variant array: each element scaled by the same factor. */
  function ScaledVariants(s: seq<Bitmap>, scale: real): (r: seq<Bitmap>)
    ensures |r| == |s|
    ensures forall i :: 0 <= i < |s| ==>
              r[i].width == JavaArith.FloatToInt(s[i].width as real * scale) &&
              r[i].height == JavaArith.FloatToInt(s[i].height as real * scale)
  {
    seq(|s|, i requires 0 <= i < |s| => ScaleBitmap(s[i], scale))
  }

  /**
   * A factor of one changes nothing: every dimension is an integer already,
   * so truncating it gives it back.
   */
  lemma ScaleByOne(b: Bitmap)
    ensures ScaleBitmap(b, 1.0) == b
  {
  }

  /** Scaling a whole variant array by one leaves the array's contents as they were. */
  lemma ScaledVariantsByOne(s: seq<Bitmap>)
    ensures ScaledVariants(s, 1.0) == s
  {
  }

  /**
   * The factor the engine derives from a surface width, surface width over the
   * bitmap's own width, brings that bitmap exactly to the surface width when
   * the arithmetic is exact (32-bit float rounding can leave it one short).
   */
  lemma ScaleToWidth(b: Bitmap, surfaceWidth: int)
    requires b.width > 0
    ensures (surfaceWidth as real / b.width as real) * b.width as real == surfaceWidth as real
    ensures ScaleBitmap(b, surfaceWidth as real / b.width as real).width == surfaceWidth
    ensures b.width == surfaceWidth ==> surfaceWidth as real / b.width as real == 1.0
  {
  }

  /**
   * Rescaling is cumulative: a bitmap rescaled for one surface and then for
   * another does not end at the size a single scaling of the loaded bitmap
   * would give. Loaded background 2 wide and face 3 wide; a 3-pixel surface
   * scales by 3/2 (face 4), then a 2-pixel surface scales by 2/3 of the
   * current background (face 2), where the loaded face scaled by 2/2 is 3.
   */
  lemma RescaleIsCumulative()
    ensures ScaleBitmap(Bitmap(2, 2), 3.0 / 2.0) == Bitmap(3, 3)
    ensures ScaleBitmap(Bitmap(3, 3), 3.0 / 2.0) == Bitmap(4, 4)
    ensures ScaleBitmap(Bitmap(4, 4), 2.0 / 3.0) == Bitmap(2, 2)
    ensures ScaleBitmap(Bitmap(3, 3), 2.0 / 2.0) == Bitmap(3, 3)
  {
  }
}
