/** Rectangles on a canvas and the centred fit of an aspect ratio into a canvas,
    the shape shared by the 'autofill' and 'cut' crop modes. All geometry is
    real-valued: PHP's floating-point divisions are modelled as exact ones. */
module Geometry {

  datatype Rect = Rect(x: real, y: real, width: real, height: real)

  /** The width, height and width/height ratio of an image or canvas. */
  datatype Descriptor = Descriptor(width: real, height: real, ratio: real)
  {
    predicate Positive() {
      width > 0.0 && height > 0.0 && ratio > 0.0
    }

    /** The ratio is the one its width and height give. */
    predicate Consistent() {
      ratio * height == width
    }
  }

  /** The whole of a width x height canvas. */
  function Full(width: real, height: real): Rect {
    Rect(0.0, 0.0, width, height)
  }

  /** The rectangle lies inside the width x height canvas. */
  predicate Within(r: Rect, width: real, height: real) {
    0.0 <= r.x && 0.0 <= r.y && r.x + r.width <= width && r.y + r.height <= height
  }

  /** The margins left and right are equal, and so are those above and below. */
  predicate Centred(r: Rect, width: real, height: real) {
    r.x == width - (r.x + r.width) && r.y == height - (r.y + r.height)
  }

  /** A non-empty rectangle whose width/height is ratio. */
  predicate HasRatio(r: Rect, ratio: real) {
    r.width > 0.0 && r.height > 0.0 && r.width == ratio * r.height
  }

  /** A rectangle of the given ratio, inside the canvas, centred in it, and
      touching it on at least one pair of opposite sides. */
  predicate IsFit(r: Rect, width: real, height: real, ratio: real) {
    Within(r, width, height) && Centred(r, width, height) && HasRatio(r, ratio) && (r.x == 0.0 || r.y == 0.0)
  }

  /** A centred rectangle with no left margin spans the whole width. */
  lemma NoMarginFillsWidth(r: Rect, width: real, height: real)
    requires Centred(r, width, height)
    ensures r.x == 0.0 <==> r.width == width
    ensures r.y == 0.0 <==> r.height == height
  {
  }

  /** Sides of the same ratio are ordered as the other sides are. */
  lemma ScaleMonotone(ratio: real, a: real, b: real, scaledA: real, scaledB: real)
    requires ratio > 0.0 && scaledA == ratio * a && scaledB == ratio * b
    ensures a <= b <==> scaledA <= scaledB
  {
    assert scaledB - scaledA == ratio * (b - a);
  }

  /** The fit is the largest rectangle of its ratio that lies inside the canvas. */
  lemma FitIsLargest(fit: Rect, r: Rect, width: real, height: real, ratio: real)
    requires ratio > 0.0
    requires IsFit(fit, width, height, ratio)
    requires Within(r, width, height) && HasRatio(r, ratio)
    ensures r.width <= fit.width && r.height <= fit.height
  {
    NoMarginFillsWidth(fit, width, height);
    if fit.x == 0.0 {
      // the fit spans the width, so r is no wider; being of the same ratio, it is no taller
      assert r.width <= fit.width;
      ScaleMonotone(ratio, r.height, fit.height, r.width, fit.width);
    } else {
      // the fit spans the height, so r is no taller; being of the same ratio, it is no wider
      assert r.height <= fit.height;
      ScaleMonotone(ratio, r.height, fit.height, r.width, fit.width);
    }
  }

  /** There is only one fit of a ratio into a canvas. */
  lemma FitUnique(a: Rect, b: Rect, width: real, height: real, ratio: real)
    requires ratio > 0.0
    requires IsFit(a, width, height, ratio) && IsFit(b, width, height, ratio)
    ensures a == b
  {
    FitIsLargest(a, b, width, height, ratio);
    FitIsLargest(b, a, width, height, ratio);
  }

  /** When the ratio is the canvas's own, the fit is the whole canvas. */
  lemma FitOfOwnRatio(fit: Rect, width: real, height: real, ratio: real)
    requires width > 0.0 && height > 0.0 && ratio * height == width
    requires IsFit(fit, width, height, ratio)
    ensures fit == Full(width, height)
  {
    assert IsFit(Full(width, height), width, height, ratio);
    FitUnique(fit, Full(width, height), width, height, ratio);
  }
}
