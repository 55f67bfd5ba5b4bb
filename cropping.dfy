/** The copy rectangles for one resampling call under each crop mode
    (ImageHelper::getCopyConfig and the three getCopyConfigBy* helpers). */
module Cropping {
  import opened Options
  import opened Geometry

  /** The eight arguments of the resampling copy, as the 'copy' array of getCopyConfig. */
  datatype CopyConfig = CopyConfig(
    fromX: real, fromY: real, fromWidth: real, fromHeight: real,
    toX: real, toY: real, toWidth: real, toHeight: real)
  {
    /** The rectangle read from the input image. */
    function From(): Rect {
      Rect(fromX, fromY, fromWidth, fromHeight)
    }

    /** The rectangle written on the output canvas. */
    function To(): Rect {
      Rect(toX, toY, toWidth, toHeight)
    }
  }

  /** getCopyConfigByAuto: the whole input is stretched over the whole canvas. */
  function CopyConfigByAuto(imageIn: Descriptor, imageOut: Descriptor): (copy: CopyConfig)
    ensures copy.From() == Full(imageIn.width, imageIn.height)
    ensures copy.To() == Full(imageOut.width, imageOut.height)
  {
    CopyConfig(0.0, 0.0, imageIn.width, imageIn.height, 0.0, 0.0, imageOut.width, imageOut.height)
  }

  /** getCopyConfigByAutoFill: the whole input is scaled to fit inside the
      canvas with its own ratio, centred, padded on one axis. */
  method GetCopyConfigByAutoFill(imageIn: Descriptor, imageOut: Descriptor) returns (copy: CopyConfig)
    requires imageIn.Positive() && imageOut.Positive()
    ensures copy.From() == Full(imageIn.width, imageIn.height)
    ensures IsFit(copy.To(), imageOut.width, imageOut.height, imageIn.ratio)
  {
    copy := CopyConfigByAuto(imageIn, imageOut);
    copy := copy.(toHeight := copy.toWidth / imageIn.ratio);
    if copy.toHeight > imageOut.height {
      copy := copy.(toHeight := imageOut.height);
      copy := copy.(toWidth := copy.toHeight * imageIn.ratio);
    }
    copy := copy.(toX := (imageOut.width - copy.toWidth) / 2.0);
    copy := copy.(toY := (imageOut.height - copy.toHeight) / 2.0);
  }

  /** getCopyConfigByCut: a centred region of the input with the canvas's
      ratio, as large as the input allows, is stretched over the whole canvas. */
  method GetCopyConfigByCut(imageIn: Descriptor, imageOut: Descriptor) returns (copy: CopyConfig)
    requires imageIn.Positive() && imageOut.Positive()
    ensures IsFit(copy.From(), imageIn.width, imageIn.height, imageOut.ratio)
    ensures copy.To() == Full(imageOut.width, imageOut.height)
  {
    copy := CopyConfigByAuto(imageIn, imageOut);
    copy := copy.(fromHeight := copy.fromWidth / imageOut.ratio);
    if copy.fromHeight > imageIn.height {
      copy := copy.(fromHeight := imageIn.height);
      copy := copy.(fromWidth := copy.fromHeight * imageOut.ratio);
    }
    copy := copy.(fromX := (imageIn.width - copy.fromWidth) / 2.0);
    copy := copy.(fromY := (imageIn.height - copy.fromHeight) / 2.0);
  }

  /** What getCopyConfig promises for one crop mode: both rectangles stay inside
      their images, 'autofill' and 'cut' give their centred fits, and every other
      crop value copies the whole input onto the whole canvas. */
  predicate CopyFits(imageIn: Descriptor, imageOut: Descriptor, crop: Crop, copy: CopyConfig) {
    && Within(copy.From(), imageIn.width, imageIn.height)
    && Within(copy.To(), imageOut.width, imageOut.height)
    && (crop == CropAutoFill ==>
          copy.From() == Full(imageIn.width, imageIn.height) &&
          IsFit(copy.To(), imageOut.width, imageOut.height, imageIn.ratio))
    && (crop == CropCut ==>
          IsFit(copy.From(), imageIn.width, imageIn.height, imageOut.ratio) &&
          copy.To() == Full(imageOut.width, imageOut.height))
    && (crop != CropAutoFill && crop != CropCut ==> copy == CopyConfigByAuto(imageIn, imageOut))
  }

  /** getCopyConfig: dispatch on the crop mode; anything other than 'autofill'
      and 'cut' falls through to 'auto'. */
  method GetCopyConfig(imageIn: Descriptor, imageOut: Descriptor, crop: Crop) returns (copy: CopyConfig)
    requires imageIn.Positive() && imageOut.Positive()
    ensures CopyFits(imageIn, imageOut, crop, copy)
    // when input and output share their ratio, every mode copies whole image onto whole canvas
    ensures imageIn.Consistent() && imageOut.Consistent() && imageIn.ratio == imageOut.ratio ==>
      copy == CopyConfigByAuto(imageIn, imageOut)
  {
    if crop == CropAutoFill {
      copy := GetCopyConfigByAutoFill(imageIn, imageOut);
      if imageOut.Consistent() && imageIn.ratio == imageOut.ratio {
        FitOfOwnRatio(copy.To(), imageOut.width, imageOut.height, imageIn.ratio);
      }
      return;
    }
    if crop == CropCut {
      copy := GetCopyConfigByCut(imageIn, imageOut);
      if imageIn.Consistent() && imageIn.ratio == imageOut.ratio {
        FitOfOwnRatio(copy.From(), imageIn.width, imageIn.height, imageOut.ratio);
      }
      return;
    }
    copy := CopyConfigByAuto(imageIn, imageOut);
  }

  /** An 800x400 input (ratio 2) letterboxed on a 300x300 canvas is drawn 300x150, 75 from the top. */
  lemma AutoFillExample(to: Rect)
    requires IsFit(to, 300.0, 300.0, 2.0)
    ensures to == Rect(0.0, 75.0, 300.0, 150.0)
  {
    var expected := Rect(0.0, 75.0, 300.0, 150.0);
    assert IsFit(expected, 300.0, 300.0, 2.0);
    FitUnique(to, expected, 300.0, 300.0, 2.0);
  }

  /** Cutting a 300x300 canvas (ratio 1) out of an 800x400 input reads the middle 400x400 square. */
  lemma CutExample(from: Rect)
    requires IsFit(from, 800.0, 400.0, 1.0)
    ensures from == Rect(200.0, 0.0, 400.0, 400.0)
  {
    var expected := Rect(200.0, 0.0, 400.0, 400.0);
    assert IsFit(expected, 800.0, 400.0, 1.0);
    FitUnique(from, expected, 800.0, 400.0, 1.0);
  }
}
