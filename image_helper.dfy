/** The ImageHelper class: the descriptor of a decoded input image, the
    derived output canvas, the save dispatch and the resize pipeline that
    ties them to the option refinement and the crop modes. The class has no
    fields, so its methods are module-level here. */
module ImageHelper {
  import opened Options
  import opened Geometry
  import opened Cropping

  /** What the image backend reports for a path that one of its decoders
      accepted: the detected type and the pixel dimensions. */
  datatype Decoded = Decoded(fileType: FileType, width: nat, height: nat)

  /** The result of getImageInfo. A missing fileType stands for the image
      handle being false (nothing was decoded); the PHP type field is then
      false or the empty string, both falsy. */
  datatype ImageInfo = ImageInfo(fileType: Option<FileType>, width: nat, height: nat, ratio: real)
  {
    function Descriptor(): Descriptor {
      Geometry.Descriptor(width as real, height as real, ratio)
    }
  }

  /** The descriptor getImageInfo reports when nothing was decoded. */
  const NoImage: ImageInfo := ImageInfo(None, 0, 0, 0.0)

  /** The output canvas of getImageOut (its GD handle is not modelled). */
  datatype ImageOut = ImageOut(fileType: FileType, width: real, height: real, ratio: real)
  {
    function Descriptor(): Descriptor {
      Geometry.Descriptor(width, height, ratio)
    }
  }

  /** getImageInfo: decoded is what the backend's decoders yield for path;
      it is not consulted for the empty path. */
  method GetImageInfo(path: string, decoded: Option<Decoded>) returns (info: ImageInfo)
    ensures path == "" || decoded.None? ==> info == NoImage
    ensures path != "" && decoded.Some? ==>
      info.fileType == Some(decoded.value.fileType) &&
      info.width == decoded.value.width && info.height == decoded.value.height
    ensures info.height > 0 ==> info.ratio * (info.height as real) == info.width as real
    ensures info.height == 0 ==> info.ratio == 0.0
  {
    info := NoImage;
    if path == "" {
      return;
    }
    if decoded.None? {
      return;
    }
    info := info.(fileType := Some(decoded.value.fileType));
    info := info.(width := decoded.value.width);
    info := info.(height := decoded.value.height);
    if info.height != 0 {
      info := info.(ratio := info.width as real / info.height as real);
    }
  }

  /** getImageOut: the output canvas from the input image and a refined option
      whose ratio is no longer 'auto' wherever it is needed. */
  method GetImageOut(imageIn: ImageInfo, option: OptionBag) returns (imageOut: ImageOut)
    requires imageIn.fileType.Some? && option.Complete()
    requires PositiveIfGiven(option.width) && PositiveIfGiven(option.height)
    requires !(Given(option.width) && Given(option.height)) ==> Given(option.ratio) && option.ratio.value.value > 0.0
    requires !Given(option.width) && !Given(option.height) ==> imageIn.width > 0
    ensures imageOut.fileType ==
      if Given(option.fileType) then option.fileType.value.value else imageIn.fileType.value
    // explicit dimensions are used as given
    ensures Given(option.width) ==> imageOut.width == option.width.value.value
    ensures Given(option.height) ==> imageOut.height == option.height.value.value
    ensures !Given(option.width) && !Given(option.height) ==> imageOut.width == imageIn.width as real
    ensures imageOut.Descriptor().Positive()
    // the canvas's ratio is that of its own dimensions ...
    ensures imageOut.Descriptor().Consistent()
    // ... which is the requested ratio whenever a dimension was derived
    ensures !(Given(option.width) && Given(option.height)) ==> imageOut.ratio == option.ratio.value.value
  {
    // the fields of the PHP array, overwritten one by one; 'ratio' is added last
    var fileType := imageIn.fileType.value;
    var width := imageIn.width as real;
    var height := imageIn.height as real;
    if option.fileType.value.Fixed? {
      fileType := option.fileType.value.value;
    }
    if option.width.value.Fixed? {
      width := option.width.value.value;
      if option.height.value.Fixed? {
        height := option.height.value.value;
      } else {
        var ratio := option.ratio.value.value;
        height := width / ratio;
        DerivedHeight(width, ratio, height);
      }
    } else {
      if option.height.value.Fixed? {
        var ratio := option.ratio.value.value;
        height := option.height.value.value;
        width := ratio * height;
        ScaledQuotient(ratio, height, width);
      } else {
        var ratio := option.ratio.value.value;
        width := imageIn.width as real;
        height := width / ratio;
        DerivedHeight(width, ratio, height);
      }
    }
    imageOut := ImageOut(fileType, width, height, width / height);
    CanvasOfSides(width, height, imageOut);
  }

  /** A canvas whose ratio is the quotient of its positive sides is consistent. */
  lemma CanvasOfSides(width: real, height: real, canvas: ImageOut)
    requires width > 0.0 && height > 0.0
    requires canvas == ImageOut(canvas.fileType, width, height, width / height)
    ensures canvas.Descriptor().Consistent()
    ensures canvas.ratio > 0.0
  {
    ScaledQuotient(canvas.ratio, height, width);
  }

  /** A height derived as width / ratio is positive and gives back ratio as the quotient. */
  lemma DerivedHeight(width: real, ratio: real, height: real)
    requires width > 0.0 && ratio > 0.0 && height == width / ratio
    ensures height > 0.0 && width / height == ratio
  {
    assert height * ratio == width;
  }

  /** A width that is ratio times a positive height has ratio as its quotient
      by that height, and is positive exactly when ratio is. */
  lemma ScaledQuotient(ratio: real, height: real, width: real)
    requires height > 0.0 && width == ratio * height
    ensures width / height == ratio
    ensures ratio > 0.0 <==> width > 0.0
  {
  }

  /** The extension of a file type, as ImageHelper spells the type: the four
      known types are the type constants (ImageHelper.php lines 12-15), any
      other type keeps its own name. */
  function TypeName(t: FileType): (name: string)
    ensures name in {"gif", "png", "jpg", "wbmp"} <==> !t.OtherType?
    ensures t.OtherType? ==> name == t.name
    ensures t == Gif ==> name == "gif"
    ensures t == Png ==> name == "png"
    ensures t == Jpg ==> name == "jpg"
    ensures t == Wbmp ==> name == "wbmp"
  {
    match t
    case Gif => "gif"
    case Png => "png"
    case Jpg => "jpg"
    case Wbmp => "wbmp"
    case OtherType(n) => n
  }

  datatype Encoder = PngEncoder | GifEncoder | JpegEncoder | WbmpEncoder

  /** One call of a GD encoder: the file it writes and the level passed to it
      (compression for PNG, quality for JPEG, none for the others). */
  datatype SaveCall = SaveCall(encoder: Encoder, fileName: string, level: Option<int>)

  /** PHP's loose comparison with false holds of these two strings. */
  predicate IsFalsy(s: string) {
    s == "" || s == "0"
  }

  /** saveImage: the encoder call it makes, if any; None stands for its result
      false. The writing of the file itself is not modelled. */
  function SaveImage(imageData: Option<ImageOut>, savePath: string, quality: int): (call: Option<SaveCall>)
    ensures call.Some? <==> imageData.Some? && !IsFalsy(savePath) && !imageData.value.fileType.OtherType?
    ensures call.Some? ==> call.value.fileName == savePath + "." + TypeName(imageData.value.fileType)
    ensures call.Some? ==>
      match imageData.value.fileType
      case Png => call.value.encoder == PngEncoder && call.value.level == Some(0)
      case Gif => call.value.encoder == GifEncoder && call.value.level == None
      case Jpg => call.value.encoder == JpegEncoder && call.value.level == Some(quality)
      case Wbmp => call.value.encoder == WbmpEncoder && call.value.level == None
      case OtherType(_) => false
  {
    if imageData.None? || IsFalsy(savePath) then None
    else
      var fileName := savePath + "." + TypeName(imageData.value.fileType);
      match imageData.value.fileType
      case Png => Some(SaveCall(PngEncoder, fileName, Some(0)))
      case Gif => Some(SaveCall(GifEncoder, fileName, None))
      case Jpg => Some(SaveCall(JpegEncoder, fileName, Some(quality)))
      case Wbmp => Some(SaveCall(WbmpEncoder, fileName, None))
      case OtherType(_) => None
  }

  /** What a successful resize produces: the output canvas (the value the
      PHP method returns), the arguments of its resampling copy, and the encoder
      call of the save step when a save path was given. */
  datatype Resized = Resized(imageOut: ImageOut, copy: CopyConfig, written: Option<SaveCall>)

  /** The descriptor of a decoded input image of positive size. */
  function SourceOf(d: Decoded): Descriptor
    requires d.height > 0
  {
    Descriptor(d.width as real, d.height as real, d.width as real / d.height as real)
  }

  /** The descriptor getImageInfo reports for a decoded image is that image's own,
      and it is positive. */
  lemma SourceDescriptor(d: Decoded, info: ImageInfo)
    requires d.width > 0 && d.height > 0
    requires info == ImageInfo(Some(d.fileType), d.width, d.height, info.ratio)
    requires info.ratio * (info.height as real) == info.width as real
    ensures info.Descriptor() == SourceOf(d) && info.Descriptor().Positive()
  {
    ScaledQuotient(info.ratio, info.height as real, info.width as real);
  }

  /** resize: decode, refine the option, fall back to the input's ratio, derive
      the canvas, compute the copy rectangles and save. None stands for the
      PHP method's result false. save is the save path, or None for false. */
  method Resize(path: string, save: Option<string>, option: OptionBag, decoded: Option<Decoded>)
    returns (result: Option<Resized>)
    requires decoded.Some? ==> decoded.value.width > 0 && decoded.value.height > 0
    requires PositiveIfGiven(option.width) && PositiveIfGiven(option.height)
    requires !(Given(option.width) && Given(option.height)) ==> PositiveIfGiven(option.ratio)
    ensures result.None? <==> path == "" || decoded.None?
    ensures result.Some? ==>
      result.value.imageOut.fileType ==
        if Given(option.fileType) then option.fileType.value.value else decoded.value.fileType
    ensures result.Some? && Given(option.width) ==> result.value.imageOut.width == option.width.value.value
    ensures result.Some? && Given(option.height) ==> result.value.imageOut.height == option.height.value.value
    ensures result.Some? && !Given(option.width) && !Given(option.height) ==>
      result.value.imageOut.width == decoded.value.width as real
    ensures result.Some? ==> result.value.imageOut.Descriptor().Consistent()
    // an 'auto' or missing ratio is the input's, wherever a dimension is derived
    ensures result.Some? && !(Given(option.width) && Given(option.height)) ==>
      result.value.imageOut.ratio ==
        if Given(option.ratio) then option.ratio.value.value else SourceOf(decoded.value).ratio
    // the copy is getCopyConfig's for the input, the canvas and the requested crop mode,
    // which is 'auto' when the key is missing
    ensures result.Some? && option.crop.Some? ==>
      CopyFits(SourceOf(decoded.value), result.value.imageOut.Descriptor(), option.crop.value, result.value.copy)
    ensures result.Some? && option.crop.None? ==>
      CopyFits(SourceOf(decoded.value), result.value.imageOut.Descriptor(), CropAuto, result.value.copy)
    ensures result.Some? ==>
      result.value.written ==
        if save.Some? && !IsFalsy(save.value) then
          SaveImage(Some(result.value.imageOut), save.value,
                    if option.quality.Some? then option.quality.value else QualityDefault)
        else None
  {
    var imageIn := GetImageInfo(path, decoded);
    if imageIn.fileType.None? {
      return None;
    }
    SourceDescriptor(decoded.value, imageIn);
    var refined := RefineOption(option);
    refined := if refined.ratio.value.Auto? then refined.(ratio := Some(Fixed(imageIn.ratio))) else refined;
    var imageOut := GetImageOut(imageIn, refined);
    var copy := GetCopyConfig(imageIn.Descriptor(), imageOut.Descriptor(), refined.crop.value);
    var written :=
      if save.Some? && !IsFalsy(save.value) then SaveImage(Some(imageOut), save.value, refined.quality.value)
      else None;
    result := Some(Resized(imageOut, copy, written));
  }
}
