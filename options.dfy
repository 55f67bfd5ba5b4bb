/** The option bag of one resize call and its refinement with defaults
    (ImageHelper::refineOption and ImageHelper::getDefaultOption). */
module Options {

  datatype Option<+T> = None | Some(value: T)

  /** A sizing or type field: the sentinel 'auto', or a concrete value. */
  datatype Setting<+T> = Auto | Fixed(value: T)

  /** Any type string other than the sentinel and the four known extensions. */
  type OtherTypeName = s: string | s !in {"auto", "gif", "png", "jpg", "wbmp"} witness "bmp"

  /** Any crop string other than the three known modes. */
  type OtherCropName = s: string | s !in {"auto", "autofill", "cut"} witness "fit"

  /** File types, named by the extension the helper writes ('gif', 'png', 'jpg', 'wbmp'). */
  datatype FileType = Gif | Png | Jpg | Wbmp | OtherType(name: OtherTypeName)

  /** Crop modes ('auto', 'autofill', 'cut'); an unrecognised value is kept as OtherCrop. */
  datatype Crop = CropAuto | CropAutoFill | CropCut | OtherCrop(name: OtherCropName)

  const QualityDefault: int := 100

  /** The PHP option array: each of the six keys may be missing (None). */
  datatype OptionBag = OptionBag(
    fileType: Option<Setting<FileType>>,
    crop: Option<Crop>,
    width: Option<Setting<real>>,
    height: Option<Setting<real>>,
    ratio: Option<Setting<real>>,
    quality: Option<int>)
  {
    /** Every one of the six keys is set. */
    predicate Complete() {
      fileType.Some? && crop.Some? && width.Some? && height.Some? && ratio.Some? && quality.Some?
    }
  }

  /** The empty PHP array. */
  const EmptyOption: OptionBag := OptionBag(None, None, None, None, None, None)

  /** The field is set to a concrete value (present and not 'auto'). */
  predicate Given<T>(field: Option<Setting<T>>) {
    field.Some? && field.value.Fixed?
  }

  /** A concrete number in the field, if any, is positive. */
  predicate PositiveIfGiven(field: Option<Setting<real>>) {
    Given(field) ==> field.value.value > 0.0
  }

  /** getDefaultOption: every key at its default. */
  function DefaultOption(): (d: OptionBag)
    ensures d.Complete()
    ensures !Given(d.fileType) && !Given(d.width) && !Given(d.height) && !Given(d.ratio)
    ensures d.crop == Some(CropAuto) && d.quality == Some(QualityDefault)
  {
    OptionBag(Some(Auto), Some(CropAuto), Some(Auto), Some(Auto), Some(Auto), Some(QualityDefault))
  }

  /** refineOption: fills every missing key with its default, one key at a time,
      and leaves every key that is already set as it is. The by-reference
      argument of the PHP method is modelled as the value going in and the value
      coming out. */
  method RefineOption(option: OptionBag) returns (refined: OptionBag)
    ensures refined.Complete()
    // a key already set keeps its value, a missing key gets its default
    ensures refined.fileType == if option.fileType.Some? then option.fileType else DefaultOption().fileType
    ensures refined.crop == if option.crop.Some? then option.crop else DefaultOption().crop
    ensures refined.width == if option.width.Some? then option.width else DefaultOption().width
    ensures refined.height == if option.height.Some? then option.height else DefaultOption().height
    ensures refined.ratio == if option.ratio.Some? then option.ratio else DefaultOption().ratio
    ensures refined.quality == if option.quality.Some? then option.quality else DefaultOption().quality
    ensures option == EmptyOption ==> refined == DefaultOption()
    // refining an already refined option changes nothing, so refining twice is refining once
    ensures option.Complete() ==> refined == option
  {
    refined := option;
    if refined == EmptyOption {
      refined := DefaultOption();
    }
    if refined.fileType.None? {
      refined := refined.(fileType := Some(Auto));
    }
    if refined.crop.None? {
      refined := refined.(crop := Some(CropAuto));
    }
    if refined.width.None? {
      refined := refined.(width := Some(Auto));
    }
    if refined.height.None? {
      refined := refined.(height := Some(Auto));
    }
    if refined.ratio.None? {
      refined := refined.(ratio := Some(Auto));
    }
    if refined.quality.None? {
      refined := refined.(quality := Some(QualityDefault));
    }
  }
}
