# ImageHelper geometry engine, in Dafny

This project models the core of the PHP class `ImageHelper`. The core turns a sparse option
array into the arguments of the one resampling copy a resize call makes. It covers:

- **Option refinement.** `refineOption` and `getDefaultOption` fill every missing key of the
  option array (`type`, `crop`, `width`, `height`, `ratio`, `quality`) with its default. A key
  that is already set is never changed.
- **Source descriptor.** `getImageInfo` reports a decoded image's type, width, height and
  width/height ratio. The ratio is 0 when the height is 0. An empty path or a decode failure
  gives the all-zero descriptor.
- **Output canvas.** `getImageOut` follows a four-way decision on whether width and height are
  given. The output type falls back to the input type. The canvas's ratio is recomputed from
  the derived dimensions.
- **Crop modes.** `getCopyConfig` dispatches to one of three modes:
  - `auto` stretches the whole input over the whole canvas. Any unrecognised crop value also
    lands here.
  - `autofill` letterboxes the whole input inside the canvas.
  - `cut` crops a centred region of the input with the canvas's ratio.
- **Save dispatch.** `saveImage` picks the encoder call by type.
- **Resize.** `resize` ties all of the above together. When the requested ratio is `auto`, it
  is replaced by the input's ratio before sizing.

Modules:

| file | module | what it holds |
|---|---|---|
| options.dfy | `Options` | the option array as a record of optional fields; `Setting<T> = Auto \| Fixed(T)` in place of the `'auto'` string; file-type and crop enums, each with an "other" case |
| geometry.dfy | `Geometry` | rectangles, image descriptors, and the declarative *centred fit* `IsFit` (inside, centred, given ratio, flush on one axis) with its uniqueness and maximality |
| cropping.dfy | `Cropping` | the eight-field copy record and the three crop modes with their dispatch |
| image_helper.dfy | `ImageHelper` | the input descriptor, the output canvas, the save dispatch and the resize pipeline |

The PHP code builds local arrays and overwrites their fields one by one, so
`refineOption`, `getImageInfo`, `getImageOut`, `getCopyConfigByAutoFill`,
`getCopyConfigByCut` and `resize` are methods that update a local record step by step. The
by-reference option of `refineOption` is a value passed in and returned. `getDefaultOption`,
`getCopyConfigByAuto` and `saveImage` only return literals or choose among them, so they are
functions. The class has no fields, so there is no Dafny class.

All geometry is `real`. PHP's `/` on numbers produces floating-point values; the model divides
exactly instead (see "Left out").

The two non-trivial crop modes are specified by one predicate, `Geometry.IsFit`:

- `autofill`'s destination is the fit of the input's ratio into the canvas.
- `cut`'s source is the fit of the canvas's ratio into the input.

`FitUnique` shows that `IsFit` determines the rectangle completely, so these postconditions
pin down the whole result. They also cover the tie between the two branches of the
clamping `if`.

The image backend is replaced by parameters:

- `Decoded` is what the decoders report for a path: the type plus `imagesx` and `imagesy`.
- `CopyConfig` is the argument list that `imagecopyresampled` would receive.
- `SaveCall` is the GD encoder call that `saveImage` would make.

## Model

| member | source | states |
|---|---|---|
| `Options.DefaultOption` | ImageHelper.php:257-266 | all six keys are present; type, width, height and ratio are `auto`; crop is `auto`; quality is 100 |
| `Options.RefineOption` | ImageHelper.php:233-255 | afterwards all six keys are present; a key already set keeps its value and a missing key gets its default; the empty option becomes exactly the default option; a complete option is returned unchanged, so refining twice equals refining once |
| `ImageHelper.GetImageInfo` | ImageHelper.php:40-67 | an empty path or a decode failure (as far as `decoded` expresses it) gives the descriptor with no image or type, width = height = ratio = 0; otherwise type, width and height are the decoder's, ratio × height = width when the height is non-zero, and the ratio is 0 when it is zero |
| `ImageHelper.GetImageOut` | ImageHelper.php:198-231 | the output type is the requested one, or the input's when `auto`; a given width or height is used as given; with neither given the width is the input's; both sides and the ratio are positive; the canvas's ratio × height = width; whenever a side was derived, the canvas's ratio is the requested ratio |
| `Cropping.CopyConfigByAuto` | ImageHelper.php:325-335 | the source rectangle is the whole input and the destination rectangle the whole canvas |
| `Cropping.GetCopyConfigByAutoFill` | ImageHelper.php:302-323 | the source rectangle is the whole input; the destination is the centred fit of the input's ratio into the canvas: inside it, equal margins on opposite sides, width = input ratio × height, and to_x = 0 or to_y = 0 |
| `Cropping.GetCopyConfigByCut` | ImageHelper.php:280-300 | the destination is the whole canvas; the source is the centred fit of the canvas's ratio into the input: inside it, equal margins, width = canvas ratio × height, and from_x = 0 or from_y = 0 |
| `Cropping.GetCopyConfig` | ImageHelper.php:268-278 | both rectangles stay inside their images; `autofill` and `cut` give their mode's rectangles; every other crop value gives the `auto` rectangles; when input and canvas have the same ratio, every mode gives the `auto` rectangles |
| `Geometry.FitIsLargest` | ImageHelper.php:313-320 | the centred fit is the largest rectangle of its ratio that lies inside the canvas, in both width and height |
| `Geometry.FitUnique` | ImageHelper.php:291-297 | two rectangles that are both the centred fit of one ratio into one canvas are equal, so the clamping tie-break cannot matter |
| `Geometry.FitOfOwnRatio` | ImageHelper.php:313-320 | fitting a canvas's own ratio into it yields the whole canvas (no padding, no cropping) |
| `Cropping.AutoFillExample` | ImageHelper.php:313-320 | an 800×400 input on a 300×300 canvas is drawn at (0, 75) with size 300×150 |
| `Cropping.CutExample` | ImageHelper.php:291-297 | a 300×300 canvas cut from an 800×400 input reads the 400×400 square at (200, 0) |
| `ImageHelper.TypeName` | ImageHelper.php:11-15 | each of the four known types gives its own constant (`gif`, `png`, `jpg`, `wbmp`), and these names come out exactly for the known types; any other type gives its own name |
| `ImageHelper.SaveImage` | ImageHelper.php:338-359 | an encoder is called (result true) exactly when there is image data, the path is not falsy and the type is one of the four known ones; the file is `path.ext`; PNG gets compression 0, JPEG gets the quality, GIF and WBMP get no level |
| `ImageHelper.Resize` | ImageHelper.php:86-127 | failure exactly when the path is empty or decoding fails (neither a decode failure that throws nor GD's refusal of a canvas side below 1 is modelled); otherwise the canvas has the requested or inherited type and the given dimensions, and with neither width nor height given it has the input's width; its ratio matches its dimensions; wherever a side is derived, its ratio is the requested ratio, or the input's when the requested one is `auto` or missing; the copy is `getCopyConfig`'s for the input, the canvas and the requested crop mode (`auto` when the key is missing): it reads inside the input, writes inside the canvas, and has that mode's rectangles; the encoder call is the save step's exactly when a truthy save path is given |

## Left out

- `readImage`, the ordered probing of the PNG, GIF, WBMP and JPEG decoders, and `exif_read_data` are foreign calls on files. Their outcome for a path is the `decoded` parameter.
- `correctOrientation` is not modelled. It calls GD's `imageflip` and `imagerotate`; the quarter turns at lines 177, 181, 186 and 190 swap width and height. The width and height in `Decoded` are those `imagesx` and `imagesy` report after this correction (lines 56 and 60).
- The GD image handles are not modelled: the handle that `getImageInfo` returns and the canvas that `imagecreatetruecolor` creates. A missing type stands for "image is false"; the model does not distinguish the type field's two falsy values (see below).
- The pixel copy `imagecopyresampled` is not modelled; only its rectangle arguments are computed.
- The encoders write files, which is not modelled; only the call `saveImage` would make is.
- Rounding of the real-valued sizes to GD's integer arguments is not modelled.
- PHP's loose `==` between numbers and `'auto'` is not modelled; tagged variants take its place.
- A `true` save argument (which PHP would turn into the path `"1"`) is not modelled; the save argument is a string or absent. The falsy strings `""` and `"0"` are modelled.
- An option value that is not an array, and a key set to `null`, are not modelled separately. A `null` key reads as missing, just as `isset` reads it.
- `GetImageOut`, `Resize`, `GetCopyConfig`, `GetCopyConfigByAutoFill`, `GetCopyConfigByCut`: these require positive widths, heights and ratios wherever the code divides by them or relies on them, because the code does not guard against zero. Examples are line 215, line 228 and lines 291 and 313.
- `GetImageOut`: it requires the ratio to be concrete whenever a side is derived. `resize` guarantees this by replacing `auto` with the input ratio (lines 97-99) before the call.
- The docblock of `resize` gives quality the range 0 to 100 (line 82). The code passes any value through to the JPEG encoder (line 351), and so does the model.
- `GetImageOut`, `Resize`, `GetCopyConfig`: PHP's `/` and `*` produce floating-point values, and the model computes exactly over the reals. `Geometry.HasRatio`, `Descriptor.Consistent`, the equality of the canvas's ratio with the requested one, and `getCopyConfig`'s agreement of all modes on equal ratios therefore hold in PHP only up to rounding. For the same reason the clamping tests at lines 292 and 315 can go the other way in PHP when the two sides are nearly equal.
- `Resize`, `GetImageOut`: `imagecreatetruecolor` (line 226) truncates a canvas side below 1 to 0. PHP 8 then throws a ValueError, and PHP 7 warns and leaves the canvas data false. The model has no image handle, so it still returns the real-valued canvas (`Some`) in that case.
- `GetImageInfo`, `Resize`: when `imagecreatefromjpeg` fails (line 144), `readImage` still reads the EXIF data (line 145) and, for an `Orientation` of 2 to 8, calls `correctOrientation` with the image `false` (lines 146-147), which hands `false` to `imageflip` or `imagerotate`. PHP 8 throws a TypeError there, so `getImageInfo` and `resize` throw instead of returning; PHP 7 only warns and the call returns false. The `decoded` parameter cannot express the throwing outcome; `None` models only the returning failure.
- `GetImageInfo`: after a decode failure the PHP type field is the empty string, not false, because `readImage` takes `string &$type` (line 131) and PHP coerces the `false` passed at line 52 when the call starts; only the empty path (line 49) keeps it false. The model gives `None` in both cases. Both values are falsy and `resize` tests only the image (line 89), so nothing downstream differs.
