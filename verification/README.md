# p340_ai pure core, modelled in Dafny

This project models the deterministic parts of the exam-answering robot's Python code and proves
properties about them:

- **Configuration lookup** (`ConfigManager` in `src/utils/config.py` and its copy in
  `src/core/config.py`). `get` splits a dotted key with `key.split('.')` and walks nested mappings.
  It returns the stored value, or `default` when a segment is missing or an intermediate value is
  not a mapping. The section getters are fixed-key calls of `get`. `create_dict` selects the
  directories to empty and recreate from the `paths` section.
- **MIME type from a file name** (`get_image_mime_type` in `src/utils/utils.py`). It relies on a
  model of POSIX `os.path.splitext` (last extension of the final component, leading dots ignored)
  and on `str.lower()`.
- **Image geometry** (`src/interfaces/cv_interfaces.py` and `src/api/image_api.py`). This covers the
  A4 scale-and-crop window, the 90° rotation front ends (`'cw'`/`'ccw'` strings, and
  angle-plus-flag with the `rotate_map` table), and OpenCV's three rotations on a pixel grid.

Modules follow the source files:

| module | file | models |
|---|---|---|
| `Results` | `results.dfy` | `Option` and `Result` used in place of `None` and exceptions |
| `Config` | `config.dfy` | YAML values, `key.split('.')`, nested lookup, `get`, the `create_dict` selection |
| `UtilsConfig` | `utils_config.dfy` | the six section getters of `src/utils/config.py` |
| `CoreConfig` | `core_config.dfy` | `get`, `create_dict` selection and the four getters of `src/core/config.py` |
| `PosixPath` | `posix_path.dfy` | `str.rfind` and `os.path.splitext` |
| `Utils` | `utils.dfy` | `get_image_mime_type` |
| `Raster` | `raster.dfy` | images as row grids; `cv2.rotate` with its three codes |
| `A4Crop` | `a4_crop.dfy` | aspect-preserving height, millimetre-to-pixel conversion, Python row slicing |
| `CvInterfaces` | `cv_interfaces.dfy` | `resize_to_a4`, `rotate_image` |
| `ImageApi` | `image_api.dfy` | `__rotate_image`, `__process_for_a4`, and the processing order of a captured frame |

Notes on the modelling:

- A config value is `Null | Bool | Int | Scalar | Str | List | Dict(map<string, Value>)`, where
  `Scalar` stands for the other YAML scalars (floats, dates) by their text. This is enough to
  show that a stored `None`, `0`, `False`, `""` or `{}` is returned as it is. Presence is decided
  with `in`, not truthiness.
- `get` is a method whose loop mirrors the Python `for` loop with its early `return default`. Its
  contract is stated against `Lookup`, the recursive reading of `config[k1][k2]…[kn]`. `get` never
  changes the configuration: the model passes the configuration by value and returns only the
  result.
- Images are `Image(width, rows)`. The width is stored apart from the rows, as in a NumPy shape, so
  an image with no rows keeps its width. `cv2.resize` is a function parameter `resample`, because
  interpolation is not modelled. Contracts about the crop hold whenever `resample` returns the shape
  it was asked for, as `cv2.resize` does.
- `resize_to_a4` ends the crop at the resized image's own height. `__process_for_a4` ends it at the
  computed `new_height`. The two agree when the resize is well shaped
  (`ImageApi.ProcessMatchesResize`).
- The grid does not say whether the NumPy array has a channel axis, so the A4 routines take an
  `Axes` argument: `Plane` for a 2-D array, `Planes(c)` for an `(h, w, c)` one. Both routines
  unpack `h, w, _ = image.shape`, so a 2-D input raises `ValueError` (`ShapeUnpack`).
  `resize_to_a4` also unpacks the resized image's shape. OpenCV returns a one-channel result as a
  2-D array, so an `(h, w, 1)` input raises there, while `__process_for_a4` crops it
  (`ImageApi.SingleChannelDiffers`).
- Python's `%` with modulus 360 never returns a negative result, and neither does Dafny's `%`. So
  `angle % 360` is used as written: 450 behaves as 90 and −90 as 270.
- The capture pipeline's docstring (`src/core/capture.py:9`) says the page is turned
  counterclockwise. The code (`src/api/image_api.py:73`) calls `__rotate_image(frame, 90, True)`,
  which is a clockwise turn. The model follows the code (`ImageApi.ProcessCapturedFrame`).

## Model

| member | source | states |
|---|---|---|
| `Config.Get` | src/utils/config.py:73-92 | the stored value at every segment of the dotted key when all of them are present, otherwise `default`, which is `None` when the caller gives none |
| `Config.Split` | src/utils/config.py:83 | `key.split('.')` yields at least one segment and no segment contains a dot |
| `Config.JoinSplit` | src/utils/config.py:83 | splitting on dots loses nothing: re-joining the segments gives back the key |
| `Config.SplitJoin` | src/utils/config.py:83 | splitting inverts joining of dot-free segments, so distinct segment lists give distinct keys |
| `Config.SplitConcat` | src/utils/config.py:83 | `(p + "." + q).split('.')` is the segments of `p` followed by those of `q` |
| `Config.LookupAppend` | src/utils/config.py:86-92 | walking a concatenated path is walking the tail from the value the head reaches; a failed head fails the whole path |
| `Config.PresentTopLevel` | src/utils/config.py:83-89 | a dot-free key present in the top-level mapping finds exactly the value stored under it |
| `Config.PresentValueReturned` | src/utils/config.py:83-89 | if `p` reaches a mapping that holds the dot-free key `k`, then `p.k` finds exactly the value stored under `k`, one level deeper |
| `Config.FalsyValuesFound` | src/utils/config.py:87-89 | presence is decided by `in`, not truthiness: a stored `None`, `0`, `False`, `""` or `{}` is found as the value |
| `Config.MissingSegment` | src/utils/config.py:86-90 | a segment missing at any position, or met at a non-mapping, makes the whole lookup fail, so `default` is returned |
| `Config.NonMappingIntermediate` | src/utils/config.py:87-90 | asking for `p.q` where `p` holds a string or other non-mapping gives no value and raises nothing |
| `Config.LookupCompose` | src/utils/config.py:83-92 | when `p` finds a value `x`, `get(p + "." + q, d)` equals looking up `q` inside `x` with `d` |
| `Config.Section` | src/utils/config.py:99-102 | a fixed dot-free key returns that top-level entry, or `{}` when absent or when the document is not a mapping |
| `Config.NestedSection` | src/utils/config.py:94-97 | `first.rest` is looked up as `first` followed by the segments of `rest`, defaulting to `{}` |
| `Config.DirectoriesToCreate` | src/utils/config.py:45-56 | strings under `paths` are selected as themselves, mappings contribute all their values, other values nothing; a missing `paths` selects nothing; a non-mapping document or `paths` is an error |
| `UtilsConfig.ApiConfig` | src/utils/config.py:94-97 | the value at `api` then the segments of `service`, or `{}` |
| `UtilsConfig.PathConfig` | src/utils/config.py:99-102 | the top-level `paths` entry, or `{}` |
| `UtilsConfig.RobotConfig` | src/utils/config.py:104-107 | the top-level `robot` entry, or `{}` |
| `UtilsConfig.LoggingConfig` | src/utils/config.py:109-112 | the top-level `logging` entry, or `{}` |
| `UtilsConfig.AssetsConfig` | src/utils/config.py:114-117 | the top-level `assets` entry, or `{}` |
| `UtilsConfig.CameraConfig` | src/utils/config.py:119-122 | the top-level `camera` entry, or `{}` |
| `CoreConfig.Get` | src/core/config.py:74-93 | this copy's `get`: the stored value when every segment is present, a falsy stored value included, otherwise `default`, `None` when not given |
| `CoreConfig.DirectoriesToCreate` | src/core/config.py:46-57 | this copy's directory selection follows the same string / mapping / other rule |
| `CoreConfig.ApiConfig` | src/core/config.py:95-98 | the value at `api` then the segments of `service`, or `{}` |
| `CoreConfig.PathConfig` | src/core/config.py:100-103 | the top-level `paths` entry, or `{}` |
| `CoreConfig.RobotConfig` | src/core/config.py:105-108 | the top-level `robot` entry, or `{}` |
| `CoreConfig.LoggingConfig` | src/core/config.py:110-113 | the top-level `logging` entry, or `{}`; this copy has no `assets` or `camera` getter |
| `PosixPath.RFind` | src/utils/utils.py:46 | the index of the last occurrence of the character, or -1 when there is none |
| `PosixPath.SplitExt` | src/utils/utils.py:46 | root and extension concatenate back to the path; the extension is empty or a dot followed by text without dots or separators; a non-empty extension follows a final component with a stem |
| `PosixPath.RFindUnique` | src/utils/utils.py:46 | any index with the last-occurrence property is the one `rfind` returns |
| `PosixPath.AppendedExtension` | src/utils/utils.py:46 | appending `"." + e` to a path whose last component has a stem makes exactly `"." + e` the extension, whatever dots the stem holds |
| `PosixPath.HiddenFileHasNoExtension` | src/utils/utils.py:46 | a final component made of a leading dot and a dot-free name has no extension |
| `Utils.Lower` | src/utils/utils.py:46 | `str.lower()` on ASCII: same length, `A`–`Z` become `a`–`z`, every other character is unchanged |
| `Utils.MimeType` | src/utils/utils.py:31-54 | accepted exactly when the lower-cased extension is `.jpg`, `.jpeg`, `.png` or `.webp`; the subtype is the extension's name with `jpg` read as `jpeg`; otherwise a `ValueError` naming the extension |
| `Utils.ExtensionOfLower` | src/utils/utils.py:46 | the extension of the lower-cased path is the lower-cased extension |
| `Utils.CaseInsensitive` | src/utils/utils.py:46-54 | a path and its lower-cased form get the same answer, so `A.JPG` is `image/jpeg` |
| `Utils.FinalExtensionDecides` | src/utils/utils.py:46-54 | only the final extension counts: `stem + "." + e` is classified by `"." + e` alone |
| `Utils.HiddenFileRefused` | src/utils/utils.py:53-54 | a name whose only dot is leading, such as `.png`, raises `ValueError` with an empty extension |
| `Utils.ExampleHiddenFile` | src/utils/utils.py:46-54 | `.png` raises `ValueError` |
| `Raster.RotateCw` | src/interfaces/cv_interfaces.py:130 | a clockwise quarter turn gives a well-formed image with height and width swapped |
| `Raster.RotateCcw` | src/interfaces/cv_interfaces.py:128 | a counterclockwise quarter turn gives a well-formed image with height and width swapped |
| `Raster.Rotate180` | src/api/image_api.py:129-130 | a half turn keeps height and width |
| `Raster.CwMovesPixel` | src/interfaces/cv_interfaces.py:130 | clockwise, the pixel at row `y`, column `x` lands at row `x`, column `H-1-y` |
| `Raster.CcwMovesPixel` | src/interfaces/cv_interfaces.py:128 | counterclockwise, the pixel at row `y`, column `x` lands at row `W-1-x`, column `y` |
| `Raster.CcwUndoesCw` | src/interfaces/cv_interfaces.py:127-130 | a clockwise turn followed by a counterclockwise one restores the image |
| `Raster.CwUndoesCcw` | src/interfaces/cv_interfaces.py:127-130 | a counterclockwise turn followed by a clockwise one restores the image |
| `Raster.HalfTurnIsTwoCw` | src/api/image_api.py:129-130 | `ROTATE_180` is two clockwise quarter turns |
| `Raster.CcwIsThreeCw` | src/api/image_api.py:131-132 | `ROTATE_90_COUNTERCLOCKWISE` is three clockwise quarter turns |
| `Raster.TurnCodes` | src/api/image_api.py:126-133 | one, two and three clockwise quarter turns are the three OpenCV codes |
| `Raster.Rotate` | src/api/image_api.py:136 | `cv2.rotate` with a code turns the image clockwise by the code's number of quarter turns (1, 2 or 3); a half turn keeps the shape, a quarter turn swaps it |
| `Raster.FullTurn` | src/api/image_api.py:121 | four clockwise quarter turns restore the image, which is why angles are reduced modulo 360 |
| `A4Crop.ResizedHeight` | src/interfaces/cv_interfaces.py:98-100 | the resized height is the largest whole number of rows within `h * target_width / w` |
| `A4Crop.MmToPx` | src/interfaces/cv_interfaces.py:104-106 | a millimetre margin becomes the largest whole number of pixels within `mm * target_width / 210` |
| `A4Crop.SliceRows` | src/interfaces/cv_interfaces.py:117 | Python slicing of rows: same width, rows `[start, end)` in order when in range, empty when `end <= start` |
| `CvInterfaces.ResizeToA4` | src/interfaces/cv_interfaces.py:91-118 | `ValueError` exactly for a 2-D input, or a one-channel input whose resize succeeds; division by zero exactly for zero width; an empty-resize error exactly when the new height rounds to 0; otherwise width is `target_width`, height is at least 1 and at most the resized height; uncropped when `top >= H - bottom`, else rows `[top, H - bottom)` of the resized image in order |
| `CvInterfaces.DefaultCropAmounts` | src/interfaces/cv_interfaces.py:104-106 | with the defaults the crop removes 620 px at the top and 100 px at the bottom |
| `CvInterfaces.RotateImage` | src/interfaces/cv_interfaces.py:120-132 | `dir` defaults to `'ccw'`; `'cw'` is one clockwise quarter turn, `'ccw'` is three, any other string (`'CW'` included) raises `ValueError`; height and width swap |
| `CvInterfaces.RotateImageDefault` | src/interfaces/cv_interfaces.py:120-128 | called without `dir`, `rotate_image` turns a quarter counterclockwise |
| `CvInterfaces.RotateImageRoundTrip` | src/interfaces/cv_interfaces.py:127-130 | `'cw'` then `'ccw'`, and `'ccw'` then `'cw'`, restore the image |
| `ImageApi.RotationCode` | src/api/image_api.py:121-135 | a code is found exactly when `angle % 360` is 90, 180 or 270, so the lookup never yields `None`; other angles, 0 and multiples of 360 included, raise `ValueError` |
| `ImageApi.RotationTableSymmetry` | src/api/image_api.py:126-133 | `(270, d)` gives the code of `(90, not d)`; 180 ignores the flag; angles 360 apart give the same code |
| `ImageApi.RotateImage` | src/api/image_api.py:106-136 | `angle` defaults to 90 and `clockwise` to `False`; rotates exactly when the angle check passes, with the same error otherwise; the result is well formed |
| `ImageApi.RotateImageDefault` | src/api/image_api.py:106-136 | called with neither `angle` nor `clockwise`, `__rotate_image` turns a quarter counterclockwise |
| `ImageApi.TableTurns` | src/api/image_api.py:121-135 | each `rotate_map` entry stands for `a/90` clockwise quarter turns when clockwise and `(360-a)/90` otherwise |
| `ImageApi.RotateImageTurns` | src/api/image_api.py:121-136 | the result is a turn by the normalised angle in the requested direction: `a/90` clockwise quarter turns, or `(360-a)/90` for counterclockwise |
| `ImageApi.RotateImageShape` | src/api/image_api.py:126-136 | 90 and 270 swap height and width; 180 keeps them |
| `ImageApi.ProcessForA4` | src/api/image_api.py:138-166 | `ValueError` exactly for a 2-D input, division by zero exactly for zero width, an empty-resize error exactly when the new height rounds to 0; otherwise width 2100; uncropped when the resized height is at most 720, otherwise rows `[620, new_height - 100)` in order |
| `ImageApi.ProcessMatchesResize` | src/api/image_api.py:147-164 | for any input other than a one-channel 3-D array, with a well-shaped resize, `__process_for_a4` equals `resize_to_a4` with its defaults, errors included |
| `ImageApi.SingleChannelDiffers` | src/interfaces/cv_interfaces.py:110 | on an `(h, w, 1)` image with a non-empty resize, `resize_to_a4` raises `ValueError` unpacking the 2-D result while `__process_for_a4` returns a crop |
| `ImageApi.ProcessCapturedFrame` | src/api/image_api.py:73-75 | a captured frame is turned clockwise (not counterclockwise), enhanced and cropped; an empty frame fails in the enhancement's colour conversion, exactly when it has no rows or no columns; otherwise the crop's outcome is passed on; with a shape-preserving enhancement the crop never divides by zero and has an empty resize exactly when `frame.width * 2100 / frame.height` rounds down to 0, since the frame's height is the width that gets scaled |
| `ImageApi.CapturedFramePage` | src/api/image_api.py:73-75 | a non-empty frame with a shape-preserving enhancement and a well-shaped, non-empty resize becomes a page 2100 px wide, `h` rows tall when `h <= 720` and `h - 720` otherwise, `h` being the scaled height |

## Left out

- YAML parsing, `load_config` and its error translation: they are file I/O and a foreign library.
  The model starts from the parsed value.
- `ensure_empty_dir` (`shutil.rmtree`, `mkdir`): these are filesystem effects. The model stops at the
  set of values handed to it. A non-string value inside a `paths` mapping would fail in `Path()`
  there, which is not modelled.
- Config.DirectoriesToCreate: the result is a set, because Dafny maps are unordered. The order in
  which Python visits `paths` (insertion order) is not modelled. That order matters on disk when
  one selected directory contains another.
- CoreConfig.DirectoriesToCreate: the same holds for this copy. Its result is a set, and the
  insertion order of `paths` is not modelled.
- Utils.MimeType: `str.lower()` is modelled on ASCII letters only. No non-ASCII character lowercases
  into the letters of `jpg`, `jpeg`, `png` or `webp`, so acceptance is unaffected. Only the text of
  the error's extension may differ for non-ASCII input.
- Utils.Lower: only ASCII letters are lower-cased. Python's `str.lower()` also maps non-ASCII letters
  (`'É'` to `'é'`), and some change length (`'İ'` becomes two characters); the contract's "every
  other character is unchanged" and "same length" hold for the model, not for such input.
- PosixPath.SplitExt: the POSIX `os.path` is modelled. Windows paths (`\` separators and drive
  letters) are not.
- A4Crop.ResizedHeight: `int(h * (2100 / w))` is computed in floating point in the source. The model
  uses the exact floor of `h * 2100 / w`, and IEEE rounding could differ in rare cases.
- A4Crop.MmToPx: also computed in floating point in the source. It is exact for the defaults
  (620 px and 100 px).
- CvInterfaces.ResizeToA4: `target_width` and the millimetre margins are natural numbers. Negative
  margins would trigger Python's negative-index slicing, and fractional ones the float path; neither
  is modelled.
- Config.Get: mapping keys are strings. YAML also allows keys such as `1:` or `yes:`, which load as
  an int or a bool and can never match a segment of a dotted string key. Such keys are not modelled,
  and in `Config.DirectoriesToCreate` their values would be selected just like those of string keys.
- CvInterfaces.ResizeToA4: arrays with zero channels or more than three axes are not modelled.
  `Axes` covers the 2-D and 3-D layouts that `cv2.imread` and a camera produce.
- The pixels `cv2.resize` computes (`INTER_AREA` interpolation) are a parameter of the model. Only
  their shape is constrained.
- `enhance_image` and `__enhance_image` (HSV conversion and float saturation scaling) are floating
  point colour work. In `ImageApi.ProcessCapturedFrame` they are a parameter.
- ImageApi.ProcessCapturedFrame: of the enhancement only its refusal of an empty array is modelled.
  Whether it keeps the shape of a non-empty one is a hypothesis of the contract, not a promise.
- The camera loop of `capture_image`, `show_image`, `close_all_windows`, `read_image`, `save_image`,
  `encode_image_to_base64` and `read_txt_file`: these are device, window and file I/O.
- The AI clients (`deepseek_api.py`, `qwen_api.py`, `ai_interfaces.py`), logging setup
  (`logger.py`), `writing_api.py` (it only opens a serial port and unpickles a font), `main.py`,
  `capture.py` and `answer.py`: these are network calls, library setup or empty stubs with no logic
  to model.

