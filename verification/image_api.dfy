/**
  The pure image steps of `OpenCVImageClient` in `src/api/image_api.py`:
  the private `__rotate_image` and `__process_for_a4`, and the order in
  which a captured frame goes through them.
 */
module ImageApi {
  import opened Results
  import opened Raster
  import opened A4Crop
  import CvInterfaces

  const TargetWidth: nat := 2100
  const TopCropMm: nat := 62
  const BottomCropMm: nat := 10

  /** `rotate_map`: (normalised angle, clockwise flag) to OpenCV rotation code. */
  const RotateMap: map<(int, bool), RotateCode> := map[
    (90, false) := Rotate90Counterclockwise,
    (90, true) := Rotate90Clockwise,
    (180, false) := RotateCode.Rotate180,
    (180, true) := RotateCode.Rotate180,
    (270, false) := Rotate90Clockwise,
    (270, true) := Rotate90Counterclockwise
  ]

  /**
    The angle check and `rotate_map` lookup of `__rotate_image`: the angle
    is reduced with Python's `% 360` (never negative, like Dafny's) and only
    90, 180 and 270 pass. Indexing `RotateMap` obliges the verifier to show
    that every pair that passes has an entry, so `rotate_map.get` never
    yields `None`.
   */
  function RotationCode(angle: int, clockwise: bool): (r: Result<RotateCode, RotateError>)
    ensures r.Ok? <==> angle % 360 == 90 || angle % 360 == 180 || angle % 360 == 270
    ensures r.Err? ==> r.error == InvalidAngle(angle % 360)
  {
    var a := angle % 360;
    if a == 90 || a == 180 || a == 270 then Ok(RotateMap[(a, clockwise)])
    else Err(InvalidAngle(a))
  }

  /** The table's symmetries: 270 one way is 90 the other way, 180 ignores the flag, angles repeat every 360. */
  lemma RotationTableSymmetry(angle: int, clockwise: bool, k: int)
    ensures RotationCode(270, clockwise) == RotationCode(90, !clockwise)
    ensures RotationCode(180, true) == RotationCode(180, false)
    ensures RotationCode(angle + 360 * k, clockwise) == RotationCode(angle, clockwise)
  {
    assert (angle + 360 * k) % 360 == angle % 360;
  }

  /** `__rotate_image(image, angle, clockwise)`. */
  function RotateImage<T>(img: Image<T>, angle: int := 90, clockwise: bool := false): (r: Result<Image<T>, RotateError>)
    requires img.Valid()
    ensures r.Ok? <==> RotationCode(angle, clockwise).Ok?
    ensures r.Err? ==> r.error == RotationCode(angle, clockwise).error
    ensures r.Ok? ==> r.value.Valid()
  {
    match RotationCode(angle, clockwise)
    case Ok(code) => Ok(Rotate(img, code))
    case Err(e) => Err(e)
  }

  /**
    The table read as clockwise quarter turns: `a / 90` of them for a
    clockwise request, `(360 - a) / 90` for a counterclockwise one, where
    `a` is the normalised angle.
   */
  lemma TableTurns(angle: int, clockwise: bool)
    requires RotationCode(angle, clockwise).Ok?
    ensures var a := angle % 360;
            QuarterTurns(RotationCode(angle, clockwise).value)
              == if clockwise then a / 90 else (360 - a) / 90
  {
    var a := angle % 360;
    if a == 90 {
      assert RotationCode(angle, clockwise).value == RotateMap[(90, clockwise)];
    } else if a == 180 {
      assert RotationCode(angle, clockwise).value == RotateMap[(180, clockwise)];
    } else {
      assert RotationCode(angle, clockwise).value == RotateMap[(270, clockwise)];
    }
  }

  /**
    What `__rotate_image` means: a turn by the normalised angle in the
    requested direction, i.e. `a / 90` clockwise quarter turns, or
    `(360 - a) / 90` of them for a counterclockwise turn.
   */
  lemma RotateImageTurns<T>(img: Image<T>, angle: int, clockwise: bool)
    requires img.Valid()
    requires RotateImage(img, angle, clockwise).Ok?
    ensures var a := angle % 360;
            RotateImage(img, angle, clockwise).value
              == TurnCw(img, if clockwise then a / 90 else (360 - a) / 90)
  {
    TableTurns(angle, clockwise);
    var code := RotationCode(angle, clockwise).value;
    assert RotateImage(img, angle, clockwise).value == Rotate(img, code);
  }

  /** Called with neither angle nor direction, `__rotate_image` turns a quarter counterclockwise. */
  lemma RotateImageDefault<T>(img: Image<T>)
    requires img.Valid()
    ensures RotateImage(img) == Ok(RotateCcw(img))
  {
    TurnCodes(img);
    assert RotationCode(90, false) == Ok(RotateMap[(90, false)]);
  }

  /** Quarter turns swap height and width; a half turn keeps them. */
  lemma RotateImageShape<T>(img: Image<T>, angle: int, clockwise: bool)
    requires img.Valid()
    requires RotateImage(img, angle, clockwise).Ok?
    ensures var r := RotateImage(img, angle, clockwise).value;
            if angle % 360 == 180 then r.Height() == img.Height() && r.width == img.width
            else r.Height() == img.width && r.width == img.Height()
  {
  }

  /**
    `__process_for_a4(image)`: scale to 2100 px wide and, unless the scaled
    image is at most 720 px tall, keep rows 620 up to 100 px short of the
    bottom. Unlike `resize_to_a4`, the end row comes from the computed
    height rather than the resized image's own, and the resized shape is
    never unpacked, so only a 2-D input raises `ValueError`.
   */
  function ProcessForA4<T>(img: Image<T>, axes: Axes, resample: (Image<T>, nat, nat) -> Image<T>)
    : (r: Result<Image<T>, A4Error>)
    ensures r == Err(ShapeUnpack) <==> axes.Plane?
    ensures r == Err(ZeroWidth) <==> axes.Planes? && img.width == 0
    ensures r == Err(EmptyResize) <==>
              axes.Planes? && img.width > 0 && ResizedHeight(img.Height(), img.width, TargetWidth) == 0
    ensures r.Ok? ==>
              var h := ResizedHeight(img.Height(), img.width, TargetWidth);
              var resized := resample(img, TargetWidth, h);
              Shaped(resized, TargetWidth, h) ==>
                && r.value.Valid()
                && r.value.width == TargetWidth
                && (h <= 720 ==> r.value == resized)
                && (h > 720 ==>
                      && r.value.Height() == h - 720
                      && forall i :: 0 <= i < r.value.Height() ==> r.value.rows[i] == resized.rows[620 + i])
  {
    if axes.Plane? then Err(ShapeUnpack)
    else if img.width == 0 then Err(ZeroWidth)
    else
      var newHeight := ResizedHeight(img.Height(), img.width, TargetWidth);
      if newHeight == 0 then Err(EmptyResize)
      else
        var resized := resample(img, TargetWidth, newHeight);
        var top := MmToPx(TopCropMm, TargetWidth);
        var bottom := MmToPx(BottomCropMm, TargetWidth);
        if top >= newHeight - bottom then Ok(resized)
        else Ok(SliceRows(resized, top, newHeight - bottom))
  }

  /**
    When the input is not a one-channel 3-D array and the resize is well
    shaped, `__process_for_a4` is `resize_to_a4` with its defaults.
   */
  lemma ProcessMatchesResize<T>(img: Image<T>, axes: Axes, resample: (Image<T>, nat, nat) -> Image<T>)
    requires !(axes.Planes? && axes.channels == 1)
    requires img.width > 0
    requires Shaped(resample(img, TargetWidth, ResizedHeight(img.Height(), img.width, TargetWidth)),
                    TargetWidth, ResizedHeight(img.Height(), img.width, TargetWidth))
    ensures ProcessForA4(img, axes, resample)
         == CvInterfaces.ResizeToA4(img, axes, CvInterfaces.Defaults, resample)
  {
  }

  /**
    The two copies part ways on a one-channel `(h, w, 1)` image: the resized
    result comes back 2-D, so `resize_to_a4` fails to unpack its shape while
    `__process_for_a4` crops it.
   */
  lemma SingleChannelDiffers<T>(img: Image<T>, resample: (Image<T>, nat, nat) -> Image<T>)
    requires img.width > 0
    requires ResizedHeight(img.Height(), img.width, TargetWidth) > 0
    ensures CvInterfaces.ResizeToA4(img, Planes(1), CvInterfaces.Defaults, resample) == Err(ShapeUnpack)
    ensures ProcessForA4(img, Planes(1), resample).Ok?
  {
  }

  /** Why processing a captured frame fails. */
  datatype FrameError =
    | EmptyFrame        // `__enhance_image`: `cv2.cvtColor` rejects an empty array (`cv2.error`)
    | Crop(e: A4Error)  // raised by `__process_for_a4`

  /**
    The processing of one captured frame in `capture_image`: a clockwise
    quarter turn, colour enhancement, then the A4 crop. The enhancement's
    pixels are not modelled (`enhance`), but its colour conversion raises
    on an array with no pixels, so an empty frame never reaches the crop.
    The conversion ends in BGR, so the array handed on has three channels.
    Because of the turn, the frame's height becomes the width that is
    scaled to 2100 px.
   */
  function ProcessCapturedFrame<T>(frame: Image<T>, enhance: Image<T> -> Image<T>,
                                   resample: (Image<T>, nat, nat) -> Image<T>)
    : (r: Result<Image<T>, FrameError>)
    requires frame.Valid()
    ensures r == Err(EmptyFrame) <==> frame.Height() == 0 || frame.width == 0
    ensures r != Err(EmptyFrame) ==>
              match ProcessForA4(enhance(RotateCw(frame)), Planes(3), resample)
              case Ok(img) => r == Ok(img)
              case Err(e) => r == Err(Crop(e))
    ensures Shaped(enhance(RotateCw(frame)), frame.Height(), frame.width) ==>
              && r != Err(Crop(ZeroWidth))
              && r != Err(Crop(ShapeUnpack))
              && (r == Err(Crop(EmptyResize)) <==>
                    frame.Height() > 0 && frame.width > 0
                    && ResizedHeight(frame.width, frame.Height(), TargetWidth) == 0)
  {
    if frame.Height() == 0 || frame.width == 0 then Err(EmptyFrame)
    else
      var rotated := RotateImage(frame, 90, true);
      match ProcessForA4(enhance(rotated.value), Planes(3), resample)
      case Ok(img) => Ok(img)
      case Err(e) => Err(Crop(e))
  }

  /**
    A non-empty frame whose enhancement keeps its shape, and whose resize
    is well shaped and not empty, comes out as a page 2100 px wide, cropped
    exactly when the scaled height exceeds 720 rows.
   */
  lemma CapturedFramePage<T>(frame: Image<T>, enhance: Image<T> -> Image<T>,
                             resample: (Image<T>, nat, nat) -> Image<T>)
    requires frame.Valid() && frame.Height() > 0 && frame.width > 0
    requires Shaped(enhance(RotateCw(frame)), frame.Height(), frame.width)
    requires ResizedHeight(frame.width, frame.Height(), TargetWidth) > 0
    requires Shaped(resample(enhance(RotateCw(frame)), TargetWidth, ResizedHeight(frame.width, frame.Height(), TargetWidth)),
                    TargetWidth, ResizedHeight(frame.width, frame.Height(), TargetWidth))
    ensures var r := ProcessCapturedFrame(frame, enhance, resample);
            && r.Ok?
            && r.value.width == TargetWidth
            && r.value.Height() == (var h := ResizedHeight(frame.width, frame.Height(), TargetWidth);
                                    if h <= 720 then h else h - 720)
  {
    var rotated := enhance(RotateCw(frame));
    var h := ResizedHeight(frame.width, frame.Height(), TargetWidth);
    assert rotated.width == frame.Height() && rotated.Height() == frame.width;
    assert ProcessForA4(rotated, Planes(3), resample).Ok?;
  }
}
