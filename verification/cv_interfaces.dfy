/**
  The geometric helpers of `src/interfaces/cv_interfaces.py`:
  `resize_to_a4` and `rotate_image`.
 */
module CvInterfaces {
  import opened Results
  import opened Raster
  import opened A4Crop

  /** The parameters of `resize_to_a4`. */
  datatype A4Params = A4Params(targetWidth: nat, topCropMm: nat, bottomCropMm: nat)

  /** `resize_to_a4`'s defaults: 2100 px wide, 62 mm off the top, 10 mm off the bottom. */
  const Defaults := A4Params(2100, 62, 10)

  /**
    `resize_to_a4(image, target_width, top_crop_mm, bottom_crop_mm)`. The
    pixels `cv2.resize` computes are not modelled: `resample(img, w, h)`
    stands for them, and the contract speaks about its result whenever it
    has the requested shape. `axes` is the input array's layout; OpenCV
    hands a one-channel result back as a 2-D array, so both the input's and
    the result's shape unpacking can raise.
   */
  function ResizeToA4<T>(img: Image<T>, axes: Axes, p: A4Params, resample: (Image<T>, nat, nat) -> Image<T>)
    : (r: Result<Image<T>, A4Error>)
    ensures r == Err(ShapeUnpack) <==>
              axes.Plane? ||
              (axes.channels == 1 && img.width > 0
               && ResizedHeight(img.Height(), img.width, p.targetWidth) > 0)
    ensures r == Err(ZeroWidth) <==> axes.Planes? && img.width == 0
    ensures r == Err(EmptyResize) <==>
              axes.Planes? && img.width > 0 && ResizedHeight(img.Height(), img.width, p.targetWidth) == 0
    ensures r.Ok? ==>
              var h := ResizedHeight(img.Height(), img.width, p.targetWidth);
              var resized := resample(img, p.targetWidth, h);
              var top := MmToPx(p.topCropMm, p.targetWidth);
              var bottom := MmToPx(p.bottomCropMm, p.targetWidth);
              Shaped(resized, p.targetWidth, h) ==>
                && r.value.Valid()
                && r.value.width == p.targetWidth
                && 0 < r.value.Height() <= h
                && (top >= h - bottom ==> r.value == resized)
                && (top < h - bottom ==>
                      && r.value.Height() == h - top - bottom
                      && forall i :: 0 <= i < r.value.Height() ==> r.value.rows[i] == resized.rows[top + i])
  {
    if axes.Plane? then Err(ShapeUnpack)
    else if img.width == 0 then Err(ZeroWidth)
    else
      var newHeight := ResizedHeight(img.Height(), img.width, p.targetWidth);
      if newHeight == 0 then Err(EmptyResize)
      else
        var resized := resample(img, p.targetWidth, newHeight);
        if axes.channels == 1 then Err(ShapeUnpack)
        else
          var top := MmToPx(p.topCropMm, p.targetWidth);
          var bottom := MmToPx(p.bottomCropMm, p.targetWidth);
          var endRow := resized.Height() - bottom;
          if top >= endRow then Ok(resized)
          else Ok(SliceRows(resized, top, endRow))
  }

  /** With the defaults the crop removes 620 px at the top and 100 px at the bottom. */
  lemma DefaultCropAmounts()
    ensures MmToPx(Defaults.topCropMm, Defaults.targetWidth) == 620
    ensures MmToPx(Defaults.bottomCropMm, Defaults.targetWidth) == 100
  {
  }

  /**
    `rotate_image(image, dir)`: `'ccw'` turns a quarter counterclockwise
    (three clockwise quarter turns), `'cw'` a quarter clockwise; any other
    string, `'CW'` included, raises `ValueError`.
   */
  function RotateImage<T>(img: Image<T>, dir: string := "ccw"): (r: Result<Image<T>, RotateError>)
    requires img.Valid()
    ensures r.Ok? <==> dir == "ccw" || dir == "cw"
    ensures r.Err? ==> r.error == InvalidDirection(dir)
    ensures dir == "cw" ==> r == Ok(TurnCw(img, 1))
    ensures dir == "ccw" ==> r == Ok(TurnCw(img, 3))
    ensures r.Ok? ==> r.value.Valid() && r.value.Height() == img.width && r.value.width == img.Height()
  {
    if dir == "ccw" then
      TurnCodes(img);
      Ok(Rotate(img, Rotate90Counterclockwise))
    else if dir == "cw" then
      TurnCodes(img);
      Ok(Rotate(img, Rotate90Clockwise))
    else
      Err(InvalidDirection(dir))
  }

  /** Called without a direction, `rotate_image` turns a quarter counterclockwise. */
  lemma RotateImageDefault<T>(img: Image<T>)
    requires img.Valid()
    ensures RotateImage(img) == Ok(RotateCcw(img))
  {
    TurnCodes(img);
  }

  /** Turning `'cw'` and then `'ccw'` (or the other way round) gives back the image. */
  lemma RotateImageRoundTrip<T>(img: Image<T>)
    requires img.Valid()
    ensures RotateImage(RotateImage(img, "cw").value, "ccw") == Ok(img)
    ensures RotateImage(RotateImage(img, "ccw").value, "cw") == Ok(img)
  {
    TurnCodes(img);
    TurnCodes(RotateCw(img));
    TurnCodes(RotateCcw(img));
    CcwUndoesCw(img);
    CwUndoesCcw(img);
  }
}
