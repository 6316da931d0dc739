/**
  The arithmetic shared by the two A4 crop routines: scaling an image to a
  fixed width, converting millimetres of the 210 mm wide A4 sheet to
  pixels, and Python's row slicing.
 */
module A4Crop {
  import opened Raster

  /** Width of an A4 sheet in millimetres. */
  const A4WidthMm: nat := 210

  /**
    The axes of the NumPy array behind an image, which the pixel grid does
    not record: a 2-D array has no channel axis, a 3-D one has `channels`.
   */
  datatype Axes = Plane | Planes(channels: nat)

  /** Errors the A4 routines raise. */
  datatype A4Error =
    | ShapeUnpack  // `h, w, _ = shape` on an array that is not 3-D: ValueError
    | ZeroWidth    // `target_width / w` with `w == 0`: ZeroDivisionError
    | EmptyResize  // `cv2.resize` asked for an image with no rows or no columns

  /**
    `int(h * (target_width / w))`: the height that keeps the aspect ratio at
    the new width, rounded down.
   */
  function ResizedHeight(h: nat, w: nat, targetWidth: nat): (r: nat)
    requires w > 0
    ensures r * w <= h * targetWidth < r * w + w
  {
    h * targetWidth / w
  }

  /** `int(mm * (target_width / 210))`: millimetres of the sheet as pixels, rounded down. */
  function MmToPx(mm: nat, targetWidth: nat): (r: nat)
    ensures r * A4WidthMm <= mm * targetWidth < r * A4WidthMm + A4WidthMm
  {
    mm * targetWidth / A4WidthMm
  }

  /** `img[start:end, :]` with Python's clamping of out-of-range bounds. */
  function SliceRows<T>(img: Image<T>, start: nat, end: nat): (r: Image<T>)
    ensures r.width == img.width
    ensures start <= end <= img.Height() ==> r.Height() == end - start
    ensures end <= start ==> r.Height() == 0
    ensures r.Height() <= img.Height()
    ensures forall i :: 0 <= i < r.Height() ==> start + i < img.Height() && r.rows[i] == img.rows[start + i]
    ensures img.Valid() ==> r.Valid()
  {
    var s := if start < img.Height() then start else img.Height();
    var e := if end < img.Height() then end else img.Height();
    if s < e then Image(img.width, img.rows[s..e]) else Image(img.width, [])
  }

  /** Whether a resize produced exactly the requested shape, as `cv2.resize` does. */
  predicate Shaped<T>(img: Image<T>, width: nat, height: nat)
  {
    img.Valid() && img.width == width && img.Height() == height
  }
}
