/**
  Images as pixel grids and OpenCV's three quarter-turn rotations
  (`cv2.ROTATE_90_CLOCKWISE`, `cv2.ROTATE_180`, `cv2.ROTATE_90_COUNTERCLOCKWISE`).
  A pixel is any value: the channels of a colour image ride along unchanged.
 */
module Raster {

  /**
    An image of `|rows|` rows of `width` pixels each. The width is kept
    apart from the rows, as in a NumPy shape, so that an image with no rows
    still has one.
   */
  datatype Image<T> = Image(width: nat, rows: seq<seq<T>>) {

    function Height(): nat { |rows| }

    /** Every row is `width` pixels long. */
    predicate Valid()
    {
      forall i :: 0 <= i < |rows| ==> |rows[i]| == width
    }
  }

  /** The `ValueError`s of the two rotation front ends. */
  datatype RotateError = InvalidDirection(dir: string) | InvalidAngle(angle: int)

  /** The three rotation codes OpenCV offers. */
  datatype RotateCode = Rotate90Clockwise | Rotate180 | Rotate90Counterclockwise

  /** `cv2.rotate(img, cv2.ROTATE_90_CLOCKWISE)`: output pixel `(i, j)` is input pixel `(H-1-j, i)`. */
  function RotateCw<T>(img: Image<T>): (r: Image<T>)
    requires img.Valid()
    ensures r.Valid()
    ensures r.Height() == img.width && r.width == img.Height()
  {
    var h := img.Height();
    Image(h, seq(img.width, i requires 0 <= i < img.width =>
                 seq(h, j requires 0 <= j < h => img.rows[h - 1 - j][i])))
  }

  /** `cv2.rotate(img, cv2.ROTATE_90_COUNTERCLOCKWISE)`: output pixel `(i, j)` is input pixel `(j, W-1-i)`. */
  function RotateCcw<T>(img: Image<T>): (r: Image<T>)
    requires img.Valid()
    ensures r.Valid()
    ensures r.Height() == img.width && r.width == img.Height()
  {
    var h := img.Height();
    var w := img.width;
    Image(h, seq(w, i requires 0 <= i < w =>
                 seq(h, j requires 0 <= j < h => img.rows[j][w - 1 - i])))
  }

  /** `cv2.rotate(img, cv2.ROTATE_180)`: output pixel `(i, j)` is input pixel `(H-1-i, W-1-j)`. */
  function Rotate180<T>(img: Image<T>): (r: Image<T>)
    requires img.Valid()
    ensures r.Valid()
    ensures r.Height() == img.Height() && r.width == img.width
  {
    var h := img.Height();
    var w := img.width;
    Image(w, seq(h, i requires 0 <= i < h =>
                 seq(w, j requires 0 <= j < w => img.rows[h - 1 - i][w - 1 - j])))
  }

  /** The reference meaning of rotating: `n` successive clockwise quarter turns. */
  function TurnCw<T>(img: Image<T>, n: nat): (r: Image<T>)
    requires img.Valid()
    ensures r.Valid()
  {
    if n == 0 then img else RotateCw(TurnCw(img, n - 1))
  }

  /** How many clockwise quarter turns a code stands for. */
  function QuarterTurns(code: RotateCode): nat
  {
    match code
    case Rotate90Clockwise => 1
    case Rotate180 => 2
    case Rotate90Counterclockwise => 3
  }

  /** Two images are equal when their shapes and all their pixels are. */
  lemma ImageExt<T>(a: Image<T>, b: Image<T>)
    requires a.Valid() && b.Valid()
    requires a.width == b.width && a.Height() == b.Height()
    requires forall i, j :: 0 <= i < a.Height() && 0 <= j < a.width ==> a.rows[i][j] == b.rows[i][j]
    ensures a == b
  {
    forall i | 0 <= i < a.Height()
      ensures a.rows[i] == b.rows[i]
    {
      assert forall j :: 0 <= j < a.width ==> a.rows[i][j] == b.rows[i][j];
    }
    assert a.rows == b.rows;
  }

  /** Clockwise moves the input pixel at row `y`, column `x` to row `x`, column `H-1-y`. */
  lemma CwMovesPixel<T>(img: Image<T>, y: nat, x: nat)
    requires img.Valid()
    requires y < img.Height() && x < img.width
    ensures RotateCw(img).rows[x][img.Height() - 1 - y] == img.rows[y][x]
  {
  }

  /** Counterclockwise moves the input pixel at row `y`, column `x` to row `W-1-x`, column `y`. */
  lemma CcwMovesPixel<T>(img: Image<T>, y: nat, x: nat)
    requires img.Valid()
    requires y < img.Height() && x < img.width
    ensures RotateCcw(img).rows[img.width - 1 - x][y] == img.rows[y][x]
  {
  }

  /** A clockwise turn followed by a counterclockwise one restores the image. */
  lemma CcwUndoesCw<T>(img: Image<T>)
    requires img.Valid()
    ensures RotateCcw(RotateCw(img)) == img
  {
    var r := RotateCcw(RotateCw(img));
    forall i, j | 0 <= i < img.Height() && 0 <= j < img.width
      ensures r.rows[i][j] == img.rows[i][j]
    {
      assert r.rows[i][j] == RotateCw(img).rows[j][img.Height() - 1 - i];
    }
    ImageExt(r, img);
  }

  /** A counterclockwise turn followed by a clockwise one restores the image. */
  lemma CwUndoesCcw<T>(img: Image<T>)
    requires img.Valid()
    ensures RotateCw(RotateCcw(img)) == img
  {
    var r := RotateCw(RotateCcw(img));
    forall i, j | 0 <= i < img.Height() && 0 <= j < img.width
      ensures r.rows[i][j] == img.rows[i][j]
    {
      assert r.rows[i][j] == RotateCcw(img).rows[img.width - 1 - j][i];
    }
    ImageExt(r, img);
  }

  /** A half turn is two clockwise quarter turns. */
  lemma HalfTurnIsTwoCw<T>(img: Image<T>)
    requires img.Valid()
    ensures Rotate180(img) == RotateCw(RotateCw(img))
  {
    var a := Rotate180(img);
    var b := RotateCw(RotateCw(img));
    var h := img.Height();
    forall i, j | 0 <= i < h && 0 <= j < img.width
      ensures a.rows[i][j] == b.rows[i][j]
    {
      assert b.rows[i][j] == RotateCw(img).rows[img.width - 1 - j][i];
    }
    ImageExt(a, b);
  }

  /** A counterclockwise quarter turn is three clockwise ones. */
  lemma CcwIsThreeCw<T>(img: Image<T>)
    requires img.Valid()
    ensures RotateCcw(img) == RotateCw(RotateCw(RotateCw(img)))
  {
    HalfTurnIsTwoCw(img);
    var half := Rotate180(img);
    var a := RotateCcw(img);
    var b := RotateCw(half);
    forall i, j | 0 <= i < a.Height() && 0 <= j < a.width
      ensures a.rows[i][j] == b.rows[i][j]
    {
      assert b.rows[i][j] == half.rows[half.Height() - 1 - j][i];
    }
    ImageExt(a, b);
  }

  /** One, two and three clockwise quarter turns are OpenCV's three codes. */
  lemma TurnCodes<T>(img: Image<T>)
    requires img.Valid()
    ensures TurnCw(img, 1) == RotateCw(img)
    ensures TurnCw(img, 2) == Rotate180(img)
    ensures TurnCw(img, 3) == RotateCcw(img)
  {
    HalfTurnIsTwoCw(img);
    CcwIsThreeCw(img);
    assert TurnCw(img, 1) == RotateCw(img);
    assert TurnCw(img, 2) == RotateCw(TurnCw(img, 1));
    assert TurnCw(img, 3) == RotateCw(TurnCw(img, 2));
  }

  /**
    `cv2.rotate(img, code)`: the code's number of clockwise quarter turns,
    so a half turn keeps the shape and a quarter turn swaps it.
   */
  function Rotate<T>(img: Image<T>, code: RotateCode): (r: Image<T>)
    requires img.Valid()
    ensures r == TurnCw(img, QuarterTurns(code))
    ensures code.Rotate180? ==> r.Height() == img.Height() && r.width == img.width
    ensures !code.Rotate180? ==> r.Height() == img.width && r.width == img.Height()
  {
    TurnCodes(img);
    match code
    case Rotate90Clockwise => RotateCw(img)
    case Rotate180 => Rotate180(img)
    case Rotate90Counterclockwise => RotateCcw(img)
  }

  /** Four clockwise quarter turns restore the image. */
  lemma FullTurn<T>(img: Image<T>)
    requires img.Valid()
    ensures TurnCw(img, 4) == img
  {
    CcwIsThreeCw(img);
    CwUndoesCcw(img);
    assert TurnCw(img, 1) == RotateCw(img);
    assert TurnCw(img, 2) == RotateCw(TurnCw(img, 1));
    assert TurnCw(img, 3) == RotateCw(TurnCw(img, 2));
  }
}
