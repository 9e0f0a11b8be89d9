/**
 * zoom (fb.cpp:233-251): shave round(0.5*n*(zoom-1)) rows and columns from
 * each edge, then resize the cropped region back to the original size.
 */
module ZoomCrop {
  import opened Numbers
  import opened Images
  import opened Wrappers
  import opened Engines

  /** (int)(0.5 + 0.5*n*(zoom-1.0)), the shave fb.cpp:246-247 computes for a dimension of n. */
  function SourceShave(n: nat, zoom: real): (s: int)
    ensures zoom >= 1.0 ==> s >= 0
    ensures zoom == 1.0 ==> s == 0
  {
    TruncToInt(0.5 + 0.5 * n as real * (zoom - 1.0))
  }

  /** Below a factor of 2 the two shaves never overlap: at most every index is shaved away. */
  lemma ShaveBelowTwo(n: nat, zoom: real)
    requires 1.0 <= zoom < 2.0
    ensures 0 <= 2 * SourceShave(n, zoom) <= n
  {
    var a := n as real;
    var x := 0.5 * a * (zoom - 1.0);
    ShaveTermBounds(a, zoom, x);
    TruncBelowHalf(n, x);
  }

  /** The truncation of 0.5 + x, for 0 <= x below n/2 (or x = 0 when n = 0), is at most n/2. */
  lemma TruncBelowHalf(n: nat, x: real)
    requires 0.0 <= x <= 0.5 * n as real
    requires n > 0 ==> x < 0.5 * n as real
    ensures 0 <= 2 * TruncToInt(0.5 + x) <= n
  {
    var s := TruncToInt(0.5 + x);
    assert s as real <= 0.5 + x;
    if n > 0 {
      assert (2 * s) as real < 1.0 + n as real;
    }
  }

  /** x = 0.5*a*(zoom-1) lies in [0, a/2], strictly below a/2 when a > 0. */
  lemma ShaveTermBounds(a: real, zoom: real, x: real)
    requires 0.0 <= a && 1.0 <= zoom < 2.0 && x == 0.5 * a * (zoom - 1.0)
    ensures 0.0 <= x <= 0.5 * a
    ensures a > 0.0 ==> x < 0.5 * a
  {
    ProductBounds(a, zoom - 1.0);
  }

  lemma ProductBounds(a: real, w: real)
    requires 0.0 <= a && 0.0 <= w < 1.0
    ensures 0.0 <= a * w <= a
    ensures a > 0.0 ==> a * w < a
  {
    assert a - a * w == a * (1.0 - w);
  }

  /** At a factor of exactly 2, twice the shave is n (n even) or n + 1 (n odd). */
  lemma ShaveAtTwo(n: nat)
    ensures 2 * SourceShave(n, 2.0) == if n % 2 == 0 then n else n + 1
  {
    var s := SourceShave(n, 2.0);
    assert 0.5 + 0.5 * n as real * (2.0 - 1.0) == 0.5 + 0.5 * n as real;
    assert s as real <= 0.5 + 0.5 * n as real < s as real + 1.0;
    if n % 2 == 0 {
      assert (n / 2) as real <= 0.5 + 0.5 * n as real < (n / 2) as real + 1.0;
    } else {
      assert (n / 2 + 1) as real <= 0.5 + 0.5 * n as real < (n / 2 + 1) as real + 1.0;
    }
  }

  /** seq(lo, hi) indexes something: 0 <= lo <= hi < n. */
  predicate RangeHolds(n: nat, lo: int, hi: int)
  {
    0 <= lo <= hi < n
  }

  /**
   * Rows [sr, rows-sr-1] and columns [sc, cols-sc-1] of `img`: each edge loses
   * exactly its shave.
   */
  function Crop(img: Image, sh: Shape, sr: nat, sc: nat): (r: Image)
    requires HasShape(img, sh) && 2 * sr < sh.rows && 2 * sc < sh.cols
    ensures HasShape(r, Shape(sh.rows - 2 * sr, sh.cols - 2 * sc, sh.depth))
    ensures forall i, j :: 0 <= i < |r| && 0 <= j < |r[i]| ==> r[i][j] == img[i + sr][j + sc]
    ensures sr == 0 && sc == 0 ==> r == img
  {
    var r := seq(sh.rows - 2 * sr, i requires 0 <= i < sh.rows - 2 * sr => img[i + sr][sc .. sh.cols - sc]);
    if sr == 0 && sc == 0 then
      assert forall i | 0 <= i < |r| :: r[i] == img[i];
      r
    else r
  }

  /**
   * The crop as written: ArrayFire rejects an index range that holds no
   * element (reversed or empty), and the zoom then fails (None).
   */
  function ZoomAsWritten(e: Engine, zoom: real, img: Image, sh: Shape): (r: Option<Image>)
    requires HasShape(img, sh) && zoom >= 1.0
    ensures r.Some? <==>
      RangeHolds(sh.rows, SourceShave(sh.rows, zoom), sh.rows - SourceShave(sh.rows, zoom) - 1) &&
      RangeHolds(sh.cols, SourceShave(sh.cols, zoom), sh.cols - SourceShave(sh.cols, zoom) - 1)
  {
    var sr := SourceShave(sh.rows, zoom);
    var sc := SourceShave(sh.cols, zoom);
    if RangeHolds(sh.rows, sr, sh.rows - sr - 1) && RangeHolds(sh.cols, sc, sh.cols - sc - 1) then
      Some(e.resize(Crop(img, sh, sr, sc), sh.rows, sh.cols))
    else None
  }

  /** zoom=2.0 passes validation, yet its crop range is empty or reversed for every image size. */
  lemma ZoomAtTwoFails(e: Engine, img: Image, sh: Shape)
    requires HasShape(img, sh)
    ensures ZoomAsWritten(e, 2.0, img, sh) == None
  {
    ShaveAtTwo(sh.rows);
  }

  /** Below 2 the range is never reversed, but it can still be empty: two rows at zoom 1.5. */
  lemma ZoomEmptyBelowTwo(e: Engine, img: Image, sh: Shape)
    requires HasShape(img, sh) && sh.rows == 2 && sh.cols >= 1
    ensures SourceShave(2, 1.5) == 1
    ensures ZoomAsWritten(e, 1.5, img, sh) == None
  {
    assert 0.5 + 0.5 * 2.0 * (1.5 - 1.0) == 1.0;
  }

  /**
   * The corrected shave: the program's shave wherever its crop keeps a row,
   * otherwise the largest shave that still keeps one.
   */
  function ZoomShave(n: nat, zoom: real): (s: nat)
    requires n >= 1 && zoom >= 1.0
    ensures 2 * s < n
    ensures 2 * SourceShave(n, zoom) < n ==> s == SourceShave(n, zoom)
    ensures zoom == 1.0 ==> s == 0
  {
    var s := SourceShave(n, zoom);
    if 2 * s < n then s else (n - 1) / 2
  }

  /** zoom with the corrected shave: crop symmetrically, resize back to the input's rows and columns. */
  function Zoom(e: Engine, zoom: real, img: Image, sh: Shape): (r: Image)
    requires Sound(e) && HasShape(img, sh) && sh.rows >= 1 && sh.cols >= 1 && zoom >= 1.0
    ensures HasShape(r, sh)
    ensures zoom == 1.0 ==> r == e.resize(img, sh.rows, sh.cols)
  {
    var cropped := Crop(img, sh, ZoomShave(sh.rows, zoom), ZoomShave(sh.cols, zoom));
    e.resize(cropped, sh.rows, sh.cols)
  }

  /** Wherever the program's zoom succeeds, the corrected zoom gives the same image. */
  lemma ZoomAgreesWithSource(e: Engine, zoom: real, img: Image, sh: Shape)
    requires Sound(e) && HasShape(img, sh) && sh.rows >= 1 && sh.cols >= 1 && zoom >= 1.0
    requires ZoomAsWritten(e, zoom, img, sh).Some?
    ensures ZoomAsWritten(e, zoom, img, sh).value == Zoom(e, zoom, img, sh)
  {
  }
}
