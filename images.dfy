/**
 * Images as nested sequences of exact reals.  A pixel holds one value per
 * channel: one for a greyscale image, three for an RGB (or HSV) image.
 */
module Images {

  type Pixel = seq<real>

  /** One channel of an image, or any per-pixel field of reals. */
  type Plane = seq<seq<real>>

  /** Rows of columns of pixels. */
  type Image = seq<seq<Pixel>>

  /** The dimensions ArrayFire reports for an image: rows, columns, channels. */
  datatype Shape = Shape(rows: nat, cols: nat, depth: nat)

  predicate HasShape(img: Image, sh: Shape)
  {
    && |img| == sh.rows
    && (forall i :: 0 <= i < |img| ==> |img[i]| == sh.cols)
    && (forall i, j :: 0 <= i < |img| && 0 <= j < |img[i]| ==> |img[i][j]| == sh.depth)
  }

  predicate PlaneHasShape(pl: Plane, rows: nat, cols: nat)
  {
    |pl| == rows && forall i :: 0 <= i < |pl| ==> |pl[i]| == cols
  }

  /** `a` and `b` have the same rows, the same columns and the same channels. */
  predicate SameShape(a: Image, b: Image)
  {
    && |a| == |b|
    && (forall i :: 0 <= i < |a| ==> |a[i]| == |b[i]|)
    && (forall i, j :: 0 <= i < |a| && 0 <= j < |a[i]| ==> |a[i][j]| == |b[i][j]|)
  }

  /** A plane with one value per pixel of `img`. */
  predicate PlaneFits(pl: Plane, img: Image)
  {
    |pl| == |img| && forall i :: 0 <= i < |pl| ==> |pl[i]| == |img[i]|
  }

  lemma ShapeIsSame(a: Image, b: Image, sh: Shape)
    requires HasShape(a, sh) && HasShape(b, sh)
    ensures SameShape(a, b)
  {
  }

  lemma SameShapeHas(a: Image, b: Image, sh: Shape)
    requires SameShape(a, b) && HasShape(b, sh)
    ensures HasShape(a, sh)
  {
  }

  /** The image with `f` applied to every value of every channel. */
  function MapValues(img: Image, f: real -> real): (r: Image)
    ensures SameShape(r, img)
    ensures forall i, j, k :: 0 <= i < |r| && 0 <= j < |r[i]| && 0 <= k < |r[i][j]| ==>
              r[i][j][k] == f(img[i][j][k])
  {
    seq(|img|, i requires 0 <= i < |img| =>
      seq(|img[i]|, j requires 0 <= j < |img[i]| =>
        seq(|img[i][j]|, k requires 0 <= k < |img[i][j]| => f(img[i][j][k]))))
  }

  /** Channel `c` of every pixel, as a plane. */
  function Channel(img: Image, c: nat): (pl: Plane)
    requires forall i, j :: 0 <= i < |img| && 0 <= j < |img[i]| ==> c < |img[i][j]|
    ensures PlaneFits(pl, img)
    ensures forall i, j :: 0 <= i < |pl| && 0 <= j < |pl[i]| ==> pl[i][j] == img[i][j][c]
  {
    seq(|img|, i requires 0 <= i < |img| =>
      seq(|img[i]|, j requires 0 <= j < |img[i]| => img[i][j][c]))
  }

  /** `img` with channel `c` of every pixel replaced by the value of `pl` there. */
  function WithChannel(img: Image, c: nat, pl: Plane): (r: Image)
    requires PlaneFits(pl, img)
    ensures SameShape(r, img)
    ensures forall i, j, k :: 0 <= i < |r| && 0 <= j < |r[i]| && 0 <= k < |r[i][j]| ==>
              r[i][j][k] == if k == c then pl[i][j] else img[i][j][k]
  {
    seq(|img|, i requires 0 <= i < |img| =>
      seq(|img[i]|, j requires 0 <= j < |img[i]| =>
        seq(|img[i][j]|, k requires 0 <= k < |img[i][j]| =>
          if k == c then pl[i][j] else img[i][j][k])))
  }

  /** A one-channel image holding the values of `pl`. */
  function FromPlane(pl: Plane): (r: Image)
    ensures PlaneFits(pl, r)
    ensures forall i, j :: 0 <= i < |r| && 0 <= j < |r[i]| ==> r[i][j] == [pl[i][j]]
  {
    seq(|pl|, i requires 0 <= i < |pl| =>
      seq(|pl[i]|, j requires 0 <= j < |pl[i]| => [pl[i][j]]))
  }

  /** Every value of `pl` multiplied by `f`. */
  function ScalePlane(pl: Plane, f: real): (r: Plane)
    ensures |r| == |pl| && forall i :: 0 <= i < |r| ==> |r[i]| == |pl[i]|
    ensures forall i, j :: 0 <= i < |r| && 0 <= j < |r[i]| ==> r[i][j] == pl[i][j] * f
  {
    seq(|pl|, i requires 0 <= i < |pl| =>
      seq(|pl[i]|, j requires 0 <= j < |pl[i]| => pl[i][j] * f))
  }
}
