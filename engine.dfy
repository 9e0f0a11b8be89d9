/**
 * The ArrayFire primitives fb.cpp calls, as parameters of the model.  Their
 * numerical methods are not modelled; `Sound` states the one property of
 * each that the program relies on: the shape of the array it returns.
 */
module Engines {
  import opened Images

  datatype Engine = Engine(
    /** convolve2(x, gaussianKernel(k, k)): same-size Gaussian convolution. */
    gaussConvolve: (Image, int) -> Image,
    /** rotate(x, radians, true, AF_INTERP_BICUBIC): rotation cropped to the input size. */
    rotate: (Image, real) -> Image,
    /** resize(x, rows, cols). */
    resize: (Image, nat, nat) -> Image,
    /** colorSpace(x, AF_HSV, AF_RGB). */
    toHsv: Image -> Image,
    /** colorSpace(x, AF_RGB, AF_HSV). */
    toRgb: Image -> Image,
    /** histEqual(v, histogram(v, 256, 0, 255)) on one channel scaled to [0,255]. */
    equalize: Plane -> Plane,
    /** approx2(x, rowIndices, colIndices): lookup at continuous coordinates. */
    approx2: (Image, Plane, Plane) -> Image,
    cos: real -> real,
    sin: real -> real)

  ghost predicate KeepsShape(f: (Image, int) -> Image)
  {
    forall x, k, sh :: HasShape(x, sh) ==> HasShape(f(x, k), sh)
  }

  ghost predicate RotateKeepsShape(f: (Image, real) -> Image)
  {
    forall x, a, sh :: HasShape(x, sh) ==> HasShape(f(x, a), sh)
  }

  /** A resize of an image with at least one pixel has the requested rows and columns and the input's channels. */
  ghost predicate ResizeGivesShape(f: (Image, nat, nat) -> Image)
  {
    forall x, sh, r, c :: HasShape(x, sh) && sh.rows > 0 && sh.cols > 0 ==> HasShape(f(x, r, c), Shape(r, c, sh.depth))
  }

  /** A colour-space conversion maps a three-channel image to one of the same shape. */
  ghost predicate ConvertsColour(f: Image -> Image)
  {
    forall x, sh :: HasShape(x, sh) && sh.depth == 3 ==> HasShape(f(x), sh)
  }

  ghost predicate EqualizeKeepsShape(f: Plane -> Plane)
  {
    forall pl, r, c :: PlaneHasShape(pl, r, c) ==> PlaneHasShape(f(pl), r, c)
  }

  /** A lookup with one coordinate pair per pixel returns an image of the input's shape. */
  ghost predicate LookupKeepsShape(f: (Image, Plane, Plane) -> Image)
  {
    forall x, ri, ci, sh :: HasShape(x, sh) && PlaneHasShape(ri, sh.rows, sh.cols) && PlaneHasShape(ci, sh.rows, sh.cols) ==>
      HasShape(f(x, ri, ci), sh)
  }

  ghost predicate Sound(e: Engine)
  {
    && KeepsShape(e.gaussConvolve)
    && RotateKeepsShape(e.rotate)
    && ResizeGivesShape(e.resize)
    && ConvertsColour(e.toHsv)
    && ConvertsColour(e.toRgb)
    && EqualizeKeepsShape(e.equalize)
    && LookupKeepsShape(e.approx2)
  }
}
