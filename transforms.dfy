/**
 * The per-frame transforms of fb.cpp whose rules are plain arithmetic, and the
 * arithmetic around the ones that call into ArrayFire (an `Engine`).
 */
module Transforms {
  import opened Numbers
  import opened Images
  import opened Wrappers
  import opened Engines

  // ---------------------------------------------------------------------------
  // clip (fb.cpp:154-163): `replace(img, img < 1.0, one)` keeps the elements
  // below 1.0 and overwrites every other element with 1.0.

  function ClipValue(x: real): real
  {
    if x < 1.0 then x else 1.0
  }

  function ClipPixel(p: Pixel): (q: Pixel)
    ensures |q| == |p| && forall k :: 0 <= k < |q| ==> q[k] == ClipValue(p[k])
  {
    seq(|p|, k requires 0 <= k < |p| => ClipValue(p[k]))
  }

  /** The clipped image: an upper clamp at 1.0 and no lower clamp. */
  function Clipped(img: Image): (r: Image)
    ensures SameShape(r, img)
    ensures forall i, j, k :: 0 <= i < |r| && 0 <= j < |r[i]| && 0 <= k < |r[i][j]| ==> r[i][j][k] <= 1.0
    ensures forall i, j, k :: 0 <= i < |r| && 0 <= j < |r[i]| && 0 <= k < |r[i][j]| && img[i][j][k] < 1.0 ==>
              r[i][j][k] == img[i][j][k]
    ensures forall i, j, k :: 0 <= i < |r| && 0 <= j < |r[i]| && 0 <= k < |r[i][j]| && img[i][j][k] >= 1.0 ==>
              r[i][j][k] == 1.0
  {
    seq(|img|, i requires 0 <= i < |img| =>
      seq(|img[i]|, j requires 0 <= j < |img[i]| => ClipPixel(img[i][j])))
  }

  lemma {:induction false} ClippedIdempotent(img: Image)
    ensures Clipped(Clipped(img)) == Clipped(img)
  {
    var c := Clipped(img);
    var cc := Clipped(c);
    assert |cc| == |c|;
    forall i | 0 <= i < |c| ensures cc[i] == c[i] {
      assert |cc[i]| == |c[i]|;
      forall j | 0 <= j < |c[i]| ensures cc[i][j] == c[i][j] {
        assert |cc[i][j]| == |c[i][j]|;
        forall k | 0 <= k < |c[i][j]| ensures cc[i][j][k] == c[i][j][k] {
          assert c[i][j][k] <= 1.0;
        }
      }
    }
  }

  /** clip as the program runs it: the image's elements are overwritten in place, row by row. */
  method Clip(img: Image) returns (out: Image)
    ensures out == Clipped(img)
  {
    out := img;
    var i := 0;
    while i < |out|
      invariant 0 <= i <= |out| == |img|
      invariant forall r :: 0 <= r < i ==> out[r] == Clipped(img)[r]
      invariant forall r :: i <= r < |out| ==> out[r] == img[r]
    {
      var row := out[i];
      var j := 0;
      while j < |row|
        invariant 0 <= j <= |row| == |img[i]|
        invariant forall c :: 0 <= c < j ==> row[c] == ClipPixel(img[i][c])
        invariant forall c :: j <= c < |row| ==> row[c] == img[i][c]
      {
        row := row[j := ClipPixel(row[j])];
        j := j + 1;
      }
      assert row == Clipped(img)[i];
      out := out[i := row];
      i := i + 1;
    }
  }

  /**
   * The shape of the constant `one` that clip hands to `replace` (fb.cpp:65):
   * it is built during static initialisation, from the default rows and
   * columns (fb.cpp:22-23) and three channels, before any argument is read.
   */
  const OneShape: Shape := Shape(1080, 1920, 3)

  /**
   * clip as written: `replace` needs its arguments to agree in shape, so the
   * call fails (None) for every image whose shape differs from `one`'s.
   */
  function ClipAgainstOne(img: Image, sh: Shape): (r: Option<Image>)
    requires HasShape(img, sh)
    ensures r.Some? <==> sh == OneShape
    ensures r.Some? ==> r.value == Clipped(img)
  {
    if sh == OneShape then Some(Clipped(img)) else None
  }

  /** A greyscale run in dump mode (--depth=1 --dump=dir) reaches clip with a 1080x1920x1 image. */
  lemma GreyscaleDumpClipFails(img: Image)
    requires HasShape(img, Shape(1080, 1920, 1))
    ensures ClipAgainstOne(img, Shape(1080, 1920, 1)) == None
  {
  }

  // ---------------------------------------------------------------------------
  // blend (fb.cpp:173-176): param.blend*img + (1.0-param.blend)*image, where
  // `image` is the frame as it was before the tick began.

  function Blend(b: real, cur: Image, prev: Image): (r: Image)
    requires SameShape(cur, prev)
    ensures SameShape(r, cur)
    ensures b == 1.0 ==> r == cur
    ensures b == 0.0 ==> r == prev
    ensures 0.0 <= b <= 1.0 ==>
      forall i, j, k :: 0 <= i < |r| && 0 <= j < |r[i]| && 0 <= k < |r[i][j]| ==>
        Min(cur[i][j][k], prev[i][j][k]) <= r[i][j][k] <= Max(cur[i][j][k], prev[i][j][k])
  {
    var r := seq(|cur|, i requires 0 <= i < |cur| =>
      seq(|cur[i]|, j requires 0 <= j < |cur[i]| =>
        seq(|cur[i][j]|, k requires 0 <= k < |cur[i][j]| => b * cur[i][j][k] + (1.0 - b) * prev[i][j][k])));
    BlendBounds(b, cur, prev, r);
    r
  }

  lemma BlendBounds(b: real, cur: Image, prev: Image, r: Image)
    requires SameShape(cur, prev) && SameShape(r, cur)
    requires forall i, j, k :: 0 <= i < |r| && 0 <= j < |r[i]| && 0 <= k < |r[i][j]| ==>
               r[i][j][k] == b * cur[i][j][k] + (1.0 - b) * prev[i][j][k]
    ensures b == 1.0 ==> r == cur
    ensures b == 0.0 ==> r == prev
    ensures 0.0 <= b <= 1.0 ==>
      forall i, j, k :: 0 <= i < |r| && 0 <= j < |r[i]| && 0 <= k < |r[i][j]| ==>
        Min(cur[i][j][k], prev[i][j][k]) <= r[i][j][k] <= Max(cur[i][j][k], prev[i][j][k])
  {
    if b == 1.0 {
      forall i | 0 <= i < |r| ensures r[i] == cur[i] {
        forall j | 0 <= j < |r[i]| ensures r[i][j] == cur[i][j] {
          assert forall k | 0 <= k < |r[i][j]| :: r[i][j][k] == cur[i][j][k];
        }
      }
    }
    if b == 0.0 {
      forall i | 0 <= i < |r| ensures r[i] == prev[i] {
        forall j | 0 <= j < |r[i]| ensures r[i][j] == prev[i][j] {
          assert forall k | 0 <= k < |r[i][j]| :: r[i][j][k] == prev[i][j][k];
        }
      }
    }
    if 0.0 <= b <= 1.0 {
      forall i, j, k | 0 <= i < |r| && 0 <= j < |r[i]| && 0 <= k < |r[i][j]|
        ensures Min(cur[i][j][k], prev[i][j][k]) <= r[i][j][k] <= Max(cur[i][j][k], prev[i][j][k])
      {
        ConvexMix(b, cur[i][j][k], prev[i][j][k]);
      }
    }
  }

  lemma ConvexMix(b: real, x: real, y: real)
    requires 0.0 <= b <= 1.0
    ensures Min(x, y) <= b * x + (1.0 - b) * y <= Max(x, y)
  {
    var m := b * x + (1.0 - b) * y;
    assert m - y == b * (x - y);
    assert m - x == (1.0 - b) * (y - x);
    if x <= y {
      MulNonNeg(b, y - x);
      MulNonNeg(1.0 - b, y - x);
    } else {
      MulNonNeg(b, x - y);
      MulNonNeg(1.0 - b, x - y);
    }
  }

  lemma MulNonNeg(a: real, c: real)
    requires 0.0 <= a && 0.0 <= c
    ensures 0.0 <= a * c
  {
  }

  // ---------------------------------------------------------------------------
  // invert (fb.cpp:67-89)

  /** Greyscale invert: every value x becomes 1 - x. */
  function InvertGrey(img: Image): (r: Image)
    ensures SameShape(r, img)
    ensures forall i, j, k :: 0 <= i < |r| && 0 <= j < |r[i]| && 0 <= k < |r[i][j]| ==>
              r[i][j][k] + img[i][j][k] == 1.0
  {
    MapValues(img, x => 1.0 - x)
  }

  lemma {:induction false} InvertGreyInvolution(img: Image)
    ensures InvertGrey(InvertGrey(img)) == img
  {
    var once := InvertGrey(img);
    var twice := InvertGrey(once);
    forall i | 0 <= i < |img| ensures twice[i] == img[i] {
      forall j | 0 <= j < |img[i]| ensures twice[i][j] == img[i][j] {
        forall k | 0 <= k < |img[i][j]| ensures twice[i][j][k] == img[i][j][k] {
          assert once[i][j][k] + img[i][j][k] == 1.0;
        }
      }
    }
  }

  /** Inverting greyscale values in [0,1] leaves them in [0,1]. */
  lemma InvertGreyInRange(img: Image)
    requires forall i, j, k :: 0 <= i < |img| && 0 <= j < |img[i]| && 0 <= k < |img[i][j]| ==> 0.0 <= img[i][j][k] <= 1.0
    ensures var r := InvertGrey(img);
      forall i, j, k :: 0 <= i < |r| && 0 <= j < |r[i]| && 0 <= k < |r[i][j]| ==> 0.0 <= r[i][j][k] <= 1.0
  {
  }

  /** Colour invert: in HSV, the value channel V (channel 2) becomes 1 - V; hue and saturation are kept. */
  function InvertValueChannel(hsv: Image, sh: Shape): (r: Image)
    requires HasShape(hsv, sh) && sh.depth == 3
    ensures HasShape(r, sh)
    ensures forall i, j :: 0 <= i < |r| && 0 <= j < |r[i]| ==>
              r[i][j][0] == hsv[i][j][0] && r[i][j][1] == hsv[i][j][1] && r[i][j][2] == 1.0 - hsv[i][j][2]
  {
    var v := Channel(hsv, 2);
    WithChannel(hsv, 2, seq(|v|, i requires 0 <= i < |v| => seq(|v[i]|, j requires 0 <= j < |v[i]| => 1.0 - v[i][j])))
  }

  function Invert(e: Engine, depth: int, img: Image, sh: Shape): (r: Image)
    requires Sound(e) && HasShape(img, sh) && sh.depth == depth && (depth == 1 || depth == 3)
    ensures HasShape(r, sh)
    ensures depth == 1 ==> r == InvertGrey(img)
  {
    if depth == 1 then
      var r := InvertGrey(img);
      SameShapeHas(r, img, sh);
      r
    else
      e.toRgb(InvertValueChannel(e.toHsv(img), sh))
  }

  /** Greyscale invert twice returns its input. */
  lemma InvertInvolution(e: Engine, img: Image, sh: Shape)
    requires Sound(e) && HasShape(img, sh) && sh.depth == 1
    ensures Invert(e, 1, Invert(e, 1, img, sh), sh) == img
  {
    InvertGreyInvolution(img);
  }

  /**
   * On HSV images the colour step is an involution: flipping V twice gives
   * back the same hue, saturation and value.
   */
  lemma InvertValueChannelInvolution(hsv: Image, sh: Shape)
    requires HasShape(hsv, sh) && sh.depth == 3
    ensures InvertValueChannel(InvertValueChannel(hsv, sh), sh) == hsv
  {
    var twice := InvertValueChannel(InvertValueChannel(hsv, sh), sh);
    forall i | 0 <= i < |twice| ensures twice[i] == hsv[i] {
      forall j | 0 <= j < |twice[i]| ensures twice[i][j] == hsv[i][j] {
        assert |twice[i][j]| == 3 == |hsv[i][j]|;
      }
    }
  }

  // ---------------------------------------------------------------------------
  // noise (fb.cpp:137-151)

  /**
   * The uniform draws one noise call makes: `mask` is randu(rows,cols,1), one
   * value per pixel; `u` is randu(rows,cols,depth), one value per channel.
   */
  datatype NoiseDraw = NoiseDraw(mask: Plane, u: Image)

  predicate NoiseFits(d: NoiseDraw, img: Image)
  {
    PlaneFits(d.mask, img) && SameShape(d.u, img)
  }

  /**
   * img + 2*noise*mask*(u - 0.5), where the mask is true where the per-pixel
   * draw EXCEEDS `mutate`, and is shared by all channels of a pixel.
   */
  function Noise(level: real, mutate: real, d: NoiseDraw, img: Image): (r: Image)
    requires NoiseFits(d, img)
    ensures SameShape(r, img)
    ensures forall i, j :: 0 <= i < |r| && 0 <= j < |r[i]| && !(d.mask[i][j] > mutate) ==> r[i][j] == img[i][j]
    ensures forall i, j, k :: 0 <= i < |r| && 0 <= j < |r[i]| && 0 <= k < |r[i][j]| && d.mask[i][j] > mutate ==>
              r[i][j][k] == img[i][j][k] + 2.0 * level * (d.u[i][j][k] - 0.5)
  {
    seq(|img|, i requires 0 <= i < |img| =>
      seq(|img[i]|, j requires 0 <= j < |img[i]| =>
        var m: real := if d.mask[i][j] > mutate then 1.0 else 0.0;
        seq(|img[i][j]|, k requires 0 <= k < |img[i][j]| => img[i][j][k] + 2.0 * level * m * (d.u[i][j][k] - 0.5))))
  }

  /** With draws in [0,1], no value moves by more than the noise level. */
  lemma NoiseBounded(level: real, mutate: real, d: NoiseDraw, img: Image)
    requires NoiseFits(d, img) && 0.0 <= level
    requires forall i, j, k :: 0 <= i < |d.u| && 0 <= j < |d.u[i]| && 0 <= k < |d.u[i][j]| ==> 0.0 <= d.u[i][j][k] <= 1.0
    ensures var r := Noise(level, mutate, d, img);
      forall i, j, k :: 0 <= i < |r| && 0 <= j < |r[i]| && 0 <= k < |r[i][j]| ==>
        img[i][j][k] - level <= r[i][j][k] <= img[i][j][k] + level
  {
    var r := Noise(level, mutate, d, img);
    forall i, j, k | 0 <= i < |r| && 0 <= j < |r[i]| && 0 <= k < |r[i][j]|
      ensures img[i][j][k] - level <= r[i][j][k] <= img[i][j][k] + level
    {
      if d.mask[i][j] > mutate {
        var t := d.u[i][j][k] - 0.5;
        assert -0.5 <= t <= 0.5;
        assert -level <= 2.0 * level * t <= level by { HalfScale(level, t); }
      }
    }
  }

  lemma HalfScale(level: real, t: real)
    requires 0.0 <= level && -0.5 <= t <= 0.5
    ensures -level <= 2.0 * level * t <= level
  {
    assert 2.0 * level * t == level * (2.0 * t);
  }

  /**
   * The mask polarity: a mutation fraction of 1 (or more) selects no pixel,
   * since randu's per-pixel draws never exceed 1; so does a noise level of 0.
   */
  lemma {:induction false} NoiseIdentityCases(level: real, mutate: real, d: NoiseDraw, img: Image)
    requires NoiseFits(d, img)
    requires level == 0.0 || (1.0 <= mutate && forall i, j :: 0 <= i < |d.mask| && 0 <= j < |d.mask[i]| ==> d.mask[i][j] <= 1.0)
    ensures Noise(level, mutate, d, img) == img
  {
    var r := Noise(level, mutate, d, img);
    forall i | 0 <= i < |r| ensures r[i] == img[i] {
      forall j | 0 <= j < |r[i]| ensures r[i][j] == img[i][j] {
        if d.mask[i][j] > mutate {
          assert level == 0.0;
          forall k | 0 <= k < |r[i][j]| ensures r[i][j][k] == img[i][j][k] {
          }
        }
      }
    }
  }

  // ---------------------------------------------------------------------------
  // sharpen (fb.cpp:184-189): img + sharpen*(img - blurred), blurred by a 3x3 Gaussian.

  function Sharpen(strength: real, img: Image, blurred: Image): (r: Image)
    requires SameShape(blurred, img)
    ensures SameShape(r, img)
    ensures forall i, j, k :: 0 <= i < |r| && 0 <= j < |r[i]| && 0 <= k < |r[i][j]| && blurred[i][j][k] == img[i][j][k] ==>
              r[i][j][k] == img[i][j][k]
    ensures strength == 0.0 ==> r == img
  {
    var r := seq(|img|, i requires 0 <= i < |img| =>
      seq(|img[i]|, j requires 0 <= j < |img[i]| =>
        seq(|img[i][j]|, k requires 0 <= k < |img[i][j]| => img[i][j][k] + strength * (img[i][j][k] - blurred[i][j][k]))));
    if strength == 0.0 then
      assert forall i | 0 <= i < |r| :: r[i] == img[i] by {
        forall i | 0 <= i < |r| ensures r[i] == img[i] {
          assert forall j | 0 <= j < |r[i]| :: r[i][j] == img[i][j];
        }
      }
      r
    else r
  }

  /** The kernel size sharpen blurs with, whatever the configured blur size (fb.cpp:185-188). */
  const SharpenKernel: int := 3

  // ---------------------------------------------------------------------------
  // roll (fb.cpp:165-170)

  /** Degrees to radians, with the program's constant pi. */
  function Radians(degrees: real): (r: real)
    ensures r * 180.0 == degrees * Pi
    ensures degrees == 180.0 ==> r == Pi
    ensures degrees == 0.0 ==> r == 0.0
  {
    degrees * Pi / 180.0
  }

  // ---------------------------------------------------------------------------
  // histeq (fb.cpp:191-231)

  /**
   * Histogram equalisation.  Greyscale: the image scaled to [0,255], equalised
   * and divided by 255.  Colour: only the HSV value channel, scaled to [0,255],
   * equalised and divided by 256; hue and saturation are kept.
   */
  function HistEq(e: Engine, depth: int, img: Image, sh: Shape): (r: Image)
    requires Sound(e) && HasShape(img, sh) && sh.depth == depth && (depth == 1 || depth == 3)
    ensures HasShape(r, sh)
  {
    if depth == 1 then
      var v := ScalePlane(Channel(img, 0), 255.0);
      EqualizeShape(e, v, sh.rows, sh.cols);
      FromPlane(ScalePlane(e.equalize(v), 1.0 / 255.0))
    else
      var hsv := e.toHsv(img);
      var out := EqualizedValue(e, hsv, sh);
      SameShapeHas(out, hsv, sh);
      e.toRgb(out)
  }

  lemma EqualizeShape(e: Engine, pl: Plane, rows: nat, cols: nat)
    requires Sound(e) && PlaneHasShape(pl, rows, cols)
    ensures PlaneHasShape(e.equalize(pl), rows, cols)
  {
  }

  /**
   * The colour path inside HSV: hue and saturation are kept, and V becomes
   * the equalised value channel divided by 256 rather than 255.
   */
  function EqualizedValue(e: Engine, hsv: Image, sh: Shape): (r: Image)
    requires Sound(e) && HasShape(hsv, sh) && sh.depth == 3
    ensures SameShape(r, hsv)
    ensures var eq := e.equalize(ScalePlane(Channel(hsv, 2), 255.0));
      forall i, j :: 0 <= i < |r| && 0 <= j < |r[i]| && i < |eq| && j < |eq[i]| ==>
        r[i][j][0] == hsv[i][j][0] && r[i][j][1] == hsv[i][j][1] && r[i][j][2] == eq[i][j] / 256.0
  {
    var v := ScalePlane(Channel(hsv, 2), 255.0);
    EqualizeShape(e, v, sh.rows, sh.cols);
    WithChannel(hsv, 2, ScalePlane(e.equalize(v), 1.0 / 256.0))
  }

  // ---------------------------------------------------------------------------
  // crawl (fb.cpp:91-135)

  /** The radius of a pixel's offset, from its saturation and value. */
  function CrawlDistance(ds: real, dv: real, dsv: real, d: real, s: real, v: real): real
  {
    ds * s + dv * v + dsv * s * v + d
  }

  /**
   * The continuous coordinates each output pixel is looked up at: its own row
   * and column (iota), offset by (distance*sin(angle), distance*cos(angle))
   * with angle = 2*pi*hue.
   */
  function CrawlIndices(e: Engine, ds: real, dv: real, dsv: real, d: real, hsv: Image, sh: Shape): (r: (Plane, Plane))
    requires HasShape(hsv, sh) && sh.depth == 3
    ensures PlaneHasShape(r.0, sh.rows, sh.cols) && PlaneHasShape(r.1, sh.rows, sh.cols)
    ensures ds == 0.0 && dv == 0.0 && dsv == 0.0 && d == 0.0 ==>
      forall i, j :: 0 <= i < sh.rows && 0 <= j < sh.cols ==> r.0[i][j] == i as real && r.1[i][j] == j as real
  {
    var rows := seq(sh.rows, i requires 0 <= i < sh.rows => seq(sh.cols, j requires 0 <= j < sh.cols =>
      var p := hsv[i][j];
      i as real + CrawlDistance(ds, dv, dsv, d, p[1], p[2]) * e.sin(2.0 * Pi * p[0])));
    var cols := seq(sh.rows, i requires 0 <= i < sh.rows => seq(sh.cols, j requires 0 <= j < sh.cols =>
      var p := hsv[i][j];
      j as real + CrawlDistance(ds, dv, dsv, d, p[1], p[2]) * e.cos(2.0 * Pi * p[0])));
    (rows, cols)
  }

  /** crawl: greyscale images are returned as they are; colour images are looked up at the crawled coordinates. */
  function Crawl(e: Engine, ds: real, dv: real, dsv: real, d: real, depth: int, img: Image, sh: Shape): (r: Image)
    requires Sound(e) && HasShape(img, sh) && sh.depth == depth && (depth == 1 || depth == 3)
    ensures HasShape(r, sh)
    ensures depth == 1 ==> r == img
  {
    if depth == 1 then img
    else
      var idx := CrawlIndices(e, ds, dv, dsv, d, e.toHsv(img), sh);
      e.approx2(img, idx.0, idx.1)
  }
}
