/**
 * run (fb.cpp:272-284): the pipeline is applied left to right, each stage
 * receiving the previous stage's output.
 */
module Pipeline {
  import opened Images
  import opened Engines
  import opened Config
  import opened Wrappers
  import T = Transforms
  import Z = ZoomCrop

  /** What every stage may read: the engine, the shared parameters and the image shape. */
  datatype Env = Env(e: Engine, p: Params, sh: Shape)

  /**
   * The conditions under which the pipeline runs: a sound engine, parameters
   * that passed validation, and images of the configured depth with at least
   * one row and one column.
   */
  ghost predicate EnvOk(env: Env)
  {
    && Sound(env.e)
    && Validate(env.p) == None
    && env.sh.depth == env.p.depth
    && env.sh.rows >= 1 && env.sh.cols >= 1
  }

  /** The draws of one noise call fit an image of shape `sh`. */
  predicate DrawFits(d: T.NoiseDraw, sh: Shape)
  {
    PlaneHasShape(d.mask, sh.rows, sh.cols) && HasShape(d.u, sh)
  }

  predicate DrawsFit(ds: seq<T.NoiseDraw>, sh: Shape)
  {
    forall i :: 0 <= i < |ds| ==> DrawFits(ds[i], sh)
  }

  /**
   * One stage applied to `img`.  `prev` is the frame as it was before the
   * tick: blend reads the global `image`, which run's caller only reassigns
   * after run returns (fb.cpp:175, 433).  `d` holds the draws a noise stage
   * makes.
   */
  function Step(env: Env, prev: Image, st: Stage, d: T.NoiseDraw, img: Image): (r: Image)
    requires EnvOk(env) && HasShape(prev, env.sh) && HasShape(img, env.sh) && DrawFits(d, env.sh)
    ensures HasShape(r, env.sh)
    ensures st == Blend && env.p.blend == 1.0 ==> r == img
    ensures st == Blend && env.p.blend == 0.0 ==> r == prev
    ensures st == Invert && env.p.depth == 1 ==> r == T.InvertGrey(img)
    ensures st == Crawl && env.p.depth == 1 ==> r == img
  {
    var e := env.e;
    var p := env.p;
    var sh := env.sh;
    match st
    case Blur => e.gaussConvolve(img, p.blur)
    case Sharpen =>
      var blurred := e.gaussConvolve(img, T.SharpenKernel);
      ShapeIsSame(blurred, img, sh);
      var r := T.Sharpen(p.sharpen, img, blurred);
      SameShapeHas(r, img, sh);
      r
    case Roll => e.rotate(img, T.Radians(p.roll))
    case Blend =>
      ShapeIsSame(img, prev, sh);
      var r := T.Blend(p.blend, img, prev);
      SameShapeHas(r, img, sh);
      r
    case Zoom => Z.Zoom(e, p.zoom, img, sh)
    case Crawl => T.Crawl(e, p.crawlDs, p.crawlDv, p.crawlDsv, p.crawlD, p.depth, img, sh)
    case Noise =>
      var r := T.Noise(p.noise, p.mutate, d, img);
      SameShapeHas(r, img, sh);
      r
    case HistEq => T.HistEq(e, p.depth, img, sh)
    case Invert => T.Invert(e, p.depth, img, sh)
  }

  /** The pipeline as a left-to-right fold; stage i uses draws[i]. */
  function Fold(env: Env, prev: Image, stages: seq<Stage>, draws: seq<T.NoiseDraw>, img: Image): (r: Image)
    requires EnvOk(env) && HasShape(prev, env.sh) && HasShape(img, env.sh)
    requires |draws| == |stages| && DrawsFit(draws, env.sh)
    ensures HasShape(r, env.sh)
    decreases |stages|
  {
    if stages == [] then img
    else Fold(env, prev, stages[1..], draws[1..], Step(env, prev, stages[0], draws[0], img))
  }

  /** run: `in` is replaced by each stage's output in turn. */
  method Run(env: Env, prev: Image, stages: seq<Stage>, draws: seq<T.NoiseDraw>, input: Image) returns (out: Image)
    requires EnvOk(env) && HasShape(prev, env.sh) && HasShape(input, env.sh)
    requires |draws| == |stages| && DrawsFit(draws, env.sh)
    ensures out == Fold(env, prev, stages, draws, input)
    ensures stages == [] ==> out == input
  {
    var img := input;
    for i := 0 to |stages|
      invariant HasShape(img, env.sh)
      invariant Fold(env, prev, stages[i..], draws[i..], img) == Fold(env, prev, stages, draws, input)
    {
      assert stages[i..][1..] == stages[i + 1..] && draws[i..][1..] == draws[i + 1..];
      img := Step(env, prev, stages[i], draws[i], img);
    }
    out := img;
  }

  /** Running `p + q` is running `q` on the output of `p`. */
  lemma {:induction false} FoldConcat(env: Env, prev: Image, p: seq<Stage>, q: seq<Stage>,
                                      dp: seq<T.NoiseDraw>, dq: seq<T.NoiseDraw>, img: Image)
    requires EnvOk(env) && HasShape(prev, env.sh) && HasShape(img, env.sh)
    requires |dp| == |p| && |dq| == |q| && DrawsFit(dp, env.sh) && DrawsFit(dq, env.sh)
    ensures DrawsFit(dp + dq, env.sh)
    ensures Fold(env, prev, p + q, dp + dq, img) == Fold(env, prev, q, dq, Fold(env, prev, p, dp, img))
    decreases |p|
  {
    assert DrawsFit(dp + dq, env.sh) by {
      forall i | 0 <= i < |dp + dq| ensures DrawFits((dp + dq)[i], env.sh) {
        if i >= |dp| { assert (dp + dq)[i] == dq[i - |dp|]; }
      }
    }
    if p == [] {
      assert p + q == q && dp + dq == dq;
    } else {
      var next := Step(env, prev, p[0], dp[0], img);
      assert (p + q)[1..] == p[1..] + q && (dp + dq)[1..] == dp[1..] + dq;
      FoldConcat(env, prev, p[1..], q, dp[1..], dq, next);
    }
  }

  /** A one-stage pipeline is that stage. */
  lemma FoldSingle(env: Env, prev: Image, st: Stage, d: T.NoiseDraw, img: Image)
    requires EnvOk(env) && HasShape(prev, env.sh) && HasShape(img, env.sh) && DrawFits(d, env.sh)
    ensures DrawsFit([d], env.sh)
    ensures Fold(env, prev, [st], [d], img) == Step(env, prev, st, d, img)
  {
    assert [st][1..] == [] && [d][1..] == [];
  }

  /**
   * With blend=0 and Blend as the last stage, the tick throws away the work
   * of every earlier stage and reproduces the pre-tick frame exactly.
   */
  lemma LastBlendZeroKeepsFrame(env: Env, prev: Image, q: seq<Stage>, draws: seq<T.NoiseDraw>, img: Image)
    requires EnvOk(env) && HasShape(prev, env.sh) && HasShape(img, env.sh)
    requires |draws| == |q| + 1 && DrawsFit(draws, env.sh)
    requires env.p.blend == 0.0
    ensures Fold(env, prev, q + [Blend], draws, img) == prev
  {
    FoldSnoc(env, prev, q, Blend, draws, img);
  }

  /** The last stage of a pipeline is applied to what the stages before it produced. */
  lemma FoldSnoc(env: Env, prev: Image, q: seq<Stage>, st: Stage, draws: seq<T.NoiseDraw>, img: Image)
    requires EnvOk(env) && HasShape(prev, env.sh) && HasShape(img, env.sh)
    requires |draws| == |q| + 1 && DrawsFit(draws, env.sh)
    ensures DrawsFit(draws[.. |q|], env.sh) && DrawFits(draws[|q|], env.sh)
    ensures Fold(env, prev, q + [st], draws, img) == Step(env, prev, st, draws[|q|], Fold(env, prev, q, draws[.. |q|], img))
  {
    var dq, dl := draws[.. |q|], draws[|q| ..];
    assert draws == dq + dl;
    assert dl == [draws[|q|]];
    assert DrawsFit(dq, env.sh) by {
      forall i | 0 <= i < |dq| ensures DrawFits(dq[i], env.sh) { assert dq[i] == draws[i]; }
    }
    FoldConcat(env, prev, q, [st], dq, dl, img);
    FoldSingle(env, prev, st, draws[|q|], Fold(env, prev, q, dq, img));
  }

  /** Two consecutive greyscale Invert stages cancel. */
  lemma InvertTwiceCancels(env: Env, prev: Image, draws: seq<T.NoiseDraw>, img: Image)
    requires EnvOk(env) && HasShape(prev, env.sh) && HasShape(img, env.sh)
    requires |draws| == 2 && DrawsFit(draws, env.sh) && env.p.depth == 1
    ensures Fold(env, prev, [Invert, Invert], draws, img) == img
  {
    var once := Step(env, prev, Invert, draws[0], img);
    assert Fold(env, prev, [Invert, Invert], draws, img) == Step(env, prev, Invert, draws[1], once);
    T.InvertGreyInvolution(img);
  }

  /** The default parameters on one-row, one-column greyscale frames. */
  function GreyPixelEnv(e: Engine): (env: Env)
    ensures Sound(e) ==> EnvOk(env)
  {
    Env(e, DefaultParams.(depth := 1), Shape(1, 1, 1))
  }

  /**
   * Order matters: on a one-pixel greyscale frame of 0.2 with blend=0.5,
   * invert-then-blend gives 0.5 while blend-then-invert gives 0.8.
   */
  lemma InvertBlendOrderMatters(e: Engine, draws: seq<T.NoiseDraw>)
    requires Sound(e)
    requires |draws| == 2 && DrawsFit(draws, Shape(1, 1, 1))
    ensures Fold(GreyPixelEnv(e), [[[0.2]]], [Invert, Blend], draws, [[[0.2]]]) == [[[0.5]]]
    ensures Fold(GreyPixelEnv(e), [[[0.2]]], [Blend, Invert], draws, [[[0.2]]]) == [[[0.8]]]
  {
    var env := GreyPixelEnv(e);
    var x: Image := [[[0.2]]];
    assert HasShape(x, env.sh);
    var inv := Step(env, x, Invert, draws[0], x);
    assert inv[0][0][0] == 0.8;
    assert |inv| == 1 && |inv[0]| == 1 && |inv[0][0]| == 1;
    assert inv[0][0] == [0.8];
    assert inv[0] == [[0.8]];
    assert inv == [[[0.8]]];
    var ib := Step(env, x, Blend, draws[1], inv);
    assert ib[0][0][0] == 0.5;
    assert |ib| == 1 && |ib[0]| == 1 && |ib[0][0]| == 1;
    assert ib[0][0] == [0.5];
    assert ib[0] == [[0.5]];
    assert ib == [[[0.5]]];
    assert Fold(env, x, [Invert, Blend], draws, x) == ib;
    var bl := Step(env, x, Blend, draws[0], x);
    assert bl[0][0][0] == 0.2;
    assert |bl| == 1 && |bl[0]| == 1 && |bl[0][0]| == 1;
    assert bl[0][0] == [0.2];
    assert bl[0] == [[0.2]];
    assert bl == x;
    var bi := Step(env, x, Invert, draws[1], bl);
    assert bi[0][0][0] == 0.8;
    assert |bi| == 1 && |bi[0]| == 1 && |bi[0][0]| == 1;
    assert bi[0][0] == [0.8];
    assert bi[0] == [[0.8]];
    assert bi == [[[0.8]]];
    assert Fold(env, x, [Blend, Invert], draws, x) == bi;
  }
}
