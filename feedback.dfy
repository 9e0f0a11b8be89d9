/**
 * main's frame loop (fb.cpp:384-448): the global `image` is replaced by
 * run(image) once per frame, and each new frame is either saved as a PNG
 * named by sprintf("%s/frame%05d.png") or shown in the window.
 */
module Feedback {
  import opened Wrappers
  import opened Images
  import opened Engines
  import opened Config
  import opened Pipeline
  import Args
  import T = Transforms

  // ---------------------------------------------------------------------------
  // Frame file names: sprintf(buf, "%s/frame%05d.png", dumpdir, frame)
  // ---------------------------------------------------------------------------

  predicate IsDigit(c: char)
  {
    '0' <= c <= '9'
  }

  predicate AllDigits(s: string)
  {
    forall i :: 0 <= i < |s| ==> IsDigit(s[i])
  }

  function DigitChar(d: nat): (c: char)
    requires d < 10
    ensures IsDigit(c) && (c as int) - ('0' as int) == d
  {
    (('0' as int) + d) as char
  }

  /** The decimal value of a string of digits, most significant first. */
  function DecimalValue(s: string): nat
    requires AllDigits(s)
    decreases |s|
  {
    if s == [] then 0
    else DecimalValue(s[.. |s| - 1]) * 10 + ((s[|s| - 1] as int) - ('0' as int))
  }

  function Pow10(k: nat): (r: nat)
    ensures r >= 1
  {
    if k == 0 then 1 else 10 * Pow10(k - 1)
  }

  /** %d of a non-negative int: its decimal digits, no sign and no leading zero. */
  function Digits(n: nat): (s: string)
    ensures 1 <= |s| && AllDigits(s)
    ensures Pow10(|s| - 1) <= n || n == 0
    ensures n < Pow10(|s|)
    decreases n
  {
    if n < 10 then [DigitChar(n)]
    else
      var d := Digits(n / 10) + [DigitChar(n % 10)];
      assert n == 10 * (n / 10) + n % 10;
      d
  }

  lemma {:induction false} Pow10Grows(a: nat, b: nat)
    requires a <= b
    ensures Pow10(a) <= Pow10(b)
    decreases b
  {
    if a < b {
      Pow10Grows(a, b - 1);
    }
  }

  /** Numbers below 100000 print in at most five digits. */
  lemma FiveDigits(n: nat)
    requires n < 100000
    ensures |Digits(n)| <= 5
  {
    var k := |Digits(n)|;
    if k > 5 {
      Pow10Grows(5, k - 1);
    }
  }

  function Zeros(k: nat): (s: string)
    ensures |s| == k && AllDigits(s)
    ensures forall i :: 0 <= i < k ==> s[i] == '0'
  {
    seq(k, i => '0')
  }

  /** %05d: the digits of `n`, left-padded with '0' to at least five characters. */
  function Pad5(n: nat): (s: string)
    ensures AllDigits(s)
    ensures |s| == if |Digits(n)| < 5 then 5 else |Digits(n)|
  {
    var d := Digits(n);
    (if |d| < 5 then Zeros(5 - |d|) else []) + d
  }

  lemma {:induction false} DigitsValue(n: nat)
    ensures DecimalValue(Digits(n)) == n
    decreases n
  {
    if n >= 10 {
      var d := Digits(n);
      DigitsValue(n / 10);
      assert d[.. |d| - 1] == Digits(n / 10);
    }
  }

  /** A leading zero does not change a decimal value. */
  lemma {:induction false} LeadingZeroValue(s: string)
    requires AllDigits(s)
    ensures AllDigits(['0'] + s) && DecimalValue(['0'] + s) == DecimalValue(s)
    decreases |s|
  {
    var z := ['0'] + s;
    assert AllDigits(z) by {
      forall i | 0 <= i < |z| ensures IsDigit(z[i]) {
        if i > 0 { assert z[i] == s[i - 1]; }
      }
    }
    if s != [] {
      assert z[.. |z| - 1] == ['0'] + s[.. |s| - 1];
      LeadingZeroValue(s[.. |s| - 1]);
    }
  }

  lemma {:induction false} ZerosValue(k: nat, s: string)
    requires AllDigits(s)
    ensures AllDigits(Zeros(k) + s) && DecimalValue(Zeros(k) + s) == DecimalValue(s)
    decreases k
  {
    var z := Zeros(k) + s;
    assert AllDigits(z) by {
      forall i | 0 <= i < |z| ensures IsDigit(z[i]) {
        if i >= k { assert z[i] == s[i - k]; }
      }
    }
    if k > 0 {
      ZerosValue(k - 1, s);
      assert Zeros(k) == ['0'] + Zeros(k - 1);
      assert z == ['0'] + (Zeros(k - 1) + s);
      LeadingZeroValue(Zeros(k - 1) + s);
    } else {
      assert z == s;
    }
  }

  /** %05d loses nothing: the number can be read back from its padded digits. */
  lemma Pad5Value(n: nat)
    ensures DecimalValue(Pad5(n)) == n
  {
    var d := Digits(n);
    DigitsValue(n);
    if |d| < 5 {
      ZerosValue(5 - |d|, d);
    } else {
      assert Pad5(n) == d;
    }
  }

  function FrameName(dir: string, k: nat): (name: string)
    ensures |name| == |dir| + 10 + |Pad5(k)|
    ensures name[.. |dir|] == dir
  {
    dir + "/frame" + Pad5(k) + ".png"
  }

  /** Different frame numbers name different files, so no dumped frame overwrites another. */
  lemma FrameNameInjective(dir: string, a: nat, b: nat)
    requires FrameName(dir, a) == FrameName(dir, b)
    ensures a == b
  {
    var na, nb := FrameName(dir, a), FrameName(dir, b);
    var lo := |dir| + 6;
    assert |Pad5(a)| == |Pad5(b)|;
    assert na[lo .. lo + |Pad5(a)|] == Pad5(a);
    assert nb[lo .. lo + |Pad5(b)|] == Pad5(b);
    Pad5Value(a);
    Pad5Value(b);
  }

  /**
   * The name, with its terminating NUL, fits the 80-byte buffer exactly when
   * the directory has at most 64 characters and the frame number at most
   * five digits.  The buffer holds bytes and the model's strings are
   * sequences of characters, so this reads characters as bytes, which they
   * are for an ASCII directory name ("/frame", the digits and ".png" are
   * ASCII).
   */
  lemma FrameNameFitsBuffer(dir: string, k: nat)
    ensures |FrameName(dir, k)| + 1 <= 80 <==> |dir| + |Pad5(k)| <= 69
    ensures |dir| <= 64 && k < 100000 ==> |FrameName(dir, k)| + 1 <= 80
  {
    if k < 100000 {
      FiveDigits(k);
    }
  }

  lemma FrameNameExample()
    ensures FrameName("/tmp/out", 0) == "/tmp/out/frame00000.png"
    ensures FrameName("images", 42) == "images/frame00042.png"
  {
    Pad5Examples();
  }

  lemma Pad5Examples()
    ensures Pad5(0) == "00000" && Pad5(42) == "00042"
  {
    assert Digits(0) == "0";
    assert Digits(4) == "4";
    assert Digits(42) == Digits(4) + "2";
  }

  // ---------------------------------------------------------------------------
  // The frames: each one is run applied to the one before
  // ---------------------------------------------------------------------------

  /** A tick's draws: one NoiseDraw per pipeline stage. */
  predicate TickFits(env: Env, stages: seq<Stage>, draws: seq<T.NoiseDraw>)
  {
    |draws| == |stages| && DrawsFit(draws, env.sh)
  }

  predicate TicksFit(env: Env, stages: seq<Stage>, ticks: seq<seq<T.NoiseDraw>>)
  {
    forall t :: 0 <= t < |ticks| ==> TickFits(env, stages, ticks[t])
  }

  /** image = run(image): blend inside the tick sees the frame it started from. */
  function NextFrame(env: Env, stages: seq<Stage>, draws: seq<T.NoiseDraw>, img: Image): (r: Image)
    requires EnvOk(env) && HasShape(img, env.sh) && TickFits(env, stages, draws)
    ensures HasShape(r, env.sh)
  {
    Fold(env, img, stages, draws, img)
  }

  /**
   * The loop body as a total map from a tick's draws and the current frame
   * to the next frame; outside the conditions main establishes it keeps the
   * frame, which no reachable state uses.
   */
  ghost function TickOf(env: Env, stages: seq<Stage>): (seq<T.NoiseDraw>, Image) -> Image
  {
    (draws: seq<T.NoiseDraw>, img: Image) =>
      if EnvOk(env) && HasShape(img, env.sh) && TickFits(env, stages, draws) then NextFrame(env, stages, draws, img) else img
  }

  /** `next` is the loop body of main for this environment and pipeline, wherever main can reach. */
  ghost predicate Steps(next: (seq<T.NoiseDraw>, Image) -> Image, env: Env, stages: seq<Stage>)
  {
    forall draws, img {:trigger NextFrame(env, stages, draws, img)} ::
      EnvOk(env) && HasShape(img, env.sh) && TickFits(env, stages, draws) ==> next(draws, img) == NextFrame(env, stages, draws, img)
  }

  lemma StepsAt(next: (seq<T.NoiseDraw>, Image) -> Image, env: Env, stages: seq<Stage>, draws: seq<T.NoiseDraw>, img: Image)
    requires Steps(next, env, stages)
    requires EnvOk(env) && HasShape(img, env.sh) && TickFits(env, stages, draws)
    ensures next(draws, img) == NextFrame(env, stages, draws, img)
  {
  }

  /** Such a loop body exists for every environment and pipeline. */
  lemma TickOfSteps(env: Env, stages: seq<Stage>)
    ensures Steps(TickOf(env, stages), env, stages)
  {
  }

  function LastOr(frames: seq<Image>, init: Image): Image
  {
    if frames == [] then init else frames[|frames| - 1]
  }

  /** The frames produced by |ticks| passes of a loop with body `next`, starting from `init`. */
  function Frames(next: (seq<T.NoiseDraw>, Image) -> Image, ticks: seq<seq<T.NoiseDraw>>, init: Image): (frames: seq<Image>)
    ensures |frames| == |ticks|
    decreases |ticks|
  {
    if ticks == [] then []
    else
      var before := Frames(next, ticks[.. |ticks| - 1], init);
      before + [next(ticks[|ticks| - 1], LastOr(before, init))]
  }

  /**
   * Each frame is the loop body applied to the frame before it (the first to
   * `init`), using that pass's draws.
   */
  lemma {:induction false} FramesChain(next: (seq<T.NoiseDraw>, Image) -> Image, ticks: seq<seq<T.NoiseDraw>>, init: Image, t: nat)
    requires t < |ticks|
    ensures var fs := Frames(next, ticks, init);
      fs[t] == next(ticks[t], if t == 0 then init else fs[t - 1])
    decreases |ticks|
  {
    var n := |ticks| - 1;
    var prefix := ticks[.. n];
    var fs := Frames(next, ticks, init);
    var ps := Frames(next, prefix, init);
    assert fs == ps + [next(ticks[n], LastOr(ps, init))];
    if t < n {
      FramesChain(next, prefix, init, t);
      assert prefix[t] == ticks[t];
    }
  }

  /** One more pass of the loop adds one frame, made from the last one. */
  lemma FramesPrefix(next: (seq<T.NoiseDraw>, Image) -> Image, ticks: seq<seq<T.NoiseDraw>>, init: Image, n: nat)
    requires n < |ticks|
    ensures var before := Frames(next, ticks[.. n], init);
      Frames(next, ticks[.. n + 1], init) == before + [next(ticks[n], LastOr(before, init))]
  {
    assert ticks[.. n + 1][.. n] == ticks[.. n];
  }

  /** Under main's conditions every frame has the window's shape. */
  lemma {:induction false} FramesKeepShape(next: (seq<T.NoiseDraw>, Image) -> Image, env: Env, stages: seq<Stage>,
                                           ticks: seq<seq<T.NoiseDraw>>, init: Image)
    requires Steps(next, env, stages)
    requires EnvOk(env) && HasShape(init, env.sh) && TicksFit(env, stages, ticks)
    ensures var fs := Frames(next, ticks, init);
      (forall t :: 0 <= t < |fs| ==> HasShape(fs[t], env.sh)) && HasShape(LastOr(fs, init), env.sh)
    decreases |ticks|
  {
    if ticks != [] {
      var n := |ticks| - 1;
      var prefix := ticks[.. n];
      assert TicksFit(env, stages, prefix) by {
        forall i | 0 <= i < |prefix| ensures TickFits(env, stages, prefix[i]) { assert prefix[i] == ticks[i]; }
      }
      FramesKeepShape(next, env, stages, prefix, init);
      var ps := Frames(next, prefix, init);
      StepsAt(next, env, stages, ticks[n], LastOr(ps, init));
    }
  }

  /**
   * With blend=0 as the last stage, every frame is the initial image: the
   * feedback freezes.
   */
  lemma {:induction false} FrozenWhenLastBlendZero(next: (seq<T.NoiseDraw>, Image) -> Image, env: Env, q: seq<Stage>,
                                                   ticks: seq<seq<T.NoiseDraw>>, init: Image)
    requires Steps(next, env, q + [Blend])
    requires EnvOk(env) && HasShape(init, env.sh) && TicksFit(env, q + [Blend], ticks)
    requires env.p.blend == 0.0
    ensures forall t :: 0 <= t < |ticks| ==> Frames(next, ticks, init)[t] == init
    decreases |ticks|
  {
    if ticks != [] {
      var n := |ticks| - 1;
      var prefix := ticks[.. n];
      assert TicksFit(env, q + [Blend], prefix) by {
        forall i | 0 <= i < |prefix| ensures TickFits(env, q + [Blend], prefix[i]) { assert prefix[i] == ticks[i]; }
      }
      FrozenWhenLastBlendZero(next, env, q, prefix, init);
      var ps := Frames(next, prefix, init);
      assert LastOr(ps, init) == init;
      StepsAt(next, env, q + [Blend], ticks[n], init);
      LastBlendZeroKeepsFrame(env, init, q, ticks[n], init);
    }
  }

  /** An empty pipeline leaves every frame equal to the initial image. */
  lemma {:induction false} EmptyPipelineStill(next: (seq<T.NoiseDraw>, Image) -> Image, env: Env,
                                              ticks: seq<seq<T.NoiseDraw>>, init: Image)
    requires Steps(next, env, [])
    requires EnvOk(env) && HasShape(init, env.sh) && TicksFit(env, [], ticks)
    ensures forall t :: 0 <= t < |ticks| ==> Frames(next, ticks, init)[t] == init
    decreases |ticks|
  {
    if ticks != [] {
      var prefix := ticks[.. |ticks| - 1];
      assert TicksFit(env, [], prefix) by {
        forall i | 0 <= i < |prefix| ensures TickFits(env, [], prefix[i]) { assert prefix[i] == ticks[i]; }
      }
      EmptyPipelineStill(next, env, prefix, init);
      assert LastOr(Frames(next, prefix, init), init) == init;
      StepsAt(next, env, [], ticks[|ticks| - 1], init);
    }
  }

  // ---------------------------------------------------------------------------
  // Where the frames go
  // ---------------------------------------------------------------------------

  /**
   * --dump=dir with --nframes, or the display window, which the model
   * describes by how many frames are drawn before it reports being closed.
   */
  datatype Sink = DumpTo(dir: string, nframes: int) | OnScreen(closesAfter: nat)

  datatype Output = Saved(name: string, img: Image) | Shown(img: Image)

  /**
   * The sink main sets up after scanargs: frames are dumped exactly when a
   * directory was given, as many as nframes says; otherwise a window opens
   * (fb.cpp:417-419, 430).
   */
  function SinkOf(s: Settings, closesAfter: nat): (sink: Sink)
    ensures sink.DumpTo? <==> s.dumpDir.Some?
    ensures sink.DumpTo? ==> sink == DumpTo(s.dumpDir.value, s.nframes)
    ensures sink.OnScreen? ==> sink == OnScreen(closesAfter)
  {
    match s.dumpDir
    case Some(dir) => DumpTo(dir, s.nframes)
    case None => OnScreen(closesAfter)
  }

  /** main dumps frames exactly when some argument is a dump directive. */
  lemma DumpModeIffDumpToken(np: Args.NumParser, args: seq<string>, closesAfter: nat)
    requires Args.ScanArgs(np, args).Ok?
    ensures SinkOf(Args.ScanArgs(np, args).value.settings, closesAfter).DumpTo? <==>
      exists j :: 0 <= j < |args| && Args.IsKind(args[j], Args.KDump)
  {
    Args.ScanTokensDumpDir(np, Args.InitialState, args);
    Args.HasTokenSpec(args, Args.KDump);
  }

  /** Without --nframes a dump run writes 30 frames, the default budget (fb.cpp:51). */
  lemma DumpBudgetDefault(np: Args.NumParser, args: seq<string>, closesAfter: nat)
    requires Args.ScanArgs(np, args).Ok? && Args.HasToken(args, Args.KDump) && !Args.HasToken(args, Args.KNFrames)
    ensures var sink := SinkOf(Args.ScanArgs(np, args).value.settings, closesAfter);
      sink.DumpTo? && sink.nframes == 30 && FrameCount(sink, 0) == 30
  {
    Args.ScanTokensDumpDir(np, Args.InitialState, args);
    Args.ScanTokensNFrames(np, Args.InitialState, args);
  }

  /** How many passes the loop makes when its frame counter starts at `frame0`. */
  function FrameCount(sink: Sink, frame0: nat): (n: nat)
    ensures sink.DumpTo? ==> frame0 + n == (if sink.nframes > frame0 then sink.nframes else frame0)
  {
    match sink
    case DumpTo(_, nframes) => if nframes > frame0 then nframes - frame0 else 0
    case OnScreen(closesAfter) => closesAfter
  }

  /** What the loop does with frame number `k`: saves clip(image), or shows image unclipped. */
  function Render(sink: Sink, k: nat, img: Image): (out: Output)
    ensures out.Saved? <==> sink.DumpTo?
    ensures out.Saved? ==> out.name == FrameName(sink.dir, k) && SameShape(out.img, img)
    ensures out.Saved? ==> forall i, j, c :: 0 <= i < |out.img| && 0 <= j < |out.img[i]| && 0 <= c < |out.img[i][j]| ==>
      out.img[i][j][c] <= 1.0
    ensures out.Shown? ==> out.img == img
  {
    match sink
    case DumpTo(dir, _) => Saved(FrameName(dir, k), T.Clipped(img))
    case OnScreen(_) => Shown(img)
  }

  /** `outs` are the files written or images shown for `frames`, the first numbered `frame0`. */
  predicate Rendered(sink: Sink, outs: seq<Output>, frames: seq<Image>, frame0: nat)
  {
    |outs| == |frames| && forall t :: 0 <= t < |outs| ==> outs[t] == Render(sink, frame0 + t, frames[t])
  }

  /**
   * In dump mode output t is the file FrameName(dir, frame0 + t) holding the
   * clipped frame, so no two outputs share a name and no saved value exceeds 1.
   */
  lemma DumpedFilesDistinctAndClipped(dir: string, nframes: int, outs: seq<Output>, frames: seq<Image>, frame0: nat)
    requires Rendered(DumpTo(dir, nframes), outs, frames, frame0)
    ensures forall t :: 0 <= t < |outs| ==> outs[t] == Saved(FrameName(dir, frame0 + t), T.Clipped(frames[t]))
    ensures forall s, t :: 0 <= s < t < |outs| ==> outs[s].name != outs[t].name
    ensures forall t, i, j, c :: 0 <= t < |outs| && 0 <= i < |outs[t].img| && 0 <= j < |outs[t].img[i]| && 0 <= c < |outs[t].img[i][j]| ==>
      outs[t].img[i][j][c] <= 1.0
  {
    forall s, t | 0 <= s < t < |outs| ensures outs[s].name != outs[t].name {
      if outs[s].name == outs[t].name {
        FrameNameInjective(dir, frame0 + s, frame0 + t);
      }
    }
  }

  /**
   * Whatever else the command line says, a run that is accepted dumps into
   * the directory of its last --dump directive as many frames as its last
   * --nframes directive asks for.
   */
  lemma DumpRunFromLastDirectives(np: Args.NumParser, args: seq<string>, st: Args.ScanState, closesAfter: nat, i: nat, j: nat)
    requires Args.ScanArgs(np, args) == Ok(st)
    requires Args.LastOfKind(args, i, Args.KDump) && Args.LastOfKind(args, j, Args.KNFrames)
    ensures SinkOf(st.settings, closesAfter) ==
      DumpTo(Args.ValueAt(args[i], Args.Classify(args[i]).value), np.atoi(Args.ValueAt(args[j], Args.Classify(args[j]).value)))
  {
    Args.LastDumpWins(np, Args.InitialState, args, i);
    Args.LastNFramesWins(np, Args.InitialState, args, j);
  }

  /**
   * `fb --blur=3 --roll=1 --zoom=1.01 --blend=0.1 --seed=0 --depth=3
   * --dump=/tmp/out --nframes=5`: the pipeline is blur, roll, zoom, blend;
   * main dumps, and the loop, from frame 0, makes five passes and writes
   * /tmp/out/frame00000.png up to /tmp/out/frame00004.png.
   */
  lemma FiveFramesDumped(np: Args.NumParser, st: Args.ScanState, closesAfter: nat, outs: seq<Output>, frames: seq<Image>)
    requires np.atoi("3") == 3 && np.atof("1.01") == 1.01 && np.atof("0.1") == 0.1 && np.atoi("5") == 5
    requires Args.ScanArgs(np, Args.EndToEndArgs) == Ok(st)
    requires |frames| == FrameCount(SinkOf(st.settings, closesAfter), 0)
    requires Rendered(SinkOf(st.settings, closesAfter), outs, frames, 0)
    ensures st.stages == [Blur, Roll, Zoom, Blend]
    ensures SinkOf(st.settings, closesAfter) == DumpTo("/tmp/out", 5)
    ensures |outs| == 5
    ensures outs[0].name == "/tmp/out/frame00000.png"
    ensures outs[4].name == "/tmp/out/frame00004.png"
  {
    Args.EndToEndScanned(np);
    FiveDumpedNames(outs, frames);
  }

  lemma FiveDumpedNames(outs: seq<Output>, frames: seq<Image>)
    requires |frames| == FrameCount(DumpTo("/tmp/out", 5), 0)
    requires Rendered(DumpTo("/tmp/out", 5), outs, frames, 0)
    ensures |outs| == 5
    ensures outs[0].name == "/tmp/out/frame00000.png"
    ensures outs[4].name == "/tmp/out/frame00004.png"
  {
    assert Digits(0) == "0" && Digits(4) == "4";
  }

  /** On screen, output t shows frame t as it is, unclipped. */
  lemma ShownFramesUnclipped(closesAfter: nat, outs: seq<Output>, frames: seq<Image>, frame0: nat)
    requires Rendered(OnScreen(closesAfter), outs, frames, frame0)
    ensures outs == seq(|frames|, t requires 0 <= t < |frames| => Shown(frames[t]))
  {
  }

  lemma RenderedSnoc(sink: Sink, outs: seq<Output>, frames: seq<Image>, frame0: nat, img: Image)
    requires Rendered(sink, outs, frames, frame0)
    ensures Rendered(sink, outs + [Render(sink, frame0 + |frames|, img)], frames + [img], frame0)
  {
    var o, f := outs + [Render(sink, frame0 + |frames|, img)], frames + [img];
    forall t | 0 <= t < |o| ensures o[t] == Render(sink, frame0 + t, f[t]) {
      if t < |outs| { assert o[t] == outs[t] && f[t] == frames[t]; }
    }
  }

  /** What one pass of main's loop adds to the outputs. */
  lemma RenderStep(sink: Sink, next: (seq<T.NoiseDraw>, Image) -> Image, ticks: seq<seq<T.NoiseDraw>>, init: Image,
                   n: nat, frame0: nat, outs: seq<Output>, img: Image)
    requires n < |ticks|
    requires img == LastOr(Frames(next, ticks[.. n], init), init)
    requires Rendered(sink, outs, Frames(next, ticks[.. n], init), frame0)
    ensures Rendered(sink, outs + [Render(sink, frame0 + n, next(ticks[n], img))], Frames(next, ticks[.. n + 1], init), frame0)
  {
    var before := Frames(next, ticks[.. n], init);
    FramesPrefix(next, ticks, init, n);
    RenderedSnoc(sink, outs, before, frame0, next(ticks[n], img));
  }

  // ---------------------------------------------------------------------------
  // main's state: the global image and the frame counter
  // ---------------------------------------------------------------------------

  class FeedbackLoop {
    const env: Env
    const stages: seq<Stage>
    /** The loop body, as a map from a pass's draws and the current frame to the next frame. */
    ghost const next: (seq<T.NoiseDraw>, Image) -> Image
    var image: Image
    var frame: nat

    ghost predicate Valid()
      reads this
    {
      EnvOk(env) && HasShape(image, env.sh) && Steps(next, env, stages)
    }

    /** The pipeline scanargs built, and the initial randu(rows, cols, depth) image. */
    constructor (env: Env, stages: seq<Stage>, ghost next: (seq<T.NoiseDraw>, Image) -> Image, init: Image)
      requires EnvOk(env) && HasShape(init, env.sh) && Steps(next, env, stages)
      ensures Valid()
      ensures this.env == env && this.stages == stages && this.next == next && image == init && frame == 0
    {
      this.env := env;
      this.stages := stages;
      this.next := next;
      image := init;
      frame := 0;
    }

    /** One pass: image = run(image). */
    method Tick(draws: seq<T.NoiseDraw>)
      modifies this
      requires Valid() && TickFits(env, stages, draws)
      ensures Valid()
      ensures image == NextFrame(env, stages, draws, old(image))
      ensures frame == old(frame)
    {
      image := Run(env, image, stages, draws, image);
    }

    /** The body of main's loop: tick, then save or show the new frame. */
    method Pass(sink: Sink, draws: seq<T.NoiseDraw>) returns (shot: Output)
      modifies this
      requires Valid() && TickFits(env, stages, draws)
      ensures Valid()
      ensures image == next(draws, old(image))
      ensures shot == Render(sink, old(frame), image)
      ensures frame == old(frame) + 1
    {
      StepsAt(next, env, stages, draws, image);
      Tick(draws);
      if sink.DumpTo? {
        var clipped := T.Clip(image);
        shot := Saved(FrameName(sink.dir, frame), clipped);
      } else {
        shot := Shown(image);
      }
      frame := frame + 1;
    }

    /** One pass of the loop, stated against the frames and outputs so far. */
    method Advance(sink: Sink, ticks: seq<seq<T.NoiseDraw>>, n: nat, ghost init: Image, ghost frame0: nat, outs: seq<Output>)
      returns (outs': seq<Output>)
      modifies this
      requires Valid() && TicksFit(env, stages, ticks) && n < |ticks| && frame == frame0 + n
      requires image == LastOr(Frames(next, ticks[.. n], init), init)
      requires Rendered(sink, outs, Frames(next, ticks[.. n], init), frame0)
      ensures Valid() && frame == old(frame) + 1
      ensures image == LastOr(Frames(next, ticks[.. n + 1], init), init)
      ensures Rendered(sink, outs', Frames(next, ticks[.. n + 1], init), frame0)
    {
      ghost var before := image;
      FramesPrefix(next, ticks, init, n);
      RenderStep(sink, next, ticks, init, n, frame0, outs, before);
      var shot := Pass(sink, ticks[n]);
      outs' := outs + [shot];
    }

    /**
     * The while loop of main: runs while frames remain to dump, or while the
     * window stays open; each pass ticks, then saves or shows the new frame
     * and counts it.
     */
    method Loop(sink: Sink, ticks: seq<seq<T.NoiseDraw>>) returns (outs: seq<Output>)
      modifies this
      requires Valid() && TicksFit(env, stages, ticks)
      requires |ticks| == FrameCount(sink, frame)
      ensures Valid()
      ensures var frames := Frames(next, ticks, old(image));
        && Rendered(sink, outs, frames, old(frame))
        && image == LastOr(frames, old(image))
      ensures frame == old(frame) + |ticks|
    {
      ghost var init := image;
      ghost var frame0 := frame;
      outs := [];
      var polls := 0;
      while if sink.DumpTo? then frame < sink.nframes else polls < sink.closesAfter
        invariant Valid()
        invariant polls <= |ticks| && frame == frame0 + polls
        invariant image == LastOr(Frames(next, ticks[.. polls], init), init)
        invariant Rendered(sink, outs, Frames(next, ticks[.. polls], init), frame0)
        decreases |ticks| - polls
      {
        outs := Advance(sink, ticks, polls, init, frame0, outs);
        polls := polls + 1;
      }
      assert polls == |ticks|;
      assert ticks[.. polls] == ticks;
    }
  }

  // ---------------------------------------------------------------------------
  // From the command line to the loop
  // ---------------------------------------------------------------------------

  /** The stage environment main sets up from the scanned settings. */
  function EnvOf(e: Engine, s: Settings): (env: Env)
    requires s.rows >= 1 && s.cols >= 1 && Validate(s.param).None?
    ensures env.p == s.param && env.sh.rows == s.rows && env.sh.cols == s.cols
    ensures Sound(e) ==> EnvOk(env)
  {
    Env(e, s.param, Shape(s.rows, s.cols, s.param.depth))
  }

  /**
   * Whatever scanargs accepts can be run: the parameters pass validation and
   * the pipeline has fewer than MAXPIPE stages, so with a window of at least
   * one pixel every frame the loop produces has the window's shape.
   */
  lemma AcceptedArgsRun(np: Args.NumParser, e: Engine, args: seq<string>)
    requires Sound(e) && Args.ScanArgs(np, args).Ok?
    requires Args.ScanArgs(np, args).value.settings.rows >= 1 && Args.ScanArgs(np, args).value.settings.cols >= 1
    ensures var st := Args.ScanArgs(np, args).value;
      EnvOk(EnvOf(e, st.settings)) && |st.stages| < MaxPipe && st.stages == Args.AllStages(np, args)
  {
    Args.ScanArgsStages(np, args);
  }
}
