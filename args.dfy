/**
 * scanargs (fb.cpp:286-383): the argument scanner that fills in the shared
 * parameters and builds the pipeline, one token at a time.
 */
module Args {
  import opened Wrappers
  import opened Numbers
  import opened Config

  datatype Keyword =
    | KRows | KCols | KBlur | KSharpen | KRoll | KBlend | KZoom | KCrawl
    | KNoise | KHistEq | KInvert | KDepth | KSeed | KDump | KNFrames

  /** The keywords in the order the `else if` chain tests them (fb.cpp:292-351). */
  const Order: seq<Keyword> :=
    [KRows, KCols, KBlur, KSharpen, KRoll, KBlend, KZoom, KCrawl, KNoise, KHistEq, KInvert, KDepth, KSeed, KDump, KNFrames]

  /** The keyword's text; each is at least four letters long. */
  function Text(k: Keyword): (t: string)
    ensures |t| >= 4
  {
    match k
    case KRows => "rows"
    case KCols => "cols"
    case KBlur => "blur"
    case KSharpen => "sharpen"
    case KRoll => "roll"
    case KBlend => "blend"
    case KZoom => "zoom"
    case KCrawl => "crawl"
    case KNoise => "noise"
    case KHistEq => "histeq"
    case KInvert => "invert"
    case KDepth => "depth"
    case KSeed => "seed"
    case KDump => "dump"
    case KNFrames => "nframes"
  }

  /** The position of a keyword in the dispatch order. */
  function Rank(k: Keyword): (r: nat)
    ensures r < |Order| && Order[r] == k
  {
    match k
    case KRows => 0
    case KCols => 1
    case KBlur => 2
    case KSharpen => 3
    case KRoll => 4
    case KBlend => 5
    case KZoom => 6
    case KCrawl => 7
    case KNoise => 8
    case KHistEq => 9
    case KInvert => 10
    case KDepth => 11
    case KSeed => 12
    case KDump => 13
    case KNFrames => 14
  }

  lemma RankOfOrder(i: nat)
    requires i < |Order|
    ensures Rank(Order[i]) == i
  {
  }

  predicate MatchAt(pat: string, s: string, j: nat)
  {
    j + |pat| <= |s| && s[j .. j + |pat|] == pat
  }

  /** The first position at or after i where `pat` occurs in `s`. */
  function FindFrom(pat: string, s: string, i: nat): Option<nat>
    requires i <= |s|
    decreases |s| - i
  {
    if i + |pat| > |s| then None
    else if s[i .. i + |pat|] == pat then Some(i)
    else FindFrom(pat, s, i + 1)
  }

  /** FindFrom answers the first match at or after i, and None only when there is none. */
  lemma {:induction false} FindFromSpec(pat: string, s: string, i: nat)
    requires i <= |s|
    ensures var r := FindFrom(pat, s, i);
      && (r.Some? ==> i <= r.value && MatchAt(pat, s, r.value))
      && (r.Some? ==> forall j :: i <= j < r.value ==> !MatchAt(pat, s, j))
      && (r.None? ==> forall j :: i <= j ==> !MatchAt(pat, s, j))
    decreases |s| - i
  {
    if i + |pat| <= |s| && s[i .. i + |pat|] != pat {
      FindFromSpec(pat, s, i + 1);
    }
  }

  /**
   * strstr: the first occurrence of `pat` in `s`, if any; a match found lies
   * inside `s` (FindFromSpec says it is a match and the first).
   */
  function Find(pat: string, s: string): (r: Option<nat>)
    ensures r.Some? ==> r.value + |pat| <= |s|
  {
    FindFromSpec(pat, s, 0);
    FindFrom(pat, s, 0)
  }

  /** The keyword a token is classified by, and where strstr found it. */
  datatype Hit = Hit(kw: Keyword, pos: nat)

  function ClassifyFrom(arg: string, i: nat): Option<Hit>
    requires i <= |Order|
    decreases |Order| - i
  {
    if i == |Order| then None
    else
      match Find(Text(Order[i]), arg)
      case Some(pos) => Some(Hit(Order[i], pos))
      case None => ClassifyFrom(arg, i + 1)
  }

  /**
   * scanargs's `else if` chain over strstr (fb.cpp:292-355); the keyword it
   * reports lies inside the token (ClassifySpec says which keyword wins).
   */
  function Classify(arg: string): (r: Option<Hit>)
    ensures r.Some? ==> r.value.pos + |Text(r.value.kw)| <= |arg|
  {
    ClassifyFromSpec(arg, 0);
    ClassifyFrom(arg, 0)
  }

  lemma {:induction false} ClassifyFromSpec(arg: string, i: nat)
    requires i <= |Order|
    ensures var r := ClassifyFrom(arg, i);
      && (r.Some? ==> i <= Rank(r.value.kw) && Find(Text(r.value.kw), arg) == Some(r.value.pos))
      && (r.Some? ==> forall k :: i <= Rank(k) < Rank(r.value.kw) ==> Find(Text(k), arg) == None)
      && (r.None? ==> forall k :: i <= Rank(k) ==> Find(Text(k), arg) == None)
    decreases |Order| - i
  {
    if i < |Order| {
      RankOfOrder(i);
      if Find(Text(Order[i]), arg).None? {
        ClassifyFromSpec(arg, i + 1);
        forall k | Rank(k) == i ensures k == Order[i] { }
      }
    }
  }

  /**
   * A token is classified by the first keyword, in dispatch order, that occurs
   * in it anywhere as a substring; a token with no keyword in it is unknown.
   */
  lemma ClassifySpec(arg: string)
    ensures var r := Classify(arg);
      && (r.Some? ==> Find(Text(r.value.kw), arg) == Some(r.value.pos))
      && (r.Some? ==> forall k :: Rank(k) < Rank(r.value.kw) ==> Find(Text(k), arg) == None)
      && (r.None? <==> forall k :: Find(Text(k), arg) == None)
  {
    ClassifyFromSpec(arg, 0);
    if Classify(arg).Some? {
      var k := Classify(arg).value.kw;
      assert Find(Text(k), arg) != None;
    }
  }

  /** The converse of ClassifySpec: the first keyword in dispatch order that occurs classifies the token. */
  lemma ClassifiedAs(arg: string, k: Keyword, pos: nat)
    requires forall k' :: Rank(k') < Rank(k) ==> Find(Text(k'), arg) == None
    requires Find(Text(k), arg) == Some(pos)
    ensures Classify(arg) == Some(Hit(k, pos))
  {
    ClassifySpec(arg);
    var kw := Classify(arg).value.kw;
    assert Rank(kw) == Rank(k);
  }

  /** strstr finds the first place where every character of `pat` matches, when its first character occurs nowhere before. */
  lemma FoundAt(pat: string, s: string, j: nat)
    requires pat != [] && j + |pat| <= |s|
    requires forall i :: 0 <= i < |pat| ==> s[j + i] == pat[i]
    requires forall i :: 0 <= i < j ==> s[i] != pat[0]
    ensures Find(pat, s) == Some(j)
  {
    assert s[j .. j + |pat|] == pat;
    assert MatchAt(pat, s, j);
    FindFromSpec(pat, s, 0);
    var r := Find(pat, s);
    if r.Some? {
      MatchBegins(pat, s, r.value);
    }
  }

  /** strstr finds nothing when the first three characters of `pat` never stand side by side in `s`. */
  lemma FindAbsent(pat: string, s: string)
    requires |pat| >= 3
    requires forall j :: !TrigramAt(s, j, pat)
    ensures Find(pat, s) == None
  {
    FindFromSpec(pat, s, 0);
    var r := Find(pat, s);
    if r.Some? {
      MatchBegins(pat, s, r.value);
    }
  }

  /** The first three characters of `pat` stand side by side in `s` at j. */
  predicate TrigramAt(s: string, j: int, pat: string)
    requires |pat| >= 3
  {
    0 <= j < |s| - 2 && s[j] == pat[0] && s[j + 1] == pat[1] && s[j + 2] == pat[2]
  }

  /** A match begins with the first characters of the pattern. */
  lemma MatchBegins(pat: string, s: string, j: nat)
    ensures MatchAt(pat, s, j) && pat != [] ==> s[j] == pat[0]
    ensures MatchAt(pat, s, j) && |pat| >= 2 ==> s[j + 1] == pat[1]
    ensures MatchAt(pat, s, j) && |pat| >= 3 ==> s[j + 2] == pat[2]
    ensures MatchAt(pat, s, j) && |pat| >= 3 ==> TrigramAt(s, j, pat)
  {
    if MatchAt(pat, s, j) && pat != [] {
      assert s[j .. j + |pat|][0] == s[j];
      if |pat| >= 2 {
        assert s[j .. j + |pat|][1] == s[j + 1];
      }
      if |pat| >= 3 {
        assert s[j .. j + |pat|][2] == s[j + 2];
      }
    }
  }

  lemma NoEarlierKeyword(a: string, k: Keyword)
    requires forall k', j :: Rank(k') < Rank(k) ==> !TrigramAt(a, j, Text(k'))
    ensures forall k' :: Rank(k') < Rank(k) ==> Find(Text(k'), a) == None
  {
    forall k' | Rank(k') < Rank(k) ensures Find(Text(k'), a) == None {
      FindAbsent(Text(k'), a);
    }
  }

  /**
   * A token where no keyword tested before k occurs (not even its first three
   * letters), and k first occurs at pos, is classified by k, and its value
   * is everything after the `=` that follows k.
   */
  lemma TokenClassified(a: string, k: Keyword, pos: nat, v: string)
    requires forall k', j :: Rank(k') < Rank(k) ==> !TrigramAt(a, j, Text(k'))
    requires pos + |Text(k)| <= |a|
    requires forall i :: 0 <= i < |Text(k)| ==> a[pos + i] == Text(k)[i]
    requires forall i :: 0 <= i < pos ==> a[i] != Text(k)[0]
    requires pos + |Text(k)| + 1 + |v| == |a| && forall i :: 0 <= i < |v| ==> a[pos + |Text(k)| + 1 + i] == v[i]
    ensures Classify(a) == Some(Hit(k, pos)) && ValueAt(a, Hit(k, pos)) == v
  {
    KeywordFirstAt(a, k, pos);
    ValueAfter(a, Hit(k, pos), v);
  }

  /** The value half of TokenClassified: the value is everything after the keyword and the character that follows it. */
  lemma ValueAfter(a: string, hit: Hit, v: string)
    requires hit.pos + |Text(hit.kw)| + 1 + |v| == |a| && forall i :: 0 <= i < |v| ==> a[hit.pos + |Text(hit.kw)| + 1 + i] == v[i]
    ensures ValueAt(a, hit) == v
  {
    assert a[hit.pos + |Text(hit.kw)| + 1 ..] == v;
  }

  /** The classification half of TokenClassified. */
  lemma KeywordFirstAt(a: string, k: Keyword, pos: nat)
    requires forall k', j :: Rank(k') < Rank(k) ==> !TrigramAt(a, j, Text(k'))
    requires pos + |Text(k)| <= |a|
    requires forall i :: 0 <= i < |Text(k)| ==> a[pos + i] == Text(k)[i]
    requires forall i :: 0 <= i < pos ==> a[i] != Text(k)[0]
    ensures Classify(a) == Some(Hit(k, pos))
  {
    NoEarlierKeyword(a, k);
    FoundAt(Text(k), a, pos);
    ClassifiedAs(a, k, pos);
  }

  /** --dump=/tmp/out is a dump directive for the directory /tmp/out. */
  lemma DumpTokenExample()
    ensures Classify("--dump=/tmp/out") == Some(Hit(KDump, 2)) && ValueAt("--dump=/tmp/out", Hit(KDump, 2)) == "/tmp/out"
  {
    TokenClassified("--dump=/tmp/out", KDump, 2, "/tmp/out");
  }

  /** --nframes=5 is an nframes directive with value text "5"; the "rames" in it matches no earlier keyword. */
  lemma NFramesTokenExample()
    ensures Classify("--nframes=5") == Some(Hit(KNFrames, 2)) && ValueAt("--nframes=5", Hit(KNFrames, 2)) == "5"
  {
    TokenClassified("--nframes=5", KNFrames, 2, "5");
  }

  /**
   * The offset from the keyword's match to its value text that each branch of
   * scanargs hard-codes (c+5, c+6, c+8 at fb.cpp:293-350); histeq and invert
   * read no value.
   */
  function SourceOffset(k: Keyword): Option<nat>
  {
    match k
    case KRows => Some(5)
    case KCols => Some(5)
    case KBlur => Some(5)
    case KSharpen => Some(8)
    case KRoll => Some(5)
    case KBlend => Some(6)
    case KZoom => Some(5)
    case KCrawl => Some(6)
    case KNoise => Some(6)
    case KHistEq => None
    case KInvert => None
    case KDepth => Some(6)
    case KSeed => Some(5)
    case KDump => Some(5)
    case KNFrames => Some(8)
  }

  /**
   * The text a directive's value is read from: it starts one character past
   * the keyword, skipping the `=`, at the offset each branch of the program
   * hard-codes.  A token that ends at the keyword has no value text.
   */
  function ValueAt(arg: string, hit: Hit): (v: string)
    ensures SourceOffset(hit.kw).Some? && hit.pos + SourceOffset(hit.kw).value <= |arg| ==>
      v == arg[hit.pos + SourceOffset(hit.kw).value ..]
  {
    var off := hit.pos + |Text(hit.kw)| + 1;
    if off <= |arg| then arg[off..] else ""
  }

  /**
   * Where the keyword matched, the token is the text before the match, the
   * keyword, the one skipped character and the value text.
   */
  lemma ValueAtSplitsToken(arg: string, hit: Hit)
    requires MatchAt(Text(hit.kw), arg, hit.pos) && hit.pos + |Text(hit.kw)| < |arg|
    ensures arg == arg[.. hit.pos] + Text(hit.kw) + [arg[hit.pos + |Text(hit.kw)|]] + ValueAt(arg, hit)
  {
    var off := hit.pos + |Text(hit.kw)| + 1;
    assert arg == arg[.. hit.pos] + arg[hit.pos .. off - 1] + arg[off - 1 .. off] + arg[off ..];
  }

  /**
   * The C library's number parsing, which is not modelled: atof, atoi, and
   * sscanf with n comma-separated "%f", giving the values it converted.
   */
  datatype NumParser = NumParser(atof: string -> real, atoi: string -> int, scanFloats: (string, nat) -> seq<real>)

  /** The globals scanargs writes: the settings and the pipeline built so far. */
  datatype ScanState = ScanState(settings: Settings, stages: seq<Stage>)

  const InitialState: ScanState := ScanState(DefaultSettings, [])

  /** The effect of one token, before the capacity check. */
  function Apply(np: NumParser, st: ScanState, arg: string): (r: Result<ScanState, ConfigError>)
    ensures r.Ok? ==> Classify(arg).Some?
  {
    match Classify(arg)
    case None => Err(UnknownParameter(arg))
    case Some(hit) => Directive(np, st, hit.kw, ValueAt(arg, hit))
  }

  /**
   * What one recognised directive does with its value text `v`: only crawl
   * and noise can fail, exactly when sscanf does not convert all their
   * floats, and a directive adds at most one stage.
   */
  function Directive(np: NumParser, st: ScanState, kw: Keyword, v: string): (r: Result<ScanState, ConfigError>)
    ensures r.Err? <==> (kw == KCrawl && |np.scanFloats(v, 4)| != 4) || (kw == KNoise && |np.scanFloats(v, 2)| != 2)
    ensures r.Ok? ==> |st.stages| <= |r.value.stages| <= |st.stages| + 1
  {
    var s := st.settings;
    var p := s.param;
    match kw
    case KRows => Ok(st.(settings := s.(rows := TruncToInt(np.atof(v)))))
    case KCols => Ok(st.(settings := s.(cols := TruncToInt(np.atof(v)))))
    case KBlur =>
      var b := np.atoi(v);
      Ok(ScanState(s.(param := p.(blur := b)), if b != 1 then st.stages + [Blur] else st.stages))
    case KSharpen => Ok(ScanState(s.(param := p.(sharpen := np.atof(v))), st.stages + [Sharpen]))
    case KRoll => Ok(ScanState(s.(param := p.(roll := np.atof(v))), st.stages + [Roll]))
    case KBlend => Ok(ScanState(s.(param := p.(blend := np.atof(v))), st.stages + [Blend]))
    case KZoom => Ok(ScanState(s.(param := p.(zoom := np.atof(v))), st.stages + [Zoom]))
    case KCrawl =>
      var f := np.scanFloats(v, 4);
      if |f| != 4 then Err(CrawlNeedsFourFloats)
      else Ok(ScanState(s.(param := p.(crawlDs := f[0], crawlDv := f[1], crawlDsv := f[2], crawlD := f[3])),
                        st.stages + [Crawl]))
    case KNoise =>
      var f := np.scanFloats(v, 2);
      if |f| != 2 then Err(NoiseNeedsTwoFloats)
      else Ok(ScanState(s.(param := p.(noise := f[0], mutate := f[1])), st.stages + [Noise]))
    case KHistEq => Ok(st.(stages := st.stages + [HistEq]))
    case KInvert => Ok(st.(stages := st.stages + [Invert]))
    case KDepth => Ok(st.(settings := s.(param := p.(depth := np.atoi(v)))))
    case KSeed => Ok(st.(settings := s.(param := p.(seed := np.atoi(v)))))
    case KDump => Ok(st.(settings := s.(dumpDir := Some(v))))
    case KNFrames => Ok(st.(settings := s.(nframes := np.atoi(v))))
  }

  /** One token, then the capacity check that follows every token (fb.cpp:356-359). */
  function ScanStep(np: NumParser, st: ScanState, arg: string): (r: Result<ScanState, ConfigError>)
    ensures r.Ok? ==> Classify(arg).Some?
  {
    match Apply(np, st, arg)
    case Err(e) => Err(e)
    case Ok(s) => if |s.stages| >= MaxPipe then Err(TooManyOperations) else Ok(s)
  }

  /**
   * The token loop: every token in turn, stopping at the first fatal error.
   * The capacity check after every token keeps a successful pipeline below
   * MaxPipe stages.
   */
  function ScanTokens(np: NumParser, st: ScanState, args: seq<string>): (r: Result<ScanState, ConfigError>)
    ensures r.Ok? && args != [] ==> |r.value.stages| < MaxPipe
    decreases |args|
  {
    if args == [] then Ok(st)
    else
      match ScanTokens(np, st, args[.. |args| - 1])
      case Err(e) => Err(e)
      case Ok(s) => ScanStep(np, s, args[|args| - 1])
  }

  /**
   * The whole of scanargs from a given state: the token loop, then validation
   * of the final values.  It succeeds exactly when the loop succeeds and the
   * final parameters are valid; a loop error is reported as it is, and
   * otherwise the error is the first failing range check.
   */
  function ScanFrom(np: NumParser, st: ScanState, args: seq<string>): (r: Result<ScanState, ConfigError>)
    ensures r.Ok? <==> ScanTokens(np, st, args).Ok? && Validate(ScanTokens(np, st, args).value.settings.param).None?
    ensures r.Ok? ==> r == ScanTokens(np, st, args)
    ensures ScanTokens(np, st, args).Err? ==> r == ScanTokens(np, st, args)
    ensures r.Err? && ScanTokens(np, st, args).Ok? ==> Validate(ScanTokens(np, st, args).value.settings.param) == Some(r.error)
  {
    match ScanTokens(np, st, args)
    case Err(e) => Err(e)
    case Ok(s) =>
      match Validate(s.settings.param)
      case Some(e) => Err(e)
      case None => Ok(s)
  }

  /**
   * scanargs as main runs it, from the defaults and an empty pipeline; `args`
   * are argv[1..], the program name excluded (fb.cpp:291 starts at i = 1).
   * What it accepts has valid parameters and fewer than MaxPipe stages.
   */
  function ScanArgs(np: NumParser, args: seq<string>): (r: Result<ScanState, ConfigError>)
    ensures r.Ok? ==> Validate(r.value.settings.param).None? && |r.value.stages| < MaxPipe
  {
    ScanFrom(np, InitialState, args)
  }

  function ErrorOf<T>(r: Result<T, ConfigError>): Option<ConfigError>
  {
    if r.Err? then Some(r.error) else None
  }

  // ---------------------------------------------------------------------------
  // What each token contributes to the pipeline, defined token by token.

  /** The stage a directive always adds, for the directives other than blur that add one. */
  function StageOf(k: Keyword): Option<Stage>
  {
    match k
    case KSharpen => Some(Sharpen)
    case KRoll => Some(Roll)
    case KBlend => Some(Blend)
    case KZoom => Some(Zoom)
    case KCrawl => Some(Crawl)
    case KNoise => Some(Noise)
    case KHistEq => Some(HistEq)
    case KInvert => Some(Invert)
    case _ => None
  }

  /** One stage per stage directive; blur only when its size is not 1; none for the others. */
  function TokenStages(np: NumParser, arg: string): (r: seq<Stage>)
    ensures |r| <= 1
    ensures r != [] ==> Classify(arg).Some? && (r[0] == Blur <==> Classify(arg).value.kw == KBlur)
  {
    match Classify(arg)
    case None => []
    case Some(hit) =>
      if hit.kw == KBlur then (if np.atoi(ValueAt(arg, hit)) != 1 then [Blur] else [])
      else if StageOf(hit.kw).Some? then [StageOf(hit.kw).value]
      else []
  }

  /** The stages the tokens ask for, in order; at most one per token. */
  function AllStages(np: NumParser, args: seq<string>): (r: seq<Stage>)
    ensures |r| <= |args|
    decreases |args|
  {
    if args == [] then [] else AllStages(np, args[.. |args| - 1]) + TokenStages(np, args[|args| - 1])
  }

  lemma ApplyStages(np: NumParser, st: ScanState, arg: string)
    requires Apply(np, st, arg).Ok?
    ensures Apply(np, st, arg).value.stages == st.stages + TokenStages(np, arg)
  {
    var hit := Classify(arg).value;
    assert Apply(np, st, arg) == Directive(np, st, hit.kw, ValueAt(arg, hit));
  }

  /**
   * The pipeline holds exactly the stages the tokens ask for, in the order
   * the tokens were given, and never reaches the capacity of the array.
   */
  lemma {:induction false} ScanTokensStages(np: NumParser, st: ScanState, args: seq<string>)
    requires ScanTokens(np, st, args).Ok?
    ensures ScanTokens(np, st, args).value.stages == st.stages + AllStages(np, args)
    ensures args != [] ==> |ScanTokens(np, st, args).value.stages| < MaxPipe
    decreases |args|
  {
    if args != [] {
      var init := args[.. |args| - 1];
      ScanTokensStages(np, st, init);
      var s := ScanTokens(np, st, init).value;
      ApplyStages(np, s, args[|args| - 1]);
    }
  }

  /** Every successful scanargs builds the tokens' stages in order, at most MaxPipe - 1 = 99 of them. */
  lemma ScanArgsStages(np: NumParser, args: seq<string>)
    requires ScanArgs(np, args).Ok?
    ensures ScanArgs(np, args).value.stages == AllStages(np, args)
    ensures |ScanArgs(np, args).value.stages| < MaxPipe
  {
    ScanTokensStages(np, InitialState, args);
  }

  /** Asking for MaxPipe or more stages is always fatal. */
  lemma TooManyStagesFatal(np: NumParser, args: seq<string>)
    requires |AllStages(np, args)| >= MaxPipe
    ensures ScanArgs(np, args).Err?
  {
    if ScanArgs(np, args).Ok? {
      ScanArgsStages(np, args);
    }
  }

  /** A successful scan of a non-empty token list is a successful scan of all but the last, then one successful step. */
  lemma ScanTokensLast(np: NumParser, st: ScanState, args: seq<string>)
    requires args != [] && ScanTokens(np, st, args).Ok?
    ensures ScanTokens(np, st, args[.. |args| - 1]).Ok?
    ensures ScanStep(np, ScanTokens(np, st, args[.. |args| - 1]).value, args[|args| - 1]) == ScanTokens(np, st, args)
  {
  }

  /** A successful scan classified every token: an unknown token is always fatal. */
  lemma ScanTokensKnown(np: NumParser, st: ScanState, args: seq<string>)
    requires ScanTokens(np, st, args).Ok?
    ensures forall i :: 0 <= i < |args| ==> Classify(args[i]).Some?
  {
    forall i | 0 <= i < |args| ensures Classify(args[i]).Some? {
      TokenKnownAt(np, st, args, i);
    }
  }

  /** The scan up to and including token i succeeded, so token i was classified. */
  lemma TokenKnownAt(np: NumParser, st: ScanState, args: seq<string>, i: nat)
    requires i < |args| && ScanTokens(np, st, args).Ok?
    ensures Classify(args[i]).Some?
  {
    var p := args[.. i + 1];
    if ScanTokens(np, st, p).Err? {
      ErrorSticks(np, st, args, i + 1);
    }
    ScanTokensLast(np, st, p);
    assert p[i] == args[i];
  }

  /** Once a prefix of the tokens has failed, the whole scan fails with the same error. */
  lemma {:induction false} ErrorSticks(np: NumParser, st: ScanState, args: seq<string>, j: nat)
    requires j <= |args| && ScanTokens(np, st, args[..j]).Err?
    ensures ScanTokens(np, st, args) == ScanTokens(np, st, args[..j])
    decreases |args| - j
  {
    if j < |args| {
      var init := args[.. |args| - 1];
      assert init[..j] == args[..j];
      ErrorSticks(np, st, init, j);
    } else {
      assert args[..j] == args;
    }
  }

  /** Scanning one more token is one more step from where the others left off. */
  lemma ScanTokensSnoc(np: NumParser, st: ScanState, args: seq<string>, t: string)
    ensures ScanTokens(np, st, args + [t]) ==
      match ScanTokens(np, st, args)
      case Err(e) => Err(e)
      case Ok(s) => ScanStep(np, s, t)
  {
    assert (args + [t])[.. |args|] == args;
  }

  /** A successful step is the directive its token is classified by. */
  lemma StepIsDirective(np: NumParser, st: ScanState, arg: string)
    requires ScanStep(np, st, arg).Ok?
    ensures Classify(arg).Some?
    ensures var hit := Classify(arg).value;
      Directive(np, st, hit.kw, ValueAt(arg, hit)) == ScanStep(np, st, arg)
  {
  }

  /** A successful token other than blend leaves the blend value as it was; a blend token sets it to its value. */
  lemma StepBlend(np: NumParser, st: ScanState, arg: string)
    requires ScanStep(np, st, arg).Ok?
    ensures Classify(arg).Some?
    ensures var hit := Classify(arg).value;
      ScanStep(np, st, arg).value.settings.param.blend ==
        if hit.kw == KBlend then np.atof(ValueAt(arg, hit)) else st.settings.param.blend
  {
    StepIsDirective(np, st, arg);
  }

  /** The token is classified by keyword k. */
  predicate IsKind(arg: string, k: Keyword)
  {
    Classify(arg).Some? && Classify(arg).value.kw == k
  }

  /** Some token of `args` satisfies p. */
  predicate AnyToken(args: seq<string>, p: string -> bool)
    decreases |args|
  {
    args != [] && (AnyToken(args[.. |args| - 1], p) || p(args[|args| - 1]))
  }

  lemma {:induction false} AnyTokenSpec(args: seq<string>, p: string -> bool)
    ensures AnyToken(args, p) <==> exists j :: 0 <= j < |args| && p(args[j])
    decreases |args|
  {
    if args != [] {
      var n := |args| - 1;
      var init := args[.. n];
      AnyTokenSpec(init, p);
      if exists j :: 0 <= j < |init| && p(init[j]) {
        var j :| 0 <= j < |init| && p(init[j]);
        assert init[j] == args[j];
      }
      if exists j :: 0 <= j < |args| && p(args[j]) {
        var j :| 0 <= j < |args| && p(args[j]);
        if j < n {
          assert init[j] == args[j];
        }
      }
    }
  }

  /** Some token of `args` is classified by keyword k. */
  predicate HasToken(args: seq<string>, k: Keyword)
  {
    AnyToken(args, a => IsKind(a, k))
  }

  lemma HasTokenSpec(args: seq<string>, k: Keyword)
    ensures HasToken(args, k) <==> exists j :: 0 <= j < |args| && IsKind(args[j], k)
  {
    AnyTokenSpec(args, a => IsKind(a, k));
  }

  /** Token i is classified by keyword k, and no token after it is. */
  predicate LastOfKind(args: seq<string>, i: nat, k: Keyword)
  {
    i < |args| && IsKind(args[i], k) && forall j :: i < j < |args| ==> !IsKind(args[j], k)
  }

  /** A last token of its kind that is not the last token is still last among all but the last token. */
  lemma LastOfKindBefore(args: seq<string>, i: nat, k: Keyword)
    requires LastOfKind(args, i, k) && i < |args| - 1
    ensures LastOfKind(args[.. |args| - 1], i, k) && args[.. |args| - 1][i] == args[i] && !IsKind(args[|args| - 1], k)
  {
  }

  /**
   * Parameters are shared, not per stage: the value of the last blend token,
   * wherever it stands among the others, is the one every Blend stage of the
   * pipeline reads.
   */
  lemma {:induction false} LastBlendWins(np: NumParser, st: ScanState, args: seq<string>, i: nat)
    requires LastOfKind(args, i, KBlend)
    requires ScanTokens(np, st, args).Ok?
    ensures ScanTokens(np, st, args).value.settings.param.blend == np.atof(ValueAt(args[i], Classify(args[i]).value))
    decreases |args|
  {
    var n := |args| - 1;
    var init := args[.. n];
    ScanTokensBlend(np, st, args);
    if i < n {
      LastOfKindBefore(args, i, KBlend);
      LastBlendWins(np, st, init, i);
    }
  }

  /** The blend after a successful scan is the last token's value if it is a blend token, else the blend before it. */
  lemma ScanTokensBlend(np: NumParser, st: ScanState, args: seq<string>)
    requires args != [] && ScanTokens(np, st, args).Ok?
    ensures ScanTokens(np, st, args[.. |args| - 1]).Ok?
    ensures var last := args[|args| - 1];
      ScanTokens(np, st, args).value.settings.param.blend ==
        if IsKind(last, KBlend) then np.atof(ValueAt(last, Classify(last).value))
        else ScanTokens(np, st, args[.. |args| - 1]).value.settings.param.blend
  {
    ScanTokensLast(np, st, args);
    StepBlend(np, ScanTokens(np, st, args[.. |args| - 1]).value, args[|args| - 1]);
  }

  /**
   * A dump token sets the dump directory to its value text (dumpdir = c+5);
   * any other successful token keeps it, so it is set after the step exactly
   * when it was set before or the token is a dump directive.
   */
  lemma StepDumpDir(np: NumParser, st: ScanState, arg: string)
    requires ScanStep(np, st, arg).Ok?
    ensures Classify(arg).Some?
    ensures var hit := Classify(arg).value;
      ScanStep(np, st, arg).value.settings.dumpDir ==
        if hit.kw == KDump then Some(ValueAt(arg, hit)) else st.settings.dumpDir
    ensures ScanStep(np, st, arg).value.settings.dumpDir.Some? <==> st.settings.dumpDir.Some? || Classify(arg).value.kw == KDump
  {
    StepIsDirective(np, st, arg);
  }

  /** An nframes token sets the frame budget to atoi of its value; any other successful token keeps it. */
  lemma StepNFrames(np: NumParser, st: ScanState, arg: string)
    requires ScanStep(np, st, arg).Ok?
    ensures Classify(arg).Some?
    ensures var hit := Classify(arg).value;
      ScanStep(np, st, arg).value.settings.nframes ==
        if hit.kw == KNFrames then np.atoi(ValueAt(arg, hit)) else st.settings.nframes
  {
    StepIsDirective(np, st, arg);
  }

  /** The dump directory after a successful scan is the last token's value if it is a dump token, else the one before it. */
  lemma ScanTokensDumpLast(np: NumParser, st: ScanState, args: seq<string>)
    requires args != [] && ScanTokens(np, st, args).Ok?
    ensures ScanTokens(np, st, args[.. |args| - 1]).Ok?
    ensures var last := args[|args| - 1];
      ScanTokens(np, st, args).value.settings.dumpDir ==
        if IsKind(last, KDump) then Some(ValueAt(last, Classify(last).value))
        else ScanTokens(np, st, args[.. |args| - 1]).value.settings.dumpDir
  {
    ScanTokensLast(np, st, args);
    StepDumpDir(np, ScanTokens(np, st, args[.. |args| - 1]).value, args[|args| - 1]);
  }

  /** The frame budget after a successful scan is atoi of the last token's value if it is an nframes token, else the one before it. */
  lemma ScanTokensNFramesLast(np: NumParser, st: ScanState, args: seq<string>)
    requires args != [] && ScanTokens(np, st, args).Ok?
    ensures ScanTokens(np, st, args[.. |args| - 1]).Ok?
    ensures var last := args[|args| - 1];
      ScanTokens(np, st, args).value.settings.nframes ==
        if IsKind(last, KNFrames) then np.atoi(ValueAt(last, Classify(last).value))
        else ScanTokens(np, st, args[.. |args| - 1]).value.settings.nframes
  {
    ScanTokensLast(np, st, args);
    StepNFrames(np, ScanTokens(np, st, args[.. |args| - 1]).value, args[|args| - 1]);
  }

  /** The last dump token, wherever it stands, names the directory the frames are written into. */
  lemma {:induction false} LastDumpWins(np: NumParser, st: ScanState, args: seq<string>, i: nat)
    requires LastOfKind(args, i, KDump)
    requires ScanTokens(np, st, args).Ok?
    ensures ScanTokens(np, st, args).value.settings.dumpDir == Some(ValueAt(args[i], Classify(args[i]).value))
    decreases |args|
  {
    var n := |args| - 1;
    var init := args[.. n];
    ScanTokensDumpLast(np, st, args);
    if i < n {
      LastOfKindBefore(args, i, KDump);
      LastDumpWins(np, st, init, i);
    }
  }

  /** The last nframes token, wherever it stands, sets the frame budget. */
  lemma {:induction false} LastNFramesWins(np: NumParser, st: ScanState, args: seq<string>, i: nat)
    requires LastOfKind(args, i, KNFrames)
    requires ScanTokens(np, st, args).Ok?
    ensures ScanTokens(np, st, args).value.settings.nframes == np.atoi(ValueAt(args[i], Classify(args[i]).value))
    decreases |args|
  {
    var n := |args| - 1;
    var init := args[.. n];
    ScanTokensNFramesLast(np, st, args);
    if i < n {
      LastOfKindBefore(args, i, KNFrames);
      LastNFramesWins(np, st, init, i);
    }
  }

  /**
   * The dump directory is set exactly when it was set before or some token
   * is a dump directive; later tokens never unset it.
   */
  lemma {:induction false} ScanTokensDumpDir(np: NumParser, st: ScanState, args: seq<string>)
    requires ScanTokens(np, st, args).Ok?
    ensures ScanTokens(np, st, args).value.settings.dumpDir.Some? <==> st.settings.dumpDir.Some? || HasToken(args, KDump)
    decreases |args|
  {
    if args != [] {
      var n := |args| - 1;
      ScanTokensLast(np, st, args);
      ScanTokensDumpDir(np, st, args[.. n]);
      StepDumpDir(np, ScanTokens(np, st, args[.. n]).value, args[n]);
    }
  }

  /** Without an nframes token the frame budget keeps its starting value. */
  lemma {:induction false} ScanTokensNFrames(np: NumParser, st: ScanState, args: seq<string>)
    requires ScanTokens(np, st, args).Ok? && !HasToken(args, KNFrames)
    ensures ScanTokens(np, st, args).value.settings.nframes == st.settings.nframes
    decreases |args|
  {
    if args != [] {
      var n := |args| - 1;
      ScanTokensLast(np, st, args);
      ScanTokensNFrames(np, st, args[.. n]);
      StepNFrames(np, ScanTokens(np, st, args[.. n]).value, args[n]);
    }
  }

  /** A dump directive followed by an nframes directive set the directory and the frame budget and build no stage. */
  lemma DumpThenNFrames(np: NumParser, d: string, f: string, dir: string, n: int)
    requires IsKind(d, KDump) && ValueAt(d, Classify(d).value) == dir
    requires IsKind(f, KNFrames) && np.atoi(ValueAt(f, Classify(f).value)) == n
    ensures ScanArgs(np, [d, f]) == Ok(ScanState(DefaultSettings.(dumpDir := Some(dir), nframes := n), []))
  {
    var h1, h2 := Classify(d).value, Classify(f).value;
    var s1 := ScanState(DefaultSettings.(dumpDir := Some(dir)), []);
    var s2 := ScanState(DefaultSettings.(dumpDir := Some(dir), nframes := n), []);
    assert ScanTokens(np, InitialState, []) == Ok(InitialState);
    ScanTokensThen(np, InitialState, [], InitialState, d, KDump, h1.pos, dir, s1);
    assert [] + [d] == [d];
    ScanTokensThen(np, InitialState, [d], s1, f, KNFrames, h2.pos, ValueAt(f, h2), s2);
    assert [d] + [f] == [d, f];
    DefaultsValid();
  }

  /** `fb --dump=/tmp/out --nframes=5` dumps five frames into /tmp/out and builds an empty pipeline. */
  lemma FiveFramesScanned(np: NumParser)
    requires np.atoi("5") == 5
    ensures ScanArgs(np, ["--dump=/tmp/out", "--nframes=5"]) ==
      Ok(ScanState(DefaultSettings.(dumpDir := Some("/tmp/out"), nframes := 5), []))
  {
    DumpTokenExample();
    NFramesTokenExample();
    DumpThenNFrames(np, "--dump=/tmp/out", "--nframes=5", "/tmp/out", 5);
  }

  /** One more token that is classified by k with value text v, and whose directive fits, is one more successful step. */
  lemma ScanTokensThen(np: NumParser, st: ScanState, args: seq<string>, s: ScanState, t: string, k: Keyword, pos: nat, v: string, s': ScanState)
    requires ScanTokens(np, st, args) == Ok(s)
    requires Classify(t) == Some(Hit(k, pos)) && ValueAt(t, Hit(k, pos)) == v
    requires Directive(np, s, k, v) == Ok(s') && |s'.stages| < MaxPipe
    ensures ScanTokens(np, st, args + [t]) == Ok(s')
  {
    ScanTokensSnoc(np, st, args, t);
  }

  /** A directive as it is written on the command line: `--keyword=value`. */
  function Token(k: Keyword, v: string): (t: string)
    ensures |t| == |Text(k)| + |v| + 3 && t[.. 2] == "--" && t[2 .. 2 + |Text(k)|] == Text(k) && t[2 + |Text(k)|] == '='
  {
    "--" + Text(k) + "=" + v
  }

  /** The keyword and value text of each directive of the end-to-end dump run, in order. */
  const EndToEndKinds: seq<Keyword> := [KBlur, KRoll, KZoom, KBlend, KSeed, KDepth, KDump, KNFrames]
  const EndToEndValues: seq<string> := ["3", "1", "1.01", "0.1", "0", "3", "/tmp/out", "5"]

  /**
   * The command line of the end-to-end dump run, `--blur=3 --roll=1
   * --zoom=1.01 --blend=0.1 --seed=0 --depth=3 --dump=/tmp/out --nframes=5`.
   */
  const EndToEndArgs: seq<string> :=
    [Token(KBlur, "3"), Token(KRoll, "1"), Token(KZoom, "1.01"), Token(KBlend, "0.1"),
     Token(KSeed, "0"), Token(KDepth, "3"), Token(KDump, "/tmp/out"), Token(KNFrames, "5")]

  /** --blur=3 is a blur directive of size "3". */
  lemma BlurTokenExample()
    ensures DirectiveToken(Token(KBlur, "3"), KBlur, "3")
  {
    assert Token(KBlur, "3") == "--blur=3";
    TokenClassified("--blur=3", KBlur, 2, "3");
  }

  /** --roll=1 is a roll directive; "roll" shares only "ro" with the earlier "rows". */
  lemma RollTokenExample()
    ensures DirectiveToken(Token(KRoll, "1"), KRoll, "1")
  {
    assert Token(KRoll, "1") == "--roll=1";
    TokenClassified("--roll=1", KRoll, 2, "1");
  }

  /** --zoom=1.01 is a zoom directive. */
  lemma ZoomTokenExample()
    ensures DirectiveToken(Token(KZoom, "1.01"), KZoom, "1.01")
  {
    assert Token(KZoom, "1.01") == "--zoom=1.01";
    TokenClassified("--zoom=1.01", KZoom, 2, "1.01");
  }

  /** --blend=0.1 is a blend directive; "blend" shares only "bl" with the earlier "blur". */
  lemma BlendTokenExample()
    ensures DirectiveToken(Token(KBlend, "0.1"), KBlend, "0.1")
  {
    assert Token(KBlend, "0.1") == "--blend=0.1";
    TokenClassified("--blend=0.1", KBlend, 2, "0.1");
  }

  /** --seed=0 is a seed directive. */
  lemma SeedTokenExample()
    ensures DirectiveToken(Token(KSeed, "0"), KSeed, "0")
  {
    assert Token(KSeed, "0") == "--seed=0";
    TokenClassified("--seed=0", KSeed, 2, "0");
  }

  /** --depth=3 is a depth directive. */
  lemma DepthTokenExample()
    ensures DirectiveToken(Token(KDepth, "3"), KDepth, "3")
  {
    assert Token(KDepth, "3") == "--depth=3";
    TokenClassified("--depth=3", KDepth, 2, "3");
  }

  /** The directive `--dump=/tmp/out` spelled out. */
  lemma DumpSpelling()
    ensures Token(KDump, "/tmp/out") == "--dump=/tmp/out"
  {
  }

  /** `--dump=/tmp/out`, written as a directive, is the token classified above. */
  lemma DumpTokenSpelled()
    ensures DirectiveToken(Token(KDump, "/tmp/out"), KDump, "/tmp/out")
  {
    DumpSpelling();
    DumpTokenExample();
  }

  /** The directive `--nframes=5` spelled out. */
  lemma NFramesSpelling()
    ensures Token(KNFrames, "5") == "--nframes=5"
  {
  }

  /** `--nframes=5`, written as a directive, is the token classified above. */
  lemma NFramesTokenSpelled()
    ensures DirectiveToken(Token(KNFrames, "5"), KNFrames, "5")
  {
    NFramesSpelling();
    NFramesTokenExample();
  }

  /** Every token of the end-to-end run is the directive its keyword and value spell. */
  lemma EndToEndTokens()
    ensures forall i :: 0 <= i < |EndToEndArgs| ==> DirectiveToken(EndToEndArgs[i], EndToEndKinds[i], EndToEndValues[i])
  {
    forall i | 0 <= i < |EndToEndArgs|
      ensures DirectiveToken(EndToEndArgs[i], EndToEndKinds[i], EndToEndValues[i])
    {
      if i == 0 { BlurTokenExample(); }
      else if i == 1 { RollTokenExample(); }
      else if i == 2 { ZoomTokenExample(); }
      else if i == 3 { BlendTokenExample(); }
      else if i == 4 { SeedTokenExample(); }
      else if i == 5 { DepthTokenExample(); }
      else if i == 6 { DumpTokenSpelled(); }
      else { NFramesTokenSpelled(); }
    }
  }

  /** How the directives of the end-to-end run are spelled. */
  lemma EndToEndSpelling()
    ensures EndToEndArgs == ["--blur=3", "--roll=1", "--zoom=1.01", "--blend=0.1", "--seed=0", "--depth=3", "--dump=/tmp/out", "--nframes=5"]
  {
    assert EndToEndArgs[0] == "--blur=3";
    assert EndToEndArgs[1] == "--roll=1";
    assert EndToEndArgs[2] == "--zoom=1.01";
    assert EndToEndArgs[3] == "--blend=0.1";
    assert EndToEndArgs[4] == "--seed=0";
    assert EndToEndArgs[5] == "--depth=3";
    assert EndToEndArgs[6] == "--dump=/tmp/out";
    assert EndToEndArgs[7] == "--nframes=5";
  }

  /** Token t is a k directive found right after a leading "--", with value text v. */
  predicate DirectiveToken(t: string, k: Keyword, v: string)
  {
    Classify(t) == Some(Hit(k, 2)) && ValueAt(t, Hit(k, 2)) == v
  }

  /**
   * Tokens that are the directives ks with values vs, each taking states[i]
   * to states[i + 1] below the capacity, scan to the last of those states.
   */
  lemma {:induction false} ScanTokensDirectives(np: NumParser, args: seq<string>, ks: seq<Keyword>, vs: seq<string>, states: seq<ScanState>)
    requires |ks| == |args| && |vs| == |args| && |states| == |args| + 1
    requires forall i :: 0 <= i < |args| ==> DirectiveToken(args[i], ks[i], vs[i])
    requires forall i :: 0 <= i < |args| ==> Directive(np, states[i], ks[i], vs[i]) == Ok(states[i + 1])
    requires forall i :: 0 < i < |states| ==> |states[i].stages| < MaxPipe
    ensures ScanTokens(np, states[0], args) == Ok(states[|args|])
    decreases |args|
  {
    if args != [] {
      var n := |args| - 1;
      ScanTokensDirectives(np, args[.. n], ks[.. n], vs[.. n], states[.. n + 1]);
      ScanTokensThen(np, states[0], args[.. n], states[n], args[n], ks[n], 2, vs[n], states[n + 1]);
      assert args[.. n] + [args[n]] == args;
    }
  }

  /** The state after each prefix of the end-to-end command: the defaults, then one directive more at a time. */
  function EndToEndStates(np: NumParser): (st: seq<ScanState>)
    ensures |st| == 9
  {
    var d := DefaultSettings;
    var p1 := DefaultParams.(blur := 3);
    var p2 := p1.(roll := np.atof("1"));
    var p3 := p2.(zoom := 1.01);
    var p4 := p3.(blend := 0.1);
    var p5 := p4.(seed := np.atoi("0"));
    var p6 := p5.(depth := 3);
    [InitialState,
     ScanState(d.(param := p1), [Blur]),
     ScanState(d.(param := p2), [Blur, Roll]),
     ScanState(d.(param := p3), [Blur, Roll, Zoom]),
     ScanState(d.(param := p4), [Blur, Roll, Zoom, Blend]),
     ScanState(d.(param := p5), [Blur, Roll, Zoom, Blend]),
     ScanState(d.(param := p6), [Blur, Roll, Zoom, Blend]),
     ScanState(d.(param := p6, dumpDir := Some("/tmp/out")), [Blur, Roll, Zoom, Blend]),
     ScanState(d.(param := p6, dumpDir := Some("/tmp/out"), nframes := 5), [Blur, Roll, Zoom, Blend])]
  }

  /** Each directive of the end-to-end command takes the state before it to the state after it, and the last state is valid. */
  lemma EndToEndDirectives(np: NumParser)
    requires np.atoi("3") == 3 && np.atof("1.01") == 1.01 && np.atof("0.1") == 0.1 && np.atoi("5") == 5
    ensures var st := EndToEndStates(np);
      && Directive(np, st[0], KBlur, "3") == Ok(st[1])
      && Directive(np, st[1], KRoll, "1") == Ok(st[2])
      && Directive(np, st[2], KZoom, "1.01") == Ok(st[3])
      && Directive(np, st[3], KBlend, "0.1") == Ok(st[4])
      && Directive(np, st[4], KSeed, "0") == Ok(st[5])
      && Directive(np, st[5], KDepth, "3") == Ok(st[6])
      && Directive(np, st[6], KDump, "/tmp/out") == Ok(st[7])
      && Directive(np, st[7], KNFrames, "5") == Ok(st[8])
      && (forall k :: 0 <= k < 9 ==> |st[k].stages| < MaxPipe)
      && st[8] == EndToEndState(np) && Validate(st[8].settings.param) == None
  {
    var st := EndToEndStates(np);
    assert st[0].stages + [Blur] == st[1].stages;
    assert st[1].stages + [Roll] == st[2].stages;
    assert st[2].stages + [Zoom] == st[3].stages;
    assert st[3].stages + [Blend] == st[4].stages;
  }

  /** The state the end-to-end command leaves: its parameters, /tmp/out, 5 frames, and the stages blur, roll, zoom, blend. */
  function EndToEndState(np: NumParser): ScanState
  {
    ScanState(DefaultSettings.(
                param := DefaultParams.(blur := 3, roll := np.atof("1"), zoom := 1.01, blend := 0.1,
                                        seed := np.atoi("0"), depth := 3),
                dumpDir := Some("/tmp/out"), nframes := 5),
              [Blur, Roll, Zoom, Blend])
  }

  /**
   * `fb --blur=3 --roll=1 --zoom=1.01 --blend=0.1 --seed=0 --depth=3
   * --dump=/tmp/out --nframes=5` is accepted: it builds the pipeline
   * blur, roll, zoom, blend, and dumps five frames into /tmp/out.
   */
  lemma EndToEndScanned(np: NumParser)
    requires np.atoi("3") == 3 && np.atof("1.01") == 1.01 && np.atof("0.1") == 0.1 && np.atoi("5") == 5
    ensures ScanArgs(np, EndToEndArgs) == Ok(EndToEndState(np))
  {
    EndToEndTokens();
    EndToEndDirectives(np);
    ScanTokensDirectives(np, EndToEndArgs, EndToEndKinds, EndToEndValues, EndToEndStates(np));
  }



  // ---------------------------------------------------------------------------
  // The scanner as the program runs it: globals overwritten token by token,
  // stages appended to a fixed array with npipe++.

  class Scanner {
    var rows: int
    var cols: int
    var dumpDir: Option<string>
    var nframes: int
    var param: Params
    /** `pipeline[MAXPIPE]` (fb.cpp:55); entries at npipe and beyond are unused. */
    const pipeline: array<Stage>
    var npipe: nat

    ghost predicate Valid()
      reads this
    {
      pipeline.Length == MaxPipe && npipe <= MaxPipe
    }

    ghost function State(): ScanState
      reads this, pipeline
      requires Valid()
    {
      ScanState(Settings(rows, cols, dumpDir, nframes, param), pipeline[..npipe])
    }

    /** The globals' initial values and main's parameter defaults. */
    constructor ()
      ensures Valid() && fresh(pipeline)
      ensures State() == InitialState
    {
      rows, cols := 1080, 1920;
      dumpDir := None;
      nframes := 30;
      param := DefaultParams;
      pipeline := new Stage[MaxPipe](_ => Blur);
      npipe := 0;
    }

    /** pipeline[npipe++] = s */
    method Append(s: Stage)
      requires Valid() && npipe < MaxPipe
      modifies this`npipe, pipeline
      ensures Valid() && npipe == old(npipe) + 1
      ensures pipeline[..npipe] == old(pipeline[..npipe]) + [s]
    {
      pipeline[npipe] := s;
      npipe := npipe + 1;
    }

    /** The body of one `else if` branch: overwrite the directive's parameters and append its stage. */
    method Dispatch(np: NumParser, kw: Keyword, v: string) returns (err: Option<ConfigError>)
      requires Valid() && npipe < MaxPipe
      modifies this, pipeline
      ensures Valid()
      ensures err == ErrorOf(Directive(np, old(State()), kw, v))
      ensures err == None ==> State() == Directive(np, old(State()), kw, v).value
    {
      err := None;
      match kw {
        case KRows => rows := TruncToInt(np.atof(v));
        case KCols => cols := TruncToInt(np.atof(v));
        case KBlur =>
          param := param.(blur := np.atoi(v));
          // a blur mask of size 1 is a no-op
          if param.blur != 1 { Append(Blur); }
        case KSharpen => param := param.(sharpen := np.atof(v)); Append(Sharpen);
        case KRoll => param := param.(roll := np.atof(v)); Append(Roll);
        case KBlend => param := param.(blend := np.atof(v)); Append(Blend);
        case KZoom => param := param.(zoom := np.atof(v)); Append(Zoom);
        case KCrawl =>
          var f := np.scanFloats(v, 4);
          if |f| != 4 { return Some(CrawlNeedsFourFloats); }
          param := param.(crawlDs := f[0], crawlDv := f[1], crawlDsv := f[2], crawlD := f[3]);
          Append(Crawl);
        case KNoise =>
          var f := np.scanFloats(v, 2);
          if |f| != 2 { return Some(NoiseNeedsTwoFloats); }
          param := param.(noise := f[0], mutate := f[1]);
          Append(Noise);
        case KHistEq => Append(HistEq);
        case KInvert => Append(Invert);
        case KDepth => param := param.(depth := np.atoi(v));
        case KSeed => param := param.(seed := np.atoi(v));
        case KDump => dumpDir := Some(v);
        case KNFrames => nframes := np.atoi(v);
      }
    }

    /**
     * scanargs: the token loop and validation.  On success the globals hold
     * the scanned state; on a fatal error the process exits, so only the
     * error is promised.
     */
    method ScanArgs(np: NumParser, args: seq<string>) returns (err: Option<ConfigError>)
      requires Valid() && npipe < MaxPipe
      modifies this, pipeline
      ensures Valid()
      ensures err == ErrorOf(ScanFrom(np, old(State()), args))
      ensures err == None ==> State() == ScanFrom(np, old(State()), args).value
    {
      ghost var st0 := State();
      var i := 0;
      while i < |args|
        invariant 0 <= i <= |args|
        invariant Valid() && npipe < MaxPipe
        invariant ScanTokens(np, st0, args[..i]) == Ok(State())
      {
        var arg := args[i];
        ghost var before := State();
        assert args[..i + 1][.. i] == args[..i];
        assert args[..i + 1][i] == arg;
        var hit := Classify(arg);
        if hit.None? {
          ErrorSticks(np, st0, args, i + 1);
          return Some(UnknownParameter(arg));
        }
        var e := Dispatch(np, hit.value.kw, ValueAt(arg, hit.value));
        if e.Some? {
          ErrorSticks(np, st0, args, i + 1);
          return e;
        }
        assert Apply(np, before, arg) == Ok(State());
        if npipe >= MaxPipe {
          ErrorSticks(np, st0, args, i + 1);
          return Some(TooManyOperations);
        }
        i := i + 1;
      }
      assert args[..|args|] == args;
      assert ScanTokens(np, st0, args) == Ok(State());
      err := Validate(param);
      assert State().settings.param == param;
    }
  }
}
