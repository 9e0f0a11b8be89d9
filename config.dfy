/** The configuration of fb.cpp: parameters, defaults, stage kinds and validation. */
module Config {
  import opened Wrappers

  /** The capacity of the pipeline array (fb.cpp:19). */
  const MaxPipe: nat := 100

  /**
   * The stage kinds a pipeline entry can point to.  A stage carries no
   * parameters of its own: every stage reads the one shared `Params`.
   */
  datatype Stage = Blur | Sharpen | Roll | Blend | Zoom | Crawl | Noise | HistEq | Invert

  /** The `param` struct (fb.cpp:32-47). */
  datatype Params = Params(
    blur: int,
    sharpen: real,
    roll: real,
    zoom: real,
    blend: real,
    crawlDs: real,
    crawlDv: real,
    crawlDsv: real,
    crawlD: real,
    noise: real,
    mutate: real,
    depth: int,
    seed: int)

  /** The defaults main assigns before the arguments are read (fb.cpp:390-403). */
  const DefaultParams: Params := Params(1, 0.0, 0.0, 1.0, 0.5, 0.0, 0.0, 0.0, 0.0, 0.0, 0.0, 3, 0)

  /** The other globals the arguments set: window size, dump directory and frame budget (fb.cpp:22-23, 50-51). */
  datatype Settings = Settings(rows: int, cols: int, dumpDir: Option<string>, nframes: int, param: Params)

  const DefaultSettings: Settings := Settings(1080, 1920, None, 30, DefaultParams)

  /** The fatal errors scanargs reports before exiting. */
  datatype ConfigError =
    | UnknownParameter(arg: string)
    | CrawlNeedsFourFloats
    | NoiseNeedsTwoFloats
    | TooManyOperations
    | BlurNotPositiveOdd
    | BlendOutOfRange
    | ZoomOutOfRange
    | NoiseOutOfRange
    | DepthNotOneOrThree

  /**
   * The sanity checks on the final parameter values (fb.cpp:362-382), in the
   * order the program makes them; the first that fails is reported.
   */
  function Validate(p: Params): (r: Option<ConfigError>)
    ensures r == None <==>
      && p.blur >= 1 && p.blur % 2 == 1
      && 0.0 <= p.blend <= 1.0
      && 1.0 <= p.zoom <= 2.0
      && 0.0 <= p.noise <= 1.0 && 0.0 <= p.mutate <= 1.0
      && (p.depth == 1 || p.depth == 3)
    ensures r == Some(BlurNotPositiveOdd) <==> p.blur < 1 || p.blur % 2 != 1
    ensures r == Some(DepthNotOneOrThree) ==> p.depth != 1 && p.depth != 3
    ensures r.Some? ==> r.value in {BlurNotPositiveOdd, BlendOutOfRange, ZoomOutOfRange, NoiseOutOfRange, DepthNotOneOrThree}
  {
    if p.blur < 1 || p.blur % 2 != 1 then Some(BlurNotPositiveOdd)
    else if p.blend < 0.0 || p.blend > 1.0 then Some(BlendOutOfRange)
    else if p.zoom < 1.0 || p.zoom > 2.0 then Some(ZoomOutOfRange)
    else if p.noise < 0.0 || p.noise > 1.0 || p.mutate < 0.0 || p.mutate > 1.0 then Some(NoiseOutOfRange)
    else if p.depth != 1 && p.depth != 3 then Some(DepthNotOneOrThree)
    else None
  }

  /** The defaults pass validation. */
  lemma DefaultsValid()
    ensures Validate(DefaultParams) == None
  {
  }

  /** blend=1.5, zoom=0.9, blur=4 and depth=2 are each rejected, on its own, by the check for that parameter. */
  lemma RangeRejections()
    ensures Validate(DefaultParams.(blend := 1.5)) == Some(BlendOutOfRange)
    ensures Validate(DefaultParams.(zoom := 0.9)) == Some(ZoomOutOfRange)
    ensures Validate(DefaultParams.(blur := 4)) == Some(BlurNotPositiveOdd)
    ensures Validate(DefaultParams.(depth := 2)) == Some(DepthNotOneOrThree)
  {
  }
}
