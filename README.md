# Video feedback: a verified model of fb.cpp

fb.cpp simulates analogue video feedback. One image is run through a chain
of per-frame transforms again and again, and each result seeds the next
frame. This project models the logic the program owns:

- **scanargs.** The command-line scanner reads `argv[1..]` (the program name
  is skipped, fb.cpp:291 starts at `i = 1`). It classifies each token by keyword,
  overwrites the shared parameter record, appends stages to the fixed
  pipeline array, checks the array's capacity and validates the final values.
- **run and main's frame loop.** `run` is a left-to-right fold over the
  pipeline. The loop in `main` replaces the global image once per pass, then
  saves the clipped frame under a `frame%05d.png` name or shows it.
- **The transforms.** The arithmetic of `clip`, `blend`, greyscale and HSV
  `invert`, `noise`, `sharpen`, the `zoom` crop and the `crawl` coordinates is
  modelled. The ArrayFire calls around them are parameters.

Images are `seq<seq<Pixel>>`, where a pixel is a `seq<real>` of 1 or 3
channels, and a `Shape(rows, cols, depth)` travels with them. The ArrayFire
primitives (convolution, rotation, resize, colour-space conversion, histogram
equalisation, `approx2`) are fields of an `Engine`. `Engines.Sound` states the
one property the program relies on for each of them: the shape of the array
it returns. The random draws of `noise` (`randu`) are inputs (`NoiseDraw`). So
are the C number parsers (`NumParser`: `atof`, `atoi`, `sscanf`).

Modules, leaves first:

- `Wrappers`, `Numbers`, `Images`, `Engines` and `Config`: parameters,
  defaults, stages and validation.
- `Transforms` and `ZoomCrop`.
- `Args`: the pure scanner functions and the `Scanner` class that runs them
  imperatively.
- `Pipeline`: `Step`, `Fold` and the `Run` loop.
- `Feedback`: frame names, the frame sequence, and the `FeedbackLoop` class
  holding `image` and `frame`.

Stages carry no parameters. Every stage reads the one shared `Params` record,
and the dump directory and frame budget are single globals too. So a repeated
directive's last value wins (`Args.LastBlendWins`, `Args.LastDumpWins`,
`Args.LastNFramesWins`). `blend`
reads the global `image`, which `main` reassigns only after `run` returns. The
model therefore passes the pre-tick frame to every stage as `prev`.

Points where the program's behaviour is easy to misread:

- Validation happens after the whole pipeline is built, not before. A
  capacity error, an unknown token or a malformed crawl/noise value can
  therefore be reported even when the values are also out of range.
- The capacity check fails when the pipeline *reaches* 100 stages. A
  successful scan builds at most 99.
- `clip` is not a pipeline stage. It is applied only to the frame being
  saved in dump mode. Only the upper bound is clamped.
- At zoom factor 1 the program still resizes the uncropped image to its own
  size. The model proves the crop is the whole image and leaves the resize to
  the engine.

## Model

| member | source | states |
|---|---|---|
| Numbers.TruncToInt | fb.cpp:246-247 | C's double-to-int conversion: the result is the integer part, truncated toward zero, for either sign |
| Config.Validate | fb.cpp:362-382 | accepts exactly when blur is odd and ≥ 1, blend is in [0,1], zoom is in [1,2], noise and mutate are in [0,1] and depth is 1 or 3; a failing blur check is reported first; every error is one of the five range errors |
| Config.DefaultsValid | fb.cpp:390-403 | main's default parameters pass validation |
| Config.RangeRejections | fb.cpp:362-382 | blend=1.5, zoom=0.9, blur=4 and depth=2, each alone, are rejected by their own check |
| Args.Find | fb.cpp:292 | definition: `strstr(argv[i], keyword)`, the search from position 0; a match it returns lies inside the token (that it is the first match is `Args.FindFromSpec`) |
| Args.FindFromSpec | fb.cpp:292 | strstr: the result is the first position where the keyword occurs; None means it occurs nowhere |
| Args.Classify | fb.cpp:292-355 | definition: the `else if` chain, testing the keywords in the order rows…nframes; the keyword it reports lies inside the token (which keyword wins is `Args.ClassifySpec`) |
| Args.ClassifyFromSpec | fb.cpp:291-355 | testing keywords from rank i on picks the first one, in dispatch order, that occurs in the token |
| Args.ClassifySpec | fb.cpp:291-355 | a token is classified by the first keyword in order rows…nframes that occurs in it as a substring; it is unknown exactly when none occurs |
| Args.ClassifiedAs | fb.cpp:291-355 | conversely, when no earlier keyword occurs and k first occurs at pos, the token is classified by k at pos |
| Args.FoundAt | fb.cpp:292 | strstr returns j when the keyword matches at j and its first letter occurs nowhere before j |
| Args.FindAbsent | fb.cpp:292 | strstr finds nothing when the keyword's first three letters never stand side by side |
| Args.TokenClassified | fb.cpp:291-355 | a token with no earlier keyword in it and k at pos followed by `=` and v is classified by k, with value text v |
| Args.KeywordFirstAt | fb.cpp:292-355 | a token with no earlier keyword's first three letters in it, and k first at pos, is classified by k at pos |
| Args.ValueAfter | fb.cpp:293-350 | the value text is everything after the keyword and the one character that follows it |
| Args.DumpTokenExample | fb.cpp:346-347 | `--dump=/tmp/out` is a dump directive whose value is `/tmp/out` |
| Args.NFramesTokenExample | fb.cpp:349-350 | `--nframes=5` is an nframes directive whose value is `5` |
| Args.ValueAt | fb.cpp:293-350 | the value text starts at the offset each branch hard-codes from the match (c+5 for rows, cols, blur, roll, zoom, seed and dump; c+6 for blend, crawl, noise and depth; c+8 for sharpen and nframes) |
| Args.ValueAtSplitsToken | fb.cpp:293-350 | the token is the text before the match, the keyword, one skipped character and the value text |
| Args.Directive | fb.cpp:293-350 | definition: the body of each branch, the parameter or global it sets and the stage it appends; only crawl and noise fail, exactly when `sscanf` converts fewer than 4 and 2 floats respectively; at most one stage is appended |
| Args.Apply | fb.cpp:291-355 | a token that applies cleanly was classified; an unknown token is an error |
| Args.ScanStep | fb.cpp:356-359 | one token, then the capacity check; success implies the token was known |
| Args.ScanTokens | fb.cpp:291-360 | definition: the `for` loop over argv[1..], stopping at the first `exit(-1)`; a successful loop over at least one token leaves fewer than MAXPIPE stages |
| Args.ScanFrom | fb.cpp:286-383 | scanargs succeeds exactly when the token loop succeeds and the final parameters pass validation, and then yields the loop's state; a loop error is reported as it is; otherwise the error is the first failing range check |
| Args.ScanArgs | fb.cpp:286-383 | definition: scanargs from main's defaults and an empty pipeline; whatever it accepts has valid parameters and fewer than 100 stages |
| Args.TokenStages | fb.cpp:298-339 | definition: the `pipeline[npipe++] = …` of one branch; at most one stage, and a Blur stage exactly when the token is a blur directive (of size other than 1) |
| Args.AllStages | fb.cpp:298-339 | definition: the appends of all the tokens in order; at most one stage per token |
| Args.ApplyStages | fb.cpp:298-339 | a token appends exactly its own stages after those already built |
| Args.ScanTokensStages | fb.cpp:291-360 | the built pipeline is the starting one followed by each token's stages in token order, and stays below the capacity |
| Args.ScanArgsStages | fb.cpp:286-383 | a successful scan builds exactly the tokens' stages in order: one per sharpen…invert token, blur only when its size is not 1, none for the rest; at most 99 stages |
| Args.TooManyStagesFatal | fb.cpp:356-359 | asking for 100 or more stages always fails |
| Args.ScanTokensLast | fb.cpp:291-360 | a successful scan is a successful scan of all but the last token, then one successful step |
| Args.ScanTokensKnown | fb.cpp:352-355 | in a successful scan every token was classified |
| Args.TokenKnownAt | fb.cpp:352-355 | in a successful scan, token i in particular was classified |
| Args.ErrorSticks | fb.cpp:352-358 | once a prefix of the tokens fails, the whole scan fails with that error |
| Args.ScanTokensSnoc | fb.cpp:291 | scanning one more token is one more step from the state the others left |
| Args.StepIsDirective | fb.cpp:291-359 | a successful step is the directive of the keyword its token is classified by |
| Args.StepBlend | fb.cpp:312-315 | a blend token sets blend to its value; any other successful token keeps it |
| Args.LastBlendWins | fb.cpp:312-315 | for any blend token with no blend token after it, its value is the blend every Blend stage reads, wherever it stands among the other tokens |
| Args.AnyTokenSpec | fb.cpp:291 | some token satisfies p exactly when there is an index whose token satisfies p |
| Args.HasTokenSpec | fb.cpp:291-355 | some token is a k directive exactly when some index holds one |
| Args.StepDumpDir | fb.cpp:346-347 | a dump token sets the dump directory to its value text and any other successful token keeps it, so a directory is set after the step exactly when it was set before or the token is a dump directive |
| Args.StepNFrames | fb.cpp:349-350 | an nframes token sets the frame budget to atoi of its value text; any other successful token keeps it |
| Args.ScanTokensDumpLast | fb.cpp:346-347 | after a successful scan the dump directory is the last token's value text if it is a dump directive, and otherwise the directory the other tokens left |
| Args.ScanTokensNFramesLast | fb.cpp:349-350 | after a successful scan the frame budget is atoi of the last token's value text if it is an nframes directive, and otherwise the budget the other tokens left |
| Args.LastDumpWins | fb.cpp:346-347 | for any dump token with no dump token after it, its value text is the dump directory, wherever it stands among the other tokens |
| Args.LastNFramesWins | fb.cpp:349-350 | for any nframes token with no nframes token after it, atoi of its value text is the frame budget, wherever it stands among the other tokens |
| Args.ScanTokensDumpDir | fb.cpp:346-347 | after a successful loop a dump directory is set exactly when it was set at the start or some token is a dump directive |
| Args.ScanTokensNFrames | fb.cpp:349-350 | without an nframes token the frame budget keeps its starting value |
| Args.DumpThenNFrames | fb.cpp:286-383 | scanning a dump directive then an nframes directive sets exactly the directory and frame budget and builds no stage |
| Args.FiveFramesScanned | fb.cpp:286-383 | `--dump=/tmp/out --nframes=5` (with atoi("5") = 5) yields the defaults with directory /tmp/out, 5 frames and an empty pipeline |
| Args.BlurTokenExample | fb.cpp:298-299 | `--blur=3` is a blur directive whose value is `3` |
| Args.RollTokenExample | fb.cpp:308-309 | `--roll=1` is a roll directive whose value is `1`; it shares only "ro" with the earlier keyword rows |
| Args.ZoomTokenExample | fb.cpp:316-317 | `--zoom=1.01` is a zoom directive whose value is `1.01` |
| Args.BlendTokenExample | fb.cpp:312-313 | `--blend=0.1` is a blend directive whose value is `0.1`; it shares only "bl" with the earlier keyword blur |
| Args.SeedTokenExample | fb.cpp:343-344 | `--seed=0` is a seed directive whose value is `0` |
| Args.DepthTokenExample | fb.cpp:340-341 | `--depth=3` is a depth directive whose value is `3` |
| Args.EndToEndSpelling | fb.cpp:291 | the end-to-end command line is `--blur=3 --roll=1 --zoom=1.01 --blend=0.1 --seed=0 --depth=3 --dump=/tmp/out --nframes=5` |
| Args.EndToEndTokens | fb.cpp:292-350 | each of its eight tokens is classified by its own keyword, found at position 2, with the text after `=` as its value |
| Args.ScanTokensThen | fb.cpp:291-359 | a successful scan followed by a token whose directive succeeds without reaching the capacity is a successful scan of one more token |
| Args.ScanTokensDirectives | fb.cpp:291-360 | tokens whose directives lead from state to state, each below the capacity, scan from the first state to the last |
| Args.EndToEndDirectives | fb.cpp:293-350 | the eight directives take the defaults step by step to blur 3, zoom 1.01, blend 0.1, depth 3, directory /tmp/out and 5 frames, with the pipeline blur, roll, zoom, blend; the final parameters pass validation |
| Args.EndToEndScanned | fb.cpp:286-383 | scanargs on the eight-token command line accepts it and yields exactly that final state |
| Args.Scanner.constructor | fb.cpp:390-403 | the globals start at main's default parameters, with the 1080×1920 window, no dump directory and 30 frames of fb.cpp:22-23 and 50-51, and an empty pipeline array of capacity 100 |
| Args.Scanner.Append | fb.cpp:302 | pipeline[npipe++] = s extends the used part of the array by s |
| Args.Scanner.Dispatch | fb.cpp:292-351 | one `else if` branch changes the globals exactly as the directive's pure definition says, and reports crawl/noise parse errors |
| Args.Scanner.ScanArgs | fb.cpp:286-383 | the imperative loop reports exactly the error of the pure scan and leaves the globals in its final state |
| Transforms.Clipped | fb.cpp:154-163 | every value is at most 1; values below 1 are unchanged, all others become exactly 1; the shape is kept |
| Transforms.ClippedIdempotent | fb.cpp:154-163 | clipping twice is clipping once |
| Transforms.Clip | fb.cpp:154-163 | overwriting the elements in place yields the clipped image |
| Transforms.ClipAgainstOne | fb.cpp:157-160 | clip as written succeeds exactly for images shaped like `one`, and then clips |
| Transforms.GreyscaleDumpClipFails | fb.cpp:65 | a 1080×1920 greyscale frame does not match `one`, so clip as written fails on it |
| Transforms.Blend | fb.cpp:173-176 | blend=1 gives the stage input, blend=0 gives the previous frame, and any blend in [0,1] keeps each value between the two inputs |
| Transforms.InvertGrey | fb.cpp:71-72 | each value x becomes 1 − x |
| Transforms.InvertGreyInvolution | fb.cpp:71-72 | greyscale invert twice is the identity |
| Transforms.InvertGreyInRange | fb.cpp:71-72 | values in [0,1] stay in [0,1] |
| Transforms.InvertValueChannel | fb.cpp:77-83 | V becomes 1 − V while H and S are kept |
| Transforms.Invert | fb.cpp:68-89 | invert keeps the shape and is 1 − x on greyscale |
| Transforms.InvertInvolution | fb.cpp:71-72 | greyscale invert, as the stage runs it, twice is the identity |
| Transforms.InvertValueChannelInvolution | fb.cpp:77-83 | the colour path's HSV step, V → 1 − V, twice is the identity |
| Transforms.Noise | fb.cpp:140-151 | pixels whose mask draw does not exceed mutate are unchanged; the others move by 2·noise·(u − 0.5) per channel, with one mask shared by all channels |
| Transforms.NoiseBounded | fb.cpp:140-151 | with draws in [0,1] no value moves by more than the noise level |
| Transforms.NoiseIdentityCases | fb.cpp:140-151 | noise level 0, or mutate ≥ 1 with mask draws ≤ 1, leaves the image unchanged |
| Transforms.Sharpen | fb.cpp:186-189 | where the blurred value equals the input it is unchanged; strength 0 is the identity |
| Transforms.Radians | fb.cpp:166-170 | roll converts degrees with the program's PI (fb.cpp:18): r · 180 = degrees · PI, so 180 degrees is PI and 0 degrees is 0 |
| Transforms.HistEq | fb.cpp:192-231 | equalisation keeps the image's shape at both depths |
| Transforms.EqualizedValue | fb.cpp:215-227 | colour path: H and S are kept and V becomes the equalised value divided by 256 |
| Transforms.CrawlIndices | fb.cpp:106-131 | the lookup coordinates have the image's rows and columns, and all-zero coefficients give each pixel its own coordinates |
| Transforms.Crawl | fb.cpp:93-135 | crawl keeps the shape and returns greyscale images unchanged |
| ZoomCrop.SourceShave | fb.cpp:246-247 | the shave is non-negative for zoom ≥ 1 and is 0 at zoom 1 |
| ZoomCrop.ShaveBelowTwo | fb.cpp:246-249 | below a factor of 2, twice the shave is at most the dimension |
| ZoomCrop.ShaveAtTwo | fb.cpp:246-247 | at a factor of 2, twice the shave is n for even n and n + 1 for odd n |
| ZoomCrop.Crop | fb.cpp:249 | the crop loses exactly the shave from each edge, keeps every other pixel at its offset, and is the whole image when both shaves are 0 |
| ZoomCrop.ZoomAsWritten | fb.cpp:236-251 | zoom as written succeeds exactly when both index ranges are non-empty |
| ZoomCrop.ZoomAtTwoFails | fb.cpp:246-249 | zoom=2.0 passes validation yet fails for every image |
| ZoomCrop.ZoomEmptyBelowTwo | fb.cpp:246-249 | a two-row image at zoom 1.5 has shave 1 and an empty crop |
| ZoomCrop.ZoomShave | fb.cpp:246-249 | the corrected shave always leaves a row, equals the program's shave wherever that one does, and is 0 at zoom 1 |
| ZoomCrop.Zoom | fb.cpp:236-251 | the output has the input's shape; at zoom 1 the whole image is resized |
| ZoomCrop.ZoomAgreesWithSource | fb.cpp:236-251 | wherever the program's zoom succeeds, the corrected zoom gives the same image |
| Pipeline.Step | fb.cpp:279 | each stage keeps the shape; Blend with blend 1 or 0 gives the input or the pre-tick frame; greyscale Invert is 1 − x; greyscale Crawl is the identity |
| Pipeline.Fold | fb.cpp:273-284 | folding the stages keeps the image's shape |
| Pipeline.Run | fb.cpp:273-284 | the loop computes the left-to-right fold; with no stages it returns its input |
| Pipeline.FoldConcat | fb.cpp:278-281 | running p ++ q is running q on the result of p |
| Pipeline.FoldSingle | fb.cpp:278-281 | a one-stage pipeline is that stage |
| Pipeline.FoldSnoc | fb.cpp:278-281 | the last stage receives the output of all the stages before it |
| Pipeline.LastBlendZeroKeepsFrame | fb.cpp:173-176 | a pipeline ending in Blend with blend 0 returns the pre-tick frame, whatever came before |
| Pipeline.InvertTwiceCancels | fb.cpp:71-72 | two greyscale Invert stages cancel |
| Pipeline.InvertBlendOrderMatters | fb.cpp:278-281 | stage order matters: on a 0.2 grey pixel, Invert then Blend gives 0.5 and Blend then Invert gives 0.8 |
| Feedback.Digits | fb.cpp:438 | %d digits: non-empty, all digits, and exactly as many as n has |
| Feedback.FiveDigits | fb.cpp:438 | numbers below 100000 have at most five digits |
| Feedback.Zeros | fb.cpp:438 | the zero padding: k characters '0' |
| Feedback.Pad5 | fb.cpp:438 | %05d: at least five digits, exactly five when the number has at most five |
| Feedback.DigitsValue | fb.cpp:438 | the digits read back as the number |
| Feedback.ZerosValue | fb.cpp:438 | leading zeros do not change a decimal value |
| Feedback.Pad5Value | fb.cpp:438 | %05d reads back as the frame number |
| Feedback.FrameName | fb.cpp:438 | the name starts with the directory and has the directory's length plus 10 plus the padded digits' |
| Feedback.FrameNameInjective | fb.cpp:438 | different frame numbers give different file names |
| Feedback.FrameNameFitsBuffer | fb.cpp:437-438 | the name and its NUL fit buf[80] exactly when the directory and padded number total at most 69 characters, in particular for a directory of ≤ 64 characters and frames below 100000 |
| Feedback.FrameNameExample | fb.cpp:438 | frame 0 under /tmp/out is /tmp/out/frame00000.png; frame 42 under images is images/frame00042.png |
| Feedback.Pad5Examples | fb.cpp:438 | 0 and 42 pad to 00000 and 00042 |
| Feedback.NextFrame | fb.cpp:433 | image = run(image), with blend reading the frame the pass started from; the shape is kept |
| Feedback.StepsAt | fb.cpp:433 | the loop body `next` is run(image) wherever main can reach |
| Feedback.TickOfSteps | fb.cpp:433 | a loop body with that property exists for every environment and pipeline |
| Feedback.Frames | fb.cpp:430-448 | one frame per pass |
| Feedback.FramesChain | fb.cpp:430-433 | each frame is the loop body applied to the frame before it (the first to the initial image) |
| Feedback.FramesPrefix | fb.cpp:430-433 | the frames of n + 1 passes are those of n passes plus one more |
| Feedback.FramesKeepShape | fb.cpp:425-433 | every frame keeps the initial image's shape |
| Feedback.FrozenWhenLastBlendZero | fb.cpp:173-176 | a pipeline ending in Blend with blend 0 freezes the display at the initial image |
| Feedback.EmptyPipelineStill | fb.cpp:278-283 | with no stages every frame is the initial image |
| Feedback.SinkOf | fb.cpp:417-430 | main dumps exactly when a dump directory was set, into that directory with nframes as the budget, and otherwise opens the window |
| Feedback.DumpModeIffDumpToken | fb.cpp:346-347 | a successful scan leads to dump mode exactly when some argument is a dump directive |
| Feedback.DumpBudgetDefault | fb.cpp:50-51 | a dump run without an nframes argument writes the default 30 frames |
| Feedback.FrameCount | fb.cpp:430 | in dump mode the loop makes max(nframes − frame, 0) passes |
| Feedback.Render | fb.cpp:436-445 | definition: the dump-or-show step of main's loop; in dump mode, the file FrameName(dir, k) holding an image of the frame's shape with no value above 1; on screen, the frame itself |
| Feedback.DumpedFilesDistinctAndClipped | fb.cpp:436-440 | dumped output t is the clipped frame t saved as FrameName(dir, frame0 + t); no two share a name and no saved value exceeds 1 |
| Feedback.DumpRunFromLastDirectives | fb.cpp:417-430 | an accepted command line dumps into the value of its last dump directive, with atoi of its last nframes directive's value as the budget, whatever the other tokens are |
| Feedback.FiveFramesDumped | fb.cpp:417-440 | after scanning `--blur=3 --roll=1 --zoom=1.01 --blend=0.1 --seed=0 --depth=3 --dump=/tmp/out --nframes=5`, the pipeline is blur, roll, zoom, blend, main dumps to /tmp/out with a budget of 5, and the loop writes five files, frame00000.png up to frame00004.png |
| Feedback.FiveDumpedNames | fb.cpp:430-440 | dumping 5 frames into /tmp/out from frame 0 writes five files, frame00000.png up to frame00004.png |
| Feedback.ShownFramesUnclipped | fb.cpp:441-445 | on screen every frame is shown as it is, unclipped |
| Feedback.RenderedSnoc | fb.cpp:436-445 | rendering one more frame extends the outputs by that frame's output |
| Feedback.RenderStep | fb.cpp:430-448 | one pass adds the next frame's output under the next frame number |
| Feedback.FeedbackLoop.constructor | fb.cpp:425 | the loop starts from the initial image at frame 0 |
| Feedback.FeedbackLoop.Tick | fb.cpp:433 | image becomes run(image); the counter is unchanged |
| Feedback.FeedbackLoop.Pass | fb.cpp:432-447 | one loop pass: tick, then save FrameName(dir, frame) with the clipped image or show it, then frame++ |
| Feedback.FeedbackLoop.Advance | fb.cpp:430-448 | after pass n the image is frame n and the outputs render frames 0..n |
| Feedback.FeedbackLoop.Loop | fb.cpp:430-448 | the loop's outputs render exactly the frame sequence under consecutive numbers, the image ends at the last frame, and frame advances by the number of passes |
| Feedback.EnvOf | fb.cpp:425 | the stage environment has the scanned parameters and window size, and is well formed for a sound engine |
| Feedback.AcceptedArgsRun | fb.cpp:406-425 | whatever scanargs accepts gives a well-formed environment and a pipeline of exactly the tokens' stages, fewer than 100 |

## Left out

- ArrayFire's numerics (gaussianKernel/convolve2, rotate, resize, colorSpace, histogram/histEqual, approx2, cos, sin) are `Engine` parameters. Only the shape of each result is assumed (`Engines.Sound`). So blur, roll and the colour paths of histeq, invert and crawl say nothing beyond shape and the arithmetic around the calls.
- Random numbers: `randseed` (reading /dev/urandom), `setSeed`, `setDefaultRandomEngineType` and the seed are not modelled. Each `randu` draw is an input, and the initial `randu(rows, cols, depth)` image is the loop's `init`.
- The display window, `win->close()`, `saveImage` and the fps timing are left out. The window is described by the number of passes it stays open (`OnScreen(closesAfter)`). Saving a file is an output value `Saved(name, image)`.
- Floating point: `float` and `f32` arithmetic is modelled with exact `real`. Rounding, overflow, NaN and infinities are not represented.
- The C number parsers (`atof`, `atoi`, `sscanf`) are parameters (`NumParser`). `rows`/`cols` take the double truncated toward zero. A value offset past the end of a token reads the empty string, where C would read past the token.
- Pipeline.EnvOk: images with zero rows or columns, which a `--rows=0` argument makes possible, are not modelled. The loop is modelled only for windows of at least one pixel.
- Pipeline.Step: the Zoom stage uses the corrected shave (`ZoomCrop.Zoom`). The crop failure the program has at zoom 2 is modelled separately, by `ZoomCrop.ZoomAsWritten`.
- Feedback.FeedbackLoop.Pass: in dump mode the model clips without the `one` shape check (`Transforms.Clip`). The failure of the program's `replace` for any other shape is modelled separately by `Transforms.ClipAgainstOne`.
- Feedback.FrameNameFitsBuffer: the `sprintf` into `buf[80]` overflows for long directory names. The model states when the name fits but does not model the overflow itself. It counts characters as bytes, which holds for an ASCII directory name; a directory name with multi-byte UTF-8 characters has more bytes than the model counts.
- Feedback.FeedbackLoop.Loop: the loop body is a ghost map `next`, tied to run(image) by `Feedback.Steps`. The frame sequence is stated for that map. The negative frame numbers of an `int` overflow after 2^31 passes are not modelled.
- Transforms.InvertInvolution: colour invert is not an involution, so only depth 1 and the HSV step are proved. A pixel with V = 1 and S > 0, such as red (H, S, V) = (0, 1, 1), becomes (0, 1, 0), which is black; black inverts to white, not back to red.
- ZoomCrop.Zoom: at factor 1 the result is `resize` of the uncropped image to its own size. That this is the identity depends on the engine and is not assumed.

## Findings

| source | as written | input that shows it | evidently intended | confidence | as-written member | corrected member |
|---|---|---|---|---|---|---|
| fb.cpp:246-249 | the shave `(int)(0.5 + 0.5*n*(zoom-1))`, with zoom up to 2.0 accepted by validation, gives a crop range `seq(s, n-s-1)` that holds no row | `--zoom=2.0` with any window size (for 1920 columns the range is 960..959); also `--rows=2 --zoom=1.5` | every accepted zoom factor keeps at least one row and one column before the resize | not executed | ZoomCrop.ZoomAtTwoFails | ZoomCrop.ZoomShave |
| fb.cpp:65 | `one` is built during static initialisation as 1080×1920×3, before scanargs changes rows, cols or depth, and clip hands it to `replace` | `--depth=1 --dump=dir` (or any `--rows`/`--cols` other than the defaults with `--dump`) reaches clip with an image whose shape differs from `one` | clip clamps an image of any shape at 1.0 | not executed | Transforms.GreyscaleDumpClipFails | Transforms.Clipped |
