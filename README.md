# Ruffle test-framework options: a Dafny model

This project models the declarative options of one test case in Ruffle's
regression-test framework (`tests/framework/src/options.rs`). It covers four
areas:

- The image-comparison engine that decides whether a captured frame matches
  its expected image. This includes the per-channel difference buffer, the
  outlier count against a tolerance, the maximum difference, and the ordered
  checks with their platform filters. It also covers the "no checks
  executed" rule and the diagnostic images written when a check fails.
- The load-time validation that no two comparisons share a non-`FsCommand`
  trigger.
- The evaluation of a check's cfg-like filter expression (`os`, `arch`,
  `family`).
- The rules that decide whether a test can run (build features, renderer
  support), the player setup rules (stage quality from the sample count,
  Debug as the default mode), and the defaults of the options.

Modules, one per file:

- `Common` (`common.dfy`): `uint8` and the `Option`/`Result` wrappers.
- `TestExpressions` (`expressions.dfy`): filter expressions over a parsed
  expression tree.
- `ImageDifference` (`difference.dfy`): the byte-level difference engine.
- `ImageComparisons` (`comparison.dfy`): check resolution, the check loop
  and the written diagnostics.
- `TestOptionsModel` (`options.dfy`): test, player and render options,
  features, and validation.

Operations that loop in the source are methods proved against a
specification function: `CalculateDifferenceData`, the colour and alpha
loops, the check loop inside `Test`, `Validate` and `Evaluate`. The
properties the source relies on are then lemmas about those functions.

The host platform (`std::env::consts`), the environment's renderer probe
and the compiled-in features are parameters. Image files are not written;
`Test` returns the sequence of files it would write (path, size, channel
count, pixels) next to its verdict.

Three behaviours of the code worth stating:

- A comparison with no simple fields and no checks is not an error. It
  resolves to one implicit check with tolerance 0 and max outliers 0
  (`Checks`, options.rs:267-275).
- When a check fails on a known-failure test, the colour plane (and,
  if alpha differs, the alpha plane) is still computed. Only the writes are
  suppressed (`SaveFailureDiagnostics`, options.rs:355-383).
- An executed check on an image without pixels reaches the `unwrap` of an
  empty maximum, which panics (options.rs:452-457). The model returns the
  distinct outcome `ComparisonError.EmptyImage` at that point.

## Model

| member | source | states |
|---|---|---|
| ImageDifference.CalcDifference | tests/framework/src/options.rs:253-255 | the difference is 0 exactly when the samples are equal, and adding it to the smaller sample gives the larger: the absolute difference, with no wrap-around |
| ImageDifference.CalculateDifferenceData | tests/framework/src/options.rs:416-438 | the loop over zipped 4-byte chunks builds exactly `DifferenceData`. The alpha flag ends up as its old value or-ed with "some pixel pair differs in byte 3", so it is never lowered |
| ImageDifference.DifferenceDataStep | tests/framework/src/options.rs:425-436 | one step of the traversal: pixel `k` contributes the four channel differences of its chunks, and its alpha byte decides the alpha flag |
| ImageDifference.DifferenceDataAt | tests/framework/src/options.rs:421-437 | the buffer has 4 bytes per pixel pair, counting the pairs of the shorter image, and byte `i` is the difference of byte `i` of the two images |
| ImageDifference.DifferenceDataSymmetric | tests/framework/src/options.rs:253-255 | swapping actual and expected changes neither the buffer nor the alpha flag |
| ImageDifference.DifferenceOfSelf | tests/framework/src/options.rs:416-438 | an image compared with itself gives an all-zero buffer of its whole pixels and no alpha difference |
| ImageDifference.AlphaDiffersIff | tests/framework/src/options.rs:426-428 | the alpha flag is raised exactly when some pixel pair `k` has `expected[4k+3] != actual[4k+3]` (both directions) |
| ImageDifference.PixelOutliers | tests/framework/src/options.rs:443-448 | one pixel contributes at most 4 outliers |
| ImageDifference.CalculateOutliers | tests/framework/src/options.rs:440-450 | the outlier count is at most the number of samples in whole pixels |
| ImageDifference.OutliersCountSamples | tests/framework/src/options.rs:440-450 | the per-pixel sum equals an independent one-sample-at-a-time count of samples strictly above the tolerance, over the whole pixels only (the trailing partial chunk is ignored) |
| ImageDifference.CountAboveConcat | tests/framework/src/options.rs:449 | the reference count is additive over concatenation, which is what lets per-chunk sums add up |
| ImageDifference.OutliersAntitone | tests/framework/src/options.rs:444-447 | raising the tolerance never increases the outlier count |
| ImageDifference.OutliersAtFullTolerance | tests/framework/src/options.rs:444-447 | at tolerance 255 nothing is an outlier, because the comparison is strict |
| ImageDifference.OutliersOfZeros | tests/framework/src/options.rs:440-450 | an all-zero buffer has no outliers at any tolerance |
| ImageDifference.CalculateMaxDifference | tests/framework/src/options.rs:452-458 | the result bounds every sample of the whole pixels and is one of them. The buffer must hold a pixel, because the source unwraps the maximum |
| ImageDifference.NoOutliersIffMaxWithin | tests/framework/src/options.rs:440-458 | a check has zero outliers exactly when the maximum difference is within its tolerance |
| ImageDifference.ColorChannelsAt | tests/framework/src/options.rs:355-360 | the colour plane has 3 bytes per whole pixel, and byte `i` is channel `i mod 3` of pixel `i div 3` |
| ImageDifference.AlphaChannelAt | tests/framework/src/options.rs:378-383 | the alpha plane has one byte per whole pixel, and byte `k` is byte 3 of pixel `k` |
| ImageDifference.ChannelsRecombine | tests/framework/src/options.rs:355-383 | interleaving the colour plane and the alpha plane gives back the buffer's whole pixels, so the two planes lose nothing |
| ImageDifference.DifferenceColor | tests/framework/src/options.rs:355-360 | the `chunks_exact(4)` loop that extends by `p[..3]` builds exactly the colour plane |
| ImageDifference.DifferenceAlpha | tests/framework/src/options.rs:378-383 | the loop that pushes `p[3]` builds exactly the alpha plane |
| ImageComparisons.Checks | tests/framework/src/options.rs:258-276 | it is an error exactly when a simple field is set and the check list is non-empty, and that error is `MixedChecks`. Otherwise the result is non-empty: the explicit list unchanged, or one implicit check from the simple fields (each defaulting to 0) with no filter |
| ImageComparisons.Test | tests/framework/src/options.rs:278-414 | for any two images, the result is `Verdict` and the files written are `Artifacts`. A size mismatch comes first; then the difference buffer, check resolution and the check loop |
| ImageComparisons.RunCheckLoop | tests/framework/src/options.rs:328-411 | the loop's outcome is the first filter error, empty-image panic or failing check, in declared order. Otherwise it is `Ok` when some check passed and `NoChecksExecuted` when every check was filtered out. Diagnostics are written only for a failing check |
| ImageComparisons.SaveFailureDiagnostics | tests/framework/src/options.rs:353-400 | a failing check writes the actual image, the 3-channel colour plane and, only when alpha differed, the 1-channel alpha plane. A known failure writes nothing |
| ImageComparisons.FirstDecisiveAt | tests/framework/src/options.rs:329-407 | the loop stops at check `i` when every earlier check was skipped or passed and check `i` ends the loop |
| ImageComparisons.SizeMismatchFirst | tests/framework/src/options.rs:302-314 | different dimensions fail with both dimension pairs before the checks are resolved, even for a mixed configuration |
| ImageComparisons.MixedChecksFail | tests/framework/src/options.rs:324-326 | with matching sizes, a mixed simple/advanced configuration always fails with `MixedChecks` |
| ImageComparisons.SameSizeDifference | tests/framework/src/options.rs:318-322 | two valid images of the same size give a difference buffer as long as each raw buffer |
| ImageComparisons.RunChecksOkSound | tests/framework/src/options.rs:329-413 | a successful loop means every filter evaluated, the buffer has a pixel, some check ran, and every check that ran was within its outlier limit |
| ImageComparisons.RunChecksOkComplete | tests/framework/src/options.rs:329-413 | conversely, those conditions make the loop succeed |
| ImageComparisons.RunChecksOkIff | tests/framework/src/options.rs:329-413 | the loop succeeds exactly when `AllRunningChecksPass` holds |
| ImageComparisons.VerdictOkIff | tests/framework/src/options.rs:278-414 | a comparison passes exactly when the sizes agree, checks resolve, the image has a pixel, every filter evaluates, at least one check runs, and every check that runs has no more outliers than it allows |
| ImageComparisons.FirstFailureReported | tests/framework/src/options.rs:341-406 | a `CheckFailed` error names the index of a check that ran, its outlier count (which exceeds its limit) and the maximum difference; every earlier check had a valid filter and was skipped or within its limit |
| ImageComparisons.NoChecksExecutedIff | tests/framework/src/options.rs:409-411 | "no checks executed" is reported exactly when sizes agree, checks resolve and every filter evaluates to false |
| ImageComparisons.SoleFilteredCheckFails | tests/framework/src/options.rs:336-339 | a comparison whose only check is filtered out fails, never silently passes |
| ImageComparisons.IdenticalImagesPass | tests/framework/src/options.rs:341-349 | an image compared with itself passes any tolerances and limits, as long as it has a pixel, its checks resolve, every filter evaluates and some check runs |
| ImageComparisons.ArtifactsOnlyOnFailure | tests/framework/src/options.rs:289-300 | a known failure writes no file, and files are written only for a size mismatch or a failing check |
| ImageComparisons.DiagnosticImagesFit | tests/framework/src/options.rs:364-392 | every written image's pixel buffer is exactly channels × width × height bytes, so building the RGB and grey images from their raw buffers cannot fail |
| ImageComparisons.ExampleDifferenceData | tests/framework/src/options.rs:416-438 | worked example: two 2×2 images that differ by 10 in one blue sample give a buffer that is zero except for a 10 at byte 6 |
| ImageComparisons.ExampleCounts | tests/framework/src/options.rs:440-458 | for that buffer there is 1 outlier at tolerance 5, none at tolerance 15, and the maximum difference is 10 |
| ImageComparisons.BlueChannelExample | tests/framework/src/options.rs:258-414 | the simple comparison with tolerance 5 and max outliers 0 fails with check 0, 1 outlier, limit 0, max difference 10; with tolerance 15 it passes |
| ImageComparisons.SimpleCheckVerdict | tests/framework/src/options.rs:258-276 | for equal sizes, a comparison with only simple fields (any tolerance, limit and trigger) runs exactly its one implicit check, built from those fields defaulted to 0, over the difference buffer |
| ImageComparisons.SingleCheckFails | tests/framework/src/options.rs:341-406 | a single running check with more outliers than it allows fails as check 0 with its outlier count, its limit and the maximum difference |
| ImageComparisons.SingleCheckPasses | tests/framework/src/options.rs:341-349 | a single running check within its limit makes the loop pass |
| ImageComparisons.AlphaImageIffAlphaDiffers | tests/framework/src/options.rs:353-400 | when a check fails on a test that is not a known failure, the actual image and the 3-channel colour plane are written, and a 1-channel alpha image is written exactly when some alpha byte differs |
| TestExpressions.PredicateValue | tests/framework/src/options.rs:516-530 | `os`, `arch` and `family` compare by exact string equality with the host; any other predicate yields `false` from the callback |
| TestExpressions.LastUnrecognisedSpec | tests/framework/src/options.rs:526-528 | nothing is recorded exactly when every predicate is recognised; what is recorded is an unrecognised predicate after which all are recognised (the last one overwrites) |
| TestExpressions.SomeUnrecognisedIff | tests/framework/src/options.rs:526-531 | `unknown_pred` ends up set exactly when some visited predicate is unrecognised |
| TestExpressions.Evaluate | tests/framework/src/options.rs:512-535 | the callback loop over the predicates in visiting order produces exactly `Evaluation`: a parse error, else the last unknown predicate as an error, else the expression's value |
| TestExpressions.EvaluationErrIffUnrecognised | tests/framework/src/options.rs:531-534 | a parsed expression is an error exactly when one of its predicates is unrecognised, and otherwise its value is the tree's boolean value |
| TestExpressions.PredicatesOfArgument | tests/framework/src/options.rs:516 | every predicate of an argument of `all`/`any` is visited by the evaluation of the parent |
| TestExpressions.ErrorPropagatesToParent | tests/framework/src/options.rs:516-533 | an unknown predicate below `not`, `all` or `any` makes the whole expression an error, whatever its siblings evaluate to |
| TestExpressions.NotAarch64OnLinux | tests/framework/src/options.rs:503-507 | the documented example `not(os = "aarch64")` evaluates to true on a Linux x86-64 host |
| TestExpressions.UnknownKeyIsErrorNotFalse | tests/framework/src/options.rs:526-533 | `any(os = <host os>, foo = "bar")` is an unknown-predicate error even though its boolean value is true |
| TestOptionsModel.Validate | tests/framework/src/options.rs:64-80 | `Ok` exactly when no two comparisons share a non-`FsCommand` trigger, whatever the visiting order. An error names a non-`FsCommand` trigger that two distinct comparisons share |
| TestOptionsModel.VisitOne | tests/framework/src/options.rs:67-75 | visiting a comparison whose trigger is new keeps the visited triggers distinct and the remembered trigger set exact |
| TestOptionsModel.DuplicateWitness | tests/framework/src/options.rs:68-74 | two distinct comparisons with one non-`FsCommand` trigger make the options invalid |
| TestOptionsModel.TriggerExamples | tests/framework/src/options.rs:64-80 | any number of `FsCommand` comparisons is valid; two comparisons with one other trigger are not |
| TestOptionsModel.CanRunWithFeatures | tests/framework/src/options.rs:139-143 | a test that requires no decoder, or a build with every decoder, can run; a test is refused only when it requires some decoder |
| TestOptionsModel.CanRunWithFeaturesMonotone | tests/framework/src/options.rs:139-143 | a test is refused exactly when it requires a decoder that the build lacks; requiring fewer or building more never refuses a runnable test |
| TestOptionsModel.QualityFor | tests/framework/src/options.rs:164-170 | the quality is above Low exactly for sample counts 2, 4, 8 and 16, and then it is the quality of that sample count |
| TestOptionsModel.QualityForSampleCounts | tests/framework/src/options.rs:163-171 | each quality is reached from its own sample count, and the counts 1, 2, 4, 8 and 16 round-trip through their quality |
| TestOptionsModel.Setup | tests/framework/src/options.rs:157-181 | a quality is set exactly when a renderer is configured, and it is the mapped quality; the mode is the configured one, or Debug when none is configured |
| TestOptionsModel.PlayerCanRun | tests/framework/src/options.rs:211-220 | without a renderer, with an optional renderer, or when checking is not requested, the test can run whatever the environment would answer |
| TestOptionsModel.PlayerCanRunIff | tests/framework/src/options.rs:211-220 | a test is refused exactly when a non-optional renderer is configured, checking is requested and the environment does not support it |
| TestOptionsModel.DefaultTestOptions | tests/framework/src/options.rs:37-55 | the defaults log to `output.txt`, have no comparisons (so they validate) and no fonts, set no flag, frame or tick limit, tick rate, approximation or required decoder, and hold the default player options |
| TestOptionsModel.DefaultTestOptionsRunnable | tests/framework/src/options.rs:37-55 | the default options can run on every build and whatever the environment says, and set up the player with no duration limit, no quality, no audio and the Debug mode |
| TestOptionsModel.DefaultRenderOptions | tests/framework/src/options.rs:477-484 | the default renderer is not optional and has sample count 1, which selects the Low quality |
| TestOptionsModel.DefaultRenderOptionsLowQuality | tests/framework/src/options.rs:163-171 | a player with the default renderer asks the builder for the Low quality, and a checked default renderer is refused exactly when the environment does not support the non-optional, 1-sample settings |
| TestOptionsModel.DefaultPlayerOptions | tests/framework/src/options.rs:145-155 | the default player options set no duration limit, viewport, renderer, audio, video or mode |

## Left out

- The parsing of filter expressions (the `cfg_expr` crate) is not modelled. A filter is either an already-parsed expression tree or a parse failure carrying its message. The pretty-printed text of an unknown predicate is not modelled, so the error carries the predicate itself.
- `cfg_expr` predicate forms other than `key = "value"` are not modelled one by one. They all collapse to `Other`, which the callback treats as unknown, exactly as the source's catch-all arm does.
- `Approximations::compare`: it compares floating-point numbers with relative-epsilon equality, and floating point is not modelled. Its settings are still held in `TestOptions`.
- `Approximations::number_patterns`: it compiles regular expressions, which are not modelled.
- `TestOptions::read`: it reads TOML from the virtual file system. Deserialisation and file I/O are not modelled; only the `validate` step that follows is.
- `TestOptions::output_path`: it is a path join in the virtual file system. Path handling is not modelled.
- `PlayerOptions::viewport_dimensions` and `PlayerOptions::create_renderer`: they depend on the movie's size and on the environment's renderer, which are outside the model. The viewport scale factor (a float) is not held.
- `Setup`: the runtime selector (`with_player_runtime`) is not held, and the audio and video backends are not modelled. The video backend depends on build features and on loading OpenH264. Only the audio flag is passed on.
- `Test`: writing PNG files and joining paths can fail with an I/O error, which propagates through `?`. These failures are not modelled: every write succeeds and is recorded in the returned file list. `from_raw` can fail when a buffer has the wrong size, and `DiagnosticImagesFit` proves that it cannot.
- `Test`: the console messages (`println!`) for skipped and passed checks are not modelled. The error message texts are replaced by structured `ComparisonError` values that carry the same numbers.
- `Test`: an image without pixels makes the source panic in `calculate_max_difference`. The model returns `EmptyImage` there instead of modelling the panic.
- `ImageTrigger` is defined outside this file. It is modelled as `FsCommand` plus opaque identifiers for the other capture points.
- The test runner and controller (`controller.rs`) are not part of this model.
- `Validate`: the visiting order of a `HashMap` is unspecified. The model picks an arbitrary unvisited name and proves its contract for every order. Which duplicate trigger is reported depends on that order, so the contract only says it is one shared by two comparisons.
