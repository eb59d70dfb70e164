/** The declarative options of one test: their defaults, the load-time
    validation of image-comparison triggers, the build-feature and renderer
    rules that decide whether a test can run, and the player setup rules
    (stage quality from the sample count, Debug as the default mode). */
module TestOptionsModel {
  import opened Common
  import opened ImageComparisons

  /** Decoders a test may need. */
  datatype RequiredFeatures = RequiredFeatures(lzma: bool, jpegxr: bool)

  /** The decoders this build of the framework was compiled with. */
  datatype BuildFeatures = BuildFeatures(lzma: bool, jpegxr: bool)

  /** `RequiredFeatures::can_run`: every required decoder is available. */
  predicate CanRunWithFeatures(required: RequiredFeatures, build: BuildFeatures)
    ensures required == RequiredFeatures(false, false) ==> CanRunWithFeatures(required, build)
    ensures build == BuildFeatures(true, true) ==> CanRunWithFeatures(required, build)
    ensures !CanRunWithFeatures(required, build) ==> required.lzma || required.jpegxr
  {
    (!required.lzma || build.lzma) && (!required.jpegxr || build.jpegxr)
  }

  /** A test can run exactly when no decoder it requires is missing; building
      in more decoders or requiring fewer never stops a test from running. */
  lemma CanRunWithFeaturesMonotone(required: RequiredFeatures, fewer: RequiredFeatures,
                                   build: BuildFeatures, richer: BuildFeatures)
    requires (fewer.lzma ==> required.lzma) && (fewer.jpegxr ==> required.jpegxr)
    requires (build.lzma ==> richer.lzma) && (build.jpegxr ==> richer.jpegxr)
    ensures CanRunWithFeatures(required, build) ==> CanRunWithFeatures(fewer, richer)
    ensures !CanRunWithFeatures(required, build) <==>
              (required.lzma && !build.lzma) || (required.jpegxr && !build.jpegxr)
  {
  }

  /** Renderer settings: whether the renderer may be missing, and the sample count. */
  datatype RenderOptions = RenderOptions(optional: bool, sampleCount: nat)

  /** `RenderOptions::default`. */
  function DefaultRenderOptions(): (r: RenderOptions)
    ensures !r.optional
    ensures r.sampleCount == 1
    ensures QualityFor(r.sampleCount) == Low
  {
    RenderOptions(false, 1)
  }

  datatype PlayerMode = Release | Debug

  /** The stage qualities the framework selects. */
  datatype StageQuality = Low | Medium | High | High8x8 | High16x16

  /** The quality `PlayerOptions::setup` asks for, by sample count. */
  function QualityFor(sampleCount: nat): (q: StageQuality)
    ensures q == Low || SampleCountOf(q) == sampleCount
    ensures q != Low <==> sampleCount in {2, 4, 8, 16}
  {
    match sampleCount
    case 16 => High16x16
    case 8 => High8x8
    case 4 => High
    case 2 => Medium
    case _ => Low
  }

  /** The sample count a quality stands for (1 for `Low`, the default count). */
  function SampleCountOf(quality: StageQuality): nat {
    match quality
    case High16x16 => 16
    case High8x8 => 8
    case High => 4
    case Medium => 2
    case Low => 1
  }

  /** Each quality is reached from its own sample count, and the sample
      counts the framework names round-trip through their quality. */
  lemma QualityForSampleCounts(sampleCount: nat, quality: StageQuality)
    ensures QualityFor(SampleCountOf(quality)) == quality
    ensures sampleCount in {1, 2, 4, 8, 16} ==> SampleCountOf(QualityFor(sampleCount)) == sampleCount
  {
  }

  /** A configured viewport; the scale factor is not modelled. */
  datatype ViewportDimensions = ViewportDimensions(width: nat, height: nat)

  /** The player options of a test; the runtime selector is not modelled. */
  datatype PlayerOptions = PlayerOptions(
    maxExecutionDuration: Option<nat>,
    viewportDimensions: Option<ViewportDimensions>,
    withRenderer: Option<RenderOptions>,
    withAudio: bool,
    withVideo: bool,
    mode: Option<PlayerMode>)

  /** `PlayerOptions::default`: no duration limit, viewport, renderer, audio,
      video or mode. */
  function DefaultPlayerOptions(): (o: PlayerOptions)
    ensures o.maxExecutionDuration.None? && o.viewportDimensions.None? && o.withRenderer.None?
    ensures !o.withAudio && !o.withVideo && o.mode.None?
  {
    PlayerOptions(None, None, None, false, false, None)
  }

  /** What `PlayerOptions::setup` hands to the player builder. */
  datatype BuilderSettings = BuilderSettings(
    maxExecutionDuration: Option<nat>,
    quality: Option<StageQuality>,
    withAudio: bool,
    mode: PlayerMode)

  /** `PlayerOptions::setup`, without the video backend: a quality only when a
      renderer is configured, and the Debug mode unless another is given. */
  function Setup(options: PlayerOptions): (b: BuilderSettings)
    ensures b.quality.Some? <==> options.withRenderer.Some?
    ensures b.quality.Some? ==> b.quality.value == QualityFor(options.withRenderer.value.sampleCount)
    ensures options.mode.None? ==> b.mode == Debug
    ensures options.mode.Some? ==> b.mode == options.mode.value
  {
    BuilderSettings(
      options.maxExecutionDuration,
      if options.withRenderer.Some? then Some(QualityFor(options.withRenderer.value.sampleCount)) else None,
      options.withAudio,
      options.mode.GetOr(Debug))
  }

  /** `PlayerOptions::can_run`: the environment is asked whether the renderer
      is supported only when a renderer is configured, the caller wants it
      checked, and the renderer is not optional. */
  predicate PlayerCanRun(options: PlayerOptions, checkRenderer: bool, isRenderSupported: RenderOptions -> bool)
    ensures !checkRenderer ==> PlayerCanRun(options, checkRenderer, isRenderSupported)
    ensures options.withRenderer.None? ==> PlayerCanRun(options, checkRenderer, isRenderSupported)
    ensures options.withRenderer.Some? && options.withRenderer.value.optional ==>
              PlayerCanRun(options, checkRenderer, isRenderSupported)
  {
    match options.withRenderer
    case Some(render) =>
      !(checkRenderer && !render.optional && !isRenderSupported(render))
    case None => true
  }

  /** A test is refused exactly for a required renderer, checked, that the
      environment does not support. */
  lemma PlayerCanRunIff(options: PlayerOptions, checkRenderer: bool, isRenderSupported: RenderOptions -> bool)
    ensures !PlayerCanRun(options, checkRenderer, isRenderSupported) <==>
              && options.withRenderer.Some? && checkRenderer && !options.withRenderer.value.optional
              && !isRenderSupported(options.withRenderer.value)
  {
  }

  /** A font substituted into the player. */
  datatype FontOptions = FontOptions(family: string, path: string, bold: bool, italic: bool)

  /** Numeric approximation settings; floating-point values are held, not compared. */
  datatype Approximations = Approximations(numberPatterns: seq<string>, epsilon: Option<real>, maxRelative: Option<real>)

  /** The options of one test. */
  datatype TestOptions = TestOptions(
    numFrames: Option<nat>,
    numTicks: Option<nat>,
    tickRate: Option<real>,
    outputPath: string,
    sleepToMeetFrameRate: bool,
    imageComparisons: map<string, ImageComparison>,
    ignore: bool,
    knownFailure: bool,
    approximations: Option<Approximations>,
    playerOptions: PlayerOptions,
    logFetch: bool,
    requiredFeatures: RequiredFeatures,
    fonts: map<string, FontOptions>)

  /** `TestOptions::default`. */
  function DefaultTestOptions(): (o: TestOptions)
    ensures o.outputPath == "output.txt"
    ensures o.imageComparisons == map[] && o.fonts == map[]
    ensures TriggersDistinct(o.imageComparisons)
    ensures !o.ignore && !o.knownFailure && !o.logFetch && !o.sleepToMeetFrameRate
    ensures o.numFrames.None? && o.numTicks.None? && o.tickRate.None? && o.approximations.None?
    ensures o.playerOptions == DefaultPlayerOptions()
    ensures o.requiredFeatures == RequiredFeatures(false, false)
  {
    TestOptions(None, None, None, "output.txt", false, map[], false, false, None,
                DefaultPlayerOptions(), false, RequiredFeatures(false, false), map[])
  }

  /** No two comparisons share a trigger other than `FsCommand`. */
  predicate TriggersDistinct(comparisons: map<string, ImageComparison>) {
    forall a, b :: a in comparisons && b in comparisons && a != b && comparisons[a].trigger != FsCommand
      ==> comparisons[a].trigger != comparisons[b].trigger
  }

  /** No two of the named comparisons share a trigger other than `FsCommand`. */
  ghost predicate TriggersDistinctWithin(comparisons: map<string, ImageComparison>, names: set<string>)
    requires names <= comparisons.Keys
  {
    forall a, b :: a in names && b in names && a != b && comparisons[a].trigger != FsCommand
      ==> comparisons[a].trigger != comparisons[b].trigger
  }

  datatype ConfigError = DuplicateTrigger(trigger: ImageTrigger)

  /** The triggers remembered after visiting `names`: each non-`FsCommand` one. */
  ghost predicate SeenExactly(comparisons: map<string, ImageComparison>, names: set<string>, seen: set<ImageTrigger>)
    requires names <= comparisons.Keys
  {
    forall t :: t in seen <==> t != FsCommand && exists n :: n in names && comparisons[n].trigger == t
  }

  /** Visiting one more comparison whose trigger was not seen before keeps
      the visited comparisons' triggers distinct and the remembered set exact. */
  lemma VisitOne(comparisons: map<string, ImageComparison>, visited: set<string>, seen: set<ImageTrigger>, name: string)
    requires visited <= comparisons.Keys && name in comparisons && name !in visited
    requires TriggersDistinctWithin(comparisons, visited) && SeenExactly(comparisons, visited, seen)
    requires comparisons[name].trigger == FsCommand || comparisons[name].trigger !in seen
    ensures TriggersDistinctWithin(comparisons, visited + {name})
    ensures SeenExactly(comparisons, visited + {name},
                        if comparisons[name].trigger != FsCommand then seen + {comparisons[name].trigger} else seen)
  {
    var trigger := comparisons[name].trigger;
    var seen' := if trigger != FsCommand then seen + {trigger} else seen;
    forall t
      ensures t in seen' <==> t != FsCommand && exists n :: n in visited + {name} && comparisons[n].trigger == t
    {
      if t == trigger && t != FsCommand {
        assert name in visited + {name};
      }
    }
  }

  /** `TestOptions::validate`: visits the comparisons in an unspecified order,
      remembering each non-`FsCommand` trigger, and rejects the first trigger
      seen twice. */
  method Validate(options: TestOptions) returns (r: Result<(), ConfigError>)
    ensures r.Ok? <==> TriggersDistinct(options.imageComparisons)
    ensures r.Err? ==> r.error.trigger != FsCommand
    ensures r.Err? ==> exists a, b :: a in options.imageComparisons && b in options.imageComparisons && a != b
                        && options.imageComparisons[a].trigger == r.error.trigger
                        && options.imageComparisons[b].trigger == r.error.trigger
  {
    var comparisons := options.imageComparisons;
    if |comparisons| != 0 {
      var seenTriggers: set<ImageTrigger> := {};
      var remaining := comparisons.Keys;
      ghost var visited: set<string> := {};
      while remaining != {}
        invariant remaining <= comparisons.Keys && visited == comparisons.Keys - remaining
        invariant SeenExactly(comparisons, visited, seenTriggers)
        invariant TriggersDistinctWithin(comparisons, visited)
        decreases remaining
      {
        var name :| name in remaining;
        var trigger := comparisons[name].trigger;
        if trigger != FsCommand && trigger in seenTriggers {
          ghost var other :| other in visited && comparisons[other].trigger == trigger;
          DuplicateWitness(comparisons, name, other);
          return Err(DuplicateTrigger(trigger));
        }
        VisitOne(comparisons, visited, seenTriggers, name);
        if trigger != FsCommand {
          seenTriggers := seenTriggers + {trigger};
        }
        remaining := remaining - {name};
        visited := visited + {name};
      }
      assert visited == comparisons.Keys;
    }
    assert TriggersDistinctWithin(comparisons, comparisons.Keys);
    return Ok(());
  }

  /** Two names with one non-`FsCommand` trigger witness a duplicate. */
  lemma DuplicateWitness(comparisons: map<string, ImageComparison>, a: string, b: string)
    requires a in comparisons && b in comparisons && a != b
    requires comparisons[a].trigger == comparisons[b].trigger != FsCommand
    ensures !TriggersDistinct(comparisons)
    ensures exists x, y :: x in comparisons && y in comparisons && x != y
              && comparisons[x].trigger == comparisons[a].trigger && comparisons[y].trigger == comparisons[a].trigger
  {
  }

  /** The default options run on every build and in every environment, and
      set up the player with no duration limit, no quality, no audio and the
      Debug mode. */
  lemma DefaultTestOptionsRunnable(build: BuildFeatures, checkRenderer: bool, isRenderSupported: RenderOptions -> bool)
    ensures CanRunWithFeatures(DefaultTestOptions().requiredFeatures, build)
    ensures PlayerCanRun(DefaultTestOptions().playerOptions, checkRenderer, isRenderSupported)
    ensures Setup(DefaultTestOptions().playerOptions) == BuilderSettings(None, None, false, Debug)
  {
  }

  /** A player configured with the default renderer asks the builder for the
      `Low` quality, and, when the renderer is checked, the environment decides
      from the default settings alone. */
  lemma DefaultRenderOptionsLowQuality(options: PlayerOptions, isRenderSupported: RenderOptions -> bool)
    requires options.withRenderer == Some(DefaultRenderOptions())
    ensures Setup(options).quality == Some(Low)
    ensures PlayerCanRun(options, true, isRenderSupported) == isRenderSupported(RenderOptions(false, 1))
  {
  }

  /** Any number of comparisons may use `FsCommand`; two comparisons with one
      other trigger are rejected. */
  lemma TriggerExamples(comparisons: map<string, ImageComparison>, a: string, b: string,
                        first: ImageComparison, second: ImageComparison)
    requires forall n :: n in comparisons ==> comparisons[n].trigger == FsCommand
    requires a != b && first.trigger == second.trigger != FsCommand
    ensures TriggersDistinct(comparisons)
    ensures !TriggersDistinct(map[a := first, b := second])
  {
    var m := map[a := first, b := second];
    assert a in m && b in m && m[a].trigger == m[b].trigger;
  }
}
