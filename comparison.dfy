/** One named image comparison of a test: which checks it runs (one implicit
    "simple" check or an explicit ordered list, never both) and the check
    pipeline that decides pass or fail for a captured image against its
    expected image, writing diagnostic images on failure. */
module ImageComparisons {
  import opened Common
  import opened TestExpressions
  import opened ImageDifference

  /** When a capture is taken. The trigger enum is defined outside the
      modelled file; only its distinguished `FsCommand` value has a rule of
      its own, every other trigger is told apart by an identifier. */
  datatype ImageTrigger = FsCommand | Trigger(id: nat)

  /** A leaf rule: a per-channel tolerance, the outliers it allows, and an
      optional filter that gates it. */
  datatype ImageComparisonCheck = ImageComparisonCheck(tolerance: uint8, maxOutliers: nat, filter: Option<TestExpression>)

  /** A comparison as configured: the simple fields, the explicit checks and the trigger. */
  datatype ImageComparison = ImageComparison(
    tolerance: Option<uint8>,
    maxOutliers: Option<nat>,
    checks: seq<ImageComparisonCheck>,
    trigger: ImageTrigger)

  /** A decoded RGBA image: 8 bits per channel, 4 bytes per pixel, row major. */
  datatype RgbaImage = RgbaImage(width: nat, height: nat, raw: seq<uint8>)

  predicate ValidImage(image: RgbaImage) {
    |image.raw| == 4 * (image.width * image.height)
  }

  datatype ComparisonError =
    | SizeMismatch(expectedWidth: nat, expectedHeight: nat, actualWidth: nat, actualHeight: nat)
    | MixedChecks
    | FilterError(error: EvalError)
    /** `calculate_max_difference` unwraps the maximum of an image without pixels. */
    | EmptyImage
    | CheckFailed(index: nat, outliers: nat, maxOutliers: nat, maxDifference: uint8)
    | NoChecksExecuted

  /** `ImageComparison::checks`: the explicit list, or one implicit check built
      from the simple fields (each defaulting to 0) with no filter; giving both
      is an error. */
  function Checks(c: ImageComparison): (r: Result<seq<ImageComparisonCheck>, ComparisonError>)
    ensures r.Err? <==> (c.tolerance.Some? || c.maxOutliers.Some?) && c.checks != []
    ensures r.Err? ==> r.error == MixedChecks
    ensures r.Ok? ==> |r.value| >= 1
    ensures r.Ok? && c.checks != [] ==> r.value == c.checks
    ensures r.Ok? && c.checks == [] ==>
              r.value == [ImageComparisonCheck(c.tolerance.GetOr(0), c.maxOutliers.GetOr(0), None)]
  {
    var hasSimpleCheck := c.tolerance.Some? || c.maxOutliers.Some?;
    if hasSimpleCheck && c.checks != [] then Err(MixedChecks)
    else if c.checks != [] then Ok(c.checks)
    else Ok([ImageComparisonCheck(c.tolerance.GetOr(0), c.maxOutliers.GetOr(0), None)])
  }

  /** The value of a check's filter; an absent filter always lets the check run. */
  function FilterResult(filter: Option<TestExpression>, host: Host): Result<bool, EvalError> {
    match filter
    case None => Ok(true)
    case Some(t) => Evaluation(t, host)
  }

  /** A check runs when its filter evaluates to true. */
  predicate Runs(check: ImageComparisonCheck, host: Host) {
    FilterResult(check.filter, host) == Ok(true)
  }

  /** What happens to one check of the loop. */
  datatype CheckStatus =
    | FilterFailed(error: EvalError)
    | Skipped
    | Panicked
    | Passed(outliers: nat, maxDifference: uint8)
    | Failed(outliers: nat, maxDifference: uint8)

  function StatusOf(check: ImageComparisonCheck, differenceData: seq<uint8>, host: Host): CheckStatus {
    match FilterResult(check.filter, host)
    case Err(e) => FilterFailed(e)
    case Ok(filterPassed) =>
      if !filterPassed then Skipped
      else if |differenceData| < 4 then Panicked
      else
        var outliers := CalculateOutliers(differenceData, check.tolerance);
        var maxDifference := CalculateMaxDifference(differenceData);
        if outliers <= check.maxOutliers then Passed(outliers, maxDifference)
        else Failed(outliers, maxDifference)
  }

  /** A status that ends the loop. */
  predicate Decisive(s: CheckStatus) {
    s.FilterFailed? || s.Panicked? || s.Failed?
  }

  function Statuses(checks: seq<ImageComparisonCheck>, differenceData: seq<uint8>, host: Host): (s: seq<CheckStatus>)
    ensures |s| == |checks|
    ensures forall i :: 0 <= i < |s| ==> s[i] == StatusOf(checks[i], differenceData, host)
  {
    seq(|checks|, i requires 0 <= i < |checks| => StatusOf(checks[i], differenceData, host))
  }

  /** The index of the first status that ends the loop, if any. */
  function FirstDecisive(statuses: seq<CheckStatus>): (r: Option<nat>)
    ensures r.Some? ==> r.value < |statuses| && Decisive(statuses[r.value])
                        && forall j :: 0 <= j < r.value ==> !Decisive(statuses[j])
    ensures r.None? ==> forall j :: 0 <= j < |statuses| ==> !Decisive(statuses[j])
  {
    if statuses == [] then None
    else if Decisive(statuses[0]) then Some(0)
    else match FirstDecisive(statuses[1..])
      case Some(i) => Some(i + 1)
      case None => None
  }

  function ErrorOf(index: nat, status: CheckStatus, check: ImageComparisonCheck): ComparisonError
    requires Decisive(status)
  {
    match status
    case FilterFailed(e) => FilterError(e)
    case Panicked => EmptyImage
    case Failed(outliers, maxDifference) => CheckFailed(index, outliers, check.maxOutliers, maxDifference)
  }

  /** The outcome of the check loop over a difference buffer. */
  function RunChecks(checks: seq<ImageComparisonCheck>, differenceData: seq<uint8>, host: Host): Result<(), ComparisonError> {
    var statuses := Statuses(checks, differenceData, host);
    match FirstDecisive(statuses)
    case Some(i) => Err(ErrorOf(i, statuses[i], checks[i]))
    case None =>
      if exists i :: 0 <= i < |statuses| && statuses[i].Passed? then Ok(()) else Err(NoChecksExecuted)
  }

  /** The outcome `ImageComparison::test` promises: the size check, then the
      resolved checks in order. */
  function Verdict(c: ImageComparison, actual: RgbaImage, expected: RgbaImage, host: Host): Result<(), ComparisonError> {
    if actual.width != expected.width || actual.height != expected.height then
      Err(SizeMismatch(expected.width, expected.height, actual.width, actual.height))
    else
      match Checks(c)
      case Err(e) => Err(e)
      case Ok(checks) => RunChecks(checks, DifferenceData(expected.raw, actual.raw), host)
  }

  /** A diagnostic image written under the test directory. */
  datatype ImageFile = ImageFile(path: string, width: nat, height: nat, channels: nat, pixels: seq<uint8>)

  function ActualFile(name: string, environmentName: string, actual: RgbaImage): ImageFile {
    ImageFile(name + ".actual-" + environmentName + ".png", actual.width, actual.height, 4, actual.raw)
  }

  function ColorFile(name: string, environmentName: string, actual: RgbaImage, differenceData: seq<uint8>): ImageFile {
    ImageFile(name + ".difference-color-" + environmentName + ".png", actual.width, actual.height, 3,
              ColorChannels(differenceData))
  }

  function AlphaFile(name: string, environmentName: string, actual: RgbaImage, differenceData: seq<uint8>): ImageFile {
    ImageFile(name + ".difference-alpha-" + environmentName + ".png", actual.width, actual.height, 1,
              AlphaChannel(differenceData))
  }

  /** The diagnostics a failing check writes: the actual image, the colour
      difference and, when some alpha byte differs, the alpha difference;
      nothing for a known failure. */
  function FailureArtifacts(name: string, environmentName: string, actual: RgbaImage,
                            differenceData: seq<uint8>, isAlphaDifferent: bool, knownFailure: bool): seq<ImageFile>
  {
    if knownFailure then []
    else
      [ActualFile(name, environmentName, actual), ColorFile(name, environmentName, actual, differenceData)]
      + (if isAlphaDifferent then [AlphaFile(name, environmentName, actual, differenceData)] else [])
  }

  /** The images `test` writes: none for a known failure; the actual image on
      a size mismatch; the failure diagnostics when a check fails. */
  function Artifacts(c: ImageComparison, name: string, environmentName: string, actual: RgbaImage,
                     expected: RgbaImage, host: Host, knownFailure: bool): seq<ImageFile>
  {
    if actual.width != expected.width || actual.height != expected.height then
      if knownFailure then [] else [ActualFile(name, environmentName, actual)]
    else
      var verdict := Verdict(c, actual, expected, host);
      if verdict.Err? && verdict.error.CheckFailed? then
        FailureArtifacts(name, environmentName, actual, DifferenceData(expected.raw, actual.raw),
                         AlphaDiffers(expected.raw, actual.raw), knownFailure)
      else []
  }

  /** The failure path of a check: saves the actual image, builds the colour
      plane and, if alpha differed, the alpha plane, writing each unless the
      test is a known failure. */
  method SaveFailureDiagnostics(name: string, environmentName: string, actual: RgbaImage,
                                differenceData: seq<uint8>, isAlphaDifferent: bool, knownFailure: bool)
    returns (written: seq<ImageFile>)
    ensures written == FailureArtifacts(name, environmentName, actual, differenceData, isAlphaDifferent, knownFailure)
  {
    written := [];
    if !knownFailure {
      written := written + [ActualFile(name, environmentName, actual)];
    }
    var differenceColor := DifferenceColor(differenceData);
    if !knownFailure {
      written := written + [ImageFile(name + ".difference-color-" + environmentName + ".png",
                                      actual.width, actual.height, 3, differenceColor)];
    }
    if isAlphaDifferent {
      var differenceAlpha := DifferenceAlpha(differenceData);
      if !knownFailure {
        written := written + [ImageFile(name + ".difference-alpha-" + environmentName + ".png",
                                        actual.width, actual.height, 1, differenceAlpha)];
      }
    }
  }

  /** The loop of `test` over the resolved checks: a filter error or a failing
      check ends it at once; a filtered-out check is skipped; an empty loop
      of executed checks is an error. */
  method RunCheckLoop(checks: seq<ImageComparisonCheck>, differenceData: seq<uint8>, isAlphaDifferent: bool,
                      name: string, environmentName: string, actual: RgbaImage, knownFailure: bool, host: Host)
    returns (r: Result<(), ComparisonError>, written: seq<ImageFile>)
    ensures r == RunChecks(checks, differenceData, host)
    ensures written == if r.Err? && r.error.CheckFailed?
                       then FailureArtifacts(name, environmentName, actual, differenceData, isAlphaDifferent, knownFailure)
                       else []
  {
    written := [];
    ghost var statuses := Statuses(checks, differenceData, host);
    var anyCheckExecuted := false;
    var i := 0;
    while i < |checks|
      invariant 0 <= i <= |checks|
      invariant forall j :: 0 <= j < i ==> !Decisive(statuses[j])
      invariant anyCheckExecuted <==> exists j :: 0 <= j < i && statuses[j].Passed?
    {
      var check := checks[i];
      var filterPassed := true;
      if check.filter.Some? {
        var evaluated := Evaluate(check.filter.value, host);
        if evaluated.Err? {
          FirstDecisiveAt(statuses, i);
          return Err(FilterError(evaluated.error)), written;
        }
        filterPassed := evaluated.value;
      }
      if filterPassed {
        var outliers := CalculateOutliers(differenceData, check.tolerance);
        if |differenceData| < 4 {
          FirstDecisiveAt(statuses, i);
          return Err(EmptyImage), written;
        }
        var maxDifference := CalculateMaxDifference(differenceData);
        anyCheckExecuted := true;
        if outliers > check.maxOutliers {
          written := SaveFailureDiagnostics(name, environmentName, actual, differenceData, isAlphaDifferent, knownFailure);
          FirstDecisiveAt(statuses, i);
          return Err(CheckFailed(i, outliers, check.maxOutliers, maxDifference)), written;
        }
      }
      i := i + 1;
    }
    if !anyCheckExecuted {
      return Err(NoChecksExecuted), written;
    }
    return Ok(()), written;
  }

  /** `ImageComparison::test`: the size check, the difference buffer, the
      resolved checks, then the check loop. */
  method Test(c: ImageComparison, name: string, actual: RgbaImage, expected: RgbaImage,
              environmentName: string, knownFailure: bool, host: Host)
    returns (r: Result<(), ComparisonError>, written: seq<ImageFile>)
    ensures r == Verdict(c, actual, expected, host)
    ensures written == Artifacts(c, name, environmentName, actual, expected, host, knownFailure)
  {
    if actual.width != expected.width || actual.height != expected.height {
      written := [];
      if !knownFailure {
        written := [ActualFile(name, environmentName, actual)];
      }
      return Err(SizeMismatch(expected.width, expected.height, actual.width, actual.height)), written;
    }

    var differenceData, isAlphaDifferent := CalculateDifferenceData(actual.raw, expected.raw, false);

    var resolved := Checks(c);
    if resolved.Err? {
      return Err(resolved.error), [];
    }
    r, written := RunCheckLoop(resolved.value, differenceData, isAlphaDifferent,
                               name, environmentName, actual, knownFailure, host);
  }

  /** The first decisive status is the one every earlier status lets pass. */
  lemma FirstDecisiveAt(statuses: seq<CheckStatus>, i: nat)
    requires i < |statuses| && Decisive(statuses[i])
    requires forall j :: 0 <= j < i ==> !Decisive(statuses[j])
    ensures FirstDecisive(statuses) == Some(i)
  {
  }

  /** A size mismatch is reported before checks are resolved or filters run,
      so it wins even over a mixed configuration. */
  lemma SizeMismatchFirst(c: ImageComparison, actual: RgbaImage, expected: RgbaImage, host: Host)
    requires actual.width != expected.width || actual.height != expected.height
    ensures Verdict(c, actual, expected, host)
            == Err(SizeMismatch(expected.width, expected.height, actual.width, actual.height))
  {
  }

  /** Configuring both the simple fields and a check list fails once the
      sizes agree, whatever the images. */
  lemma MixedChecksFail(c: ImageComparison, actual: RgbaImage, expected: RgbaImage, host: Host)
    requires actual.width == expected.width && actual.height == expected.height
    requires (c.tolerance.Some? || c.maxOutliers.Some?) && c.checks != []
    ensures Verdict(c, actual, expected, host) == Err(MixedChecks)
  {
  }

  /** The image difference of two valid images of one size covers both buffers. */
  lemma SameSizeDifference(actual: RgbaImage, expected: RgbaImage)
    requires ValidImage(actual) && ValidImage(expected)
    requires actual.width == expected.width && actual.height == expected.height
    ensures |DifferenceData(expected.raw, actual.raw)| == |actual.raw| == |expected.raw|
  {
    DifferenceDataAt(expected.raw, actual.raw);
  }

  /** What the check loop needs to succeed: every filter evaluates, at least
      one check runs, the buffer has a pixel, and every check that runs has
      no more outliers than it allows. */
  predicate AllRunningChecksPass(checks: seq<ImageComparisonCheck>, differenceData: seq<uint8>, host: Host) {
    && |differenceData| >= 4
    && (forall i :: 0 <= i < |checks| ==> FilterResult(checks[i].filter, host).Ok?)
    && (exists i :: 0 <= i < |checks| && Runs(checks[i], host))
    && (forall i :: 0 <= i < |checks| && Runs(checks[i], host) ==>
          CalculateOutliers(differenceData, checks[i].tolerance) <= checks[i].maxOutliers)
  }

  lemma RunChecksOkSound(checks: seq<ImageComparisonCheck>, differenceData: seq<uint8>, host: Host)
    requires RunChecks(checks, differenceData, host).Ok?
    ensures AllRunningChecksPass(checks, differenceData, host)
  {
    var statuses := Statuses(checks, differenceData, host);
    assert FirstDecisive(statuses).None?;
    var k :| 0 <= k < |statuses| && statuses[k].Passed?;
    assert Runs(checks[k], host);
    forall i | 0 <= i < |checks|
      ensures FilterResult(checks[i].filter, host).Ok?
      ensures Runs(checks[i], host) ==>
                CalculateOutliers(differenceData, checks[i].tolerance) <= checks[i].maxOutliers
    {
      assert !Decisive(statuses[i]);
    }
  }

  lemma RunChecksOkComplete(checks: seq<ImageComparisonCheck>, differenceData: seq<uint8>, host: Host)
    requires AllRunningChecksPass(checks, differenceData, host)
    ensures RunChecks(checks, differenceData, host).Ok?
  {
    var statuses := Statuses(checks, differenceData, host);
    var k :| 0 <= k < |checks| && Runs(checks[k], host);
    assert statuses[k].Passed?;
    forall i | 0 <= i < |statuses|
      ensures !Decisive(statuses[i])
    {
      assert FilterResult(checks[i].filter, host).Ok?;
    }
    assert FirstDecisive(statuses).None?;
  }

  /** The check loop succeeds exactly when every check that runs passes. */
  lemma RunChecksOkIff(checks: seq<ImageComparisonCheck>, differenceData: seq<uint8>, host: Host)
    ensures RunChecks(checks, differenceData, host).Ok? <==> AllRunningChecksPass(checks, differenceData, host)
  {
    if RunChecks(checks, differenceData, host).Ok? {
      RunChecksOkSound(checks, differenceData, host);
    }
    if AllRunningChecksPass(checks, differenceData, host) {
      RunChecksOkComplete(checks, differenceData, host);
    }
  }

  /** A comparison passes exactly when the sizes agree, the checks resolve,
      every filter evaluates, at least one check runs, the images have a
      pixel, and every check that runs has no more outliers than it allows. */
  lemma VerdictOkIff(c: ImageComparison, actual: RgbaImage, expected: RgbaImage, host: Host)
    requires ValidImage(actual) && ValidImage(expected)
    ensures Verdict(c, actual, expected, host).Ok? <==>
      && actual.width == expected.width && actual.height == expected.height
      && Checks(c).Ok?
      && |actual.raw| > 0
      && (var checks, differenceData := Checks(c).value, DifferenceData(expected.raw, actual.raw);
          && (forall i :: 0 <= i < |checks| ==> FilterResult(checks[i].filter, host).Ok?)
          && (exists i :: 0 <= i < |checks| && Runs(checks[i], host))
          && (forall i :: 0 <= i < |checks| && Runs(checks[i], host) ==>
                CalculateOutliers(differenceData, checks[i].tolerance) <= checks[i].maxOutliers))
  {
    if actual.width == expected.width && actual.height == expected.height && Checks(c).Ok? {
      SameSizeDifference(actual, expected);
      RunChecksOkIff(Checks(c).value, DifferenceData(expected.raw, actual.raw), host);
    }
  }

  /** A failing check is reported with its index, its outlier count, its
      limit and the maximum difference; every earlier check was filtered out
      or passed, and its filter evaluated. */
  lemma FirstFailureReported(c: ImageComparison, actual: RgbaImage, expected: RgbaImage, host: Host)
    requires Verdict(c, actual, expected, host).Err? && Verdict(c, actual, expected, host).error.CheckFailed?
    ensures actual.width == expected.width && actual.height == expected.height && Checks(c).Ok?
    ensures var checks, differenceData, e := Checks(c).value, DifferenceData(expected.raw, actual.raw),
                                             Verdict(c, actual, expected, host).error;
      && e.index < |checks|
      && Runs(checks[e.index], host)
      && |differenceData| >= 4
      && e.outliers == CalculateOutliers(differenceData, checks[e.index].tolerance)
      && e.maxOutliers == checks[e.index].maxOutliers < e.outliers
      && e.maxDifference == CalculateMaxDifference(differenceData)
      && forall j :: 0 <= j < e.index ==>
           && FilterResult(checks[j].filter, host).Ok?
           && (Runs(checks[j], host) ==> CalculateOutliers(differenceData, checks[j].tolerance) <= checks[j].maxOutliers)
  {
    var checks, differenceData := Checks(c).value, DifferenceData(expected.raw, actual.raw);
    var statuses := Statuses(checks, differenceData, host);
    var i := FirstDecisive(statuses).value;
    assert statuses[i].Failed?;
    forall j | 0 <= j < i
      ensures FilterResult(checks[j].filter, host).Ok?
      ensures Runs(checks[j], host) ==> CalculateOutliers(differenceData, checks[j].tolerance) <= checks[j].maxOutliers
    {
      assert !Decisive(statuses[j]);
    }
  }

  /** "No checks executed" is reported exactly when the sizes agree, the
      checks resolve and every filter evaluates to false. */
  lemma NoChecksExecutedIff(c: ImageComparison, actual: RgbaImage, expected: RgbaImage, host: Host)
    ensures Verdict(c, actual, expected, host) == Err(NoChecksExecuted) <==>
      && actual.width == expected.width && actual.height == expected.height
      && Checks(c).Ok?
      && forall i :: 0 <= i < |Checks(c).value| ==> FilterResult(Checks(c).value[i].filter, host) == Ok(false)
  {
    if actual.width == expected.width && actual.height == expected.height && Checks(c).Ok? {
      var checks, differenceData := Checks(c).value, DifferenceData(expected.raw, actual.raw);
      var statuses := Statuses(checks, differenceData, host);
      if Verdict(c, actual, expected, host) == Err(NoChecksExecuted) {
        forall i | 0 <= i < |checks|
          ensures FilterResult(checks[i].filter, host) == Ok(false)
        {
          assert !Decisive(statuses[i]) && !statuses[i].Passed?;
        }
      }
      if forall i :: 0 <= i < |checks| ==> FilterResult(checks[i].filter, host) == Ok(false) {
        assert forall i :: 0 <= i < |statuses| ==> statuses[i] == Skipped;
        assert FirstDecisive(statuses).None?;
      }
    }
  }

  /** A check list whose only check is filtered out never passes. */
  lemma SoleFilteredCheckFails(c: ImageComparison, actual: RgbaImage, expected: RgbaImage, host: Host)
    requires actual.width == expected.width && actual.height == expected.height
    requires |c.checks| == 1 && c.tolerance.None? && c.maxOutliers.None?
    requires FilterResult(c.checks[0].filter, host) == Ok(false)
    ensures Verdict(c, actual, expected, host) == Err(NoChecksExecuted)
  {
    NoChecksExecutedIff(c, actual, expected, host);
  }

  /** Comparing an image with itself passes whatever the tolerances and
      limits, as long as it has a pixel, its checks resolve, every filter
      evaluates and one of them lets its check run. */
  lemma IdenticalImagesPass(c: ImageComparison, image: RgbaImage, host: Host)
    requires ValidImage(image) && |image.raw| > 0
    requires Checks(c).Ok?
    requires forall i :: 0 <= i < |Checks(c).value| ==> FilterResult(Checks(c).value[i].filter, host).Ok?
    requires exists i :: 0 <= i < |Checks(c).value| && Runs(Checks(c).value[i], host)
    ensures Verdict(c, image, image, host) == Ok(())
  {
    var checks := Checks(c).value;
    DifferenceOfSelf(image.raw);
    forall i | 0 <= i < |checks|
      ensures CalculateOutliers(DifferenceData(image.raw, image.raw), checks[i].tolerance) == 0
    {
      OutliersOfZeros(DifferenceData(image.raw, image.raw), checks[i].tolerance);
    }
    VerdictOkIff(c, image, image, host);
  }

  /** Nothing is written for a known failure, and something is written only on
      a size mismatch or a failing check. */
  lemma ArtifactsOnlyOnFailure(c: ImageComparison, name: string, environmentName: string,
                               actual: RgbaImage, expected: RgbaImage, host: Host, knownFailure: bool)
    ensures knownFailure ==> Artifacts(c, name, environmentName, actual, expected, host, knownFailure) == []
    ensures Artifacts(c, name, environmentName, actual, expected, host, knownFailure) != [] ==>
              Verdict(c, actual, expected, host).Err?
              && (Verdict(c, actual, expected, host).error.SizeMismatch?
                  || Verdict(c, actual, expected, host).error.CheckFailed?)
  {
  }

  /** Every diagnostic image holds exactly width x height pixels of its channel
      count, so building it from its raw buffer cannot fail. */
  lemma {:induction false} DiagnosticImagesFit(c: ImageComparison, name: string, environmentName: string,
                                               actual: RgbaImage, expected: RgbaImage, host: Host, knownFailure: bool)
    requires ValidImage(actual) && ValidImage(expected)
    ensures var files := Artifacts(c, name, environmentName, actual, expected, host, knownFailure);
      forall k :: 0 <= k < |files| ==> |files[k].pixels| == files[k].channels * (files[k].width * files[k].height)
  {
    var files := Artifacts(c, name, environmentName, actual, expected, host, knownFailure);
    if actual.width == expected.width && actual.height == expected.height {
      var differenceData := DifferenceData(expected.raw, actual.raw);
      SameSizeDifference(actual, expected);
      ColorChannelsAt(differenceData);
      AlphaChannelAt(differenceData);
      var n := actual.width * actual.height;
      assert |differenceData| / 4 == n;
      assert |ColorChannels(differenceData)| == 3 * n;
      assert |AlphaChannel(differenceData)| == 1 * n;
    }
  }

  /** When a check fails on a test that is not a known failure, the actual
      image and the colour difference are written, and a one-channel alpha
      difference is written exactly when some alpha byte differs. */
  lemma AlphaImageIffAlphaDiffers(c: ImageComparison, name: string, environmentName: string,
                                  actual: RgbaImage, expected: RgbaImage, host: Host)
    requires Verdict(c, actual, expected, host).Err? && Verdict(c, actual, expected, host).error.CheckFailed?
    ensures var files := Artifacts(c, name, environmentName, actual, expected, host, false);
      && |files| >= 2 && files[0].channels == 4 && files[0].pixels == actual.raw && files[1].channels == 3
      && ((exists k :: 0 <= k < |files| && files[k].channels == 1) <==> AlphaDiffers(expected.raw, actual.raw))
  {
    var files := Artifacts(c, name, environmentName, actual, expected, host, false);
    if AlphaDiffers(expected.raw, actual.raw) {
      assert files[2].channels == 1;
    } else {
      assert |files| == 2;
    }
  }

  /** The worked example: two 2x2 images that differ by 10 only in the blue
      channel of one pixel. */
  const ExampleExpected: seq<uint8> := seq(16, i => if i % 4 == 3 then 255 else 0)
  const ExampleActual: seq<uint8> := seq(16, i => if i == 6 then 10 else if i % 4 == 3 then 255 else 0)
  const ExampleDifference: seq<uint8> := seq(16, i => if i == 6 then 10 else 0)

  lemma ExampleDifferenceData()
    ensures DifferenceData(ExampleExpected, ExampleActual) == ExampleDifference
  {
    var d := DifferenceData(ExampleExpected, ExampleActual);
    DifferenceDataAt(ExampleExpected, ExampleActual);
    assert |d| == 16;
    forall i | 0 <= i < 16
      ensures d[i] == ExampleDifference[i]
    {
      assert d[i] == CalcDifference(ExampleExpected[i], ExampleActual[i]);
    }
  }

  lemma ExampleCounts()
    ensures CalculateOutliers(ExampleDifference, 5) == 1
    ensures CalculateOutliers(ExampleDifference, 15) == 0
    ensures CalculateMaxDifference(ExampleDifference) == 10
  {
    var d := ExampleDifference;
    assert d[4..][4..][4..][4..] == [];
    assert CalculateOutliers(d[4..][4..][4..], 5) == 0;
    assert CalculateOutliers(d[4..][4..], 5) == 0;
    assert CalculateOutliers(d[4..], 5) == 1;
    assert CalculateOutliers(d[4..][4..][4..], 15) == 0;
    assert CalculateOutliers(d[4..][4..], 15) == 0;
    assert CalculateOutliers(d[4..], 15) == 0;
    assert CalculateMaxDifference(d[4..][4..][4..]) == 0;
    assert CalculateMaxDifference(d[4..][4..]) == 0;
    assert CalculateMaxDifference(d[4..]) == 10;
  }

  /** At tolerance 5 the example has one outlier, so a check allowing none
      fails; at tolerance 15 there is none and the check passes. */
  lemma BlueChannelExample(actual: RgbaImage, expected: RgbaImage, host: Host)
    requires actual == RgbaImage(2, 2, ExampleActual) && expected == RgbaImage(2, 2, ExampleExpected)
    ensures Verdict(ImageComparison(Some(5), Some(0), [], FsCommand), actual, expected, host)
            == Err(CheckFailed(0, 1, 0, 10))
    ensures Verdict(ImageComparison(Some(15), Some(0), [], FsCommand), actual, expected, host) == Ok(())
  {
    ExampleDifferenceData();
    ExampleCounts();
    var d := DifferenceData(expected.raw, actual.raw);
    SimpleCheckVerdict(Some(5), Some(0), FsCommand, actual, expected, host);
    SimpleCheckVerdict(Some(15), Some(0), FsCommand, actual, expected, host);
    SingleCheckFails(ImageComparisonCheck(5, 0, None), d, host);
    SingleCheckPasses(ImageComparisonCheck(15, 0, None), d, host);
  }

  /** With equal sizes, a comparison with only simple fields runs exactly its
      one implicit check, built from those fields defaulted to 0, over the
      difference buffer. */
  lemma SimpleCheckVerdict(tolerance: Option<uint8>, maxOutliers: Option<nat>, trigger: ImageTrigger,
                           actual: RgbaImage, expected: RgbaImage, host: Host)
    requires actual.width == expected.width && actual.height == expected.height
    ensures Verdict(ImageComparison(tolerance, maxOutliers, [], trigger), actual, expected, host)
            == RunChecks([ImageComparisonCheck(tolerance.GetOr(0), maxOutliers.GetOr(0), None)],
                         DifferenceData(expected.raw, actual.raw), host)
  {
  }

  /** A single check that runs and has more outliers than it allows fails as
      check 0, reporting its count, its limit and the maximum difference. */
  lemma SingleCheckFails(check: ImageComparisonCheck, differenceData: seq<uint8>, host: Host)
    requires Runs(check, host) && |differenceData| >= 4
    requires CalculateOutliers(differenceData, check.tolerance) > check.maxOutliers
    ensures RunChecks([check], differenceData, host)
            == Err(CheckFailed(0, CalculateOutliers(differenceData, check.tolerance), check.maxOutliers,
                               CalculateMaxDifference(differenceData)))
  {
    var statuses := Statuses([check], differenceData, host);
    assert statuses[0].Failed?;
    FirstDecisiveAt(statuses, 0);
  }

  /** A single check that runs and stays within its limit passes. */
  lemma SingleCheckPasses(check: ImageComparisonCheck, differenceData: seq<uint8>, host: Host)
    requires Runs(check, host) && |differenceData| >= 4
    requires CalculateOutliers(differenceData, check.tolerance) <= check.maxOutliers
    ensures RunChecks([check], differenceData, host) == Ok(())
  {
    var statuses := Statuses([check], differenceData, host);
    assert statuses[0].Passed?;
    assert FirstDecisive(statuses).None?;
  }
}
