/** The image-difference engine of an image comparison: the per-channel
    absolute difference of two RGBA byte buffers (4 bytes per pixel, row
    major), the outlier count against a tolerance, the maximum difference,
    and the colour and alpha planes written out as diagnostics. */
module ImageDifference {
  import opened Common

  /** `calc_difference`: the absolute difference of two samples, taken in a
      wider signed domain so that it cannot underflow, then narrowed to a byte. */
  function CalcDifference(lhs: uint8, rhs: uint8): (d: uint8)
    ensures d == 0 <==> lhs == rhs
    ensures lhs == rhs + d || rhs == lhs + d
  {
    var wide: int := lhs - rhs;
    if wide < 0 then -wide else wide
  }

  /** Number of whole pixels two buffers have in common: the chunks of 4 that
      zipping their exact chunks produces. */
  function PixelPairs(expected: seq<uint8>, actual: seq<uint8>): nat {
    if |expected| / 4 < |actual| / 4 then |expected| / 4 else |actual| / 4
  }

  /** The four channel differences of one pixel pair. */
  function PixelDifference(cmp: seq<uint8>, data: seq<uint8>): (d: seq<uint8>)
    requires |cmp| >= 4 && |data| >= 4
    ensures |d| == 4 && forall j :: 0 <= j < 4 ==> d[j] == CalcDifference(cmp[j], data[j])
  {
    [ CalcDifference(cmp[0], data[0]), CalcDifference(cmp[1], data[1]),
      CalcDifference(cmp[2], data[2]), CalcDifference(cmp[3], data[3]) ]
  }

  /** The difference buffer `calculate_difference_data` produces: four
      differences per pixel pair, in pixel order. */
  function DifferenceData(expected: seq<uint8>, actual: seq<uint8>): seq<uint8>
    decreases |expected|
  {
    if |expected| < 4 || |actual| < 4 then []
    else
      PixelDifference(expected, actual) + DifferenceData(expected[4..], actual[4..])
  }

  /** Whether some pixel pair differs in its alpha (fourth) byte. */
  predicate AlphaDiffers(expected: seq<uint8>, actual: seq<uint8>)
    decreases |expected|
  {
    if |expected| < 4 || |actual| < 4 then false
    else expected[3] != actual[3] || AlphaDiffers(expected[4..], actual[4..])
  }

  /** One pixel pair of the traversal at pixel `k`. */
  lemma DifferenceDataStep(expected: seq<uint8>, actual: seq<uint8>, k: nat)
    requires k < PixelPairs(expected, actual)
    ensures DifferenceData(expected[4 * k..], actual[4 * k..])
            == PixelDifference(expected[4 * k..4 * k + 4], actual[4 * k..4 * k + 4])
               + DifferenceData(expected[4 * (k + 1)..], actual[4 * (k + 1)..])
    ensures AlphaDiffers(expected[4 * k..], actual[4 * k..])
            == (expected[4 * k + 3] != actual[4 * k + 3] || AlphaDiffers(expected[4 * (k + 1)..], actual[4 * (k + 1)..]))
  {
    var e, a := expected[4 * k..], actual[4 * k..];
    assert e[4..] == expected[4 * (k + 1)..];
    assert a[4..] == actual[4 * (k + 1)..];
    assert PixelDifference(e, a) == PixelDifference(expected[4 * k..4 * k + 4], actual[4 * k..4 * k + 4]);
  }

  /** `calculate_difference_data`: builds the difference buffer and raises the
      caller's alpha flag when a pixel's alpha byte differs. The flag is never
      lowered. */
  method CalculateDifferenceData(actual: seq<uint8>, expected: seq<uint8>, isAlphaDifferent: bool)
    returns (diff: seq<uint8>, alphaDifferent: bool)
    ensures diff == DifferenceData(expected, actual)
    ensures alphaDifferent == (isAlphaDifferent || AlphaDiffers(expected, actual))
  {
    var n := PixelPairs(expected, actual);
    diff, alphaDifferent := [], isAlphaDifferent;
    var k := 0;
    while k < n
      invariant 0 <= k <= n
      invariant diff + DifferenceData(expected[4 * k..], actual[4 * k..]) == DifferenceData(expected, actual)
      invariant (alphaDifferent || AlphaDiffers(expected[4 * k..], actual[4 * k..]))
                == (isAlphaDifferent || AlphaDiffers(expected, actual))
    {
      DifferenceDataStep(expected, actual, k);
      var cmpChunk, dataChunk := expected[4 * k..4 * k + 4], actual[4 * k..4 * k + 4];
      if cmpChunk[3] != dataChunk[3] {
        alphaDifferent := true;
      }
      var pixel := PixelDifference(cmpChunk, dataChunk);
      ghost var rest := DifferenceData(expected[4 * (k + 1)..], actual[4 * (k + 1)..]);
      assert diff + (pixel + rest) == (diff + pixel) + rest;
      diff := diff + pixel;
      k := k + 1;
    }
  }

  /** The difference buffer has four bytes per pixel pair, and byte `i` is the
      difference of byte `i` of the two inputs. */
  lemma {:induction false} DifferenceDataAt(expected: seq<uint8>, actual: seq<uint8>)
    ensures |DifferenceData(expected, actual)| == 4 * PixelPairs(expected, actual)
    ensures forall i :: 0 <= i < |DifferenceData(expected, actual)| ==>
              i < |expected| && i < |actual| &&
              DifferenceData(expected, actual)[i] == CalcDifference(expected[i], actual[i])
    decreases |expected|
  {
    if |expected| >= 4 && |actual| >= 4 {
      DifferenceDataAt(expected[4..], actual[4..]);
    }
  }

  /** Swapping the images does not change the difference buffer. */
  lemma {:induction false} DifferenceDataSymmetric(expected: seq<uint8>, actual: seq<uint8>)
    ensures DifferenceData(expected, actual) == DifferenceData(actual, expected)
    ensures AlphaDiffers(expected, actual) == AlphaDiffers(actual, expected)
    decreases |expected|
  {
    if |expected| >= 4 && |actual| >= 4 {
      DifferenceDataSymmetric(expected[4..], actual[4..]);
    }
  }

  /** The difference of a buffer with itself is all zeros and leaves the alpha
      flag as it was. */
  lemma {:induction false} DifferenceOfSelf(image: seq<uint8>)
    ensures |DifferenceData(image, image)| == 4 * (|image| / 4)
    ensures forall i :: 0 <= i < |DifferenceData(image, image)| ==> DifferenceData(image, image)[i] == 0
    ensures !AlphaDiffers(image, image)
    decreases |image|
  {
    if |image| >= 4 {
      DifferenceOfSelf(image[4..]);
    }
  }

  /** The alpha flag is raised exactly when some pixel pair has different
      fourth bytes. */
  lemma {:induction false} AlphaDiffersIff(expected: seq<uint8>, actual: seq<uint8>)
    ensures AlphaDiffers(expected, actual) <==>
            exists k :: 0 <= k < PixelPairs(expected, actual) && expected[4 * k + 3] != actual[4 * k + 3]
    decreases |expected|
  {
    if |expected| >= 4 && |actual| >= 4 {
      var e', a' := expected[4..], actual[4..];
      AlphaDiffersIff(e', a');
      assert PixelPairs(expected, actual) == PixelPairs(e', a') + 1;
      assert forall k :: 0 <= k < PixelPairs(e', a') ==>
               e'[4 * k + 3] == expected[4 * (k + 1) + 3] && a'[4 * k + 3] == actual[4 * (k + 1) + 3];
      if AlphaDiffers(expected, actual) {
        if expected[3] == actual[3] {
          var k :| 0 <= k < PixelPairs(e', a') && e'[4 * k + 3] != a'[4 * k + 3];
          assert expected[4 * (k + 1) + 3] != actual[4 * (k + 1) + 3];
        } else {
          assert expected[4 * 0 + 3] != actual[4 * 0 + 3];
        }
      } else {
        forall k | 0 <= k < PixelPairs(expected, actual)
          ensures expected[4 * k + 3] == actual[4 * k + 3]
        {
          if k > 0 {
            assert e'[4 * (k - 1) + 3] == a'[4 * (k - 1) + 3];
          }
        }
      }
    } else {
      assert PixelPairs(expected, actual) == 0;
    }
  }

  /** Number of the four samples of one pixel that exceed `tolerance`. */
  function PixelOutliers(colors: seq<uint8>, tolerance: uint8): (count: nat)
    requires |colors| >= 4
    ensures count <= 4
  {
    (if colors[0] > tolerance then 1 else 0) + (if colors[1] > tolerance then 1 else 0)
    + (if colors[2] > tolerance then 1 else 0) + (if colors[3] > tolerance then 1 else 0)
  }

  /** `calculate_outliers`: the number of channel samples, over all whole
      pixels, strictly greater than `tolerance`; a pixel adds up to 4. */
  function CalculateOutliers(differenceData: seq<uint8>, tolerance: uint8): (count: nat)
    ensures count <= 4 * (|differenceData| / 4)
    decreases |differenceData|
  {
    if |differenceData| < 4 then 0
    else PixelOutliers(differenceData, tolerance) + CalculateOutliers(differenceData[4..], tolerance)
  }

  /** Reference count, one sample at a time. */
  function CountAbove(samples: seq<uint8>, tolerance: uint8): nat {
    if samples == [] then 0
    else (if samples[0] > tolerance then 1 else 0) + CountAbove(samples[1..], tolerance)
  }

  lemma {:induction false} CountAboveConcat(a: seq<uint8>, b: seq<uint8>, tolerance: uint8)
    ensures CountAbove(a + b, tolerance) == CountAbove(a, tolerance) + CountAbove(b, tolerance)
  {
    if a == [] {
      assert a + b == b;
    } else {
      assert (a + b)[1..] == a[1..] + b;
      CountAboveConcat(a[1..], b, tolerance);
    }
  }

  /** The per-pixel count agrees with counting every sample of the whole pixels
      one by one. */
  lemma {:induction false} OutliersCountSamples(differenceData: seq<uint8>, tolerance: uint8)
    ensures CalculateOutliers(differenceData, tolerance)
            == CountAbove(differenceData[..4 * (|differenceData| / 4)], tolerance)
    decreases |differenceData|
  {
    var d := differenceData;
    if |d| >= 4 {
      OutliersCountSamples(d[4..], tolerance);
      var rest := d[4..][..4 * (|d[4..]| / 4)];
      assert d[..4 * (|d| / 4)] == d[..4] + rest;
      CountAboveConcat(d[..4], rest, tolerance);
      var q := d[..4];
      assert q[1..][1..][1..][1..] == [];
      assert CountAbove(q[1..][1..][1..], tolerance) == (if d[3] > tolerance then 1 else 0);
      assert CountAbove(q[1..][1..], tolerance) == (if d[2] > tolerance then 1 else 0) + CountAbove(q[1..][1..][1..], tolerance);
      assert CountAbove(q[1..], tolerance) == (if d[1] > tolerance then 1 else 0) + CountAbove(q[1..][1..], tolerance);
      assert CountAbove(q, tolerance) == PixelOutliers(d, tolerance);
    } else {
      assert d[..4 * (|d| / 4)] == [];
    }
  }

  /** Raising the tolerance never raises the outlier count. */
  lemma {:induction false} OutliersAntitone(differenceData: seq<uint8>, lower: uint8, higher: uint8)
    requires lower <= higher
    ensures CalculateOutliers(differenceData, higher) <= CalculateOutliers(differenceData, lower)
    decreases |differenceData|
  {
    if |differenceData| >= 4 {
      OutliersAntitone(differenceData[4..], lower, higher);
    }
  }

  /** No sample exceeds the largest tolerance. */
  lemma {:induction false} OutliersAtFullTolerance(differenceData: seq<uint8>)
    ensures CalculateOutliers(differenceData, 255) == 0
    decreases |differenceData|
  {
    if |differenceData| >= 4 {
      OutliersAtFullTolerance(differenceData[4..]);
    }
  }

  /** An all-zero difference buffer has no outliers at any tolerance. */
  lemma {:induction false} OutliersOfZeros(differenceData: seq<uint8>, tolerance: uint8)
    requires forall i :: 0 <= i < |differenceData| ==> differenceData[i] == 0
    ensures CalculateOutliers(differenceData, tolerance) == 0
    decreases |differenceData|
  {
    if |differenceData| >= 4 {
      OutliersOfZeros(differenceData[4..], tolerance);
    }
  }

  function Max(a: uint8, b: uint8): uint8 {
    if a < b then b else a
  }

  /** `calculate_max_difference`: the largest sample over the whole pixels. The
      maximum of no pixel is unwrapped, so the buffer must hold one pixel. */
  function CalculateMaxDifference(differenceData: seq<uint8>): (m: uint8)
    requires |differenceData| >= 4
    ensures forall i :: 0 <= i < 4 * (|differenceData| / 4) ==> differenceData[i] <= m
    ensures exists i :: 0 <= i < 4 * (|differenceData| / 4) && differenceData[i] == m
    decreases |differenceData|
  {
    var d := differenceData;
    var head := Max(Max(Max(d[0], d[1]), d[2]), d[3]);
    if |d| < 8 then head
    else
      var rest := CalculateMaxDifference(d[4..]);
      assert forall i :: 4 <= i < 4 * (|d| / 4) ==> d[i] == d[4..][i - 4];
      assert exists i :: 4 <= i < 4 * (|d| / 4) && d[i] == rest;
      Max(head, rest)
  }

  /** No outlier at a tolerance exactly when the maximum difference is within it. */
  lemma {:induction false} NoOutliersIffMaxWithin(differenceData: seq<uint8>, tolerance: uint8)
    requires |differenceData| >= 4
    ensures CalculateOutliers(differenceData, tolerance) == 0
            <==> CalculateMaxDifference(differenceData) <= tolerance
    decreases |differenceData|
  {
    var d := differenceData;
    if |d| >= 8 {
      NoOutliersIffMaxWithin(d[4..], tolerance);
    } else {
      assert CalculateOutliers(d[4..], tolerance) == 0;
    }
  }

  /** The colour plane of a difference buffer: bytes 0 to 2 of every pixel. */
  function ColorChannels(differenceData: seq<uint8>): seq<uint8>
    decreases |differenceData|
  {
    if |differenceData| < 4 then [] else differenceData[..3] + ColorChannels(differenceData[4..])
  }

  /** The alpha plane of a difference buffer: byte 3 of every pixel. */
  function AlphaChannel(differenceData: seq<uint8>): seq<uint8>
    decreases |differenceData|
  {
    if |differenceData| < 4 then [] else [differenceData[3]] + AlphaChannel(differenceData[4..])
  }

  /** For a buffer of n pixels the colour plane has 3n bytes, the first three of
      each pixel in order. */
  lemma {:induction false} ColorChannelsAt(differenceData: seq<uint8>)
    ensures |ColorChannels(differenceData)| == 3 * (|differenceData| / 4)
    ensures forall i :: 0 <= i < |ColorChannels(differenceData)| ==>
              ColorChannels(differenceData)[i] == differenceData[4 * (i / 3) + i % 3]
    decreases |differenceData|
  {
    var d := differenceData;
    if |d| >= 4 {
      ColorChannelsAt(d[4..]);
      forall i | 0 <= i < |ColorChannels(d)|
        ensures ColorChannels(d)[i] == d[4 * (i / 3) + i % 3]
      {
        if i >= 3 {
          assert ColorChannels(d)[i] == ColorChannels(d[4..])[i - 3];
          assert (i - 3) / 3 == i / 3 - 1 && (i - 3) % 3 == i % 3;
        }
      }
    }
  }

  /** For a buffer of n pixels the alpha plane has n bytes, the fourth of each
      pixel in order. */
  lemma {:induction false} AlphaChannelAt(differenceData: seq<uint8>)
    ensures |AlphaChannel(differenceData)| == |differenceData| / 4
    ensures forall k :: 0 <= k < |differenceData| / 4 ==>
              AlphaChannel(differenceData)[k] == differenceData[4 * k + 3]
    decreases |differenceData|
  {
    var d := differenceData;
    if |d| >= 4 {
      AlphaChannelAt(d[4..]);
      forall k | 0 <= k < |d| / 4
        ensures AlphaChannel(d)[k] == d[4 * k + 3]
      {
        if k > 0 {
          assert AlphaChannel(d)[k] == AlphaChannel(d[4..])[k - 1];
        }
      }
    }
  }

  /** Puts a colour plane and an alpha plane back together, pixel by pixel. */
  function Interleave(color: seq<uint8>, alpha: seq<uint8>): seq<uint8>
    requires |color| == 3 * |alpha|
    decreases |alpha|
  {
    if alpha == [] then [] else color[..3] + [alpha[0]] + Interleave(color[3..], alpha[1..])
  }

  /** The two diagnostic planes together lose nothing of the whole pixels. */
  lemma {:induction false} ChannelsRecombine(differenceData: seq<uint8>)
    ensures |ColorChannels(differenceData)| == 3 * |AlphaChannel(differenceData)|
    ensures Interleave(ColorChannels(differenceData), AlphaChannel(differenceData))
            == differenceData[..4 * (|differenceData| / 4)]
    decreases |differenceData|
  {
    var d := differenceData;
    if |d| >= 4 {
      ChannelsRecombine(d[4..]);
      assert (d[..3] + ColorChannels(d[4..]))[3..] == ColorChannels(d[4..]);
      assert d[..4 * (|d| / 4)] == d[..3] + [d[3]] + d[4..][..4 * (|d[4..]| / 4)];
    } else {
      assert d[..4 * (|d| / 4)] == [];
    }
  }

  /** The colour-plane loop of a failing check: three bytes of every pixel. */
  method DifferenceColor(differenceData: seq<uint8>) returns (color: seq<uint8>)
    ensures color == ColorChannels(differenceData)
  {
    color := [];
    var k := 0;
    while k < |differenceData| / 4
      invariant 0 <= k <= |differenceData| / 4
      invariant color + ColorChannels(differenceData[4 * k..]) == ColorChannels(differenceData)
    {
      var d := differenceData[4 * k..];
      assert d[4..] == differenceData[4 * (k + 1)..];
      var p := differenceData[4 * k..4 * k + 4];
      assert p[..3] == d[..3];
      assert ColorChannels(d) == p[..3] + ColorChannels(d[4..]);
      assert color + (p[..3] + ColorChannels(d[4..])) == (color + p[..3]) + ColorChannels(d[4..]);
      color := color + p[..3];
      k := k + 1;
    }
  }

  /** The alpha-plane loop of a failing check: the fourth byte of every pixel. */
  method DifferenceAlpha(differenceData: seq<uint8>) returns (alpha: seq<uint8>)
    ensures alpha == AlphaChannel(differenceData)
  {
    alpha := [];
    var k := 0;
    while k < |differenceData| / 4
      invariant 0 <= k <= |differenceData| / 4
      invariant alpha + AlphaChannel(differenceData[4 * k..]) == AlphaChannel(differenceData)
    {
      var d := differenceData[4 * k..];
      assert d[4..] == differenceData[4 * (k + 1)..];
      var p := differenceData[4 * k..4 * k + 4];
      assert AlphaChannel(d) == [p[3]] + AlphaChannel(d[4..]);
      assert alpha + ([p[3]] + AlphaChannel(d[4..])) == (alpha + [p[3]]) + AlphaChannel(d[4..]);
      alpha := alpha + [p[3]];
      k := k + 1;
    }
  }
}
