/**
 * The comparison context `Dssim` and the preprocessed image `DssimImage`:
 * building the multi-scale pyramid (`create_image`, `make_scales_recursive`)
 * and comparing two images scale by scale (`compare`).
 */
module Context {
  import opened Primitives
  import opened Reals
  import opened Channels
  import opened Ssim

  /** Default weights of the five scales, finest first. */
  const DefaultWeights: seq<real> := [0.028, 0.197, 0.322, 0.298, 0.155]

  /** A preprocessed image: its scales, full resolution first. */
  datatype DssimImage = DssimImage(scale: seq<ChanScale>)
  {
    /** Width of the first channel of the first scale. */
    function Width(): (r: nat)
      requires |scale| > 0 && |scale[0].chan| > 0
      ensures r == scale[0].chan[0].width
    {
      scale[0].chan[0].width
    }

    /** Height of the first channel of the first scale. */
    function Height(): (r: nat)
      requires |scale| > 0 && |scale[0].chan| > 0
      ensures r == scale[0].chan[0].height
    {
      scale[0].chan[0].height
    }
  }

  /** A retained per-pixel SSIM map of one scale, with that scale's score. */
  datatype SsimMap = SsimMap(ssimMap: Plane, ssim: real)

  /** What the comparison of one scale yields: score, weight and maybe its map. */
  datatype ScaleResult = ScaleResult(score: real, weight: real, kept: Option<SsimMap>)

  // ---------------------------------------------------------------------------
  // The pyramid

  /** One level: `to_lab`, then every plane preprocessed; planes after the first are chroma. */
  function Level<P(!new)>(blur: Blur, ops: ImageOps<P>, image: Bitmap<P>): ChanScale
  {
    var planes := ops.toLab(image);
    ChanScale(seq(|planes|, k requires 0 <= k < |planes| => Preprocessed(blur, planes[k], k > 0)))
  }

  /**
   * The levels in the order `make_scales_recursive` pushes them: the deeper
   * levels (while scales are left and downsampling succeeds), then this one.
   */
  function DepthFirst<P(!new)>(blur: Blur, ops: ImageOps<P>, scalesLeft: nat, image: Bitmap<P>): seq<ChanScale>
    decreases scalesLeft
  {
    var deeper :=
      if scalesLeft > 0 && ops.downsample(image).Some?
      then DepthFirst(blur, ops, scalesLeft - 1, ops.downsample(image).value)
      else [];
    deeper + [Level(blur, ops, image)]
  }

  /** The scales of the image `create_image` builds: the depth-first order reversed. */
  function Pyramid<P(!new)>(blur: Blur, ops: ImageOps<P>, numScales: nat, image: Bitmap<P>): seq<ChanScale>
  {
    Reversed(DepthFirst(blur, ops, numScales, image))
  }

  /** The image downsampled i times, if every step succeeds. */
  function Downsampled<P(!new)>(ops: ImageOps<P>, i: nat, image: Bitmap<P>): Option<Bitmap<P>>
  {
    if i == 0 then Some(image)
    else match ops.downsample(image)
      case None => None
      case Some(down) => Downsampled(ops, i - 1, down)
  }

  /** After the reversal the full-resolution level comes first, followed by the pyramid of the downsampled image. */
  lemma PyramidUnfold<P(!new)>(blur: Blur, ops: ImageOps<P>, numScales: nat, image: Bitmap<P>)
    ensures Pyramid(blur, ops, numScales, image) ==
      [Level(blur, ops, image)] +
      (if numScales > 0 && ops.downsample(image).Some?
       then Pyramid(blur, ops, numScales - 1, ops.downsample(image).value)
       else [])
  {
    var s := DepthFirst(blur, ops, numScales, image);
    assert s[..|s| - 1] + [s[|s| - 1]] == s;
  }

  /**
   * Level i of the pyramid is the level of the image downsampled i times;
   * there are at most numScales + 1 levels, and fewer exactly when a
   * downsampling step fails first.
   */
  lemma {:induction false} PyramidShape<P(!new)>(blur: Blur, ops: ImageOps<P>, numScales: nat, image: Bitmap<P>)
    ensures var p := Pyramid(blur, ops, numScales, image);
      && 1 <= |p| <= numScales + 1
      && p[0] == Level(blur, ops, image)
      && (forall i :: 0 <= i < |p| ==>
            Downsampled(ops, i, image).Some? && p[i] == Level(blur, ops, Downsampled(ops, i, image).value))
      && (|p| <= numScales ==> Downsampled(ops, |p|, image).None?)
  {
    PyramidUnfold(blur, ops, numScales, image);
    var p := Pyramid(blur, ops, numScales, image);
    if numScales > 0 && ops.downsample(image).Some? {
      var down := ops.downsample(image).value;
      PyramidShape(blur, ops, numScales - 1, down);
      var q := Pyramid(blur, ops, numScales - 1, down);
      assert p == [Level(blur, ops, image)] + q;
      forall i | 1 <= i < |p|
        ensures Downsampled(ops, i, image).Some? && p[i] == Level(blur, ops, Downsampled(ops, i, image).value)
      {
        assert Downsampled(ops, i, image) == Downsampled(ops, i - 1, down);
      }
      if |p| <= numScales {
        assert Downsampled(ops, |p|, image) == Downsampled(ops, |q|, down);
      }
    }
  }

  /** The pyramid has numScales + 1 levels exactly when the image can be downsampled numScales times. */
  lemma PyramidFull<P(!new)>(blur: Blur, ops: ImageOps<P>, numScales: nat, image: Bitmap<P>)
    ensures |Pyramid(blur, ops, numScales, image)| == numScales + 1 <==> Downsampled(ops, numScales, image).Some?
  {
    PyramidShape(blur, ops, numScales, image);
  }

  /** A valid level: 1 or 3 preprocessed channels, all of one size. */
  ghost predicate ScaleValid(blur: Blur, s: ChanScale)
  {
    && (|s.chan| == 1 || |s.chan| == 3)
    && forall k :: 0 <= k < |s.chan| ==>
         IsPreprocessed(blur, s.chan[k])
         && s.chan[k].width == s.chan[0].width && s.chan[k].height == s.chan[0].height
  }

  /** A valid image: at least one level, every level valid. */
  ghost predicate ImageValid(blur: Blur, image: DssimImage)
  {
    && |image.scale| > 0
    && forall n :: 0 <= n < |image.scale| ==> ScaleValid(blur, image.scale[n])
  }

  /** The level of an image of positive size is valid and has the image's size. */
  lemma LevelValid<P(!new)>(blur: Blur, ops: ImageOps<P>, image: Bitmap<P>)
    requires BlurKeepsSize(blur) && ops.Valid()
    requires image.width > 0 && image.height > 0
    ensures var s := Level(blur, ops, image);
      ScaleValid(blur, s) && s.chan[0].width == image.width && s.chan[0].height == image.height
  {
    var planes := ops.toLab(image);
    assert LabPlanes(planes, image.width, image.height);
    forall k | 0 <= k < |planes|
      ensures IsPreprocessed(blur, Preprocessed(blur, planes[k], k > 0))
    {
      PreprocessedIsPreprocessed(blur, planes[k], k > 0);
    }
  }

  /** Prepending a valid level to valid levels keeps the image valid. */
  lemma PrependValid(blur: Blur, s: ChanScale, rest: seq<ChanScale>)
    requires ScaleValid(blur, s)
    requires forall n :: 0 <= n < |rest| ==> ScaleValid(blur, rest[n])
    ensures ImageValid(blur, DssimImage([s] + rest))
  {
    var p := [s] + rest;
    forall n | 0 <= n < |p|
      ensures ScaleValid(blur, p[n])
    {
      if n > 0 {
        assert p[n] == rest[n - 1];
      }
    }
  }

  /**
   * Every image built from a source of positive size is valid, and its
   * `width()` and `height()` are the source's.
   */
  lemma {:induction false} PyramidValid<P(!new)>(blur: Blur, ops: ImageOps<P>, numScales: nat, image: Bitmap<P>)
    requires BlurKeepsSize(blur) && ops.Valid()
    requires image.width > 0 && image.height > 0
    ensures var img := DssimImage(Pyramid(blur, ops, numScales, image));
      && ImageValid(blur, img)
      && img.Width() == image.width && img.Height() == image.height
  {
    PyramidUnfold(blur, ops, numScales, image);
    var level := Level(blur, ops, image);
    LevelValid(blur, ops, image);
    if numScales > 0 && ops.downsample(image).Some? {
      var down := ops.downsample(image).value;
      PyramidValid(blur, ops, numScales - 1, down);
      PrependValid(blur, level, Pyramid(blur, ops, numScales - 1, down));
    } else {
      PrependValid(blur, level, []);
    }
  }

  // ---------------------------------------------------------------------------
  // Comparing one scale

  /** Two levels that `compare` can pair: same size, and colour only against colour. */
  ghost predicate ScalesAlign(original: ChanScale, modified: ChanScale)
  {
    && |original.chan| > 0 && |modified.chan| > 0
    && (|original.chan| == 3 ==> |modified.chan| == 3)
    && original.chan[0].width == modified.chan[0].width
    && original.chan[0].height == modified.chan[0].height
  }

  ghost predicate ScalePair(blur: Blur, original: ChanScale, modified: ChanScale)
  {
    ScaleValid(blur, original) && ScaleValid(blur, modified) && ScalesAlign(original, modified)
  }

  /** Paired levels have channel-wise planes of one size, and positive size. */
  lemma ScalePairShapes(blur: Blur, original: ChanScale, modified: ChanScale)
    requires BlurKeepsSize(blur) && ScalePair(blur, original, modified)
    ensures PairwiseSameShape(original.chan, modified.chan)
    ensures original.chan[0].width * original.chan[0].height > 0
    ensures forall k :: 0 <= k < |original.chan| && k < |modified.chan| ==>
      |CrossBlur(blur, original.chan[k], modified.chan[k])| == original.chan[0].width * original.chan[0].height
  {
    var w, h := original.chan[0].width, original.chan[0].height;
    MulPositiveLower(w as real, h as real, 1.0, 1.0);
    forall k | 0 <= k < |original.chan| && k < |modified.chan|
      ensures SameShape(original.chan[k], modified.chan[k])
      ensures |CrossBlur(blur, original.chan[k], modified.chan[k])| == w * h
    {
    }
  }

  /** The SSIM map of one pair of levels (the `match` on the channel count). */
  function ScaleSsimMap(num: Numerics, original: ChanScale, modified: ChanScale): (ssimMap: Plane)
    requires BlurKeepsSize(num.blur) && ScalePair(num.blur, original, modified)
    ensures |ssimMap.data| == original.chan[0].width * original.chan[0].height > 0
  {
    ScalePairShapes(num.blur, original, modified);
    var o, m := original.chan, modified.chan;
    if |o| == 3 then
      CompareScale(LabArith(num.labWeights), LabChan(o), LabChan(m),
                   Fuse3(CrossBlur(num.blur, o[0], m[0]), CrossBlur(num.blur, o[1], m[1]), CrossBlur(num.blur, o[2], m[2])))
    else
      CompareScale(GrayArith(), o[0], m[0], CrossBlur(num.blur, o[0], m[0]))
  }

  /** The closure `compare` maps over the scales: map, score, and the map kept below `save_maps_scales`. */
  function ScaleOutcome(num: Numerics, n: nat, weight: real, saveMapsScales: u8, original: ChanScale, modified: ChanScale): ScaleResult
    requires BlurKeepsSize(num.blur) && ScalePair(num.blur, original, modified)
  {
    var ssimMap := ScaleSsimMap(num, original, modified);
    var score := ScaleScore(num.pow, ssimMap.data, n);
    ScaleResult(score, weight, if saveMapsScales as int > n then Some(SsimMap(ssimMap, score)) else None)
  }

  // ---------------------------------------------------------------------------
  // Aggregation

  /** The scales paired with weights line up for comparison. */
  ghost predicate ScalesMatch(original: DssimImage, modified: DssimImage, numWeights: nat)
  {
    forall n :: 0 <= n < numWeights && n < |original.scale| && n < |modified.scale| ==>
      ScalesAlign(original.scale[n], modified.scale[n])
  }

  ghost predicate ImagesComparable(blur: Blur, original: DssimImage, modified: DssimImage, numWeights: nat)
  {
    ImageValid(blur, original) && ImageValid(blur, modified) && ScalesMatch(original, modified, numWeights)
  }

  /** Number of scales `compare` scores: the zip stops at the shortest of the three. */
  function Consumed(weights: seq<real>, original: DssimImage, modified: DssimImage): nat
  {
    Min(|weights|, Min(|modified.scale|, |original.scale|))
  }

  /** Scale n paired with weight n, for every scale the zip reaches. */
  function ScaleResults(num: Numerics, weights: seq<real>, saveMapsScales: u8, original: DssimImage, modified: DssimImage): (res: seq<ScaleResult>)
    requires BlurKeepsSize(num.blur) && ImagesComparable(num.blur, original, modified, |weights|)
    ensures |res| == Consumed(weights, original, modified)
  {
    var k := Consumed(weights, original, modified);
    seq(k, n requires 0 <= n < k =>
      ScaleOutcome(num, n, weights[n], saveMapsScales, original.scale[n], modified.scale[n]))
  }

  /** r is what the zip yields for scale n: weight n with scale n of both images, scored. */
  ghost predicate ScaleResultAt(num: Numerics, weights: seq<real>, saveMapsScales: u8,
                                original: DssimImage, modified: DssimImage, n: nat, r: ScaleResult)
  {
    && BlurKeepsSize(num.blur)
    && n < |weights| && n < |original.scale| && n < |modified.scale|
    && ScalePair(num.blur, original.scale[n], modified.scale[n])
    && r == ScaleOutcome(num, n, weights[n], saveMapsScales, original.scale[n], modified.scale[n])
  }

  /** Scale n of both images can be paired, for every n the zip reaches. */
  lemma ScalePairAt(num: Numerics, weights: seq<real>, original: DssimImage, modified: DssimImage, n: nat)
    requires BlurKeepsSize(num.blur) && ImagesComparable(num.blur, original, modified, |weights|)
    requires n < Consumed(weights, original, modified)
    ensures n < |weights| && n < |original.scale| && n < |modified.scale|
    ensures ScalePair(num.blur, original.scale[n], modified.scale[n])
  {
  }

  /** Appending the outcome of the next scale keeps the results scale by scale. */
  lemma ScaleResultsExtend(num: Numerics, weights: seq<real>, saveMapsScales: u8,
                           original: DssimImage, modified: DssimImage, res: seq<ScaleResult>, r: ScaleResult)
    requires BlurKeepsSize(num.blur)
    requires |res| < |weights| && |res| < |original.scale| && |res| < |modified.scale|
    requires ScalePair(num.blur, original.scale[|res|], modified.scale[|res|])
    requires forall j :: 0 <= j < |res| ==> ScaleResultAt(num, weights, saveMapsScales, original, modified, j, res[j])
    requires r == ScaleOutcome(num, |res|, weights[|res|], saveMapsScales, original.scale[|res|], modified.scale[|res|])
    ensures forall j :: 0 <= j < |res| + 1 ==> ScaleResultAt(num, weights, saveMapsScales, original, modified, j, (res + [r])[j])
  {
    var ext := res + [r];
    forall j | 0 <= j < |ext|
      ensures ScaleResultAt(num, weights, saveMapsScales, original, modified, j, ext[j])
    {
      if j < |res| {
        assert ext[j] == res[j];
      }
    }
  }

  /** Results that are, scale by scale, the outcomes of the zip are the zip's results. */
  lemma ScaleResultsFromOutcomes(num: Numerics, weights: seq<real>, saveMapsScales: u8,
                                 original: DssimImage, modified: DssimImage, res: seq<ScaleResult>)
    requires BlurKeepsSize(num.blur) && ImagesComparable(num.blur, original, modified, |weights|)
    requires |res| == Consumed(weights, original, modified)
    requires forall j :: 0 <= j < |res| ==> ScaleResultAt(num, weights, saveMapsScales, original, modified, j, res[j])
    ensures res == ScaleResults(num, weights, saveMapsScales, original, modified)
  {
  }

  /** `ssim_sum`: the sum of score * weight. */
  function WeightedScoreSum(res: seq<ScaleResult>): real
  {
    if |res| == 0 then 0.0
    else WeightedScoreSum(res[..|res| - 1]) + res[|res| - 1].score * res[|res| - 1].weight
  }

  /** `weight_sum`: the sum of the weights of the scored scales. */
  function WeightSum(res: seq<ScaleResult>): real
  {
    if |res| == 0 then 0.0 else WeightSum(res[..|res| - 1]) + res[|res| - 1].weight
  }

  /** `ssim_maps`: the kept maps, in scale order. */
  function KeptMaps(res: seq<ScaleResult>): seq<SsimMap>
  {
    if |res| == 0 then []
    else KeptMaps(res[..|res| - 1]) + (if res[|res| - 1].kept.Some? then [res[|res| - 1].kept.value] else [])
  }

  /** The DSSIM value and the kept maps of a comparison. */
  function Comparison(num: Numerics, weights: seq<real>, saveMapsScales: u8, original: DssimImage, modified: DssimImage): (real, seq<SsimMap>)
    requires BlurKeepsSize(num.blur) && ImagesComparable(num.blur, original, modified, |weights|)
  {
    var res := ScaleResults(num, weights, saveMapsScales, original, modified);
    (ToDssim(Divide(WeightedScoreSum(res), WeightSum(res))), KeptMaps(res))
  }

  /** The weights of the results. */
  lemma {:induction false} WeightSumOfPrefix(res: seq<ScaleResult>, weights: seq<real>)
    requires |res| <= |weights|
    requires forall n :: 0 <= n < |res| ==> res[n].weight == weights[n]
    ensures WeightSum(res) == Sum(weights[..|res|])
  {
    if |res| > 0 {
      var k := |res| - 1;
      WeightSumOfPrefix(res[..k], weights);
      assert weights[..|res|][..k] == weights[..k];
    }
  }

  /**
   * `weight_sum` adds exactly the weights of the scored scales, the first
   * min(#weights, #scales) of them, not the whole configured list.
   */
  lemma ConsumedWeights(num: Numerics, weights: seq<real>, saveMapsScales: u8, original: DssimImage, modified: DssimImage)
    requires BlurKeepsSize(num.blur) && ImagesComparable(num.blur, original, modified, |weights|)
    ensures WeightSum(ScaleResults(num, weights, saveMapsScales, original, modified))
      == Sum(weights[..Consumed(weights, original, modified)])
  {
    WeightSumOfPrefix(ScaleResults(num, weights, saveMapsScales, original, modified), weights);
  }

  /** When exactly the first t results carry a map, those maps are kept, in order. */
  lemma {:induction false} KeptMapsOfPrefix(res: seq<ScaleResult>, t: nat)
    requires forall n :: 0 <= n < |res| ==> (res[n].kept.Some? <==> n < t)
    ensures |KeptMaps(res)| == Min(t, |res|)
    ensures forall j :: 0 <= j < |KeptMaps(res)| ==> KeptMaps(res)[j] == res[j].kept.value
  {
    if |res| > 0 {
      KeptMapsOfPrefix(res[..|res| - 1], t);
    }
  }

  /**
   * `compare` returns a map for scale n exactly when n < save_maps_scales, in
   * ascending order of n, each carrying its scale's score.
   */
  lemma KeptMapsAreFinest(num: Numerics, weights: seq<real>, saveMapsScales: u8, original: DssimImage, modified: DssimImage)
    requires BlurKeepsSize(num.blur) && ImagesComparable(num.blur, original, modified, |weights|)
    ensures var res := ScaleResults(num, weights, saveMapsScales, original, modified);
      var maps := KeptMaps(res);
      && |maps| == Min(saveMapsScales as int, Consumed(weights, original, modified))
      && forall j :: 0 <= j < |maps| ==>
           maps[j] == SsimMap(ScaleSsimMap(num, original.scale[j], modified.scale[j]), res[j].score)
  {
    var res := ScaleResults(num, weights, saveMapsScales, original, modified);
    KeptMapsOfPrefix(res, saveMapsScales as int);
  }

  // ---------------------------------------------------------------------------
  // Comparing an image with itself

  /** A level compared with itself has SSIM 1 at every pixel and scores 1. */
  lemma SelfScaleIsOne(num: Numerics, n: nat, weight: real, saveMapsScales: u8, s: ChanScale)
    requires num.Valid() && ScaleValid(num.blur, s)
    ensures ScalePair(num.blur, s, s)
    ensures forall i :: 0 <= i < |ScaleSsimMap(num, s, s).data| ==> ScaleSsimMap(num, s, s).data[i] == 1.0
    ensures ScaleOutcome(num, n, weight, saveMapsScales, s, s).score == 1.0
  {
    var blur := num.blur;
    var c := s.chan;
    var ssimMap := ScaleSsimMap(num, s, s);
    if |c| == 3 {
      CrossBlurWithSelf(blur, c[0]);
      CrossBlurWithSelf(blur, c[1]);
      CrossBlurWithSelf(blur, c[2]);
      LabChanMoments(blur, num.labWeights, c);
      CompareScaleWithSelf(LabArith(num.labWeights), LabChan(c));
    } else {
      CrossBlurWithSelf(blur, c[0]);
      PreprocessedMoments(blur, c[0]);
      CompareScaleWithSelf(GrayArith(), c[0]);
    }
    ScaleScoreOfOnes(num.pow, ssimMap.data, n);
  }

  lemma {:induction false} WeightedSumOfUnitScores(res: seq<ScaleResult>)
    requires forall n :: 0 <= n < |res| ==> res[n].score == 1.0
    ensures WeightedScoreSum(res) == WeightSum(res)
  {
    if |res| > 0 {
      WeightedSumOfUnitScores(res[..|res| - 1]);
    }
  }

  /**
   * Comparing a valid image with itself: every kept map is all ones with
   * score 1, and DSSIM is 0 unless the consumed weights sum to 0, in which
   * case 0/0 is NaN and `to_dssim` gives 1/EPSILON - 1.
   */
  lemma SelfComparison(num: Numerics, weights: seq<real>, saveMapsScales: u8, image: DssimImage)
    requires num.Valid() && ImageValid(num.blur, image)
    ensures ImagesComparable(num.blur, image, image, |weights|)
    ensures var (dssim, maps) := Comparison(num, weights, saveMapsScales, image, image);
      && dssim == (if Sum(weights[..Consumed(weights, image, image)]) == 0.0 then 1.0 / Epsilon - 1.0 else 0.0)
      && (forall j :: 0 <= j < |maps| ==> maps[j].ssim == 1.0)
      && (forall j, i :: 0 <= j < |maps| && 0 <= i < |maps[j].ssimMap.data| ==> maps[j].ssimMap.data[i] == 1.0)
  {
    var res := ScaleResults(num, weights, saveMapsScales, image, image);
    forall n | 0 <= n < |res|
      ensures res[n].score == 1.0
      ensures forall i :: 0 <= i < |ScaleSsimMap(num, image.scale[n], image.scale[n]).data| ==>
                ScaleSsimMap(num, image.scale[n], image.scale[n]).data[i] == 1.0
    {
      SelfScaleIsOne(num, n, weights[n], saveMapsScales, image.scale[n]);
    }
    WeightedSumOfUnitScores(res);
    ConsumedWeights(num, weights, saveMapsScales, image, image);
    KeptMapsAreFinest(num, weights, saveMapsScales, image, image);
  }

  /** With scores at most 1 and non-negative weights, `ssim_sum` never exceeds `weight_sum`, which is non-negative. */
  lemma {:induction false} WeightedScoreBounded(res: seq<ScaleResult>)
    requires forall n :: 0 <= n < |res| ==> res[n].score <= 1.0 && res[n].weight >= 0.0
    ensures 0.0 <= WeightSum(res)
    ensures WeightedScoreSum(res) <= WeightSum(res)
  {
    if |res| > 0 {
      var last := res[|res| - 1];
      WeightedScoreBounded(res[..|res| - 1]);
      MulNonNegative(1.0 - last.score, last.weight);
      assert last.score * last.weight <= last.weight;
    }
  }

  /** `to_dssim(ssim_sum / weight_sum)` is non-negative when 0 <= weight_sum and ssim_sum <= weight_sum. */
  lemma DssimOfBoundedSums(ssimSum: real, weightSum: real)
    requires 0.0 <= weightSum && ssimSum <= weightSum
    ensures ToDssim(Divide(ssimSum, weightSum)) >= 0.0
  {
    var q := Divide(ssimSum, weightSum);
    if weightSum > 0.0 {
      assert q.r * weightSum == ssimSum;
      assert q.r <= 1.0 by {
        if q.r > 1.0 {
          MulPositiveLower(q.r, weightSum, 1.0, weightSum);
        }
      }
    } else {
      assert 1.0 / Epsilon == 4503599627370496.0;
      assert q.NegInf? || q.NaN?;
    }
  }

  /** Every scored scale scores at most 1 and carries its configured weight. */
  lemma ScaleResultsBounded(num: Numerics, weights: seq<real>, saveMapsScales: u8, original: DssimImage, modified: DssimImage)
    requires BlurKeepsSize(num.blur) && ImagesComparable(num.blur, original, modified, |weights|)
    ensures var res := ScaleResults(num, weights, saveMapsScales, original, modified);
      forall n :: 0 <= n < |res| ==> res[n].score <= 1.0 && res[n].weight == weights[n]
  {
  }

  /**
   * With non-negative weights the result of `compare` is never negative:
   * every scale scores at most 1, so the weighted mean is at most 1 when the
   * weights sum to more than 0, and otherwise the quotient is NaN or -inf,
   * which `to_dssim` maps to 1/EPSILON - 1.
   */
  lemma DssimNonNegative(num: Numerics, weights: seq<real>, saveMapsScales: u8, original: DssimImage, modified: DssimImage)
    requires BlurKeepsSize(num.blur) && ImagesComparable(num.blur, original, modified, |weights|)
    requires forall i :: 0 <= i < |weights| ==> weights[i] >= 0.0
    ensures Comparison(num, weights, saveMapsScales, original, modified).0 >= 0.0
  {
    var res := ScaleResults(num, weights, saveMapsScales, original, modified);
    ScaleResultsBounded(num, weights, saveMapsScales, original, modified);
    WeightedScoreBounded(res);
    DssimOfBoundedSums(WeightedScoreSum(res), WeightSum(res));
  }

  /**
   * With the default weights, which are all positive, a valid image compared
   * with itself has DSSIM exactly 0.
   */
  lemma DefaultSelfComparison(num: Numerics, saveMapsScales: u8, image: DssimImage)
    requires num.Valid() && ImageValid(num.blur, image)
    ensures ImagesComparable(num.blur, image, image, |DefaultWeights|)
    ensures Comparison(num, DefaultWeights, saveMapsScales, image, image).0 == 0.0
  {
    SelfComparison(num, DefaultWeights, saveMapsScales, image);
    SumPositive(DefaultWeights[..Consumed(DefaultWeights, image, image)]);
  }

  // ---------------------------------------------------------------------------
  // Symmetry

  /** Swapping two levels with the same number of channels leaves their SSIM map unchanged. */
  lemma ScaleSsimMapSymmetric(num: Numerics, original: ChanScale, modified: ChanScale)
    requires BlurKeepsSize(num.blur) && ScalePair(num.blur, original, modified)
    requires |original.chan| == |modified.chan|
    ensures ScalePair(num.blur, modified, original)
    ensures ScaleSsimMap(num, modified, original) == ScaleSsimMap(num, original, modified)
  {
    ScalePairShapes(num.blur, original, modified);
    ArithCommutative(num.labWeights);
    var o, m := original.chan, modified.chan;
    CrossBlurSymmetric(num.blur, o[0], m[0]);
    if |o| == 3 {
      CrossBlurSymmetric(num.blur, o[1], m[1]);
      CrossBlurSymmetric(num.blur, o[2], m[2]);
      var cross := Fuse3(CrossBlur(num.blur, o[0], m[0]), CrossBlur(num.blur, o[1], m[1]), CrossBlur(num.blur, o[2], m[2]));
      CompareScaleSymmetric(LabArith(num.labWeights), LabChan(o), LabChan(m), cross);
    } else {
      CompareScaleSymmetric(GrayArith(), o[0], m[0], CrossBlur(num.blur, o[0], m[0]));
    }
  }

  /** The paired scales of two images have the same number of channels. */
  ghost predicate SameChannelCounts(original: DssimImage, modified: DssimImage, numWeights: nat)
  {
    forall n :: 0 <= n < numWeights && n < |original.scale| && n < |modified.scale| ==>
      |original.scale[n].chan| == |modified.scale[n].chan|
  }

  /**
   * DSSIM is symmetric: when paired scales have the same number of channels,
   * swapping the two images gives the same value and the same maps.
   */
  lemma ComparisonSymmetric(num: Numerics, weights: seq<real>, saveMapsScales: u8, original: DssimImage, modified: DssimImage)
    requires BlurKeepsSize(num.blur) && ImagesComparable(num.blur, original, modified, |weights|)
    requires SameChannelCounts(original, modified, |weights|)
    ensures ImagesComparable(num.blur, modified, original, |weights|)
    ensures Comparison(num, weights, saveMapsScales, modified, original)
      == Comparison(num, weights, saveMapsScales, original, modified)
  {
    var k := Consumed(weights, original, modified);
    assert Consumed(weights, modified, original) == k;
    forall n | 0 <= n < k
      ensures ScalesAlign(modified.scale[n], original.scale[n])
      ensures ScaleSsimMap(num, modified.scale[n], original.scale[n]) == ScaleSsimMap(num, original.scale[n], modified.scale[n])
    {
      ScaleSsimMapSymmetric(num, original.scale[n], modified.scale[n]);
    }
    var r1 := ScaleResults(num, weights, saveMapsScales, original, modified);
    var r2 := ScaleResults(num, weights, saveMapsScales, modified, original);
    assert r2 == r1;
  }

  // ---------------------------------------------------------------------------
  // The context

  /** `to_rgbaplu` / `to_rgblu`: convert every pixel of a buffer. */
  function Linearized<T, P>(convert: T -> P, pixels: seq<T>): (r: seq<P>)
    ensures |r| == |pixels|
    ensures forall i :: 0 <= i < |pixels| ==> r[i] == convert(pixels[i])
  {
    seq(|pixels|, i requires 0 <= i < |pixels| => convert(pixels[i]))
  }

  class Dssim {
    var scaleWeights: seq<real>
    var saveMapsScales: u8

    /** `Dssim::new`: the default five weights, no maps kept. */
    constructor ()
      ensures scaleWeights == DefaultWeights && saveMapsScales == 0
    {
      scaleWeights := DefaultWeights;
      saveMapsScales := 0;
    }

    /** `set_scales`: how many scales are used, and their weights. */
    method SetScales(scales: seq<real>)
      modifies this
      ensures scaleWeights == scales && saveMapsScales == old(saveMapsScales)
    {
      scaleWeights := scales;
    }

    /** `set_save_ssim_maps`: how many of the finest scales keep their maps. */
    method SetSaveSsimMaps(numScales: u8)
      modifies this
      ensures saveMapsScales == numScales && scaleWeights == old(scaleWeights)
    {
      saveMapsScales := numScales;
    }

    /**
     * `create_image_rgba`: no image when the buffer holds more pixels than
     * width*height; otherwise the pyramid of the linearised buffer.
     */
    method CreateImageRgba(blur: Blur, ops: ImageOps<Rgbaplu>, toRgbaplu: Rgba8 -> Rgbaplu,
                           bitmap: seq<Rgba8>, width: nat, height: nat) returns (r: Option<DssimImage>)
      requires BlurKeepsSize(blur) && ops.Valid()
      requires width * height >= |bitmap| ==> width > 0 && height > 0
      ensures r.None? <==> width * height < |bitmap|
      ensures r.Some? ==> r.value == DssimImage(Pyramid(blur, ops, |scaleWeights|,
                                                         Bitmap(Linearized(toRgbaplu, bitmap), width, height)))
    {
      if width * height < |bitmap| {
        return None;
      }
      var img := Bitmap(Linearized(toRgbaplu, bitmap), width, height);
      r := CreateImage(blur, ops, img);
    }

    /**
     * `create_image_rgb`: no image when the buffer holds more pixels than
     * width*height; otherwise the pyramid of the linearised buffer.
     */
    method CreateImageRgb(blur: Blur, ops: ImageOps<Rgblu>, toRgblu: Rgb8 -> Rgblu,
                          bitmap: seq<Rgb8>, width: nat, height: nat) returns (r: Option<DssimImage>)
      requires BlurKeepsSize(blur) && ops.Valid()
      requires width * height >= |bitmap| ==> width > 0 && height > 0
      ensures r.None? <==> width * height < |bitmap|
      ensures r.Some? ==> r.value == DssimImage(Pyramid(blur, ops, |scaleWeights|,
                                                         Bitmap(Linearized(toRgblu, bitmap), width, height)))
    {
      if width * height < |bitmap| {
        return None;
      }
      var img := Bitmap(Linearized(toRgblu, bitmap), width, height);
      r := CreateImage(blur, ops, img);
    }

    /**
     * `create_image`: one level per configured weight plus the full
     * resolution, fewer if downsampling stops early; full resolution first.
     */
    method CreateImage<P(!new)>(blur: Blur, ops: ImageOps<P>, srcImg: Bitmap<P>) returns (r: Option<DssimImage>)
      requires BlurKeepsSize(blur) && ops.Valid()
      requires srcImg.width > 0 && srcImg.height > 0
      ensures r == Some(DssimImage(Pyramid(blur, ops, |scaleWeights|, srcImg)))
    {
      var numScales := |scaleWeights|;
      var scale := MakeScalesRecursive(blur, ops, numScales, srcImg, []);
      assert scale == DepthFirst(blur, ops, numScales, srcImg);
      scale := Reversed(scale);
      r := Some(DssimImage(scale));
    }

    /** The first task of the join: `to_lab`, then a preprocessed channel per plane. */
    static method ConvertLevel<P(!new)>(blur: Blur, ops: ImageOps<P>, image: Bitmap<P>) returns (level: ChanScale)
      requires BlurKeepsSize(blur) && ops.Valid()
      requires image.width > 0 && image.height > 0
      ensures level == Level(blur, ops, image)
    {
      var lab := ops.toLab(image);
      assert LabPlanes(lab, image.width, image.height);
      var chans: seq<Chan<real>> := [];
      for n := 0 to |lab|
        invariant |chans| == n
        invariant forall k :: 0 <= k < n ==> chans[k] == Preprocessed(blur, lab[k], k > 0)
      {
        var ch := new DssimChan(lab[n], n > 0);
        ch.Preprocess(blur);
        chans := chans + [ch.Value()];
      }
      level := ChanScale(chans);
    }

    /**
     * `make_scales_recursive`: the deeper levels are pushed first (while
     * scales are left and downsampling succeeds), then this level.
     */
    static method MakeScalesRecursive<P(!new)>(blur: Blur, ops: ImageOps<P>, scalesLeft: nat, image: Bitmap<P>,
                                             scales: seq<ChanScale>) returns (result: seq<ChanScale>)
      requires BlurKeepsSize(blur) && ops.Valid()
      requires image.width > 0 && image.height > 0
      ensures result == scales + DepthFirst(blur, ops, scalesLeft, image)
      decreases scalesLeft
    {
      var chan := ConvertLevel(blur, ops, image);
      result := scales;
      if scalesLeft > 0 {
        var down := ops.downsample(image);
        if down.Some? {
          result := MakeScalesRecursive(blur, ops, scalesLeft - 1, down.value, result);
        }
      }
      result := result + [chan];
    }

    /** The body of the closure `compare` maps over the scales. */
    static method CompareOneScale(num: Numerics, n: nat, weight: real, saveMapsScales: u8,
                                  original: ChanScale, modified: ChanScale) returns (r: ScaleResult)
      requires BlurKeepsSize(num.blur) && ScalePair(num.blur, original, modified)
      ensures r == ScaleOutcome(num, n, weight, saveMapsScales, original, modified)
    {
      ScalePairShapes(num.blur, original, modified);
      var ssimMap: Plane;
      if |original.chan| == 3 {
        var originalLab := LabChan(original.chan);
        var img1Img2Blur := Img1Img2BlurLab(num.blur, original.chan, modified.chan);
        var modifiedLab := LabChan(modified.chan);
        ssimMap := CompareScale(LabArith(num.labWeights), originalLab, modifiedLab, img1Img2Blur);
      } else {
        var img1Img2Blur := Img1Img2Blur(num.blur, original.chan[0], modified.chan[0]);
        ssimMap := CompareScale(GrayArith(), original.chan[0], modified.chan[0], img1Img2Blur);
      }
      var score := ScaleScore(num.pow, ssimMap.data, n);
      var kept := if saveMapsScales as int > n then Some(SsimMap(ssimMap, score)) else None;
      r := ScaleResult(score, weight, kept);
    }

    /**
     * The parallel map of `compare`: weight n, scale n of the modified and of
     * the original image, for every n the zip reaches, scored in order.
     */
    static method ScoreScales(num: Numerics, weights: seq<real>, saveMapsScales: u8,
                              original: DssimImage, modified: DssimImage) returns (res: seq<ScaleResult>)
      requires BlurKeepsSize(num.blur) && ImagesComparable(num.blur, original, modified, |weights|)
      ensures res == ScaleResults(num, weights, saveMapsScales, original, modified)
    {
      var k := Consumed(weights, original, modified);
      res := [];
      for n := 0 to k
        invariant |res| == n
        invariant forall j :: 0 <= j < n ==> ScaleResultAt(num, weights, saveMapsScales, original, modified, j, res[j])
      {
        ScalePairAt(num, weights, original, modified, n);
        var r := CompareOneScale(num, n, weights[n], saveMapsScales, original.scale[n], modified.scale[n]);
        ScaleResultsExtend(num, weights, saveMapsScales, original, modified, res, r);
        res := res + [r];
      }
      ScaleResultsFromOutcomes(num, weights, saveMapsScales, original, modified, res);
    }

    /**
     * The fold at the end of `compare`: the sum of score*weight, the sum of
     * the weights, and the kept maps in scale order.
     */
    static method Accumulate(res: seq<ScaleResult>) returns (ssimSum: real, weightSum: real, maps: seq<SsimMap>)
      ensures ssimSum == WeightedScoreSum(res) && weightSum == WeightSum(res) && maps == KeptMaps(res)
    {
      ssimSum, weightSum := 0.0, 0.0;
      maps := [];
      for i := 0 to |res|
        invariant ssimSum == WeightedScoreSum(res[..i])
        invariant weightSum == WeightSum(res[..i])
        invariant maps == KeptMaps(res[..i])
      {
        assert res[..i + 1][..i] == res[..i];
        ssimSum := ssimSum + res[i].score * res[i].weight;
        weightSum := weightSum + res[i].weight;
        if res[i].kept.Some? {
          maps := maps + [res[i].kept.value];
        }
      }
      assert res[..|res|] == res;
    }

    /**
     * `compare`: scores every scale the weights reach, then accumulates
     * score*weight, the weights and the kept maps, and converts to DSSIM.
     */
    method Compare(num: Numerics, original: DssimImage, modified: DssimImage) returns (val: real, maps: seq<SsimMap>)
      requires BlurKeepsSize(num.blur) && ImagesComparable(num.blur, original, modified, |scaleWeights|)
      ensures (val, maps) == Comparison(num, scaleWeights, saveMapsScales, original, modified)
    {
      var res := ScoreScales(num, scaleWeights, saveMapsScales, original, modified);
      var ssimSum, weightSum;
      ssimSum, weightSum, maps := Accumulate(res);
      val := ToDssim(Divide(ssimSum, weightSum));
    }
  }

  /** The free function `new()`: a context with the defaults. */
  method New() returns (d: Dssim)
    ensures fresh(d) && d.scaleWeights == DefaultWeights && d.saveMapsScales == 0
  {
    d := new Dssim();
  }
}
