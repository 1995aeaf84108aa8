/**
 * The SSIM formula of one scale (`compare_scale`), the per-scale score, and
 * the conversion of a weighted SSIM into DSSIM (`to_dssim`).
 */
module Ssim {
  import opened Primitives
  import opened Reals
  import opened Channels

  /** Stabilising constants c1 = 0.01^2 and c2 = 0.03^2. */
  const C1: real := 0.01 * 0.01
  const C2: real := 0.03 * 0.03

  /** `f64::EPSILON` = 2^-52. */
  const Epsilon: real := 1.0 / 4503599627370496.0

  /**
   * What `compare_scale` needs of its sample type L: `Mul`, `Sub` and the
   * conversion `f32: From<L>` that reduces a sample to one number.
   */
  datatype Arith<!L> = Arith(mul: (L, L) -> L, sub: (L, L) -> L, scalar: L -> real)

  /** Plain samples (`f32`). */
  function GrayArith(): Arith<real>
  {
    Arith((x: real, y: real) => x * y, (x: real, y: real) => x - y, (x: real) => x)
  }

  /** L*a*b* samples: componentwise `Mul` and `Sub`, reduced by a weighted sum. */
  function LabArith(w: Lab): Arith<Lab>
  {
    Arith((x: Lab, y: Lab) => Lab(x.l * y.l, x.a * y.a, x.b * y.b),
          (x: Lab, y: Lab) => Lab(x.l - y.l, x.a - y.a, x.b - y.b),
          (x: Lab) => w.l * x.l + w.a * x.a + w.b * x.b)
  }

  /**
   * Real division; a zero denominator (infinity or NaN in `f32`) gives 0 here.
   * DenominatorPositive shows it does not arise for preprocessed channels.
   */
  function Quotient(n: real, d: real): real
  {
    if d == 0.0 then 0.0 else n / d
  }

  /** Denominator of the SSIM formula at one pixel. */
  function Denominator<L>(ar: Arith<L>, mu1: L, mu2: L, sq1: L, sq2: L): real
  {
    var mu1mu1, mu2mu2 := ar.mul(mu1, mu1), ar.mul(mu2, mu2);
    (ar.scalar(mu1mu1) + ar.scalar(mu2mu2) + C1)
      * (ar.scalar(ar.sub(sq1, mu1mu1)) + ar.scalar(ar.sub(sq2, mu2mu2)) + C2)
  }

  /** SSIM at one pixel from the local statistics of the two images. */
  function PixelSsim<L>(ar: Arith<L>, cross: L, mu1: L, mu2: L, sq1: L, sq2: L): (ssim: real)
    ensures Denominator(ar, mu1, mu2, sq1, sq2) == 0.0 ==> ssim == 0.0
    ensures Denominator(ar, mu1, mu2, sq1, sq2) != 0.0 ==>
      ssim * Denominator(ar, mu1, mu2, sq1, sq2)
        == (2.0 * ar.scalar(ar.mul(mu1, mu2)) + C1) * (2.0 * ar.scalar(ar.sub(cross, ar.mul(mu1, mu2))) + C2)
  {
    var mu1mu2 := ar.mul(mu1, mu2);
    var sigma12 := ar.scalar(ar.sub(cross, mu1mu2));
    Quotient((2.0 * ar.scalar(mu1mu2) + C1) * (2.0 * sigma12 + C2), Denominator(ar, mu1, mu2, sq1, sq2))
  }

  /** Local mean squared and local variance are both non-negative at a pixel. */
  ghost predicate NonNegativeMoments<L>(ar: Arith<L>, mu: L, sq: L)
  {
    ar.scalar(ar.mul(mu, mu)) >= 0.0 && ar.scalar(ar.sub(sq, ar.mul(mu, mu))) >= 0.0
  }

  /** ... and so at every pixel of a channel. */
  ghost predicate ChanMoments<L>(ar: Arith<L>, c: Chan<L>)
  {
    && |c.imgSqBlur| == |c.mu|
    && forall i :: 0 <= i < |c.mu| ==> NonNegativeMoments(ar, c.mu[i], c.imgSqBlur[i])
  }

  /** With non-negative moments on both sides, the denominator is at least c1*c2. */
  lemma DenominatorPositive<L>(ar: Arith<L>, mu1: L, mu2: L, sq1: L, sq2: L)
    requires NonNegativeMoments(ar, mu1, sq1) && NonNegativeMoments(ar, mu2, sq2)
    ensures Denominator(ar, mu1, mu2, sq1, sq2) >= C1 * C2 > 0.0
  {
    var mu1mu1, mu2mu2 := ar.mul(mu1, mu1), ar.mul(mu2, mu2);
    var luminance := ar.scalar(mu1mu1) + ar.scalar(mu2mu2) + C1;
    var contrast := ar.scalar(ar.sub(sq1, mu1mu1)) + ar.scalar(ar.sub(sq2, mu2mu2)) + C2;
    assert C1 == 0.0001 && C2 == 0.0009;
    assert luminance >= C1 && contrast >= C2;
    MulPositiveLower(luminance, contrast, C1, C2);
    assert Denominator(ar, mu1, mu2, sq1, sq2) == luminance * contrast;
  }

  /**
   * Identical statistics (mu1 = mu2, sq1 = sq2 = cross) with a non-zero
   * denominator give SSIM exactly 1.
   */
  lemma PixelSsimOfIdentical<L>(ar: Arith<L>, mu: L, sq: L)
    requires Denominator(ar, mu, mu, sq, sq) != 0.0
    ensures PixelSsim(ar, sq, mu, mu, sq, sq) == 1.0
  {
    var m, s := ar.scalar(ar.mul(mu, mu)), ar.scalar(ar.sub(sq, ar.mul(mu, mu)));
    var d := Denominator(ar, mu, mu, sq, sq);
    assert d == (m + m + C1) * (s + s + C2);
    var n := (2.0 * m + C1) * (2.0 * s + C2);
    assert n == d;
    assert n / d == 1.0 by {
      assert n / d * d == n;
    }
    assert PixelSsim(ar, sq, mu, mu, sq, sq) == Quotient(n, d);
  }

  /** Every plain channel that preprocess leaves has non-negative moments. */
  lemma PreprocessedMoments(blur: Blur, c: Chan<real>)
    requires BlurKeepsSize(blur) && BlurAverages(blur)
    requires IsPreprocessed(blur, c)
    ensures ChanMoments(GrayArith(), c)
  {
    forall i | 0 <= i < |c.mu|
      ensures NonNegativeMoments(GrayArith(), c.mu[i], c.imgSqBlur[i])
    {
      PreprocessedVariance(blur, c, i);
    }
  }

  /**
   * Fusing three preprocessed channels keeps the moments non-negative when
   * the L*a*b* reduction weights are non-negative.
   */
  lemma {:induction false} LabChanMoments(blur: Blur, w: Lab, chan: seq<Chan<real>>)
    requires BlurKeepsSize(blur) && BlurAverages(blur)
    requires w.l >= 0.0 && w.a >= 0.0 && w.b >= 0.0
    requires |chan| >= 3
    requires forall k :: 0 <= k < 3 ==> IsPreprocessed(blur, chan[k])
    requires chan[1].width == chan[0].width && chan[2].width == chan[0].width
    requires chan[1].height == chan[0].height && chan[2].height == chan[0].height
    ensures |LabChan(chan).mu| == chan[0].width * chan[0].height
    ensures ChanMoments(LabArith(w), LabChan(chan))
  {
    var r := LabChan(chan);
    var ar := LabArith(w);
    forall i | 0 <= i < |r.mu|
      ensures NonNegativeMoments(ar, r.mu[i], r.imgSqBlur[i])
    {
      PreprocessedVariance(blur, chan[0], i);
      PreprocessedVariance(blur, chan[1], i);
      PreprocessedVariance(blur, chan[2], i);
      LabChanAt(chan, i);
      var m, s := r.mu[i], r.imgSqBlur[i];
      MulNonNegative(w.l, m.l * m.l);
      MulNonNegative(w.a, m.a * m.a);
      MulNonNegative(w.b, m.b * m.b);
      MulNonNegative(w.l, s.l - m.l * m.l);
      MulNonNegative(w.a, s.a - m.a * m.a);
      MulNonNegative(w.b, s.b - m.b * m.b);
    }
  }

  /** The statistics of two channels line up entry by entry (`zip_eq`). */
  ghost predicate Comparable<L>(original: Chan<L>, modified: Chan<L>, img1Img2Blur: seq<L>)
  {
    && original.width == modified.width && original.height == modified.height
    && |original.mu| == |modified.mu| == |original.imgSqBlur| == |modified.imgSqBlur| == |img1Img2Blur|
  }

  /** `compare_scale`: one SSIM value per pixel, as a plane of the channels' size. */
  function CompareScale<L>(ar: Arith<L>, original: Chan<L>, modified: Chan<L>, img1Img2Blur: seq<L>): (ssimMap: Plane)
    requires Comparable(original, modified, img1Img2Blur)
    ensures ssimMap.width == original.width && ssimMap.height == original.height
    ensures |ssimMap.data| == |original.mu|
  {
    var data := seq(|img1Img2Blur|, i requires 0 <= i < |img1Img2Blur| =>
      PixelSsim(ar, img1Img2Blur[i], original.mu[i], modified.mu[i], original.imgSqBlur[i], modified.imgSqBlur[i]));
    Plane(data, original.width, original.height)
  }

  /**
   * Comparing a channel with itself, its `img_sq_blur` standing in for the
   * cross-product plane, gives SSIM 1 at every pixel when its moments are
   * non-negative.
   */
  lemma CompareScaleWithSelf<L>(ar: Arith<L>, c: Chan<L>)
    requires ChanMoments(ar, c)
    ensures Comparable(c, c, c.imgSqBlur)
    ensures forall i :: 0 <= i < |CompareScale(ar, c, c, c.imgSqBlur).data| ==>
      CompareScale(ar, c, c, c.imgSqBlur).data[i] == 1.0
  {
    var ssimMap := CompareScale(ar, c, c, c.imgSqBlur);
    forall i | 0 <= i < |ssimMap.data|
      ensures ssimMap.data[i] == 1.0
    {
      DenominatorPositive(ar, c.mu[i], c.mu[i], c.imgSqBlur[i], c.imgSqBlur[i]);
      PixelSsimOfIdentical(ar, c.mu[i], c.imgSqBlur[i]);
    }
  }

  /** `Mul` on the sample type commutes. */
  ghost predicate Commutative<L(!new)>(ar: Arith<L>)
  {
    forall x: L, y: L :: ar.mul(x, y) == ar.mul(y, x)
  }

  /** Both sample types used by the comparison have a commutative `Mul`. */
  lemma ArithCommutative(w: Lab)
    ensures Commutative(GrayArith()) && Commutative(LabArith(w))
  {
  }

  /**
   * SSIM is symmetric: swapping the two channels (the cross-product plane is
   * shared) gives the same map.
   */
  lemma CompareScaleSymmetric<L(!new)>(ar: Arith<L>, original: Chan<L>, modified: Chan<L>, img1Img2Blur: seq<L>)
    requires Commutative(ar)
    requires Comparable(original, modified, img1Img2Blur)
    ensures Comparable(modified, original, img1Img2Blur)
    ensures CompareScale(ar, modified, original, img1Img2Blur) == CompareScale(ar, original, modified, img1Img2Blur)
  {
    var m1 := CompareScale(ar, original, modified, img1Img2Blur);
    var m2 := CompareScale(ar, modified, original, img1Img2Blur);
    forall i | 0 <= i < |img1Img2Blur|
      ensures m2.data[i] == m1.data[i]
    {
      var mu1, mu2 := original.mu[i], modified.mu[i];
      assert ar.mul(mu1, mu2) == ar.mul(mu2, mu1);
    }
    assert m2.data == m1.data;
  }

  /** |avg - x| for every entry x of the map. */
  function AbsDeviations(avg: real, ssimMap: seq<real>): (r: seq<real>)
    ensures |r| == |ssimMap|
    ensures forall i :: 0 <= i < |ssimMap| ==> r[i] == Abs(avg - ssimMap[i])
  {
    seq(|ssimMap|, i requires 0 <= i < |ssimMap| => Abs(avg - ssimMap[i]))
  }

  /**
   * The score of scale n: one minus the mean absolute deviation of the map
   * from its mean, floored at 0 and raised to 0.5^n. It never exceeds 1.
   */
  function ScaleScore(pow: (real, real) -> real, ssimMap: seq<real>, n: nat): (score: real)
    requires |ssimMap| > 0
    ensures score <= 1.0
  {
    var len := |ssimMap| as real;
    var avg := pow(Max(Sum(ssimMap) / len, 0.0), pow(0.5, n as real));
    var deviations := AbsDeviations(avg, ssimMap);
    SumNonNegative(deviations);
    1.0 - Sum(deviations) / len
  }

  /** A map of all ones scores 1 on every scale, given powf(1, e) = 1. */
  lemma ScaleScoreOfOnes(pow: (real, real) -> real, ssimMap: seq<real>, n: nat)
    requires forall e: real :: pow(1.0, e) == 1.0
    requires |ssimMap| > 0
    requires forall i :: 0 <= i < |ssimMap| ==> ssimMap[i] == 1.0
    ensures ScaleScore(pow, ssimMap, n) == 1.0
  {
    var len := |ssimMap| as real;
    SumConstant(ssimMap, 1.0);
    assert Sum(ssimMap) / len == 1.0;
    assert Max(1.0, 0.0) == 1.0;
    var exponent := pow(0.5, n as real);
    assert pow(1.0, exponent) == 1.0;
    var deviations := AbsDeviations(1.0, ssimMap);
    SumConstant(deviations, 0.0);
  }

  /** An `f64` quotient: a finite real, an infinity or NaN. */
  datatype Ext = Finite(r: real) | PosInf | NegInf | NaN

  /**
   * `n / d` in `f64` for a divisor that is a sum starting at +0.0, which is
   * never -0.0: x/0 is +inf, -inf or NaN by the sign of x.
   */
  function Divide(n: real, d: real): (q: Ext)
    ensures d != 0.0 <==> q.Finite?
    ensures q.Finite? ==> q.r * d == n
  {
    if d != 0.0 then Finite(n / d)
    else if n > 0.0 then PosInf
    else if n < 0.0 then NegInf
    else NaN
  }

  /**
   * `to_dssim`: 1 / max(ssim, EPSILON) - 1. `f64::max` returns the other
   * operand when one is NaN, so NaN and -inf map to 1/EPSILON - 1.
   */
  function ToDssim(ssim: Ext): (d: real)
    ensures -1.0 <= d <= 1.0 / Epsilon - 1.0
    ensures ssim.Finite? ==> (d == 0.0 <==> ssim.r == 1.0)
    ensures ssim.Finite? ==> (d >= 0.0 <==> ssim.r <= 1.0)
  {
    match ssim
    case Finite(s) =>
      var m := Max(s, Epsilon);
      assert 1.0 / m <= 1.0 / Epsilon by {
        assert 1.0 / m * m == 1.0;
        assert 1.0 / Epsilon * Epsilon == 1.0;
      }
      1.0 / m - 1.0
    case PosInf => -1.0
    case NegInf => 1.0 / Epsilon - 1.0
    case NaN => 1.0 / Epsilon - 1.0
  }
}
