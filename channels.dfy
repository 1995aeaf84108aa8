/**
 * Per-channel statistics of one scale (`DssimChan`): the local mean `mu` and
 * the local mean of squares `img_sq_blur`, the cross-product plane of two
 * images, and the fusion of three channels into L*a*b* triples (`lab_chan`).
 */
module Channels {
  import opened Primitives
  import opened Reals

  /**
   * The value of a channel once it is built and preprocessed; an image never
   * changes after creation, so its scales hold these values.
   */
  datatype Chan<L> = Chan(width: nat, height: nat, img: Option<seq<L>>, mu: seq<L>, imgSqBlur: seq<L>, isChroma: bool)

  /** One level of the pyramid (`DssimChanScale`). */
  datatype ChanScale = ChanScale(chan: seq<Chan<real>>)

  /** What `DssimChan::new` followed by `preprocess` makes of a plane. */
  function Preprocessed(blur: Blur, plane: Plane, isChroma: bool): Chan<real>
  {
    var w, h := plane.width, plane.height;
    var img := if isChroma then blur(plane.data, w, h) else plane.data;
    Chan(w, h, Some(img), blur(img, w, h), blur(Squares(img), w, h), isChroma)
  }

  /**
   * A preprocessed channel: positive size, a stored plane of width*height
   * samples, and statistics taken from that (possibly smoothed) plane.
   */
  ghost predicate IsPreprocessed(blur: Blur, c: Chan<real>)
  {
    && c.width > 0 && c.height > 0
    && c.img.Some? && |c.img.value| == c.width * c.height
    && c.mu == blur(c.img.value, c.width, c.height)
    && c.imgSqBlur == blur(Squares(c.img.value), c.width, c.height)
  }

  /** Preprocessing a plane of positive size yields a preprocessed channel of that size. */
  lemma PreprocessedIsPreprocessed(blur: Blur, plane: Plane, isChroma: bool)
    requires BlurKeepsSize(blur)
    requires plane.width > 0 && plane.height > 0 && |plane.data| == plane.width * plane.height
    ensures var c := Preprocessed(blur, plane, isChroma);
      && IsPreprocessed(blur, c)
      && c.width == plane.width && c.height == plane.height && c.isChroma == isChroma
      && |c.mu| == |c.imgSqBlur| == plane.width * plane.height
  {
  }

  /**
   * Under an averaging blur the local variance of a preprocessed channel is
   * never negative: img_sq_blur[i] >= mu[i]^2.
   */
  lemma PreprocessedVariance(blur: Blur, c: Chan<real>, i: int)
    requires BlurKeepsSize(blur) && BlurAverages(blur)
    requires IsPreprocessed(blur, c)
    requires 0 <= i < |c.mu|
    ensures |c.imgSqBlur| == |c.mu| == c.width * c.height
    ensures c.mu[i] * c.mu[i] <= c.imgSqBlur[i]
  {
    var s := c.img.value;
    assert c.mu[i] == blur(s, c.width, c.height)[i];
  }

  /** The channel object that `preprocess` updates in place. */
  class DssimChan {
    var width: nat
    var height: nat
    var img: Option<seq<real>>
    var mu: seq<real>
    var imgSqBlur: seq<real>
    var isChroma: bool

    function Value(): Chan<real>
      reads this
    {
      Chan(width, height, img, mu, imgSqBlur, isChroma)
    }

    /** `DssimChan::new`: keeps the plane, statistics still empty. */
    constructor (bitmap: Plane, isChroma: bool)
      ensures Value() == Chan(bitmap.width, bitmap.height, Some(bitmap.data), [], [], isChroma)
    {
      width := bitmap.width;
      height := bitmap.height;
      mu := [];
      img := Some(bitmap.data);
      imgSqBlur := [];
      this.isChroma := isChroma;
    }

    /**
     * `preprocess`: a chroma plane is blurred in place first; then `mu` is the
     * blur of the plane and `img_sq_blur` the blur of its pointwise squares.
     */
    method Preprocess(blur: Blur)
      requires BlurKeepsSize(blur)
      requires width > 0 && height > 0
      requires img.Some? && |img.value| == width * height
      modifies this
      ensures Value() == Preprocessed(blur, Plane(old(img.value), width, height), isChroma)
      ensures width == old(width) && height == old(height) && isChroma == old(isChroma)
      ensures IsPreprocessed(blur, Value())
    {
      var w, h := width, height;
      var plane := img.value;
      if isChroma {
        plane := blur(plane, w, h);
        img := Some(plane);
      }
      mu := blur(plane, w, h);
      imgSqBlur := Squares(plane);
      imgSqBlur := blur(imgSqBlur, w, h);
    }
  }

  /** Pointwise products of two planes of equal size. */
  function Products(a: seq<real>, b: seq<real>): (r: seq<real>)
    requires |a| == |b|
    ensures |r| == |a|
    ensures forall i :: 0 <= i < |a| ==> r[i] == a[i] * b[i]
  {
    seq(|a|, i requires 0 <= i < |a| => a[i] * b[i])
  }

  /** The product of a plane with itself is its plane of squares. */
  lemma ProductsWithSelf(a: seq<real>)
    ensures Products(a, a) == Squares(a)
  {
  }

  /** Both channels hold planes of one and the same size. */
  ghost predicate SameShape(original: Chan<real>, modified: Chan<real>)
  {
    && original.img.Some? && modified.img.Some?
    && original.width == modified.width && original.height == modified.height
    && |original.img.value| == |modified.img.value| == modified.width * modified.height
  }

  /** The blurred cross-product plane of two channels. */
  function CrossBlur(blur: Blur, original: Chan<real>, modified: Chan<real>): seq<real>
    requires SameShape(original, modified)
  {
    blur(Products(original.img.value, modified.img.value), modified.width, modified.height)
  }

  /** The cross-product plane of a preprocessed channel with itself is its `img_sq_blur`. */
  lemma CrossBlurWithSelf(blur: Blur, c: Chan<real>)
    requires IsPreprocessed(blur, c)
    ensures SameShape(c, c) && CrossBlur(blur, c, c) == c.imgSqBlur
  {
    ProductsWithSelf(c.img.value);
  }

  /** The cross-product plane does not depend on which channel comes first. */
  lemma CrossBlurSymmetric(blur: Blur, original: Chan<real>, modified: Chan<real>)
    requires SameShape(original, modified)
    ensures SameShape(modified, original)
    ensures CrossBlur(blur, modified, original) == CrossBlur(blur, original, modified)
  {
    assert Products(modified.img.value, original.img.value) == Products(original.img.value, modified.img.value);
  }

  /** Row y of a plane of height h ends within the plane. */
  lemma RowFits(y: nat, w: nat, h: nat)
    requires y < h
    ensures y * w + w <= w * h
  {
    assert y * w + w == (y + 1) * w;
    MulNonNegative((h - y - 1) as real, w as real);
    assert (h - y - 1) * w >= 0;
    assert h * w - (y + 1) * w == (h - y - 1) * w;
  }

  /**
   * `img1_img2_blur` for one channel: products of the two planes pushed row by
   * row, pixel by pixel, then blurred in place.
   */
  method Img1Img2Blur(blur: Blur, original: Chan<real>, modified: Chan<real>) returns (out: seq<real>)
    requires BlurKeepsSize(blur)
    requires SameShape(original, modified)
    ensures out == CrossBlur(blur, original, modified)
    ensures |out| == modified.width * modified.height
  {
    var width, height := modified.width, modified.height;
    var a, b := original.img.value, modified.img.value;
    ghost var all := Products(a, b);
    out := [];
    var y, start := 0, 0;
    while y < height
      invariant 0 <= y <= height
      invariant start == y * width <= |all|
      invariant out == all[..start]
    {
      RowFits(y, width, height);
      var x := 0;
      while x < width
        invariant 0 <= x <= width
        invariant start + width <= |all|
        invariant out == all[..start + x]
      {
        assert all[..start + x + 1] == all[..start + x] + [all[start + x]];
        assert all[start + x] == a[start + x] * b[start + x];
        out := out + [a[start + x] * b[start + x]];
        x := x + 1;
      }
      y, start := y + 1, start + width;
    }
    assert out == all;
    out := blur(out, width, height);
  }

  /** `multizip` of three sequences into L*a*b* triples; it stops at the shortest. */
  function Fuse3(l: seq<real>, a: seq<real>, b: seq<real>): (r: seq<Lab>)
    ensures |r| == Min(|l|, Min(|a|, |b|))
    ensures forall i :: 0 <= i < |r| ==> r[i] == Lab(l[i], a[i], b[i])
  {
    seq(Min(|l|, Min(|a|, |b|)), i requires 0 <= i < Min(|l|, Min(|a|, |b|)) => Lab(l[i], a[i], b[i]))
  }

  /**
   * `lab_chan`: fuses the L, a and b channels of a scale pointwise; the size
   * is L's, and the fused channel is not chroma.
   */
  function LabChan(chan: seq<Chan<real>>): (r: Chan<Lab>)
    requires |chan| >= 3
    requires chan[0].width == chan[1].width && chan[2].width == chan[1].width
    ensures r.width == chan[0].width && r.height == chan[0].height && !r.isChroma
    ensures r.img.Some? <==> chan[0].img.Some? && chan[1].img.Some? && chan[2].img.Some?
    ensures |r.mu| == Min(|chan[0].mu|, Min(|chan[1].mu|, |chan[2].mu|))
    ensures |r.imgSqBlur| == Min(|chan[0].imgSqBlur|, Min(|chan[1].imgSqBlur|, |chan[2].imgSqBlur|))
    ensures forall i :: 0 <= i < |r.mu| ==> r.mu[i] == Lab(chan[0].mu[i], chan[1].mu[i], chan[2].mu[i])
    ensures forall i :: 0 <= i < |r.imgSqBlur| ==>
      r.imgSqBlur[i] == Lab(chan[0].imgSqBlur[i], chan[1].imgSqBlur[i], chan[2].imgSqBlur[i])
  {
    var l, a, b := chan[0], chan[1], chan[2];
    Chan(l.width, l.height,
         if l.img.Some? && a.img.Some? && b.img.Some? then Some(Fuse3(l.img.value, a.img.value, b.img.value)) else None,
         Fuse3(l.mu, a.mu, b.mu),
         Fuse3(l.imgSqBlur, a.imgSqBlur, b.imgSqBlur),
         false)
  }

  /**
   * Entry i of the fused statistics is the triple of the three channels'
   * entries i, and the size is that of the L channel.
   */
  lemma LabChanAt(chan: seq<Chan<real>>, i: int)
    requires |chan| >= 3
    requires chan[0].width == chan[1].width && chan[2].width == chan[1].width
    requires 0 <= i < |chan[0].mu| == |chan[1].mu| == |chan[2].mu|
    requires |chan[0].imgSqBlur| == |chan[1].imgSqBlur| == |chan[2].imgSqBlur| == |chan[0].mu|
    ensures var r := LabChan(chan);
      && r.width == chan[0].width && r.height == chan[0].height && !r.isChroma
      && |r.mu| == |r.imgSqBlur| == |chan[0].mu|
      && r.mu[i] == Lab(chan[0].mu[i], chan[1].mu[i], chan[2].mu[i])
      && r.imgSqBlur[i] == Lab(chan[0].imgSqBlur[i], chan[1].imgSqBlur[i], chan[2].imgSqBlur[i])
  {
  }

  /** The channel-wise pairs of two scales all have the same shape. */
  ghost predicate PairwiseSameShape(original: seq<Chan<real>>, modified: seq<Chan<real>>)
  {
    forall k :: 0 <= k < |original| && k < |modified| ==> SameShape(original[k], modified[k])
  }

  /**
   * `img1_img2_blur` for a colour scale: the cross-product plane of each pair
   * of channels, fused into L*a*b* triples.
   */
  method Img1Img2BlurLab(blur: Blur, original: seq<Chan<real>>, modified: seq<Chan<real>>) returns (out: seq<Lab>)
    requires BlurKeepsSize(blur)
    requires |original| >= 3 && |modified| >= 3
    requires PairwiseSameShape(original, modified)
    ensures out == Fuse3(CrossBlur(blur, original[0], modified[0]),
                         CrossBlur(blur, original[1], modified[1]),
                         CrossBlur(blur, original[2], modified[2]))
  {
    var n := Min(|original|, |modified|);
    var blurred: seq<seq<real>> := [];
    for k := 0 to n
      invariant |blurred| == k
      invariant forall j :: 0 <= j < k ==> blurred[j] == CrossBlur(blur, original[j], modified[j])
    {
      var plane := Img1Img2Blur(blur, original[k], modified[k]);
      blurred := blurred + [plane];
    }
    out := Fuse3(blurred[0], blurred[1], blurred[2]);
  }
}
