# DSSIM comparison engine in Dafny

This project models the core of `dssim-core`: the `Dssim` comparison context,
the multi-scale `DssimImage` it builds, and `compare`, which computes a
structural-dissimilarity value (DSSIM) and optional per-scale SSIM maps.

- `create_image_rgba` and `create_image_rgb` reject a buffer holding more
  pixels than width*height. Otherwise they linearise the pixels and build a
  pyramid.
- Each pyramid level is the image converted to L\*a\*b\* planes (1 for gray,
  3 for colour). Every plane is preprocessed into a `DssimChan`.
  - The a and b planes are chroma and are blurred first.
  - `mu` is the blurred plane.
  - `img_sq_blur` is the blurred plane of squares.
- `make_scales_recursive` descends depth-first: deeper levels first, while
  scales are left and downsampling succeeds. `create_image` reverses the
  result, so the full resolution comes first.
- `compare` pairs weight n with scale n of both images, stopping at the
  shortest of the three. For each pair it:
  - builds the blurred cross-product plane `img1_img2_blur`;
  - fuses colour scales into L\*a\*b\* triples (`lab_chan`);
  - computes the SSIM formula per pixel (`compare_scale`);
  - scores the map as one minus the mean absolute deviation from its
    floored mean, raised to 0.5^n.
- It then sums score*weight and the weights, keeps the maps of the first
  `save_maps_scales` scales, and returns `to_dssim(ssim_sum / weight_sum)`.

## Files

- `reals.dfy` (`Reals`): left-fold sums, reversal, real helpers.
- `primitives.dfy` (`Primitives`): pixel and plane types. Also the
  collaborators the core calls but does not define: the blur, `to_lab`,
  downsampling and `powf`. These are function values, each bundle with a
  validity predicate that states only what the core relies on.
  - The blur keeps sizes and averages: blurred squares dominate the squared
    blur.
  - `to_lab` yields 1 or 3 planes of the image's size.
  - Downsampling keeps a positive size.
  - `powf(1, e) = 1`.
  - `Mul` and `Sub` on L\*a\*b\* samples work channel by channel.
  - The L\*a\*b\*-to-`f32` conversion (`From<LAB> for f32`) is a weighted
    sum of the three channels, with non-negative weights.
  - These two are assumptions: the impls are in image.rs, which is not part
    of this model.
- `channels.dfy` (`Channels`): the `DssimChan` class with its in-place
  `Preprocess`, the cross-product plane, and `lab_chan`.
- `ssim.dfy` (`Ssim`): the per-pixel formula, `compare_scale`, the per-scale
  score, `f64` division with its infinities and NaN, and `to_dssim`.
- `context.dfy` (`Context`): the pyramid, the `Dssim` class and `compare`,
  with the lemmas relating them.

## Design

- `DssimChan` is a class: `preprocess` updates its fields in place. An image
  never changes once built, so its scales store each channel's value
  (`Chan`) as a datatype.
- `Dssim` is a class with `scaleWeights` and `saveMapsScales`.
  - Its methods are proved against the functions `Pyramid` and
    `Comparison`.
  - The lemmas about those functions carry the promises: pyramid shape,
    validity, consumed weights, kept maps, self-comparison and symmetry.
- Per-pixel SSIM uses real division. A zero denominator gives 0 in the
  model. `DenominatorPositive` shows this never happens for preprocessed
  channels, whose denominator is at least c1*c2.
- The final `ssim_sum / weight_sum` is `f64` division, modelled with
  +inf, -inf and NaN. `weight_sum` is 0 after `set_scales(&[])`. `f64::max`
  returns its non-NaN operand, so `to_dssim` of NaN is 1/EPSILON - 1. This
  holds even for identical images, which is what `SelfComparison` states.

## Model

| member | source | states |
|---|---|---|
| Channels.DssimChan.constructor | vendor/dssim-core/src/dssim.rs:104-115 | the new channel keeps the plane and its size; statistics are empty |
| Channels.DssimChan.Preprocess | vendor/dssim-core/src/dssim.rs:119-140 | a chroma plane is blurred in place first; `mu` becomes the blur of the plane and `img_sq_blur` the blur of its squares; the size is unchanged |
| Channels.PreprocessedIsPreprocessed | vendor/dssim-core/src/dssim.rs:119-140 | a preprocessed plane of positive size holds width*height samples, and `mu` and `img_sq_blur` have that length |
| Channels.PreprocessedVariance | vendor/dssim-core/src/dssim.rs:129-139 | under an averaging blur, mu[i]^2 <= img_sq_blur[i], so the local variance is non-negative |
| Channels.Img1Img2Blur | vendor/dssim-core/src/dssim.rs:157-178 | the row-by-row loop pushes original*modified for every pixel, and the result is the blur of the pointwise products, width*height long |
| Channels.CrossBlurWithSelf | vendor/dssim-core/src/dssim.rs:157-178 | the cross-product plane of a preprocessed channel with itself is its `img_sq_blur` |
| Channels.CrossBlurSymmetric | vendor/dssim-core/src/dssim.rs:157-178 | the cross-product plane does not depend on which channel comes first |
| Channels.Fuse3 | vendor/dssim-core/src/dssim.rs:149-151 | `multizip` stops at the shortest input, and entry i is the triple of the entries i |
| Channels.Img1Img2BlurLab | vendor/dssim-core/src/dssim.rs:144-153 | the colour cross plane is the L\*a\*b\* fusion of the per-channel cross planes of the first three channel pairs |
| Channels.LabChan | vendor/dssim-core/src/dssim.rs:352-373 | `lab_chan` fuses the L, a and b channels pointwise: L's size, not chroma, a plane only when all three have one, statistics as long as the shortest input, entry i the triple of the entries i |
| Channels.LabChanAt | vendor/dssim-core/src/dssim.rs:352-373 | the fused channel has L's size, is not chroma, and its `mu` and `img_sq_blur` entries are the triples of the three channels' entries |
| Ssim.DenominatorPositive | vendor/dssim-core/src/dssim.rs:399-410 | for non-negative moments, the SSIM denominator is at least c1*c2 > 0 |
| Ssim.PixelSsim | vendor/dssim-core/src/dssim.rs:398-411 | SSIM at a pixel times the denominator (mu1^2+mu2^2+c1)(sigma1^2+sigma2^2+c2) equals (2 mu1 mu2 + c1)(2 sigma12 + c2); a zero denominator gives 0 |
| Ssim.PixelSsimOfIdentical | vendor/dssim-core/src/dssim.rs:399-410 | equal means and a cross plane equal to `img_sq_blur` give SSIM exactly 1 |
| Ssim.PreprocessedMoments | vendor/dssim-core/src/dssim.rs:119-140 | a preprocessed gray channel has non-negative mean of squares and non-negative variance at every pixel |
| Ssim.LabChanMoments | vendor/dssim-core/src/dssim.rs:352-373 | the fused L\*a\*b\* channel of three preprocessed channels has non-negative reduced moments at every pixel |
| Ssim.CompareScale | vendor/dssim-core/src/dssim.rs:376-414 | the map has one value per pixel and the channels' width and height |
| Ssim.CompareScaleWithSelf | vendor/dssim-core/src/dssim.rs:376-414 | a channel compared with itself gives SSIM 1 at every pixel |
| Ssim.CompareScaleSymmetric | vendor/dssim-core/src/dssim.rs:376-414 | with a commutative `Mul`, swapping the two channels gives the same map |
| Ssim.ScaleScore | vendor/dssim-core/src/dssim.rs:322-325 | a scale's score never exceeds 1 |
| Ssim.ScaleScoreOfOnes | vendor/dssim-core/src/dssim.rs:322-325 | an all-ones map scores exactly 1 on every scale n |
| Ssim.Divide | vendor/dssim-core/src/dssim.rs:349 | the quotient is finite exactly when the weight sum is non-zero, and then quotient*weight_sum = ssim_sum |
| Ssim.ToDssim | vendor/dssim-core/src/dssim.rs:417-419 | DSSIM lies in [-1, 1/EPSILON - 1]; for a finite SSIM it is 0 exactly when SSIM is 1, and non-negative exactly when SSIM <= 1 |
| Context.PyramidUnfold | vendor/dssim-core/src/dssim.rs:234-284 | after the reversal, the full-resolution level comes first, followed by the pyramid of the downsampled image when scales are left and downsampling succeeds |
| Context.PyramidShape | vendor/dssim-core/src/dssim.rs:234-284 | the image has between 1 and #weights+1 scales; scale 0 is the full-resolution level; scale i is the level of the image downsampled i times; fewer than #weights+1 scales means the next downsampling fails |
| Context.PyramidFull | vendor/dssim-core/src/dssim.rs:234-284 | the image has #weights+1 scales exactly when #weights downsamplings succeed |
| Context.LevelValid | vendor/dssim-core/src/dssim.rs:255-271 | each level has 1 or 3 preprocessed channels of the source's size |
| Context.DssimImage.Width | vendor/dssim-core/src/dssim.rs:74-76 | the width of the first channel of the full-resolution scale; PyramidValid shows it is the source image's width |
| Context.DssimImage.Height | vendor/dssim-core/src/dssim.rs:80-82 | the height of the first channel of the full-resolution scale; PyramidValid shows it is the source image's height |
| Context.PyramidValid | vendor/dssim-core/src/dssim.rs:71-84 | every built image is valid at every scale, and `width()`/`height()` equal the source's |
| Context.ScaleSsimMap | vendor/dssim-core/src/dssim.rs:299-320 | a scale's SSIM map has one value per pixel of the original scale, a positive count |
| Context.ScaleResults | vendor/dssim-core/src/dssim.rs:295-336 | the zip scores exactly min(#weights, #modified scales, #original scales) scales |
| Context.ConsumedWeights | vendor/dssim-core/src/dssim.rs:295-347 | `weight_sum` is the sum of the first min(#weights, #scales) weights, not of the whole configured list |
| Context.KeptMapsAreFinest | vendor/dssim-core/src/dssim.rs:327-346 | exactly min(save_maps_scales, #scored scales) maps are returned, in scale order; map j is scale j's SSIM map with its score |
| Context.SelfScaleIsOne | vendor/dssim-core/src/dssim.rs:299-325 | a level compared with itself has SSIM 1 at every pixel and scores 1 |
| Context.SelfComparison | vendor/dssim-core/src/dssim.rs:293-350 | an image compared with itself: every kept map is all ones with ssim 1; DSSIM is 0 unless the consumed weights sum to 0, and then it is 1/EPSILON - 1 |
| Context.DssimNonNegative | vendor/dssim-core/src/dssim.rs:293-350 | with non-negative weights, `compare` never returns a negative DSSIM: every score is at most 1, so ssim_sum <= weight_sum; a zero weight sum gives 1/EPSILON - 1 |
| Context.DefaultSelfComparison | vendor/dssim-core/src/dssim.rs:86 | with the default weights, an image compared with itself has DSSIM exactly 0 |
| Context.ScaleSsimMapSymmetric | vendor/dssim-core/src/dssim.rs:299-320 | swapping two levels with equal channel counts leaves the SSIM map unchanged |
| Context.ComparisonSymmetric | vendor/dssim-core/src/dssim.rs:293-350 | when paired scales have equal channel counts, compare(a, b) and compare(b, a) give the same DSSIM and maps |
| Context.Dssim.constructor | vendor/dssim-core/src/dssim.rs:185-190 | a new context has the five default weights and keeps no maps |
| Context.New | vendor/dssim-core/src/dssim.rs:97-101 | the free `new()` returns a fresh context with the defaults |
| Context.Dssim.SetScales | vendor/dssim-core/src/dssim.rs:193-195 | replaces the weights and leaves `save_maps_scales` unchanged |
| Context.Dssim.SetSaveSsimMaps | vendor/dssim-core/src/dssim.rs:198-200 | sets `save_maps_scales` and leaves the weights unchanged |
| Context.Dssim.CreateImageRgba | vendor/dssim-core/src/dssim.rs:205-211 | no image exactly when width*height < buffer length; otherwise the pyramid of the linearised buffer |
| Context.Dssim.CreateImageRgb | vendor/dssim-core/src/dssim.rs:216-222 | no image exactly when width*height < buffer length; otherwise the pyramid of the linearised buffer |
| Context.Dssim.CreateImage | vendor/dssim-core/src/dssim.rs:234-245 | always returns an image: the depth-first scales reversed, with as many levels as the weights allow |
| Context.Dssim.ConvertLevel | vendor/dssim-core/src/dssim.rs:255-271 | one channel per L\*a\*b\* plane, each preprocessed, with every plane after the first chroma |
| Context.Dssim.MakeScalesRecursive | vendor/dssim-core/src/dssim.rs:248-284 | appends the deeper levels first, then this level, to what was already pushed |
| Context.Dssim.CompareOneScale | vendor/dssim-core/src/dssim.rs:299-335 | computes the SSIM map by the 3- or 1-channel path, scores it, and keeps the map when n < save_maps_scales |
| Context.Dssim.ScoreScales | vendor/dssim-core/src/dssim.rs:295-336 | the map over the zip scores weight n with scale n of both images, for exactly the scales the zip reaches, in order |
| Context.Dssim.Accumulate | vendor/dssim-core/src/dssim.rs:338-347 | the loop sums score*weight and the weights, and collects the kept maps in order |
| Context.Dssim.Compare | vendor/dssim-core/src/dssim.rs:293-350 | returns `to_dssim(ssim_sum / weight_sum)` and the kept maps of the scales the zip reaches |

## Left out

- Parallelism (`rayon::join`, `par_iter`) is not modelled. The code runs sequentially in index order. Results are collected in order in the source too, so the values are the same.
- Floating point is not modelled. `f32`/`f64` samples are reals, with no rounding and no fused `mul_add`. Only the final division keeps infinities and NaN, because `weight_sum` can be 0.
- The blur, `to_lab`, downsampling, sRGB linearisation and `powf` are parameters, not definitions. Their bodies are in blur.rs, tolab.rs, image.rs and linear.rs, which are not part of this model. Each is assumed to satisfy only the properties listed under Files. `blur_in_place` computes the same plane as `blur`.
- Scratch buffers (`tmp`, `MaybeUninit`), `MaybeArc` and the early `drop`s affect only memory, and are not modelled.
- The `debug_assert!`s about finite samples in [0, 1] are not modelled.
- `usize` overflow of width*height is not modelled.
- `Val` is not modelled; it is a plain real.
- The `png_compare` and `poison` tests and the counter example (counter.rs) are not modelled.
- Context.Dssim.CreateImageRgba: a buffer shorter than width*height is accepted. In the source, `ImgVec::new` panics on it; imgref is not part of this model.
- Context.Dssim.CreateImageRgb: same as CreateImageRgba for a short buffer.
- Context.Dssim.CreateImageRgba: width or height 0 with an accepted buffer is excluded by a precondition. The source panics there, in `to_lab` or in `preprocess`'s asserts. The same holds for CreateImageRgb and CreateImage.
- Context.Dssim.Compare: requires both images to be valid pyramids of equally sized paired scales. It also requires a 3-channel original to be paired with a 3-channel modified scale. Otherwise the source panics: the size `assert_eq!`s of `compare_scale` (dssim.rs:381-382) and `lab_chan` (dssim.rs:356-357) fail, or `lab_chan` indexes a missing `chan[1]`. A 1-channel original paired with a 3-channel modified scale is allowed and compares channel 0, as the source does.
- Channels.Img1Img2Blur: requires both channels to have the same size. With a wider original the source would read the top-left part, and with a narrower one it panics on `row[0..width]`.
- Ssim.CompareScale: a zero per-pixel denominator gives 0 instead of an `f32` infinity or NaN. Ssim.DenominatorPositive shows this cannot occur for preprocessed channels.
- `ImageOps` gives the downsampled image the pixel type of its input. The source allows a different output type (`InBitmap` and `OutBitmap`, dssim.rs:236-237), but the pyramid logic does not depend on it.
