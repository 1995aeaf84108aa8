/**
 * The collaborators of the comparison engine that live outside dssim.rs: the
 * box blur (blur.rs), downsampling and pixel types (image.rs), the colour
 * conversion (tolab.rs), sRGB linearisation (linear.rs) and `powf`. They
 * enter the model as function values, and each bundle carries a validity
 * predicate stating the only facts the engine relies on.
 */
module Primitives {

  datatype Option<+T> = None | Some(value: T)

  newtype u8 = x: int | 0 <= x < 256

  /** A single-channel plane (`ImgVec<f32>`), row-major without padding. */
  datatype Plane = Plane(data: seq<real>, width: nat, height: nat)

  /** A decoded image of pixels of type P (`ImgVec<P>`). */
  datatype Bitmap<P> = Bitmap(pixels: seq<P>, width: nat, height: nat)

  /** One L*a*b* sample, also used for a triple of per-channel weights. */
  datatype Lab = Lab(l: real, a: real, b: real)

  /** Input pixel formats: 8-bit sRGB with and without alpha. */
  datatype Rgba8 = Rgba8(r: u8, g: u8, b: u8, a: u8)
  datatype Rgb8 = Rgb8(r: u8, g: u8, b: u8)

  /** Linear-light pixels: premultiplied RGBA and RGB, scaled to 0..1. */
  datatype Rgbaplu = Rgbaplu(r: real, g: real, b: real, a: real)
  datatype Rgblu = Rgblu(r: real, g: real, b: real)

  /** `blur::blur` / `blur::blur_in_place` on a plane of the given width and height. */
  type Blur = (seq<real>, nat, nat) -> seq<real>

  function Squares(s: seq<real>): (r: seq<real>)
    ensures |r| == |s|
    ensures forall i :: 0 <= i < |s| ==> r[i] == s[i] * s[i]
  {
    seq(|s|, i requires 0 <= i < |s| => s[i] * s[i])
  }

  /** The blur returns a plane of the size it was given. */
  ghost predicate BlurKeepsSize(blur: Blur)
  {
    forall s: seq<real>, w: nat, h: nat :: |s| == w * h ==> |blur(s, w, h)| == |s|
  }

  /**
   * The blur averages: each output is a convex combination of inputs, so by
   * Jensen's inequality the blurred squares dominate the squared blur.
   */
  ghost predicate BlurAverages(blur: Blur)
    requires BlurKeepsSize(blur)
  {
    forall s: seq<real>, w: nat, h: nat, i: int :: |s| == w * h && 0 <= i < |s| ==>
      blur(s, w, h)[i] * blur(s, w, h)[i] <= blur(Squares(s), w, h)[i]
  }

  /**
   * The numeric primitives the comparison uses: the blur, `powf`, and the
   * weights with which `From<LAB> for f32` reduces an L*a*b* triple to one
   * number.
   */
  datatype Numerics = Numerics(blur: Blur, pow: (real, real) -> real, labWeights: Lab)
  {
    ghost predicate Valid()
    {
      && BlurKeepsSize(blur)
      && BlurAverages(blur)
      && (forall e: real :: pow(1.0, e) == 1.0)
      && labWeights.l >= 0.0 && labWeights.a >= 0.0 && labWeights.b >= 0.0
    }
  }

  /** `to_lab` yields 1 (gray) or 3 (colour) planes of the image's size. */
  ghost predicate LabPlanes(planes: seq<Plane>, width: nat, height: nat)
  {
    && (|planes| == 1 || |planes| == 3)
    && forall k :: 0 <= k < |planes| ==>
         planes[k].width == width && planes[k].height == height
         && |planes[k].data| == width * height
  }

  /** `ToLABBitmap::to_lab` and `Downsample::downsample` for images of pixel type P. */
  datatype ImageOps<!P(!new)> = ImageOps(toLab: Bitmap<P> -> seq<Plane>, downsample: Bitmap<P> -> Option<Bitmap<P>>)
  {
    ghost predicate Valid()
    {
      && (forall b: Bitmap<P> :: b.width > 0 && b.height > 0 ==> LabPlanes(toLab(b), b.width, b.height))
      && (forall b: Bitmap<P> :: b.width > 0 && b.height > 0 && downsample(b).Some? ==>
            downsample(b).value.width > 0 && downsample(b).value.height > 0)
    }
  }
}
