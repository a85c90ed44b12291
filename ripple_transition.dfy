/**
 * The ripple transition sketch: a video and an image blended by a progress
 * value that rises while the pointer is held and falls when it is released,
 * shaped by a quintic ease-in-out, plus the cover-fit scaling of both
 * textures.
 */
module RippleTransition {
  import opened Vectors
  import CoverFit

  /** The quintic ease-in-out curve; `16 * x * x * x * x * x` is 16 x^5. */
  function EaseInOutQuint(x: real): real
  {
    if x < 0.5 then 16.0 * Pow(x, 5) else 1.0 - Pow(-2.0 * x + 2.0, 5) / 2.0
  }

  /** The curve starts at 0, ends at 1, and its two halves meet at 0.5. */
  lemma EaseFixedPoints()
    ensures EaseInOutQuint(0.0) == 0.0 && EaseInOutQuint(1.0) == 1.0
    ensures EaseInOutQuint(0.5) == 0.5 && 16.0 * Pow(0.5, 5) == 0.5
  {
    PowOne(5);
  }

  /** On [0, 1] the lower half lies in [0, 0.5) and the upper half in [0.5, 1]. */
  lemma EaseHalves(x: real)
    requires 0.0 <= x <= 1.0
    ensures 0.0 <= EaseInOutQuint(x) <= 1.0
    ensures x < 0.5 <==> EaseInOutQuint(x) < 0.5
  {
    if x < 0.5 {
      PowScale(2.0, x, 5);
      PowBelowOne(2.0 * x, 5);
      PowMono(0.0, x, 5);
    } else {
      PowMono(-2.0 * x + 2.0, 1.0, 5);
      PowOne(5);
    }
  }

  /** On [0, 1] the curve never decreases. */
  lemma EaseMonotone(a: real, b: real)
    requires 0.0 <= a <= b <= 1.0
    ensures EaseInOutQuint(a) <= EaseInOutQuint(b)
  {
    if b < 0.5 {
      PowMono(a, b, 5);
    } else if a >= 0.5 {
      PowMono(-2.0 * b + 2.0, -2.0 * a + 2.0, 5);
    } else {
      EaseHalves(a);
      EaseHalves(b);
    }
  }

  /** The curve is point-symmetric about (0.5, 0.5): e(1 - x) = 1 - e(x). */
  lemma EaseSymmetric(x: real)
    ensures EaseInOutQuint(1.0 - x) == 1.0 - EaseInOutQuint(x)
  {
    if x < 0.5 {
      PowScale(2.0, x, 5);
      assert -2.0 * (1.0 - x) + 2.0 == 2.0 * x;
    } else if x > 0.5 {
      PowScale(2.0, 1.0 - x, 5);
      assert -2.0 * x + 2.0 == 2.0 * (1.0 - x);
    } else {
      EaseFixedPoints();
    }
  }

  /** One frame of the linear progress: +0.02 held, -0.07 released, clamped to [0, 1]. */
  function NextProgressLinear(progressLinear: real, isPointerDown: bool): (r: real)
    ensures 0.0 <= r <= 1.0
    ensures var moved := progressLinear + (if isPointerDown then 0.02 else -0.07);
            (0.0 <= moved <= 1.0 ==> r == moved) && (moved < 0.0 ==> r == 0.0) && (moved > 1.0 ==> r == 1.0)
  {
    Clamp(progressLinear + (if isPointerDown then 0.02 else -0.07), 0.0, 1.0)
  }

  /**
   * Cover-fit scaling of a texture with aspect `textureAspect` on a viewport
   * with aspect `viewportAspect`, as `updateSize` writes it inline.
   */
  function TextureScaling(viewportAspect: real, textureAspect: real): Vec2
    requires viewportAspect > 0.0 && textureAspect > 0.0
  {
    if viewportAspect > textureAspect then Vec2(1.0, textureAspect / viewportAspect)
    else Vec2(viewportAspect / textureAspect, 1.0)
  }

  /**
   * The inline scaling is the shared cover-fit ratio of the texture in the
   * viewport, so one component is 1 and the other lies in (0, 1].
   */
  lemma TextureScalingIsCoverFit(viewportAspect: real, textureAspect: real)
    requires viewportAspect > 0.0 && textureAspect > 0.0
    ensures TextureScaling(viewportAspect, textureAspect) == CoverFit.CoverAspectRatio(textureAspect, viewportAspect)
    ensures var s := TextureScaling(viewportAspect, textureAspect);
            (s.x == 1.0 && 0.0 < s.y <= 1.0) || (s.y == 1.0 && 0.0 < s.x <= 1.0)
  {
    var s := TextureScaling(viewportAspect, textureAspect);
    var c := CoverFit.CoverAspectRatio(textureAspect, viewportAspect);
    assert s.x == c.x && s.y == c.y;
  }

  class RippleTransitionSketch {
    var progressLinear: real
    var progress: real
    var noiseProgress: real
    var isPointerDown: bool
    var isDestroyed: bool
    var time: real
    const videoTextureAspect: real
    const t1Aspect: real
    var videoScale: Vec2
    var imageScale: Vec2

    /** Every progress value lies in [0, 1] and `progress` is the eased linear one. */
    ghost predicate Valid()
      reads this
    {
      0.0 <= progressLinear <= 1.0 && 0.0 <= noiseProgress <= 1.0 &&
      progress == EaseInOutQuint(progressLinear) &&
      videoTextureAspect > 0.0 && t1Aspect > 0.0
    }

    constructor (videoTextureAspect: real, t1Aspect: real)
      requires videoTextureAspect > 0.0 && t1Aspect > 0.0
      ensures Valid() && !isPointerDown && !isDestroyed
      ensures progressLinear == 0.0 && progress == 0.0 && noiseProgress == 0.0
      ensures this.videoTextureAspect == videoTextureAspect && this.t1Aspect == t1Aspect
      ensures time == 1.0 && videoScale == Vec2(1.0, 1.0) && imageScale == Vec2(1.0, 1.0)
    {
      this.videoTextureAspect := videoTextureAspect;
      this.t1Aspect := t1Aspect;
      progressLinear, progress, noiseProgress := 0.0, 0.0, 0.0;
      isPointerDown, isDestroyed := false, false;
      time := 1.0;
      videoScale, imageScale := Vec2(1.0, 1.0), Vec2(1.0, 1.0);
      EaseFixedPoints();
    }

    method PointerDown()
      modifies this`isPointerDown
      ensures isPointerDown
    {
      isPointerDown := true;
    }

    method PointerUp()
      modifies this`isPointerDown
      ensures !isPointerDown
    {
      isPointerDown := false;
    }

    /** Cover-fit scaling of the video and the image for a canvas of the given size. */
    method UpdateSize(width: real, height: real)
      requires width > 0.0 && height > 0.0 && Valid()
      modifies this`videoScale, this`imageScale
      ensures Valid()
      ensures videoScale == CoverFit.CoverAspectRatio(videoTextureAspect, width / height)
      ensures imageScale == CoverFit.CoverAspectRatio(t1Aspect, width / height)
    {
      var viewportAspect := width / height;
      var videoScaling := Vec2(1.0, 1.0);
      var imgScaling := Vec2(1.0, 1.0);
      if viewportAspect > videoTextureAspect {
        videoScaling := videoScaling.(y := videoTextureAspect / viewportAspect);
      } else {
        videoScaling := videoScaling.(x := viewportAspect / videoTextureAspect);
      }
      if viewportAspect > t1Aspect {
        imgScaling := imgScaling.(y := t1Aspect / viewportAspect);
      } else {
        imgScaling := imgScaling.(x := viewportAspect / t1Aspect);
      }
      TextureScalingIsCoverFit(viewportAspect, videoTextureAspect);
      TextureScalingIsCoverFit(viewportAspect, t1Aspect);
      videoScale, imageScale := videoScaling, imgScaling;
    }

    /**
     * One frame: step and clamp the linear progress, ease it, and move the
     * noise progress all the way (pointer held) or a tenth of the way
     * (released) towards it.  Nothing happens once destroyed.
     */
    method Animate()
      requires Valid()
      modifies this`progressLinear, this`progress, this`noiseProgress, this`time
      ensures Valid()
      ensures old(isDestroyed) ==> unchanged(this)
      ensures !isDestroyed ==>
        && progressLinear == NextProgressLinear(old(progressLinear), isPointerDown)
        && progress == EaseInOutQuint(progressLinear)
        && (isPointerDown ==> noiseProgress == progress)
        && (!isPointerDown ==> noiseProgress - progress == 0.9 * (old(noiseProgress) - progress))
        && time == old(time) + 0.05
    {
      if isDestroyed { return; }
      if isPointerDown {
        progressLinear := progressLinear + 0.02;
      } else {
        progressLinear := progressLinear - 0.07;
      }
      progressLinear := Max(0.0, Min(1.0, progressLinear));
      progress := EaseInOutQuint(progressLinear);
      EaseHalves(progressLinear);
      var damping := if isPointerDown then 1.0 else 10.0;
      noiseProgress := noiseProgress + (progress - noiseProgress) / damping;
      Render();
    }

    method Render()
      modifies this`time
      ensures time == old(time) + 0.05
    {
      time := time + 0.05;
    }

    method Destroy()
      modifies this`isDestroyed
      ensures isDestroyed
    {
      isDestroyed := true;
    }
  }
}
