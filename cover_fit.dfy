/**
 * Cover fitting of a texture onto a container, the `getCoverAspectRatio`
 * helper that five sketches carry in identical copies.  The result is the
 * fraction of the texture's width and height that the shader samples so that
 * the texture covers the container without distortion.
 */
module CoverFit {
  import opened Vectors

  /**
   * A wider item is cropped horizontally, any other vertically.  One component is 1, the other lies in (0, 1], and the sampled part of
   * the item has exactly the container's aspect ratio.
   */
  function CoverAspectRatio(itemAspect: real, containerAspect: real): (r: Vec2)
    requires itemAspect > 0.0 && containerAspect > 0.0
    ensures (r.x == 1.0 && 0.0 < r.y <= 1.0) || (r.y == 1.0 && 0.0 < r.x < 1.0)
    ensures r.x == 1.0 <==> itemAspect <= containerAspect
    ensures r.y > 0.0 && itemAspect * r.x / r.y == containerAspect
  {
    if itemAspect > containerAspect then
      Vec2(containerAspect / itemAspect, 1.0)
    else
      Vec2(1.0, itemAspect / containerAspect)
  }

  /** The aspect ratio `width / height` of a positive size. */
  function Aspect(width: real, height: real): (a: real)
    requires width > 0.0 && height > 0.0
    ensures a > 0.0 && a * height == width
  {
    width / height
  }
}
