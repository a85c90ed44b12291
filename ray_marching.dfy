/**
 * The ray-marching sketch: a full-screen shader whose canvas is capped at
 * 900 x 900 pixels and whose mouse uniform eases towards the pointer.
 */
module RayMarching {
  import opened Vectors
  import opened Optional

  const MaxSize: real := 900.0

  /** `Math.min(size, 900)`: the rendered size is the container size capped at 900. */
  function ClampedSize(size: real): (r: real)
    ensures r <= MaxSize
    ensures size <= MaxSize ==> r == size
    ensures size > MaxSize ==> r == MaxSize
  {
    Min(size, MaxSize)
  }

  /**
   * `width / height`: a zero height gives a non-finite aspect in the source,
   * modelled as `None`.
   */
  function CameraAspect(width: real, height: real): (r: Option<real>)
    ensures r.Some? <==> height != 0.0
    ensures r.Some? ==> r.value * height == width
  {
    if height == 0.0 then None else Some(width / height)
  }

  /** One frame of the mouse uniform: an eighth of the gap to the pointer. */
  function NextMouse(uMouse: Vec2, mouse: Vec2): (r: Vec2)
    ensures Sub2(mouse, r) == Scale2(Sub2(mouse, uMouse), 0.875)
  {
    Approach2(uMouse, mouse, 8.0)
  }

  class RayMarchingSketch {
    var width: real
    var height: real
    var resolution: Vec2
    var cameraAspect: Option<real>
    var mouse: Vec2
    var uMouse: Vec2
    var time: real
    var isDestroyed: bool

    ghost predicate Valid()
      reads this
    {
      width <= MaxSize && height <= MaxSize && resolution == Vec2(width, height)
    }

    constructor (offsetWidth: real, offsetHeight: real)
      ensures Valid() && !isDestroyed
      ensures width == ClampedSize(offsetWidth) && height == ClampedSize(offsetHeight)
      ensures cameraAspect == CameraAspect(width, height)
      ensures mouse == Zero2 && uMouse == Zero2 && time == 1.0
    {
      var w, h := ClampedSize(offsetWidth), ClampedSize(offsetHeight);
      width, height := w, h;
      resolution := Vec2(w, h);
      cameraAspect := CameraAspect(w, h);
      mouse, uMouse, time := Zero2, Zero2, 1.0;
      isDestroyed := false;
    }

    /** The canvas follows the container, capped at 900 on each side. */
    method UpdateSize(offsetWidth: real, offsetHeight: real)
      modifies this`width, this`height, this`resolution, this`cameraAspect
      ensures Valid()
      ensures width == ClampedSize(offsetWidth) && height == ClampedSize(offsetHeight)
      ensures resolution == Vec2(width, height)
      ensures cameraAspect == CameraAspect(width, height)
    {
      width := Min(offsetWidth, MaxSize);
      height := Min(offsetHeight, MaxSize);
      resolution := Vec2(width, height);
      cameraAspect := CameraAspect(width, height);
    }

    method PointerMove(pageX: real, pageY: real)
      modifies this`mouse
      ensures mouse == Vec2(pageX, pageY)
    {
      mouse := Vec2(pageX, pageY);
    }

    /** One frame, or nothing at all once the sketch is destroyed. */
    method Animate()
      modifies this`uMouse, this`time
      ensures old(isDestroyed) ==> unchanged(this)
      ensures !isDestroyed ==> uMouse == NextMouse(old(uMouse), mouse) && time == old(time) + 0.05
    {
      if isDestroyed { return; }
      uMouse := Vec2(uMouse.x + (mouse.x - uMouse.x) / 8.0, uMouse.y + (mouse.y - uMouse.y) / 8.0);
      Render();
    }

    method Render()
      modifies this`time
      ensures time == old(time) + 0.05
    {
      time := time + 0.05;
    }

    method Destroy()
      modifies this`isDestroyed
      ensures isDestroyed
    {
      isDestroyed := true;
    }
  }
}
