/**
 * The first mouse-distortion sketch: a tracker that trails the pointer and a
 * velocity that follows the tracker's lag, both fed to the shader.
 */
module MouseDistortion1 {
  import opened Vectors

  /** The tracker closes a twentieth of the gap to the pointer. */
  function NextTracker(tracker: Vec2, mouse: Vec2): (r: Vec2)
    ensures Sub2(mouse, r) == Scale2(Sub2(mouse, tracker), 0.95)
  {
    Approach2(tracker, mouse, 20.0)
  }

  /**
   * The velocity moves two thirds of the way towards the lag between the
   * pointer and the (already updated) tracker.
   */
  function NextVelocity(velocity: Vec2, mouse: Vec2, tracker: Vec2): (r: Vec2)
    ensures var lag := Sub2(mouse, tracker);
            Sub2(lag, r) == Scale2(Sub2(lag, velocity), 1.0 / 3.0)
  {
    Approach2(velocity, Sub2(mouse, tracker), 1.5)
  }

  /** A tracker on the pointer with no velocity is at rest. */
  lemma RestIsFixed(mouse: Vec2)
    ensures NextTracker(mouse, mouse) == mouse
    ensures NextVelocity(Zero2, mouse, mouse) == Zero2
  {
  }

  class MouseDistortionSketch {
    var mousePos: Vec2
    var mouseTracker: Vec2
    var mouseVelocity: Vec2
    var time: real

    constructor ()
      ensures mousePos == Zero2 && mouseTracker == Zero2 && mouseVelocity == Zero2 && time == 1.0
    {
      mousePos, mouseTracker, mouseVelocity, time := Zero2, Zero2, Zero2, 1.0;
    }

    /** Pointer coordinates with the y axis flipped to grow upwards from the canvas bottom. */
    method MouseMove(clientX: real, clientY: real, canvasHeight: real)
      modifies this`mousePos
      ensures mousePos == Vec2(clientX, canvasHeight - clientY)
    {
      mousePos := Vec2(clientX, canvasHeight - clientY);
    }

    /** One frame: render, then update the tracker and the velocity. */
    method Animate()
      modifies this`time, this`mouseTracker, this`mouseVelocity
      ensures time == old(time) + 0.05
      ensures mouseTracker == NextTracker(old(mouseTracker), mousePos)
      ensures mouseVelocity == NextVelocity(old(mouseVelocity), mousePos, mouseTracker)
    {
      time := time + 0.05;
      mouseTracker := Vec2(mouseTracker.x + (mousePos.x - mouseTracker.x) / 20.0,
                           mouseTracker.y + (mousePos.y - mouseTracker.y) / 20.0);
      mouseVelocity := Vec2(mouseVelocity.x + (mousePos.x - mouseTracker.x - mouseVelocity.x) / 1.5,
                            mouseVelocity.y + (mousePos.y - mouseTracker.y - mouseVelocity.y) / 1.5);
    }
  }
}
