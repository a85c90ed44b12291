/**
 * The displacement sketch: pressing the pointer sets the target progress to
 * 1, releasing it sets it to 0, and every frame the shader's progress closes
 * a fifth of the gap to the target.
 */
module Displace {
  import opened Vectors

  /** One frame of the progress follower. */
  function NextProgress(progress: real, toProgress: real): (r: real)
    ensures toProgress - r == 0.8 * (toProgress - progress)
    ensures progress <= toProgress ==> progress <= r <= toProgress
    ensures toProgress <= progress ==> toProgress <= r <= progress
  {
    ApproachBetween(progress, toProgress, 5.0);
    Approach(progress, toProgress, 5.0)
  }

  /** The progress after `frames` frames with a fixed target. */
  function ProgressAfter(progress: real, toProgress: real, frames: nat): real
  {
    if frames == 0 then progress else NextProgress(ProgressAfter(progress, toProgress, frames - 1), toProgress)
  }

  /** After n frames with a fixed target the gap is 0.8^n times the first gap. */
  lemma {:induction false} ProgressAfterGap(progress: real, toProgress: real, frames: nat)
    ensures toProgress - ProgressAfter(progress, toProgress, frames) == Pow(0.8, frames) * (toProgress - progress)
  {
    if frames > 0 {
      ProgressAfterGap(progress, toProgress, frames - 1);
      var gap := toProgress - progress;
      assert 0.8 * (Pow(0.8, frames - 1) * gap) == (0.8 * Pow(0.8, frames - 1)) * gap;
    }
  }

  class Displace1Sketch {
    var toProgress: real
    var progress: real
    var time: real

    /** The target is 0 or 1 and the progress lies between them. */
    ghost predicate Valid()
      reads this
    {
      (toProgress == 0.0 || toProgress == 1.0) && 0.0 <= progress <= 1.0
    }

    /** `init`: the progress uniform starts at the target, which is 0. */
    constructor ()
      ensures Valid() && toProgress == 0.0 && progress == 0.0 && time == 1.0
    {
      toProgress, progress, time := 0.0, 0.0, 1.0;
    }

    method PointerDown()
      requires Valid()
      modifies this`toProgress
      ensures Valid() && toProgress == 1.0
    {
      toProgress := 1.0;
    }

    method PointerUp()
      requires Valid()
      modifies this`toProgress
      ensures Valid() && toProgress == 0.0
    {
      toProgress := 0.0;
    }

    /** One frame: render, then move the progress a fifth of the way to the target. */
    method Animate()
      requires Valid()
      modifies this`progress, this`time
      ensures Valid()
      ensures progress == NextProgress(old(progress), toProgress)
      ensures time == old(time) + 0.05
    {
      Render();
      progress := progress + (toProgress - progress) / 5.0;
    }

    method Render()
      modifies this`time
      ensures time == old(time) + 0.05
    {
      time := time + 0.05;
    }
  }
}
