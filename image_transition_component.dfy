/**
 * The page component of the image transition: hovering one of the links
 * shows the image with the same position among its siblings.
 */
module ImageTransitionComponent {
  import opened Optional
  import ImageTransition

  /** A DOM element, compared by identity. */
  type ElementId = nat

  /** The position of the first occurrence of `target` in `children`, or `|children|`. */
  function IndexOfChild(children: seq<ElementId>, target: ElementId): (r: nat)
    ensures r <= |children|
    ensures r < |children| ==> children[r] == target
    ensures forall j :: 0 <= j < r ==> children[j] != target
    ensures r == |children| <==> target !in children
  {
    if |children| == 0 then 0
    else if children[0] == target then 0
    else 1 + IndexOfChild(children[1..], target)
  }

  /** The search loop of `onMouseOver`: count up until the target is met. */
  method FindChildIndex(children: seq<ElementId>, target: ElementId) returns (i: nat)
    ensures i == IndexOfChild(children, target)
  {
    i := 0;
    while i < |children|
      invariant i <= |children|
      invariant forall j :: 0 <= j < i ==> children[j] != target
    {
      if children[i] == target { break; }
      i := i + 1;
    }
  }

  class ImageTransition1Component {
    const sketch: ImageTransition.ImageTransition1Sketch

    constructor (sketch: ImageTransition.ImageTransition1Sketch)
      ensures this.sketch == sketch
    {
      this.sketch := sketch;
    }

    /**
     * `onMouseOver`: with a target inside a parent, `setImage` is called once
     * with the target's position among the parent's children; otherwise
     * nothing happens.  Returns the index passed to `setImage`, if any.
     */
    method OnMouseOver(target: Option<ElementId>, parentChildren: Option<seq<ElementId>>) returns (call: Option<nat>)
      requires sketch.Valid()
      modifies sketch`fromT, sketch`toT, sketch`uT1, sketch`uT2, sketch`uT1Aspect, sketch`uT2Aspect
      ensures sketch.Valid()
      ensures call.Some? <==> target.Some? && parentChildren.Some?
      ensures call.Some? ==> call.value == IndexOfChild(parentChildren.value, target.value)
      ensures call.None? ==> unchanged(sketch)
      ensures call.Some? && sketch.hasUniforms ==>
        sketch.fromT == old(sketch.toT) && sketch.toT == sketch.TextureAt(call.value)
      ensures call.Some? && !sketch.hasUniforms ==> unchanged(sketch)
    {
      call := None;
      if target.Some? && parentChildren.Some? {
        var i := FindChildIndex(parentChildren.value, target.value);
        var _ := sketch.SetImage(i);
        call := Some(i);
      }
    }
  }
}
