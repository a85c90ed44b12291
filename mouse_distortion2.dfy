/**
 * The second mouse-distortion sketch: a 32 x 32 RGB float texture of
 * offsets.  Every frame each texel decays, and the texels within five cells
 * of the pointer receive the pointer's movement, weighted by a quadratic
 * falloff.
 */
module MouseDistortion2 {
  import opened Vectors
  import opened Optional

  const Size: int := 32
  const Texels: int := Size * Size
  const Radius: real := 5.0
  const Decay: real := 0.93
  /** The bound the decay and the injections keep every channel within: 0.93 b + 1 = b. */
  const Bound: real := 100.0 / 7.0

  /** `getDataTextureIndices(x, y)`: the red, green and blue offsets of texel (x, y). */
  function GetDataTextureIndices(x: int, y: int): seq<int>
  {
    var red := y * (Size * 3) + x * 3;
    [red, red + 1, red + 2]
  }

  /** Texel i lies in row i / 32 and column i - 32 * (i / 32). */
  function TexelX(i: int): int { i - (i / Size) * Size }
  function TexelY(i: int): int { i / Size }

  /** The row/column split of the animation loop addresses texel i's own three channels. */
  lemma TexelIndices(i: int)
    requires 0 <= i < Texels
    ensures 0 <= TexelX(i) < Size && 0 <= TexelY(i) < Size && i == TexelY(i) * Size + TexelX(i)
    ensures GetDataTextureIndices(TexelX(i), TexelY(i)) == [3 * i, 3 * i + 1, 3 * i + 2]
  {
  }

  /** What one frame's injection depends on: the clamped pointer movement, its texel and the aspect correction. */
  datatype Stroke = Stroke(dmX: real, dmY: real, mX: int, mY: int, aspectX: real, aspectY: real)

  /**
   * The stroke for a pointer at `mouse` that was at `prev` one frame ago, on
   * a canvas with the given aspect ratio: the movement is clamped to
   * [-1, 1], the pointer is floored to a texel, and the longer side is
   * scaled so that the falloff is round on screen.
   */
  function MakeStroke(mouse: Vec2, prev: Vec2, aspect: real): (s: Stroke)
    requires aspect > 0.0
    ensures -1.0 <= s.dmX <= 1.0 && -1.0 <= s.dmY <= 1.0
    ensures 0.0 < s.aspectX <= 1.0 && s.aspectY >= 1.0
    ensures s.mX as real <= mouse.x * 32.0 < s.mX as real + 1.0 && s.mY as real <= mouse.y * 32.0 < s.mY as real + 1.0
  {
    Stroke(Clamp(mouse.x - prev.x, -1.0, 1.0), Clamp(mouse.y - prev.y, -1.0, 1.0),
           (mouse.x * 32.0).Floor, (mouse.y * 32.0).Floor,
           AspectX(aspect), AspectY(aspect))
  }

  /**
   * `distance(ox, oy)` is the on-screen distance of a texel offset (ox, oy)
   * from the pointer's texel: the square root of dx^2 + dy^2 with the
   * offsets scaled by the aspect correction.
   */
  ghost predicate IsTexelDistance(distance: (int, int) -> real, aspectX: real, aspectY: real)
  {
    aspectY != 0.0 &&
    forall ox: int, oy: int :: IsLength(distance(ox, oy), ox as real * aspectX, oy as real / aspectY)
  }

  /** The aspect correction: the shorter side's scale (x) and the longer side's (y). */
  function AspectX(aspect: real): real { if aspect > 1.0 then 1.0 else aspect }
  function AspectY(aspect: real): real { if aspect > 1.0 then aspect else 1.0 }

  /** The distance from texel i to the pointer's texel. */
  function Distance(i: int, s: Stroke, distance: (int, int) -> real): real
  {
    distance(s.mX - TexelX(i), s.mY - TexelY(i))
  }

  /** Texel i is inside the radius and the pointer moved along both axes. */
  predicate Injects(d: real, s: Stroke)
  {
    d < Radius && Abs(s.dmX) > 0.0 && Abs(s.dmY) > 0.0
  }

  /**
   * The new value of entry k of the buffer: channel k % 3 of texel k / 3,
   * decayed, plus the movement weighted by (1 - d / 5)^2 on red (x) and
   * green (y) when the texel is injected.
   */
  function NextValue(v: real, k: int, s: Stroke, distance: (int, int) -> real): real
  {
    var d := Distance(k / 3, s, distance);
    var f := 1.0 - d / Radius;
    if k % 3 == 0 && Injects(d, s) then v * Decay + s.dmX * f * f
    else if k % 3 == 1 && Injects(d, s) then v * Decay + s.dmY * f * f
    else v * Decay
  }

  lemma ProductWithinOne(a: real, f: real)
    requires -1.0 <= a <= 1.0 && 0.0 <= f <= 1.0
    ensures -1.0 <= a * f <= 1.0
  {
    if a >= 0.0 {
      MulAtMost(a, f);
    } else {
      MulAtMost(-a, f);
      assert (-a) * f == -(a * f);
    }
  }

  /**
   * A frame keeps every channel within 100/7: the decay leaves 93/7 and an
   * injection adds at most 1, the clamped movement times a falloff in (0, 1].
   */
  lemma NextValueBound(v: real, k: int, s: Stroke, distance: (int, int) -> real)
    requires IsTexelDistance(distance, s.aspectX, s.aspectY)
    requires -1.0 <= s.dmX <= 1.0 && -1.0 <= s.dmY <= 1.0
    requires -Bound <= v <= Bound
    ensures -Bound <= NextValue(v, k, s, distance) <= Bound
  {
    var d := Distance(k / 3, s, distance);
    var f := 1.0 - d / Radius;
    if Injects(d, s) && k % 3 < 2 {
      var dm := if k % 3 == 0 then s.dmX else s.dmY;
      assert 0.0 <= d;
      ProductWithinOne(dm, f);
      ProductWithinOne(dm * f, f);
    }
  }

  /** The blue channel only decays; it stays 0 once 0. */
  lemma BlueOnlyDecays(v: real, k: int, s: Stroke, distance: (int, int) -> real)
    requires k % 3 == 2
    ensures NextValue(v, k, s, distance) == v * Decay
    ensures v == 0.0 ==> NextValue(v, k, s, distance) == 0.0
  {
  }

  /** The first n texels of the buffer hold their new values and the others their values d0 before the frame. */
  ghost predicate UpdatedUpTo(data: array<real>, d0: seq<real>, n: int, s: Stroke, distance: (int, int) -> real)
    reads data
  {
    data.Length == |d0| == 3 * Texels && 0 <= n <= Texels &&
    (forall k :: 0 <= k < 3 * n ==> data[k] == NextValue(d0[k], k, s, distance)) &&
    (forall k :: 3 * n <= k < data.Length ==> data[k] == d0[k])
  }

  class MouseDistortion2Sketch {
    var data: array<real>
    var mousePos: Option<Vec2>
    var prevMousePos: Option<Vec2>
    var time: real

    /**
     * The buffer holds 3 * 32 * 32 numbers within 100/7, and a previous
     * pointer position exists as soon as a pointer position does.
     */
    ghost predicate Valid()
      reads this, data
    {
      data.Length == 3 * Texels &&
      (forall k :: 0 <= k < data.Length ==> -Bound <= data[k] <= Bound) &&
      (mousePos.Some? ==> prevMousePos.Some?)
    }

    /** `init`, with `initDataTexture`: no pointer yet and an all-zero buffer. */
    constructor ()
      ensures Valid() && fresh(data) && mousePos == None && prevMousePos == None && time == 1.0
      ensures forall k :: 0 <= k < data.Length ==> data[k] == 0.0
    {
      var buffer := new real[3 * Texels];
      var i := 0;
      while i < Texels
        invariant 0 <= i <= Texels
        invariant forall k :: 0 <= k < 3 * i ==> buffer[k] == 0.0
      {
        var stride := i * 3;
        buffer[stride] := 0.0;
        buffer[stride + 1] := 0.0;
        buffer[stride + 2] := 0.0;
        i := i + 1;
      }
      data := buffer;
      mousePos, prevMousePos, time := None, None, 1.0;
    }

    /** The pointer in [0, 1]^2 with y growing upwards; the first event also sets the previous position. */
    method PointerMove(clientX: real, clientY: real, canvasWidth: real, canvasHeight: real)
      requires Valid() && canvasWidth > 0.0 && canvasHeight > 0.0
      modifies this`mousePos, this`prevMousePos
      ensures Valid()
      ensures mousePos == Some(Vec2(clientX / canvasWidth, 1.0 - clientY / canvasHeight))
      ensures prevMousePos == if old(prevMousePos).None? then mousePos else old(prevMousePos)
    {
      mousePos := Some(Vec2(clientX / canvasWidth, 1.0 - clientY / canvasHeight));
      if prevMousePos.None? {
        prevMousePos := mousePos;
      }
    }

    /**
     * One frame.  Before the first pointer event only the time advances.
     * Afterwards every entry of the buffer becomes its `NextValue` for this
     * frame's stroke, and the previous pointer catches up with the pointer.
     */
    method Animate(canvasWidth: real, canvasHeight: real, distance: (int, int) -> real)
      requires Valid() && canvasWidth > 0.0 && canvasHeight > 0.0
      requires IsTexelDistance(distance, AspectX(canvasWidth / canvasHeight), AspectY(canvasWidth / canvasHeight))
      modifies data, this`prevMousePos, this`time
      ensures Valid() && time == old(time) + 0.05
      ensures mousePos.None? ==> prevMousePos == old(prevMousePos) && data[..] == old(data[..])
      ensures mousePos.Some? ==> prevMousePos == mousePos
      ensures mousePos.Some? ==>
        var s := MakeStroke(mousePos.value, old(prevMousePos).value, canvasWidth / canvasHeight);
        forall k :: 0 <= k < data.Length ==> data[k] == NextValue(old(data[k]), k, s, distance)
    {
      if mousePos.Some? {
        var s := MakeStroke(mousePos.value, prevMousePos.value, canvasWidth / canvasHeight);
        UpdateTexels(s, distance);
        prevMousePos := mousePos;
      }
      Render();
    }

    /** The texel loop of `animate` for one stroke. */
    method UpdateTexels(s: Stroke, distance: (int, int) -> real)
      requires Valid() && IsTexelDistance(distance, s.aspectX, s.aspectY)
      requires -1.0 <= s.dmX <= 1.0 && -1.0 <= s.dmY <= 1.0
      modifies data
      ensures Valid()
      ensures forall k :: 0 <= k < data.Length ==> data[k] == NextValue(old(data[k]), k, s, distance)
    {
      ghost var d0 := data[..];
      var i := 0;
      while i < Size * Size
        invariant 0 <= i <= Texels && UpdatedUpTo(data, d0, i, s, distance)
      {
        UpdateTexel(data, d0, i, s, distance);
        i := i + 1;
      }
      forall k | 0 <= k < data.Length ensures -Bound <= data[k] <= Bound {
        NextValueBound(d0[k], k, s, distance);
      }
    }

    /** Texel i of the buffer receives its three new channels; the rest is kept. */
    static method UpdateTexel(data: array<real>, ghost d0: seq<real>, i: int, s: Stroke, distance: (int, int) -> real)
      requires 0 <= i < Texels && UpdatedUpTo(data, d0, i, s, distance)
      modifies data
      ensures UpdatedUpTo(data, d0, i + 1, s, distance)
    {
      var r, g, b := TexelStep(data[i * 3], data[i * 3 + 1], data[i * 3 + 2], i, s, distance);
      data[i * 3] := r;
      data[i * 3 + 1] := g;
      data[i * 3 + 2] := b;
      forall k | 0 <= k < 3 * (i + 1)
        ensures data[k] == NextValue(d0[k], k, s, distance)
      {
        if k < 3 * i {
          assert data[k] == old(data[k]);
        }
      }
    }

    /** The body of the texel loop: decay texel i and inject the stroke into it. */
    static method TexelStep(r0: real, g0: real, b0: real, i: int, s: Stroke, distance: (int, int) -> real)
      returns (r: real, g: real, b: real)
      requires 0 <= i
      ensures r == NextValue(r0, i * 3, s, distance)
      ensures g == NextValue(g0, i * 3 + 1, s, distance)
      ensures b == NextValue(b0, i * 3 + 2, s, distance)
    {
      r, g, b := r0, g0, b0;
      r := r * 0.93;
      g := g * 0.93;
      b := b * 0.93;
      var py := i / Size;
      var px := i - py * Size;
      var d := distance(s.mX - px, s.mY - py);
      var f := 1.0 - d / Radius;
      if d < Radius && Abs(s.dmX) > 0.0 && Abs(s.dmY) > 0.0 {
        r := r + s.dmX * f * f;
        g := g + s.dmY * f * f;
      }
      assert (i * 3) / 3 == i && (i * 3 + 1) / 3 == i && (i * 3 + 2) / 3 == i;
      assert (i * 3) % 3 == 0 && (i * 3 + 1) % 3 == 1 && (i * 3 + 2) % 3 == 2;
    }

    method Render()
      modifies this`time
      ensures time == old(time) + 0.05
    {
      time := time + 0.05;
    }
  }
}
