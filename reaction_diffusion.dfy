/**
 * The reaction-diffusion sketch.  The simulation lives in two float render
 * targets of 256 x 256 RGBA pixels (channel R holds chemical A, channel G
 * chemical B).  Every frame runs 20 compute steps, each rendering the
 * compute shader over the current target into the other one and then
 * swapping the two ("ping-pong").  Seeds are written on the CPU into a pixel
 * buffer and copied into a target by rendering a bypass material.
 *
 * The GPU is outside the model: a render target is the sequence of its
 * pixel floats, and one render of the compute material is the function
 * `shader` from the sampled target's contents to the new contents.
 */
module ReactionDiffusion {
  import opened Vectors
  import opened Optional

  const ComputeStepsInFrame: int := 20
  const ComputeSize: int := 256
  /** Floats in one render target: four channels per pixel. */
  const BufferSize: int := ComputeSize * ComputeSize * 4

  /** The material on the compute mesh. */
  datatype Material = ComputeMaterial | BypassMaterial

  /** The other render target: the one a compute step renders into. */
  function NextTarget(index: int): (next: int)
    ensures index == 0 ==> next == 1
    ensures index != 0 ==> next == 0
  {
    if index == 0 then 1 else 0
  }

  /** Index 0 or 1 flips with every step and comes back after two. */
  lemma NextTargetFlips(index: int)
    requires index == 0 || index == 1
    ensures NextTarget(index) == 1 - index && NextTarget(NextTarget(index)) == index
  {
  }

  /** `n` consecutive renders of the compute shader, starting from `t`. */
  function Steps(shader: seq<real> -> seq<real>, t: seq<real>, n: nat): seq<real>
  {
    if n == 0 then t else shader(Steps(shader, t, n - 1))
  }

  /** The target index after n steps from `start`: back at `start` exactly after an even count. */
  function IndexAfter(start: int, n: nat): (index: int)
    requires start == 0 || start == 1
    ensures index == 0 || index == 1
    ensures index == start <==> n % 2 == 0
  {
    if n == 0 then start else NextTarget(IndexAfter(start, n - 1))
  }

  /** A render of the compute scene fills a whole target. */
  ghost predicate RendersFullTarget(shader: seq<real> -> seq<real>)
  {
    forall t :: |t| == BufferSize ==> |shader(t)| == BufferSize
  }

  /** Pixel (x, y) of a w-pixel-wide image is pixel number y * w + x. */
  function PixelNumber(x: int, y: int, w: int): int
  {
    y * w + x
  }

  /** Every pixel of a w x h image has its four floats inside the 4wh buffer. */
  lemma PixelInBuffer(x: int, y: int, w: int, h: int)
    requires 0 <= x < w && 0 <= y < h
    ensures 0 <= PixelNumber(x, y, w) < w * h
    ensures 0 <= 4 * PixelNumber(x, y, w) && 4 * PixelNumber(x, y, w) + 3 < w * h * 4
  {
    MulLe(y, h - 1, w);
    MulLe(0, y, w);
    assert (h - 1) * w + w == w * h;
  }

  /** Pixels are numbered row by row: every pixel before (x, y) in reading order has a smaller number. */
  lemma PixelOrder(x1: int, y1: int, x: int, y: int, w: int)
    requires 0 <= x1 < w && 0 <= x < w && (y1 < y || (y1 == y && x1 < x))
    ensures PixelNumber(x1, y1, w) < PixelNumber(x, y, w)
  {
    if y1 < y {
      MulLe(y1 + 1, y, w);
      assert (y1 + 1) * w == y1 * w + w;
    }
  }

  /** Pixel p of the buffer holds (1, b, 0, 1): chemical A at 1, chemical B at b, opaque. */
  ghost predicate SeededPixel(pixels: array<real>, p: int, b: real)
    reads pixels
  {
    0 <= 4 * p && 4 * p + 3 < pixels.Length &&
    pixels[4 * p] == 1.0 && pixels[4 * p + 1] == b && pixels[4 * p + 2] == 0.0 && pixels[4 * p + 3] == 1.0
  }

  /** The open square of side 39 around the centre (w2, h2) that `rectSeed` fills with chemical B. */
  predicate InSeedSquare(x: int, y: int, w: int, h: int)
  {
    var w2, h2 := w / 2, h / 2;
    h2 - 20 < y < h2 + 20 && w2 - 20 < x < w2 + 20
  }

  /** Chemical B in pixel (x, y) after `rectSeed`. */
  function RectSeedB(x: int, y: int, w: int, h: int): (b: real)
    ensures b == 1.0 <==> InSeedSquare(x, y, w, h)
    ensures b == 0.0 <==> !InSeedSquare(x, y, w, h)
  {
    if InSeedSquare(x, y, w, h) then 1.0 else 0.0
  }

  class ReactionDiffusionSketch {
    /** The contents of the two compute render targets. */
    var computeRenderTargets: seq<seq<real>>
    var currentRenderTargetIndex: int
    /** Which target the compute material samples (`u_texture`). */
    var computeTexture: Option<int>
    /** Which target the render material samples. */
    var renderTexture: Option<int>
    /** The renderer's output: a target, or the canvas when None. */
    var renderTarget: Option<int>
    var meshMaterial: Material
    /** The bypass material's texture. */
    var bypassTexture: Option<seq<real>>

    var pointerPosition: Vec2
    var isPointerDown: bool
    var renderMeshPointerPosition: Vec3
    var computePointer: Vec3
    var computeIsPointerDown: bool
    var sceneRotation: Vec2
    var computeTime: real
    var renderTime: real
    var resolution: Vec2
    var renderMeshZ: real
    var isDestroyed: bool

    /**
     * Two targets of the compute size, the index on one of them, and the
     * compute material on the mesh with the bypass texture cleared.
     */
    ghost predicate Valid()
      reads this
    {
      |computeRenderTargets| == 2 &&
      |computeRenderTargets[0]| == BufferSize && |computeRenderTargets[1]| == BufferSize &&
      (currentRenderTargetIndex == 0 || currentRenderTargetIndex == 1) &&
      meshMaterial == ComputeMaterial && bypassTexture == None
    }

    /**
     * `init` with `initComputeShader`: two cleared targets, and target 0
     * seeded with chemical A everywhere.
     */
    constructor ()
      ensures Valid() && currentRenderTargetIndex == 0 && !isDestroyed
      ensures forall p :: 0 <= p < BufferSize ==>
                computeRenderTargets[0][p] == (if p % 4 == 1 || p % 4 == 2 then 0.0 else 1.0)
      ensures computeRenderTargets[1] == seq(BufferSize, _ => 0.0)
      ensures computeTime == 1.0 && renderTime == 1.0 && renderTarget == None
    {
      var cleared := seq(BufferSize, _ => 0.0);
      computeRenderTargets := [cleared, cleared];
      currentRenderTargetIndex := 0;
      computeTexture, renderTexture, renderTarget := None, None, None;
      meshMaterial, bypassTexture := ComputeMaterial, None;
      pointerPosition, isPointerDown := Zero2, false;
      renderMeshPointerPosition, computePointer, computeIsPointerDown := Zero3, Zero3, false;
      sceneRotation, computeTime, renderTime := Zero2, 1.0, 1.0;
      resolution, renderMeshZ, isDestroyed := Zero2, 0.0, false;
      new;
      InitialSeed(0);
      forall p | 0 <= p < BufferSize
        ensures computeRenderTargets[0][p] == (if p % 4 == 1 || p % 4 == 2 then 0.0 else 1.0)
      {
        var n := p / 4;
        assert 0 <= n < ComputeSize * ComputeSize && p == 4 * n + p % 4;
        assert computeRenderTargets[0][4 * n] == 1.0;
      }
    }

    /** `getRenderTargetDataTexture`: a fresh buffer holding a copy of target t's pixels. */
    method ReadPixels(t: int) returns (pixels: array<real>)
      requires Valid() && (t == 0 || t == 1)
      ensures fresh(pixels) && pixels[..] == computeRenderTargets[t]
    {
      var data := computeRenderTargets[t];
      pixels := new real[|data|](p requires 0 <= p < |data| => data[p]);
    }

    /**
     * `initialSeed`: every pixel of target t set to chemical A = 1, B = 0,
     * opaque; the other target is untouched.
     */
    method InitialSeed(t: int)
      requires Valid() && (t == 0 || t == 1)
      modifies this`computeRenderTargets, this`meshMaterial, this`bypassTexture, this`renderTarget
      ensures Valid() && renderTarget == None
      ensures computeRenderTargets[1 - t] == old(computeRenderTargets[1 - t])
      ensures forall p :: 0 <= p < ComputeSize * ComputeSize ==>
                computeRenderTargets[t][4 * p] == 1.0 && computeRenderTargets[t][4 * p + 1] == 0.0 &&
                computeRenderTargets[t][4 * p + 2] == 0.0 && computeRenderTargets[t][4 * p + 3] == 1.0
    {
      var pixels := ReadPixels(t);
      var w, h := ComputeSize, ComputeSize;
      var y := 0;
      while y < h
        modifies pixels
        invariant 0 <= y <= h
        invariant forall p :: 0 <= p < y * w ==> SeededPixel(pixels, p, 0.0)
      {
        var x := 0;
        while x < w
          modifies pixels
          invariant 0 <= x <= w
          invariant forall p :: 0 <= p < y * w + x ==> SeededPixel(pixels, p, 0.0)
        {
          WriteSeedPixel(pixels, y * w + x);
          x := x + 1;
        }
        y := y + 1;
      }
      var texture := pixels[..];
      UpdateRenderTargetTexture(t, texture);
      forall p | 0 <= p < ComputeSize * ComputeSize
        ensures texture[4 * p] == 1.0 && texture[4 * p + 1] == 0.0 && texture[4 * p + 2] == 0.0 && texture[4 * p + 3] == 1.0
      {
        assert SeededPixel(pixels, p, 0.0);
      }
    }

    /**
     * `rectSeed`: like `initialSeed`, and chemical B = 1 exactly in the open
     * square of side 39 around the centre; B = 0 everywhere else.
     */
    method RectSeed(t: int)
      requires Valid() && (t == 0 || t == 1)
      modifies this`computeRenderTargets, this`meshMaterial, this`bypassTexture, this`renderTarget
      ensures Valid() && renderTarget == None
      ensures computeRenderTargets[1 - t] == old(computeRenderTargets[1 - t])
      ensures forall x, y :: 0 <= x < ComputeSize && 0 <= y < ComputeSize ==>
                var p := PixelNumber(x, y, ComputeSize);
                computeRenderTargets[t][4 * p] == 1.0 && computeRenderTargets[t][4 * p + 1] == RectSeedB(x, y, ComputeSize, ComputeSize) &&
                computeRenderTargets[t][4 * p + 2] == 0.0 && computeRenderTargets[t][4 * p + 3] == 1.0
    {
      var pixels := ReadPixels(t);
      var w, h := ComputeSize, ComputeSize;
      var w2, h2 := w / 2, h / 2;
      var y := 0;
      while y < h
        modifies pixels
        invariant 0 <= y <= h
        invariant forall x1, y1 :: 0 <= x1 < w && 0 <= y1 < y ==>
                    SeededPixel(pixels, PixelNumber(x1, y1, w), RectSeedB(x1, y1, w, h))
      {
        var x := 0;
        while x < w
          modifies pixels
          invariant 0 <= x <= w
          invariant forall x1, y1 :: 0 <= x1 < w && 0 <= y1 < y ==>
                      SeededPixel(pixels, PixelNumber(x1, y1, w), RectSeedB(x1, y1, w, h))
          invariant forall x1 :: 0 <= x1 < x ==> SeededPixel(pixels, PixelNumber(x1, y, w), RectSeedB(x1, y, w, h))
        {
          WriteRectPixel(pixels, x, y, w, h, w2, h2);
          x := x + 1;
        }
        y := y + 1;
      }
      var texture := pixels[..];
      UpdateRenderTargetTexture(t, texture);
      forall x, y | 0 <= x < ComputeSize && 0 <= y < ComputeSize
        ensures var p := PixelNumber(x, y, ComputeSize);
                texture[4 * p] == 1.0 && texture[4 * p + 1] == RectSeedB(x, y, ComputeSize, ComputeSize) &&
                texture[4 * p + 2] == 0.0 && texture[4 * p + 3] == 1.0
      {
        assert SeededPixel(pixels, PixelNumber(x, y, w), RectSeedB(x, y, w, h));
      }
    }

    /** The body of `initialSeed`'s inner loop: pixel n is seeded, every pixel before it keeps its seed. */
    static method WriteSeedPixel(pixels: array<real>, n: int)
      requires 0 <= n && 4 * n + 3 < pixels.Length
      requires forall p :: 0 <= p < n ==> SeededPixel(pixels, p, 0.0)
      modifies pixels
      ensures forall p :: 0 <= p <= n ==> SeededPixel(pixels, p, 0.0)
    {
      var pixelIndex := n * 4;
      pixels[pixelIndex] := 1.0;
      pixels[pixelIndex + 1] := 0.0;
      pixels[pixelIndex + 2] := 0.0;
      pixels[pixelIndex + 3] := 1.0;
      forall p | 0 <= p < n
        ensures SeededPixel(pixels, p, 0.0)
      {
        assert old(SeededPixel(pixels, p, 0.0));
      }
    }

    /** The body of `rectSeed`'s inner loop: pixel (x, y) is written, every pixel before it keeps its seed. */
    static method WriteRectPixel(pixels: array<real>, x: int, y: int, w: int, h: int, w2: int, h2: int)
      requires 0 <= x < w && 0 <= y < h && pixels.Length == w * h * 4 && w2 == w / 2 && h2 == h / 2
      requires forall x1, y1 :: 0 <= x1 < w && 0 <= y1 < y ==>
                 SeededPixel(pixels, PixelNumber(x1, y1, w), RectSeedB(x1, y1, w, h))
      requires forall x1 :: 0 <= x1 < x ==> SeededPixel(pixels, PixelNumber(x1, y, w), RectSeedB(x1, y, w, h))
      modifies pixels
      ensures forall x1, y1 :: 0 <= x1 < w && 0 <= y1 < y ==>
                SeededPixel(pixels, PixelNumber(x1, y1, w), RectSeedB(x1, y1, w, h))
      ensures forall x1 :: 0 <= x1 <= x ==> SeededPixel(pixels, PixelNumber(x1, y, w), RectSeedB(x1, y, w, h))
    {
      PixelInBuffer(x, y, w, h);
      var pixelIndex := (y * w + x) * 4;
      pixels[pixelIndex] := 1.0;
      pixels[pixelIndex + 1] := 0.0;
      pixels[pixelIndex + 2] := 0.0;
      pixels[pixelIndex + 3] := 1.0;
      if y > h2 - 20 && y < h2 + 20 && x > w2 - 20 && x < w2 + 20 {
        pixels[pixelIndex + 1] := 1.0;
        pixels[pixelIndex + 2] := 0.0;
      }
      forall x1, y1 | 0 <= x1 < w && 0 <= y1 < y
        ensures SeededPixel(pixels, PixelNumber(x1, y1, w), RectSeedB(x1, y1, w, h))
      {
        PixelOrder(x1, y1, x, y, w);
        assert old(SeededPixel(pixels, PixelNumber(x1, y1, w), RectSeedB(x1, y1, w, h)));
      }
      forall x1 | 0 <= x1 < x
        ensures SeededPixel(pixels, PixelNumber(x1, y, w), RectSeedB(x1, y, w, h))
      {
        PixelOrder(x1, y, x, y, w);
        assert old(SeededPixel(pixels, PixelNumber(x1, y, w), RectSeedB(x1, y, w, h)));
      }
    }

    /**
     * `updateRenderTargetTexture`: the bypass material renders `texture`
     * into target t; afterwards the compute material is back on the mesh,
     * the output is the canvas and the bypass texture is cleared.
     */
    method UpdateRenderTargetTexture(t: int, texture: seq<real>)
      requires Valid() && (t == 0 || t == 1) && |texture| == BufferSize
      modifies this`computeRenderTargets, this`meshMaterial, this`bypassTexture, this`renderTarget
      ensures Valid() && computeRenderTargets == old(computeRenderTargets)[t := texture]
      ensures meshMaterial == ComputeMaterial && bypassTexture == None && renderTarget == None
    {
      bypassTexture := Some(texture);
      meshMaterial := BypassMaterial;
      renderTarget := Some(t);
      RenderComputeScene(image => image);
      renderTarget := None;
      meshMaterial := ComputeMaterial;
      bypassTexture := None;
    }

    /**
     * One render of the compute scene into the current output target: with
     * the bypass material it copies the bypass texture, with the compute
     * material it applies `shader` to the sampled target.
     */
    method RenderComputeScene(shader: seq<real> -> seq<real>)
      requires |computeRenderTargets| == 2 && renderTarget.Some? && (renderTarget.value == 0 || renderTarget.value == 1)
      requires meshMaterial == BypassMaterial ==> bypassTexture.Some?
      requires meshMaterial == ComputeMaterial ==> computeTexture.Some? && (computeTexture.value == 0 || computeTexture.value == 1)
      modifies this`computeRenderTargets
      ensures computeRenderTargets == old(computeRenderTargets)[renderTarget.value :=
                if meshMaterial == BypassMaterial then bypassTexture.value
                else shader(old(computeRenderTargets)[computeTexture.value])]
    {
      var image := if meshMaterial == BypassMaterial then bypassTexture.value
                   else shader(computeRenderTargets[computeTexture.value]);
      computeRenderTargets := computeRenderTargets[renderTarget.value := image];
    }

    /**
     * `compute`: 20 steps, each sampling the current target and rendering
     * `shader` into the other one, then swapping.  The index ends where it
     * started, the current target holds 20 renders of the shader applied to
     * its old contents and the other one holds 19; the render material then
     * samples the current target and the output goes back to the canvas.
     */
    method Compute(shader: seq<real> -> seq<real>)
      requires Valid() && RendersFullTarget(shader)
      modifies this`computeRenderTargets, this`currentRenderTargetIndex, this`computeTexture, this`renderTexture, this`renderTarget
      ensures Valid()
      ensures currentRenderTargetIndex == old(currentRenderTargetIndex) == IndexAfter(old(currentRenderTargetIndex), ComputeStepsInFrame)
      ensures computeRenderTargets[currentRenderTargetIndex] ==
                Steps(shader, old(computeRenderTargets[currentRenderTargetIndex]), ComputeStepsInFrame)
      ensures computeRenderTargets[1 - currentRenderTargetIndex] ==
                Steps(shader, old(computeRenderTargets[currentRenderTargetIndex]), ComputeStepsInFrame - 1)
      ensures renderTexture == Some(currentRenderTargetIndex) && renderTarget == None
    {
      ghost var start := currentRenderTargetIndex;
      ghost var seed := computeRenderTargets[start];
      var i := 0;
      while i < ComputeStepsInFrame
        invariant 0 <= i <= ComputeStepsInFrame && Valid()
        invariant currentRenderTargetIndex == IndexAfter(start, i)
        invariant computeRenderTargets[currentRenderTargetIndex] == Steps(shader, seed, i)
        invariant i > 0 ==> computeRenderTargets[1 - currentRenderTargetIndex] == Steps(shader, seed, i - 1)
      {
        var nextRenderTargetIndex := NextTarget(currentRenderTargetIndex);
        computeTexture := Some(currentRenderTargetIndex);
        renderTarget := Some(nextRenderTargetIndex);
        RenderComputeScene(shader);
        currentRenderTargetIndex := nextRenderTargetIndex;
        i := i + 1;
      }
      renderTexture := Some(currentRenderTargetIndex);
      renderTarget := None;
    }

    /** `updateSize`: resolution follows the container; the mesh comes closer on narrow screens but never below z = 0.8. */
    method UpdateSize(width: real, height: real)
      requires width >= 0.0 && height >= 0.0
      modifies this`resolution, this`renderMeshZ
      ensures resolution == Vec2(width, height)
      ensures renderMeshZ >= 0.8
      ensures width > 0.0 ==> renderMeshZ == Max(1.5 - 1000.0 / width, 0.8)
      ensures width <= 1000.0 / 0.7 ==> renderMeshZ == 0.8
    {
      resolution := Vec2(width, height);
      // 1000 / 0 is Infinity in the source, so the maximum picks 0.8.
      renderMeshZ := if width == 0.0 then 0.8 else Max(1.5 - 1000.0 / width, 0.8);
      if 0.0 < width <= 1000.0 / 0.7 {
        assert 1000.0 / width >= 0.7 by {
          assert width * 0.7 <= 1000.0;
        }
      }
    }

    method PointerMove(clientX: real, clientY: real, innerWidth: real, innerHeight: real)
      requires innerWidth > 0.0 && innerHeight > 0.0
      modifies this`pointerPosition
      ensures pointerPosition == Vec2(clientX / innerWidth * 2.0 - 1.0, -(clientY / innerHeight) * 2.0 + 1.0)
    {
      pointerPosition := Vec2(clientX / innerWidth * 2.0 - 1.0, -(clientY / innerHeight) * 2.0 + 1.0);
    }

    method PointerDown()
      modifies this`isPointerDown
      ensures isPointerDown
    {
      isPointerDown := true;
    }

    method PointerUp()
      modifies this`isPointerDown
      ensures !isPointerDown
    {
      isPointerDown := false;
    }

    /**
     * One frame, with `uv` the texture coordinate of the pointer ray's hit
     * on the render mesh: a hit is passed to the compute shader in [-1, 1]
     * coordinates with the button state, the scene eases a sixteenth of the
     * way towards the pointer's tilt, one `compute` runs and the time
     * advances by 0.05 in both materials.
     */
    method Animate(uv: Option<Vec2>, shader: seq<real> -> seq<real>)
      requires Valid() && RendersFullTarget(shader)
      modifies this`renderMeshPointerPosition, this`computePointer, this`computeIsPointerDown, this`sceneRotation
      modifies this`computeRenderTargets, this`currentRenderTargetIndex, this`computeTexture, this`renderTexture, this`renderTarget
      modifies this`computeTime, this`renderTime
      ensures Valid()
      ensures old(isDestroyed) ==> unchanged(this)
      ensures !old(isDestroyed) ==>
        && computeRenderTargets[currentRenderTargetIndex] ==
             Steps(shader, old(computeRenderTargets[currentRenderTargetIndex]), ComputeStepsInFrame)
        && currentRenderTargetIndex == old(currentRenderTargetIndex)
        && (uv.Some? ==> computePointer == Vec3(uv.value.x * 2.0 - 1.0, uv.value.y * 2.0 - 1.0, 0.0) &&
                         computeIsPointerDown == isPointerDown)
        && (uv.None? ==> computePointer == old(computePointer) && computeIsPointerDown == old(computeIsPointerDown))
        && sceneRotation == Vec2(Approach(old(sceneRotation.x), -pointerPosition.y / 20.0, 16.0),
                                 Approach(old(sceneRotation.y), pointerPosition.x / 20.0, 16.0))
        && computeTime == old(computeTime) + 0.05 && renderTime == computeTime
    {
      if isDestroyed { return; }
      Steer(uv);
      Compute(shader);
      Render();
    }

    /** The pointer part of a frame: the hit goes to the compute shader, and the scene eases towards the pointer. */
    method Steer(uv: Option<Vec2>)
      modifies this`renderMeshPointerPosition, this`computePointer, this`computeIsPointerDown, this`sceneRotation
      ensures uv.Some? ==> computePointer == Vec3(uv.value.x * 2.0 - 1.0, uv.value.y * 2.0 - 1.0, 0.0) &&
                           computeIsPointerDown == isPointerDown
      ensures uv.None? ==> computePointer == old(computePointer) && computeIsPointerDown == old(computeIsPointerDown)
      ensures sceneRotation == Vec2(Approach(old(sceneRotation.x), -pointerPosition.y / 20.0, 16.0),
                                    Approach(old(sceneRotation.y), pointerPosition.x / 20.0, 16.0))
    {
      if uv.Some? {
        renderMeshPointerPosition := Vec3(uv.value.x * 2.0 - 1.0, uv.value.y * 2.0 - 1.0, 0.0);
        computePointer := renderMeshPointerPosition;
        computeIsPointerDown := isPointerDown;
      }
      sceneRotation := Vec2(sceneRotation.x + (-pointerPosition.y / 20.0 - sceneRotation.x) / 16.0,
                            sceneRotation.y + (pointerPosition.x / 20.0 - sceneRotation.y) / 16.0);
    }

    /** `render`: the compute time advances by 0.05 and the render material shares it. */
    method Render()
      modifies this`computeTime, this`renderTime
      ensures computeTime == old(computeTime) + 0.05 && renderTime == computeTime
    {
      computeTime := computeTime + 0.05;
      renderTime := computeTime;
    }

    method Destroy()
      modifies this`isDestroyed
      ensures isDestroyed
    {
      isDestroyed := true;
    }
  }
}
