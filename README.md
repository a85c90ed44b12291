# Shader playground sketches in Dafny

The shader playground is a gallery of small WebGL sketches, written in
TypeScript on three.js and shown inside an Angular application. Most of
every sketch is plumbing: it loads assets, builds a scene and hands uniforms
to GLSL shaders. Each sketch also holds a small amount of plain, sequential
logic that runs once at setup or on every frame. This project models that
logic and proves what it computes. The logic is:

- pointer followers, springs and progress easing (displacement, ray
  marching, both mouse-distortion sketches, ripple transition, instanced
  mesh, evil spaghetti, ribbon);
- ring and grid buffer indexing that refills Float32 buffers in place
  (particles 2 and 3, the 32 x 32 offset texture, the reaction-diffusion
  seeds, the instanced-mesh layout loops);
- the ribbon's chain of joints, which shifts a shared vertex buffer by one
  joint per frame;
- small state machines: the reaction-diffusion ping-pong index, the
  Voronoi hover, the image-transition texture pair and the ferrofluid
  focus;
- pairwise forces: the Voronoi minimum-distance constraints, and the
  matter.js attractors plugin with its gravity attractor;
- the cover-fit helper `getCoverAspectRatio`, which five sketches carry in
  identical copies; it is modelled once, as `CoverFit.CoverAspectRatio`.
  The copies in mouse-distortion-1, mouse-distortion-2, instanced-mesh-1 and
  particles-3 only pass their sizes' aspect ratios to it, so they have no
  member of their own. The image-transition copy is kept as
  `ImageTransition.GetCoverAspectRatio`, because the texture-loading
  contracts there are stated through it.

There is one Dafny module per sketch source file, plus three shared modules:

- `Vectors`: 2- and 3-vectors as values, and arithmetic lemmas;
- `Optional`: values that may be `undefined`;
- `CoverFit`: the shared cover-fit helper.

The modules follow the form of the code they model:

- A sketch class whose fields change becomes a Dafny `class`. Its methods
  have `modifies` clauses and state each field's new value.
- A Float32 buffer that is written in place becomes an `array`.
- A loop becomes a `while` loop with invariants, proved against a function
  that specifies the result.
- Pure helpers (easing curves, cover fit, force laws, curl) become
  functions, with lemmas for the properties the sketch relies on.

The following are parameters of the model, with the predicates they must
satisfy:

- noise: `SimplexNoise.noise3d` and `noise.simplex2`;
- `Math.random` draws;
- raycast hits;
- square roots and vector lengths: `IsLength` and `IsHypot` state that the
  argument is the Euclidean length;
- trigonometric directions;
- the GPU render of a shader.

## Model

| member | source | states |
|---|---|---|
| CoverFit.CoverAspectRatio | src/app/mouse-distortion-1/mouse-distortion-sketch.ts:136-140 | a wider image is cropped horizontally, any other vertically: one component is 1, the other in (0, 1], and the sampled part has the container's aspect ratio |
| CoverFit.Aspect | src/app/mouse-distortion-1/mouse-distortion-sketch.ts:132-134 | the aspect is a positive ratio width / height |
| MouseDistortion1.NextTracker | src/app/mouse-distortion-1/mouse-distortion-sketch.ts:116-117 | the tracker keeps 19/20 of its gap to the pointer |
| MouseDistortion1.NextVelocity | src/app/mouse-distortion-1/mouse-distortion-sketch.ts:118-121 | the velocity keeps a third of its gap to the lag between the pointer and the updated tracker |
| MouseDistortion1.RestIsFixed | src/app/mouse-distortion-1/mouse-distortion-sketch.ts:116-121 | a tracker on the pointer with zero velocity stays at rest |
| MouseDistortion1.MouseDistortionSketch.constructor | src/app/mouse-distortion-1/mouse-distortion-sketch.ts:28-30 | pointer, tracker and velocity start at the origin |
| MouseDistortion1.MouseDistortionSketch.MouseMove | src/app/mouse-distortion-1/mouse-distortion-sketch.ts:89-92 | the pointer is stored with y measured up from the canvas bottom |
| MouseDistortion1.MouseDistortionSketch.Animate | src/app/mouse-distortion-1/mouse-distortion-sketch.ts:113-124 | time advances, then the tracker and the velocity take one easing step each |
| Displace.NextProgress | src/app/displace-1/displace-1-sketch.ts:122-123 | one frame keeps 0.8 of the gap to the target and never overshoots it |
| Displace.ProgressAfterGap | src/app/displace-1/displace-1-sketch.ts:122-123 | after n frames with a fixed target the gap is 0.8^n times the first gap |
| Displace.Displace1Sketch.constructor | src/app/displace-1/displace-1-sketch.ts:62-64 | the target and the progress uniform start at 0, time at 1 |
| Displace.Displace1Sketch.PointerDown | src/app/displace-1/displace-1-sketch.ts:95-97 | the target becomes 1 |
| Displace.Displace1Sketch.PointerUp | src/app/displace-1/displace-1-sketch.ts:99-101 | the target becomes 0 |
| Displace.Displace1Sketch.Animate | src/app/displace-1/displace-1-sketch.ts:118-124 | time advances and the progress closes a fifth of the gap, staying in [0, 1] |
| Displace.Displace1Sketch.Render | src/app/displace-1/displace-1-sketch.ts:128-131 | time advances by 0.05 |
| RayMarching.ClampedSize | src/app/ray-marching-1/ray-marching-1-sketch.ts:91-92 | the rendered size never exceeds 900 and equals the container size up to 900 |
| RayMarching.CameraAspect | src/app/ray-marching-1/ray-marching-1-sketch.ts:98 | the aspect is width / height, defined exactly when the height is not 0 |
| RayMarching.NextMouse | src/app/ray-marching-1/ray-marching-1-sketch.ts:106-109 | the mouse uniform keeps 7/8 of its gap to the pointer on each axis |
| RayMarching.RayMarchingSketch.constructor | src/app/ray-marching-1/ray-marching-1-sketch.ts:64-80 | the canvas starts at the capped container size, mouse and mouse uniform at 0, time 1 |
| RayMarching.RayMarchingSketch.UpdateSize | src/app/ray-marching-1/ray-marching-1-sketch.ts:90-101 | width and height become the capped container size, the resolution uniform copies them and the camera aspect is their ratio |
| RayMarching.RayMarchingSketch.PointerMove | src/app/ray-marching-1/ray-marching-1-sketch.ts:66-69 | the pointer position is stored |
| RayMarching.RayMarchingSketch.Animate | src/app/ray-marching-1/ray-marching-1-sketch.ts:103-114 | nothing changes once destroyed; otherwise the mouse uniform eases by 1/8 and time advances |
| RayMarching.RayMarchingSketch.Render | src/app/ray-marching-1/ray-marching-1-sketch.ts:116-119 | time advances by 0.05 |
| RayMarching.RayMarchingSketch.Destroy | src/app/ray-marching-1/ray-marching-1-sketch.ts:121-123 | the sketch is marked destroyed |
| RippleTransition.EaseFixedPoints | src/app/ripple-transition/ripple-transition-sketch.ts:167-171 | the quintic ease maps 0 to 0 and 1 to 1, and both branches give 0.5 at x = 0.5 |
| RippleTransition.EaseHalves | src/app/ripple-transition/ripple-transition-sketch.ts:167-171 | on [0, 1] the ease stays in [0, 1] and is below 0.5 exactly when x is |
| RippleTransition.EaseMonotone | src/app/ripple-transition/ripple-transition-sketch.ts:167-171 | the ease never decreases on [0, 1] |
| RippleTransition.EaseSymmetric | src/app/ripple-transition/ripple-transition-sketch.ts:167-171 | e(1 - x) = 1 - e(x) for every x |
| RippleTransition.NextProgressLinear | src/app/ripple-transition/ripple-transition-sketch.ts:149-154 | the new linear progress is old + 0.02 (held) or old - 0.07 (released), clamped to [0, 1] |
| RippleTransition.TextureScalingIsCoverFit | src/app/ripple-transition/ripple-transition-sketch.ts:125-138 | the inline video and image scaling equals the shared cover fit: one component 1, the other in (0, 1] |
| RippleTransition.RippleTransitionSketch.constructor | src/app/ripple-transition/ripple-transition-sketch.ts:32-37 | all progress values start at 0, pointer up, not destroyed, time 1 |
| RippleTransition.RippleTransitionSketch.PointerDown | src/app/ripple-transition/ripple-transition-sketch.ts:106-108 | the pointer is marked as held |
| RippleTransition.RippleTransitionSketch.PointerUp | src/app/ripple-transition/ripple-transition-sketch.ts:109-111 | the pointer is marked as released |
| RippleTransition.RippleTransitionSketch.UpdateSize | src/app/ripple-transition/ripple-transition-sketch.ts:116-141 | both texture scalings become the cover fit of the texture into the canvas |
| RippleTransition.RippleTransitionSketch.Animate | src/app/ripple-transition/ripple-transition-sketch.ts:146-162 | nothing changes once destroyed; otherwise progress stays in [0, 1], is the eased linear progress, and the noise progress equals it (held) or keeps 0.9 of its gap (released) |
| RippleTransition.RippleTransitionSketch.Render | src/app/ripple-transition/ripple-transition-sketch.ts:173-175 | time advances by 0.05 |
| RippleTransition.RippleTransitionSketch.Destroy | src/app/ripple-transition/ripple-transition-sketch.ts:178-180 | the sketch is marked destroyed |
| Gradient.WaveLayers | src/app/gradient-1/gradient-1-sketch.ts:103-111 | one layer per colour, in order, keeping the colour and taking its frequencies, speed, flow, seed, floor and ceiling from its position |
| Gradient.SketchWaveLayers | src/app/gradient-1/gradient-1-sketch.ts:102-111 | for the four colours the frequencies stay below (0.5, 1.5), every ceiling lies above the floor 0.1 and at most 1.04, the ceilings rise with the position and the last seed is 30 |
| Gradient.FlattenAt | src/app/gradient-1/gradient-1-sketch.ts:144-148 | the flattened ramp of RGB colours has 3 bytes per colour and byte 3k + c is channel c of colour k |
| Gradient.ToUint8 | src/app/gradient-1/gradient-1-sketch.ts:144 | the byte conversion lands in 0..255 and keeps values already in range |
| Gradient.ToUint8Array | src/app/gradient-1/gradient-1-sketch.ts:144-148 | every element is converted to a byte, the length is kept |
| Gradient.ColorRampData | src/app/gradient-1/gradient-1-sketch.ts:143-148 | the ramp texture data is 15 bytes and byte 3k + c is channel c of ramp colour k, unchanged by the byte conversion |
| Gradient.RampBytes | src/app/gradient-1/gradient-1-sketch.ts:143-148 | every channel of the five ramp colours is already in 0..255, so the `Uint8Array` conversion keeps them |
| Gradient.Gradient1Sketch.constructor | src/app/gradient-1/gradient-1-sketch.ts:103-115 | time starts at 1 and the wave layers are those of the four noise colours |
| Gradient.Gradient1Sketch.Animate | src/app/gradient-1/gradient-1-sketch.ts:194-201 | nothing once destroyed; otherwise time advances by 0.05 |
| Gradient.Gradient1Sketch.Render | src/app/gradient-1/gradient-1-sketch.ts:203-207 | time advances by 0.05 |
| Gradient.Gradient1Sketch.Destroy | src/app/gradient-1/gradient-1-sketch.ts:209-211 | the sketch is marked destroyed |
| ImageTransition.GetCoverAspectRatio | src/app/image-transition-1/image-transition-1-sketch.ts:136-145 | one component is 1 and the other in (0, 1]; x is 1 exactly when the texture is not wider than the container |
| ImageTransition.ImageTransition1Sketch.TextureAt | src/app/image-transition-1/image-transition-1-sketch.ts:127 | only indices 0, 1 and 2 name a loaded texture, t1, t2 and t3 |
| ImageTransition.ImageTransition1Sketch.constructor | src/app/image-transition-1/image-transition-1-sketch.ts:46-53 | the three textures are loaded, no uniforms exist yet and the pair is unset |
| ImageTransition.ImageTransition1Sketch.Init | src/app/image-transition-1/image-transition-1-sketch.ts:64-76 | the pair becomes (t1, t2), the texture uniforms hold it and both cover fits are computed |
| ImageTransition.ImageTransition1Sketch.UpdateSize | src/app/image-transition-1/image-transition-1-sketch.ts:103-111 | the cover fits follow the new container size; an undefined texture throws after the assignments before it |
| ImageTransition.ImageTransition1Sketch.SetImage | src/app/image-transition-1/image-transition-1-sketch.ts:123-134 | nothing before init; afterwards the old target becomes the source, texture index + 1 the target, the uniforms follow, and an index outside 0..2 throws at the second cover fit |
| ImageTransitionComponent.IndexOfChild | src/app/image-transition-1/image-transition-1.component.ts:87-90 | the result is the first position holding the target, or the number of children when it is absent |
| ImageTransitionComponent.FindChildIndex | src/app/image-transition-1/image-transition-1.component.ts:87-90 | the counting loop stops at the first position of the target, or at the end |
| ImageTransitionComponent.ImageTransition1Component.constructor | src/app/image-transition-1/image-transition-1.component.ts:65-68 | the component holds its sketch |
| ImageTransitionComponent.ImageTransition1Component.OnMouseOver | src/app/image-transition-1/image-transition-1.component.ts:84-94 | with a target inside a parent, `setImage` runs once with the target's position among the children; otherwise the sketch is untouched |
| InstancedMesh.SlotCoords | src/app/instanced-mesh-1/instanced-mesh-1-sketch.ts:230-236 | the counter value of grid position (x, y) is a slot in 0..899 from which x and y are recovered |
| InstancedMesh.SlotOfCoords | src/app/instanced-mesh-1/instanced-mesh-1-sketch.ts:230-236 | every slot in 0..899 is the counter value of exactly one grid position |
| InstancedMesh.InitLines | src/app/instanced-mesh-1/instanced-mesh-1-sketch.ts:279-294 | 120 points, four per offset in [-15, 15): a horizontal segment from x = -5 to 5 and a vertical one from y = -5 to 5, all at z = 0 |
| InstancedMesh.IsLandscape | src/app/instanced-mesh-1/instanced-mesh-1-sketch.ts:309 | the test width / height > 1 holds exactly when the width exceeds the height, also for a zero height |
| InstancedMesh.RatioAboveOne | src/app/instanced-mesh-1/instanced-mesh-1-sketch.ts:309 | for a positive height, width / height > 1 exactly when width > height |
| InstancedMesh.UnitFraction | src/app/instanced-mesh-1/instanced-mesh-1-sketch.ts:131-132 | a coordinate inside the window is a fraction of its extent in [0, 1] |
| InstancedMesh.NextFollower | src/app/instanced-mesh-1/instanced-mesh-1-sketch.ts:160-161 | the follower keeps 14/15 of its gap to the pointer |
| InstancedMesh.InstancedMesh1Sketch.constructor | src/app/instanced-mesh-1/instanced-mesh-1-sketch.ts:55-59 | buffers of 900 matrices and 2700 numbers, pointer and follower at the origin, camera aspect from the container |
| InstancedMesh.InstancedMesh1Sketch.InitSquares | src/app/instanced-mesh-1/instanced-mesh-1-sketch.ts:229-237 | every one of the 900 instance slots is written, slot of (x, y) with the translation (x, y) * SQUARE_SIZE at z = 0 |
| InstancedMesh.InstancedMesh1Sketch.InitPoints | src/app/instanced-mesh-1/instanced-mesh-1-sketch.ts:251-262 | all 2700 numbers are written: point c's x and y sit half a square down-left of its square, nudged by 0.0015, and z = 0 |
| InstancedMesh.InstancedMesh1Sketch.InitLinesField | src/app/instanced-mesh-1/instanced-mesh-1-sketch.ts:272-301 | the line geometry holds the 120 grid-line points |
| InstancedMesh.InstancedMesh1Sketch.FocusObject | src/app/instanced-mesh-1/instanced-mesh-1-sketch.ts:304-316 | in landscape the x scale becomes the camera aspect, otherwise the y scale its inverse; the other component is kept |
| InstancedMesh.InstancedMesh1Sketch.PointerMove | src/app/instanced-mesh-1/instanced-mesh-1-sketch.ts:130-133 | the pointer is stored in normalised device coordinates with y up, inside [-1, 1] for a pointer inside the window |
| InstancedMesh.InstancedMesh1Sketch.Animate | src/app/instanced-mesh-1/instanced-mesh-1-sketch.ts:157-184 | the follower eases by 1/15, the squares take the ray hit when there is one, the scene rotation is a tenth of the follower with y negated, and all three times advance |
| MouseDistortion2.TexelIndices | src/app/mouse-distortion-2/mouse-distortion-2-sketch.ts:157-158 | the row/column split of texel i is in range, recombines to i, and `getDataTextureIndices` of it is [3i, 3i + 1, 3i + 2] (lines 223-226) |
| MouseDistortion2.MakeStroke | src/app/mouse-distortion-2/mouse-distortion-2-sketch.ts:131-146 | the pointer movement is clamped to [-1, 1], the pointer texel is the floor of 32 times its position, and the aspect correction scales x by at most 1 and y by at least 1 |
| MouseDistortion2.ProductWithinOne | src/app/mouse-distortion-2/mouse-distortion-2-sketch.ts:162-166 | a clamped movement times a falloff in [0, 1] stays in [-1, 1] |
| MouseDistortion2.NextValueBound | src/app/mouse-distortion-2/mouse-distortion-2-sketch.ts:153-167 | one frame keeps every channel within 100/7: decay by 0.93 plus an injection of magnitude at most 1 |
| MouseDistortion2.BlueOnlyDecays | src/app/mouse-distortion-2/mouse-distortion-2-sketch.ts:155 | the blue channel only decays by 0.93, so it stays 0 once 0 |
| MouseDistortion2.MouseDistortion2Sketch.constructor | src/app/mouse-distortion-2/mouse-distortion-2-sketch.ts:199-209 | no pointer yet and a buffer of 3 * 32 * 32 zeros |
| MouseDistortion2.MouseDistortion2Sketch.PointerMove | src/app/mouse-distortion-2/mouse-distortion-2-sketch.ts:98-107 | the pointer is stored as a fraction of the canvas with y up; the first event also sets the previous position |
| MouseDistortion2.MouseDistortion2Sketch.Animate | src/app/mouse-distortion-2/mouse-distortion-2-sketch.ts:128-180 | before any pointer event the buffer is untouched; afterwards every entry takes one decay-and-inject step, the previous pointer equals the pointer, the bound 100/7 is kept, and time advances |
| MouseDistortion2.MouseDistortion2Sketch.UpdateTexels | src/app/mouse-distortion-2/mouse-distortion-2-sketch.ts:148-172 | every one of the 3072 entries becomes its decayed and injected value, within 100/7 |
| MouseDistortion2.MouseDistortion2Sketch.TexelStep | src/app/mouse-distortion-2/mouse-distortion-2-sketch.ts:149-167 | red, green and blue of texel i become their next values for the stroke |
| MouseDistortion2.MouseDistortion2Sketch.Render | src/app/mouse-distortion-2/mouse-distortion-2-sketch.ts:182-185 | time advances by 0.05 |
| Particles2.Speed | src/app/particles-2/particles-2-sketch.ts:149 | the speed is 3 for the first two paths and 8 for every later one |
| Particles2.PointCount | src/app/particles-2/particles-2-sketch.ts:154 | a path of length len gets floor(len / 0.4) points: n * 0.4 <= len < (n + 1) * 0.4 |
| Particles2.FractionInUnit | src/app/particles-2/particles-2-sketch.ts:161-164 | a coordinate inside the SVG canvas is a fraction of its side in [0, 1] |
| Particles2.PathPointRange | src/app/particles-2/particles-2-sketch.ts:159-169 | a logo point lands within 0.0025 of the square [-1, 1]^2 at z = 0, with x mirrored |
| Particles2.AdvanceLine | src/app/particles-2/particles-2-sketch.ts:242-243 | the cursor becomes (cursor + speed) mod the point count and stays on the line; points, speed and opacities are kept |
| Particles2.AdvanceWraps | src/app/particles-2/particles-2-sketch.ts:242-243 | with the cursor on the line and a speed up to its length, the cursor moves forward by the speed and wraps at most once |
| Particles2.AdvanceLineValid | src/app/particles-2/particles-2-sketch.ts:242-243 | a well-formed line stays well formed after a frame |
| Particles2.AdvanceLines | src/app/particles-2/particles-2-sketch.ts:241-243 | every line advances once and no other change is made |
| Particles2.SampleIndex | src/app/particles-2/particles-2-sketch.ts:246-248 | every sampled index (cursor + i) mod the point count is a valid index of the points and opacities |
| Particles2.ParticleOpacityRange | src/app/particles-2/particles-2-sketch.ts:253-256 | particle 0 of a window is invisible and no particle is brighter than its point |
| Particles2.SampleLengthRange | src/app/particles-2/particles-2-sketch.ts:155-158 | the n sample lengths start at 0, are spaced len / n apart and stay below the path length |
| Particles2.Particles2Sketch.constructor | src/app/particles-2/particles-2-sketch.ts:143 | no lines and empty buffers, time 1, not destroyed |
| Particles2.Particles2Sketch.InitPoints | src/app/particles-2/particles-2-sketch.ts:131-197 | one line per path with its speed, cursor 0 and floor(len / 0.4) jittered points and opacities; buffers of 3 * lines * 300 zeros and lines * 300 random opacities |
| Particles2.Particles2Sketch.InitLine | src/app/particles-2/particles-2-sketch.ts:146-171 | the line of one path: its speed, cursor 0, and point i taken at length i / n * len, mapped and jittered, with a random opacity |
| Particles2.Particles2Sketch.AnimateLines | src/app/particles-2/particles-2-sketch.ts:239-265 | every cursor advances, and slot k * 300 + i of both buffers holds the x, y, z and faded opacity of the point particle i of line k shows |
| Particles2.Particles2Sketch.WriteParticle | src/app/particles-2/particles-2-sketch.ts:246-257 | slot `count` receives its sampled point's coordinates and faded opacity, earlier slots are kept |
| Particles2.Particles2Sketch.FillLine | src/app/particles-2/particles-2-sketch.ts:245-258 | the 300 particles of line k fill slots k * 300 .. k * 300 + 299 of both buffers, earlier slots kept |
| Particles2.Particles2Sketch.Animate | src/app/particles-2/particles-2-sketch.ts:228-237 | nothing once destroyed; otherwise the lines advance, slot k * 300 + i of both buffers holds the x, y, z and faded opacity of the point particle i of the advanced line k shows, and time advances by 0.05 |
| Particles2.Particles2Sketch.Destroy | src/app/particles-2/particles-2-sketch.ts:272-274 | the sketch is marked destroyed |
| Particles3.GridSize | src/app/particles-3/particles-3-sketch.ts:65-73 | the long side gets 140 cells and the short side floor(140 / aspect) or floor(140 * aspect), never more than 140 |
| Particles3.CellSize | src/app/particles-3/particles-3-sketch.ts:74 | for every such grid 1 / max(rows, cols) is 1/140 |
| Particles3.SlotSplit | src/app/particles-3/particles-3-sketch.ts:375-376 | px = floor(i / rows), py = i - px * rows recovers column x and row y from slot x * rows + y |
| Particles3.SlotCell | src/app/particles-3/particles-3-sketch.ts:375-376 | every slot below rows * cols splits into a column below cols and a row below rows that recombine to it |
| Particles3.CellSlot | src/app/particles-3/particles-3-sketch.ts:228-245 | every cell of the grid gets a slot inside the grid |
| Particles3.FractionBelowOne | src/app/particles-3/particles-3-sketch.ts:236-239 | a cell coordinate over the grid side lies in [0, 1) |
| Particles3.FlipIsBijection | src/app/particles-3/particles-3-sketch.ts:266-267 | the source index j + (rows - k - 1) * cols stays inside the image, reads column j of the vertically flipped row, and no two slots read the same pixel |
| Particles3.MakeTrail | src/app/particles-3/particles-3-sketch.ts:353-361 | the pointer movement is clamped to [-1, 1] and the pointer cell is the floor of the plane position times the grid size |
| Particles3.TrailValueBounds | src/app/particles-3/particles-3-sketch.ts:370-387 | a step keeps every value at most 0.99 and non-negative values non-negative; without a nearby moving pointer the value only decays by 0.98, with one it gains over the decay unless capped |
| Particles3.NextNoiseStrength | src/app/particles-3/particles-3-sketch.ts:315-316 | the noise strength keeps 7/8 of its gap to the target and never overshoots it |
| Particles3.FocusTarget | src/app/particles-3/particles-3-sketch.ts:402-404 | the target is 0.18 while focused and 1 otherwise |
| Particles3.Particles3Sketch.constructor | src/app/particles-3/particles-3-sketch.ts:57-77 | the grid follows the container's aspect, the cell size is 1/140, every instance value is 0 and the noise strength and its target are 1 |
| Particles3.Particles3Sketch.InitInstances | src/app/particles-3/particles-3-sketch.ts:225-245 | every one of the rows * cols slots is laid out once: slot x * rows + y sits at (x, y) times the cell size with `a_index` (x / cols, y / rows) in [0, 1) |
| Particles3.Particles3Sketch.LayOutSlot | src/app/particles-3/particles-3-sketch.ts:231-243 | slot x * rows + y is laid out and the earlier slots are kept |
| Particles3.Particles3Sketch.InitImageColors | src/app/particles-3/particles-3-sketch.ts:260-280 | every slot receives the four channels, scaled to [0, 1], of the vertically flipped image pixel under it |
| Particles3.Particles3Sketch.CopyPixel | src/app/particles-3/particles-3-sketch.ts:266-278 | slot j * rows + k receives its pixel's four channels and the earlier slots are kept |
| Particles3.Particles3Sketch.SetFocus | src/app/particles-3/particles-3-sketch.ts:402-404 | the noise target becomes 0.18 when focused and 1 otherwise |
| Particles3.Particles3Sketch.UpdatePointer | src/app/particles-3/particles-3-sketch.ts:327-339 | a ray hit shifted by half the plane becomes the plane position and the first hit also the previous one; without a hit nothing changes |
| Particles3.Particles3Sketch.Animate | src/app/particles-3/particles-3-sketch.ts:309-325 | nothing once destroyed; otherwise the pointer update, the 1/8 noise easing and the time step; before any hit the instance values stay, afterwards each takes its trail value for the move from the previous plane position (the new one on the first hit) to the new one, every value staying in [0, 0.99] |
| Particles3.Particles3Sketch.AnimatePointerTrail | src/app/particles-3/particles-3-sketch.ts:350-391 | before a previous plane position exists nothing changes; afterwards every instance takes one trail step and the previous position catches up |
| Particles3.Particles3Sketch.TrailStep | src/app/particles-3/particles-3-sketch.ts:371-386 | one instance's value decays, gains a tenth of the falloff when the moving pointer is within 10 cells, and is capped at 0.99 |
| Particles3.Particles3Sketch.Destroy | src/app/particles-3/particles-3-sketch.ts:398-400 | the sketch is marked destroyed |
| ReactionDiffusion.NextTarget | src/app/reaction-diffusion-1/reaction-diffusion-1-sketch.ts:290-291 | the next render target is 1 from 0 and 0 otherwise |
| ReactionDiffusion.NextTargetFlips | src/app/reaction-diffusion-1/reaction-diffusion-1-sketch.ts:290-301 | an index of 0 or 1 flips with every step and is back after two |
| ReactionDiffusion.IndexAfter | src/app/reaction-diffusion-1/reaction-diffusion-1-sketch.ts:289-302 | after n steps the index is 0 or 1, and equals its start exactly when n is even |
| ReactionDiffusion.PixelInBuffer | src/app/reaction-diffusion-1/reaction-diffusion-1-sketch.ts:347-349 | the four floats of every pixel (y * w + x) * 4 lie inside the 4wh buffer |
| ReactionDiffusion.PixelOrder | src/app/reaction-diffusion-1/reaction-diffusion-1-sketch.ts:347-349 | pixels are numbered row by row, so an earlier pixel in reading order has a smaller number |
| ReactionDiffusion.RectSeedB | src/app/reaction-diffusion-1/reaction-diffusion-1-sketch.ts:392-395 | chemical B is 1 exactly in the open square h2 - 20 < y < h2 + 20, w2 - 20 < x < w2 + 20, and 0 elsewhere |
| ReactionDiffusion.ReactionDiffusionSketch.constructor | src/app/reaction-diffusion-1/reaction-diffusion-1-sketch.ts:187-202 | two cleared 256 x 256 targets, index 0, and target 0 seeded with A = 1, B = 0, alpha 1 everywhere |
| ReactionDiffusion.ReactionDiffusionSketch.ReadPixels | src/app/reaction-diffusion-1/reaction-diffusion-1-sketch.ts:316-338 | a fresh buffer with a copy of the target's pixels |
| ReactionDiffusion.ReactionDiffusionSketch.InitialSeed | src/app/reaction-diffusion-1/reaction-diffusion-1-sketch.ts:340-357 | every pixel of the target becomes (1, 0, 0, 1), the other target is untouched, and the compute material is restored |
| ReactionDiffusion.ReactionDiffusionSketch.RectSeed | src/app/reaction-diffusion-1/reaction-diffusion-1-sketch.ts:375-399 | every pixel of the target gets A = 1 and alpha 1, and B = 1 exactly inside the centred square; the other target is untouched |
| ReactionDiffusion.ReactionDiffusionSketch.WriteSeedPixel | src/app/reaction-diffusion-1/reaction-diffusion-1-sketch.ts:349-353 | pixel n is seeded and every earlier pixel keeps its seed |
| ReactionDiffusion.ReactionDiffusionSketch.WriteRectPixel | src/app/reaction-diffusion-1/reaction-diffusion-1-sketch.ts:386-395 | pixel (x, y) gets its seed and every pixel before it in reading order keeps its own |
| ReactionDiffusion.ReactionDiffusionSketch.UpdateRenderTargetTexture | src/app/reaction-diffusion-1/reaction-diffusion-1-sketch.ts:359-373 | the texture is copied into the target, then the compute material is back, the output is the canvas and the bypass texture is cleared |
| ReactionDiffusion.ReactionDiffusionSketch.RenderComputeScene | src/app/reaction-diffusion-1/reaction-diffusion-1-sketch.ts:296-299 | one render writes the bypass texture or the shader applied to the sampled target into the output target, and nothing else |
| ReactionDiffusion.ReactionDiffusionSketch.Compute | src/app/reaction-diffusion-1/reaction-diffusion-1-sketch.ts:288-310 | 20 steps each render the current target into the other and swap: the index ends where it started, the current target holds 20 shader renders of its old contents and the other 19, the render material samples the current one and the output is the canvas |
| ReactionDiffusion.ReactionDiffusionSketch.UpdateSize | src/app/reaction-diffusion-1/reaction-diffusion-1-sketch.ts:239-253 | the resolution follows the container and the mesh z is max(1.5 - 1000 / width, 0.8), never below 0.8 |
| ReactionDiffusion.ReactionDiffusionSketch.PointerMove | src/app/reaction-diffusion-1/reaction-diffusion-1-sketch.ts:129-132 | the pointer is stored in normalised device coordinates with y up |
| ReactionDiffusion.ReactionDiffusionSketch.PointerDown | src/app/reaction-diffusion-1/reaction-diffusion-1-sketch.ts:133-135 | the button is marked as held |
| ReactionDiffusion.ReactionDiffusionSketch.PointerUp | src/app/reaction-diffusion-1/reaction-diffusion-1-sketch.ts:136-138 | the button is marked as released |
| ReactionDiffusion.ReactionDiffusionSketch.Animate | src/app/reaction-diffusion-1/reaction-diffusion-1-sketch.ts:255-280 | nothing once destroyed; otherwise a hit passes its uv in [-1, 1] and the button to the compute shader, the scene eases 1/16 towards the pointer tilt, one compute runs and both times advance |
| ReactionDiffusion.ReactionDiffusionSketch.Steer | src/app/reaction-diffusion-1/reaction-diffusion-1-sketch.ts:258-274 | a hit passes its uv mapped to [-1, 1] and the button state to the compute shader, a miss leaves them; the scene rotation moves 1/16 of the way towards the pointer tilt |
| ReactionDiffusion.ReactionDiffusionSketch.Render | src/app/reaction-diffusion-1/reaction-diffusion-1-sketch.ts:282-286 | the compute time advances by 0.05 and the render time copies it |
| ReactionDiffusion.ReactionDiffusionSketch.Destroy | src/app/reaction-diffusion-1/reaction-diffusion-1-sketch.ts:312-314 | the sketch is marked destroyed |
| Ribbon.JointIndexes | src/app/ribbon/ribbon-sketch.ts:114-118 | joint i owns two vertex offsets, 6i and 6i + 3, each the start of an x, y, z triple |
| Ribbon.JointIndexesDisjoint | src/app/ribbon/ribbon-sketch.ts:114-118 | no buffer entry of one joint is an entry of another joint |
| Ribbon.JointWidth | src/app/ribbon/ribbon-sketch.ts:52-53 | the width at a joint lies between 0 and the ribbon's width, and is the full width once the joint is at least 1 from the origin |
| Ribbon.HeadVerticesStraddle | src/app/ribbon/ribbon-sketch.ts:54-71 | the head joint's two vertices have the joint's position as midpoint, are one width apart along the quarter-turned direction and lie in z = 0 |
| Ribbon.RibbonJoint.constructor | src/app/ribbon/ribbon-sketch.ts:36-43 | a joint keeps its strip, offsets and id and starts at the origin with the origin as previous position |
| Ribbon.RibbonJoint.Update | src/app/ribbon/ribbon-sketch.ts:45-72 | the joint remembers its old position, moves to the target and writes its six entries as the straddling head vertices; no other entry changes |
| Ribbon.RibbonJoint.Follow | src/app/ribbon/ribbon-sketch.ts:74-86 | the joint remembers its old position, takes the target joint's position and copies the target's six entries into its own; no other entry changes |
| Ribbon.RibbonStrip.constructor | src/app/ribbon/ribbon-sketch.ts:96-125 | a strip of numJoints distinct joints with ids 0.. and offsets from JointIndexes, each joint's vertices at -width/2 and width/2 on the x axis |
| Ribbon.RibbonStrip.Update | src/app/ribbon/ribbon-sketch.ts:127-150 | after rotating the buffer, every joint but the head holds its predecessor's rotated vertices and old position, and the head sits at the target |
| Ribbon.RibbonStrip.PlaceHead | src/app/ribbon/ribbon-sketch.ts:141-143 | the head joint moves to the target, remembers its old position and its two vertices straddle the target; the other entries of the buffer are kept |
| Ribbon.RibbonStrip.ShiftJoints | src/app/ribbon/ribbon-sketch.ts:138-146 | running from the last joint down to joint 1, every joint takes its predecessor's unmoved entries and position: the buffer shifts by one joint |
| Ribbon.RibbonStrip.ApplyMatrix | src/app/ribbon/ribbon-sketch.ts:132-136 | every vertex of the buffer is replaced by its image under the rotation |
| Ribbon.NextFollower | src/app/ribbon/ribbon-sketch.ts:291-294 | the follower keeps 15/16 of its gap to the target in x and in y, and z does not change |
| Ribbon.RibbonSketch.constructor | src/app/ribbon/ribbon-sketch.ts:252-268 | the sketch owns a valid strip of 400 joints, 0.3 wide, with the pointer, target and follower at the origin and time at 1 |
| Ribbon.RibbonSketch.PointerMove | src/app/ribbon/ribbon-sketch.ts:241-247 | the pointer is the event position in normalised device coordinates and the shader's mouse is its page position |
| Ribbon.RibbonSketch.Animate | src/app/ribbon/ribbon-sketch.ts:282-301 | a destroyed sketch changes nothing, joints included; otherwise a hit becomes the target, the follower approaches it and time advances by 0.05, while the strip shifts by one joint: vertex v + 2 is the rotated old vertex v, the head vertices straddle the follower, each joint remembers its old position and takes its predecessor's, and the head joint sits on the follower |
| Ribbon.RibbonSketch.Destroy | src/app/ribbon/ribbon-sketch.ts:308-310 | the sketch is marked destroyed |
| VoronoiCluster.RowsSorted | src/app/voronoi-cluster/voronoi-cluster-sketch.ts:154-165 | the constraints' pairs come out in strictly increasing (from, to) order |
| VoronoiCluster.RowsLength | src/app/voronoi-cluster/voronoi-cluster-sketch.ts:154-165 | the first r rows of n cells hold r(n - 1) pairs |
| VoronoiCluster.PairIndex | src/app/voronoi-cluster/voronoi-cluster-sketch.ts:154-165 | every pair (a, b) of distinct cells is created at position a(n - 1) + (b - 1 if a < b, else b) |
| VoronoiCluster.OrderedPairsSpec | src/app/voronoi-cluster/voronoi-cluster-sketch.ts:154-165 | exactly the ordered pairs of distinct cells get a constraint, n(n - 1) of them, each once, in reading order |
| VoronoiCluster.HoveredCellIgnoresCentreAndNoise | src/app/voronoi-cluster/voronoi-cluster-sketch.ts:249-264 | a hovered cell's step depends neither on the centre nor on the noise: its force is only its old force over the mass |
| VoronoiCluster.RestingCellMovesToCentre | src/app/voronoi-cluster/voronoi-cluster-sketch.ts:249-264 | a resting cell with no force or noise closes 1/125 of its gap to the centre in one step |
| VoronoiCluster.HoveredVelocityDecays | src/app/voronoi-cluster/voronoi-cluster-sketch.ts:249-264 | a hovered cell without force has its velocity divided by the drag, so it never grows |
| VoronoiCluster.Cell.constructor | src/app/voronoi-cluster/voronoi-cluster-sketch.ts:236-246 | a cell keeps its id and position, has mass 10 and drag 1.25, no force, no velocity and no hover |
| VoronoiCluster.Cell.Update | src/app/voronoi-cluster/voronoi-cluster-sketch.ts:248-265 | the cell's force, velocity and position become the step of the old ones with its own hover flag and the noise at time / 10 + id |
| VoronoiCluster.EffectiveMinDistance | src/app/voronoi-cluster/voronoi-cluster-sketch.ts:285-288 | the kept distance is 2.4 times the constraint's own exactly when either end is hovered |
| VoronoiCluster.ConstraintForceSpec | src/app/voronoi-cluster/voronoi-cluster-sketch.ts:289-291 | far enough apart there is no push; too close, the push on a is along a - b with length exactly half the shortfall; coincident cells get none |
| VoronoiCluster.Jittered | src/app/voronoi-cluster/voronoi-cluster-sketch.ts:275-277 | the stored distance lies in [value, value + 50) for a random draw in [0, 1) |
| VoronoiCluster.MinDistanceConstraint.constructor | src/app/voronoi-cluster/voronoi-cluster-sketch.ts:271-273 | the constraint joins a and b and stores the distance through the jittering setter |
| VoronoiCluster.MinDistanceConstraint.SetMinDistance | src/app/voronoi-cluster/voronoi-cluster-sketch.ts:275-277 | the stored distance is the value plus a random extra in [0, 50) |
| VoronoiCluster.MinDistanceConstraint.Update | src/app/voronoi-cluster/voronoi-cluster-sketch.ts:282-295 | an unhovered end gains (a) or loses (b) the constraint force for the current distance; a hovered end keeps its force |
| VoronoiCluster.LastTrue | src/app/voronoi-cluster/voronoi-cluster-sketch.ts:191-206 | the index found holds true and nothing after it does; none found means no entry is true |
| VoronoiCluster.HoverAfterRange | src/app/voronoi-cluster/voronoi-cluster-sketch.ts:191-206 | the hover after the loop is where it started or on a visited cell |
| VoronoiCluster.HoverAfterLastTrue | src/app/voronoi-cluster/voronoi-cluster-sketch.ts:191-206 | after the cell loop the hover is on the last cell under the mouse, or gone when no cell is under it |
| VoronoiCluster.HoverFlags | src/app/voronoi-cluster/voronoi-cluster-sketch.ts:192-195 | cell k is flagged exactly when it is closer to the mouse than minDistance / 1.5 |
| VoronoiCluster.StepAllAt | src/app/voronoi-cluster/voronoi-cluster-sketch.ts:191-212 | the k-th stepped state is cell k's step with its own flag and noise |
| VoronoiCluster.EndpointsFrom | src/app/voronoi-cluster/voronoi-cluster-sketch.ts:154-165 | a constraint list built pair by pair has those pairs as its endpoints |
| VoronoiCluster.VoronoiClusterSketch.constructor | src/app/voronoi-cluster/voronoi-cluster-sketch.ts:87-113 | after the size update and initCells: 12 cells at random page points, one jittered constraint per ordered pair in reading order, centre at the middle of the page, nothing hovered |
| VoronoiCluster.VoronoiClusterSketch.InitCells | src/app/voronoi-cluster/voronoi-cluster-sketch.ts:142-166 | the cells sit at the random page points, the constraints' endpoints are the ordered pairs and each stores the current distance plus its jitter |
| VoronoiCluster.VoronoiClusterSketch.CreateCells | src/app/voronoi-cluster/voronoi-cluster-sketch.ts:143-152 | cell i has id i and the i-th random point of the page, and no cell is hovered |
| VoronoiCluster.VoronoiClusterSketch.CreateConstraints | src/app/voronoi-cluster/voronoi-cluster-sketch.ts:154-165 | constraint k joins the k-th ordered pair of cells and draws the k-th jitter |
| VoronoiCluster.VoronoiClusterSketch.CreateRow | src/app/voronoi-cluster/voronoi-cluster-sketch.ts:155-164 | the inner loop adds the constraints of row a, keeping every earlier one |
| VoronoiCluster.VoronoiClusterSketch.VisitPair | src/app/voronoi-cluster/voronoi-cluster-sketch.ts:156-163 | the pair (a, b) gets the next constraint unless a is b |
| VoronoiCluster.VoronoiClusterSketch.AddConstraint | src/app/voronoi-cluster/voronoi-cluster-sketch.ts:157-162 | one more constraint, for the next pair, is pushed onto the list |
| VoronoiCluster.VoronoiClusterSketch.UpdateSize | src/app/voronoi-cluster/voronoi-cluster-sketch.ts:168-184 | the centre is the middle of the page, the distance width / 7.5, and every constraint is reset to it plus a jitter in [0, 50) |
| VoronoiCluster.VoronoiClusterSketch.PointerMove | src/app/voronoi-cluster/voronoi-cluster-sketch.ts:106-110 | the mouse is the page position of the event |
| VoronoiCluster.PairPushes | src/app/voronoi-cluster/voronoi-cluster-sketch.ts:282-295 | entry k is the push constraint k gives its cell a, from the cells' positions and hover flags before the pass |
| VoronoiCluster.AfterConstraints | src/app/voronoi-cluster/voronoi-cluster-sketch.ts:189 | positions and velocities stay, and a hovered cell keeps its whole state |
| VoronoiCluster.PushOnParts | src/app/voronoi-cluster/voronoi-cluster-sketch.ts:282-295 | on each axis a constraint adds its push to its a and takes it from its b |
| VoronoiCluster.SumPushOnEnds | src/app/voronoi-cluster/voronoi-cluster-sketch.ts:282-295 | over cells 0 .. m - 1 one constraint's pushes add up to its push where a is among them, less its push where b is |
| VoronoiCluster.SumPushesOnLast | src/app/voronoi-cluster/voronoi-cluster-sketch.ts:189 | summing the pushes over the cells splits off the last constraint's share |
| VoronoiCluster.OneBalances | src/app/voronoi-cluster/voronoi-cluster-sketch.ts:282-295 | a constraint between two cells of the sketch gives them pushes that cancel |
| VoronoiCluster.PushesBalance | src/app/voronoi-cluster/voronoi-cluster-sketch.ts:189 | the pushes of any prefix of the constraint pass sum to zero over all cells, on both axes: the pass only moves force between cells |
| VoronoiCluster.VoronoiClusterSketch.ApplyConstraints | src/app/voronoi-cluster/voronoi-cluster-sketch.ts:189 | the cells become the constraint pass of their old states: each unhovered cell's force gains the sum, in list order, of the pushes of the constraints on it, taken from the positions and flags before the pass; hovered cells, positions, velocities and flags stay |
| VoronoiCluster.VoronoiClusterSketch.PassComplete | src/app/voronoi-cluster/voronoi-cluster-sketch.ts:189 | once every constraint has pushed, the cells hold the constraint pass of their start states and the sketch is still valid |
| VoronoiCluster.VoronoiClusterSketch.PushAll | src/app/voronoi-cluster/voronoi-cluster-sketch.ts:189 | the forEach loop lets every constraint push, in list order |
| VoronoiCluster.VoronoiClusterSketch.PushPair | src/app/voronoi-cluster/voronoi-cluster-sketch.ts:189 | constraint k's turn adds its push to each unhovered end, leaving every other cell alone |
| VoronoiCluster.VoronoiClusterSketch.UpdateConstraint | src/app/voronoi-cluster/voronoi-cluster-sketch.ts:282-295 | a constraint's update moves no cell, leaves hovered cells and cells other than its ends alone, and adds to its ends their share of the push computed from the positions before it |
| VoronoiCluster.VoronoiClusterSketch.UpdateCells | src/app/voronoi-cluster/voronoi-cluster-sketch.ts:191-219 | every cell steps with the flag of its own start position, the hover lands on the last cell under the mouse or none, and every slot holds its cell's scaled, flipped position |
| VoronoiCluster.VoronoiClusterSketch.VisitCells | src/app/voronoi-cluster/voronoi-cluster-sketch.ts:191-219 | the loop visits every cell in index order |
| VoronoiCluster.VoronoiClusterSketch.CellTurn | src/app/voronoi-cluster/voronoi-cluster-sketch.ts:191-219 | turn i keeps the loop's invariant: cells before i+1 stepped and placed, the hover where their flags moved it |
| VoronoiCluster.VoronoiClusterSketch.VisitCell | src/app/voronoi-cluster/voronoi-cluster-sketch.ts:192-218 | cell i hands the hover over by its flag, steps, and writes its slot; no other cell or slot changes |
| VoronoiCluster.VoronoiClusterSketch.SetHover | src/app/voronoi-cluster/voronoi-cluster-sketch.ts:197-206 | a flagged cell takes the hover from its holder; an unflagged holder lets go; no cell moves |
| VoronoiCluster.VoronoiClusterSketch.CellPassComplete | src/app/voronoi-cluster/voronoi-cluster-sketch.ts:191-219 | after the cell loop the hover is on the last flagged cell, or none, and every cell holds its step |
| VoronoiCluster.VoronoiClusterSketch.CellPasses | src/app/voronoi-cluster/voronoi-cluster-sketch.ts:188-219 | the constraints push, then every cell steps from its pushed state with the flag of its position and the noise of the current time; the hover lands on the last cell under the mouse and every slot holds its cell's scaled, flipped position |
| VoronoiCluster.VoronoiClusterSketch.Render | src/app/voronoi-cluster/voronoi-cluster-sketch.ts:226-229 | the shader time advances by 0.05 |
| VoronoiCluster.VoronoiClusterSketch.AnimateFrame | src/app/voronoi-cluster/voronoi-cluster-sketch.ts:186-224 | a live frame: the constraint pass, then every cell's step from its pushed state, the hover on the last cell under the mouse, the item positions from the new cell positions, and time 0.05 later |
| VoronoiCluster.VoronoiClusterSketch.Animate | src/app/voronoi-cluster/voronoi-cluster-sketch.ts:186-224 | a destroyed sketch changes nothing, cells and item positions included; otherwise every cell ends at the step of its pushed state under its own flag and the noise of the old time, the hover ends on the last cell under the mouse, or none, every item position is its cell's new scaled, flipped position, and time advances by 0.05 |
| VoronoiCluster.VoronoiClusterSketch.Destroy | src/app/voronoi-cluster/voronoi-cluster-sketch.ts:231-233 | the sketch is marked destroyed |
| EvilSpaghetti.ComputeCurlAsWritten | src/app/evil-spaghetti/evil-spaghetti-sketch.ts:290-325 | as written, the y component is the z difference alone: its x difference samples x + eps twice and vanishes |
| EvilSpaghetti.CurlIsDivergenceFree | src/app/evil-spaghetti/evil-spaghetti-sketch.ts:290-325 | the curl the comments describe has zero central-difference divergence for every noise field |
| EvilSpaghetti.CurlAsWrittenMissesX | src/app/evil-spaghetti/evil-spaghetti-sketch.ts:310-313 | for the noise x, the y component as written is 0 where the intended curl gives -1 |
| EvilSpaghetti.CurlAsWrittenHasSources | src/app/evil-spaghetti/evil-spaghetti-sketch.ts:310-313 | for the noise x * y, the curl as written has divergence 1 at the origin, where the intended curl has 0 |
| EvilSpaghetti.XOnlyStep | src/app/evil-spaghetti/evil-spaghetti-sketch.ts:162-170 | a tube step, taken along the curl as written, ignores the x derivative: in a field that changes along x only it keeps the point's x and y |
| EvilSpaghetti.XOnlyTubeIsLine | src/app/evil-spaghetti/evil-spaghetti-sketch.ts:153-174 | so in such a field every traced tube is a straight line along z through its start |
| EvilSpaghetti.TubeStepMissesXDrift | src/app/evil-spaghetti/evil-spaghetti-sketch.ts:162-170 | for the noise x the first step from the origin keeps y at 0, where a step along the intended curl moves it to -1/100 |
| EvilSpaghetti.TubeIsDetermined | src/app/evil-spaghetti/evil-spaghetti-sketch.ts:153-174 | two tubes traced from the same start, through the curl as written, agree point for point |
| EvilSpaghetti.InitTube | src/app/evil-spaghetti/evil-spaghetti-sketch.ts:153-174 | the tube has 101 points: the start, then each point one step along the curl as written from the one before |
| EvilSpaghetti.NextFollower | src/app/evil-spaghetti/evil-spaghetti-sketch.ts:232-234 | the follower keeps 0.9 of its gap to the pointer |
| EvilSpaghetti.SpringStep | src/app/evil-spaghetti/evil-spaghetti-sketch.ts:255-265 | the new velocity is 0.95 of the old plus 0.95 * 0.015 of the gap to the target, and the position moves by the new velocity |
| EvilSpaghetti.SpringRestIsFixed | src/app/evil-spaghetti/evil-spaghetti-sketch.ts:255-265 | a spring at rest on its target stays there |
| EvilSpaghetti.EvilSpaghettiSketch.constructor | src/app/evil-spaghetti/evil-spaghetti-sketch.ts:40-54 | every position, velocity and offset starts at zero, both shader times at 1, no tubes, not destroyed |
| EvilSpaghetti.EvilSpaghettiSketch.InitTubes | src/app/evil-spaghetti/evil-spaghetti-sketch.ts:142-150 | one tube per start point, each traced from its start through the curl as written |
| EvilSpaghetti.EvilSpaghettiSketch.PointerMove | src/app/evil-spaghetti/evil-spaghetti-sketch.ts:113-121 | the pointer is the event position in normalised device coordinates and the shaders' mouse is its page position |
| EvilSpaghetti.EvilSpaghettiSketch.Animate | src/app/evil-spaghetti/evil-spaghetti-sketch.ts:229-253 | a destroyed sketch changes nothing; otherwise the follower closes a tenth of its gap, the rotation follows it plus an offset growing by 0.0005, a hit becomes the spring's target, the spring steps and both times advance by 0.05 |
| EvilSpaghetti.EvilSpaghettiSketch.AnimateLightSphere | src/app/evil-spaghetti/evil-spaghetti-sketch.ts:255-268 | the spring takes one step towards the pointer's scene position and the light sphere sits at the spring's position |
| EvilSpaghetti.EvilSpaghettiSketch.Render | src/app/evil-spaghetti/evil-spaghetti-sketch.ts:270-278 | both shader times advance by 0.05 and both light positions take the spring's position |
| EvilSpaghetti.EvilSpaghettiSketch.Destroy | src/app/evil-spaghetti/evil-spaghetti-sketch.ts:286-288 | the sketch is marked destroyed |
| MatterAttractors.Init | src/app/ferrofluid/matter-attractor.ts:35-37 | the body ends with an attractor list: an existing list is kept as it is, a missing one becomes empty |
| MatterAttractors.InitIdempotent | src/app/ferrofluid/matter-attractor.ts:35-37 | running the initialiser twice is the same as once, and it never moves a body or changes its mass |
| MatterAttractors.GravityAlongLine | src/app/ferrofluid/matter-attractor.ts:103-111 | for bodies apart, the gravity force is the vector from a to b scaled by -(G mA mB / d^2) / d |
| MatterAttractors.GravityCoincident | src/app/ferrofluid/matter-attractor.ts:105-111 | coincident bodies get no gravity force, although the squared distance is replaced by 0.0001 |
| MatterAttractors.GravityInverseSquare | src/app/ferrofluid/matter-attractor.ts:103-111 | the force has length G mA mB / d^2 (the inverse-square law with G = 0.001) and lies along the line joining the bodies |
| MatterAttractors.GravityAttracts | src/app/ferrofluid/matter-attractor.ts:103-111 | with positive masses the force on b points from b towards a |
| MatterAttractors.SilentBody | src/app/ferrofluid/matter-attractor.ts:52-56 | a body whose list is missing or empty issues no force against any target |
| MatterAttractors.AttractorIssued | src/app/ferrofluid/matter-attractor.ts:57-77 | every force one attractor of body i issues against another body j hits j, or i itself for gravity |
| MatterAttractors.AppliedIssued | src/app/ferrofluid/matter-attractor.ts:52-81 | every force an update issues comes from a body with a non-empty list run against a different body, and only gravity pushes its own body |
| MatterAttractors.AttractorPushesShape | src/app/ferrofluid/matter-attractor.ts:62-77 | a constant is applied once to b as it is; a function once to b exactly when its result is truthy; gravity applies equal and opposite forces to a and b |
| MatterAttractors.NetForceAppend | src/app/ferrofluid/matter-attractor.ts:62-77 | the net force of two runs of forces is the sum of their net forces |
| MatterAttractors.BalancedAppend | src/app/ferrofluid/matter-attractor.ts:62-77 | two runs of forces that cancel out make a run that cancels out |
| MatterAttractors.GravityPairBalanced | src/app/ferrofluid/matter-attractor.ts:113-119 | one run of the gravity attractor applies forces that sum to zero |
| MatterAttractors.GravityConservesMomentum | src/app/ferrofluid/matter-attractor.ts:48-81 | when every attractor is gravity, the forces an update has applied at any point of its loops sum to zero |
| MatterAttractors.World.constructor | src/app/ferrofluid/matter-attractor.ts:49-50 | a world starts with no bodies and no forces applied |
| MatterAttractors.World.AddBody | src/app/ferrofluid/matter-attractor.ts:17-20 | a body created while the plugin is installed is added with its attractor list initialised |
| MatterAttractors.World.InitBody | src/app/ferrofluid/matter-attractor.ts:35-37 | body i is initialised and no other body changes |
| MatterAttractors.World.ApplyGravity | src/app/ferrofluid/matter-attractor.ts:103-120 | the gravity attractor applies -F to a and then F to b, F being the gravity force of a on b |
| MatterAttractors.World.Update | src/app/ferrofluid/matter-attractor.ts:48-81 | one update applies exactly the forces of every attractor of every body against every other body, in loop order |
| MatterAttractors.World.AttractAll | src/app/ferrofluid/matter-attractor.ts:57-78 | the middle loop applies body i's attractors against every target but i itself |
| MatterAttractors.World.Attract | src/app/ferrofluid/matter-attractor.ts:62-77 | the inner loop applies each attractor of body i against body j in list order |
| MatterAttractors.World.AttractOnce | src/app/ferrofluid/matter-attractor.ts:63-76 | one attractor's turn appends exactly the pushes that attractor issues for the pair (i, j): a constant, a function's result when it gives one, or the gravity pair |
| Ferrofluid.FocusForceAntisymmetric | src/app/ferrofluid/ferrofluid-sketch.ts:40-45 | swapping the two bodies reverses the focus force, and the force is zero exactly when the bodies coincide |
| Ferrofluid.FocusForceTowardsA | src/app/ferrofluid/ferrofluid-sketch.ts:40-45 | the force on B points towards A: its dot product with B→A is 1e-6 times the squared distance, positive for distinct bodies |
| Ferrofluid.FocusAttractorIsFocus | src/app/ferrofluid/ferrofluid-sketch.ts:58-60 | the attractor the focused body carries returns the focus force, always truthy, for every pair of bodies |
| Ferrofluid.RefocusShape | src/app/ferrofluid/ferrofluid-sketch.ts:47-63 | the new focus is static with exactly the focus attractor; a different old focus is released with an empty list; no other body changes and no body moves |
| Ferrofluid.RefocusKeepsSoleFocus | src/app/ferrofluid/ferrofluid-sketch.ts:47-63 | moving the focus keeps exactly one static, attracting body, now the new one |
| Ferrofluid.FocusIdle | src/app/ferrofluid/ferrofluid-sketch.ts:407-408 | the first focus on freshly created bodies makes the chosen body the only static, attracting one |
| Ferrofluid.FocusPushes | src/app/ferrofluid/ferrofluid-sketch.ts:58-60 | the focused body's attractor run against body j issues exactly one pull on j |
| Ferrofluid.FocusedApplied | src/app/ferrofluid/ferrofluid-sketch.ts:58-60 | with a sole focus, the plugin's loops have issued exactly the focus's pulls up to their current point |
| Ferrofluid.FocusedUpdate | src/app/ferrofluid/ferrofluid-sketch.ts:58-60 | with a sole focus, an engine update pulls every other body towards the focus exactly once, in body order, by (A - B) * 1e-6, and applies nothing else |
| Ferrofluid.PullsAt | src/app/ferrofluid/ferrofluid-sketch.ts:58-60 | the pulls skip only the focus: the t-th goes to body t, or t + 1 past the focus |
| Ferrofluid.CentreStepShrinks | src/app/ferrofluid/ferrofluid-sketch.ts:420-423 | after the translation the focus is 85% as far from the world's centre as before, on the same side |
| Ferrofluid.ItemPositionRoundTrip | src/app/ferrofluid/ferrofluid-sketch.ts:446-450 | item positions and body positions determine each other |
| Ferrofluid.ItemPositionInUnitSquare | src/app/ferrofluid/ferrofluid-sketch.ts:446-450 | bodies inside the 280 x 280 world get item positions in the unit square |
| Ferrofluid.FocusHandler.constructor | src/app/ferrofluid/ferrofluid-sketch.ts:28-34 | the handler works on the world's bodies and starts at index 0 |
| Ferrofluid.FocusHandler.SetIndex | src/app/ferrofluid/ferrofluid-sketch.ts:47-63 | the index becomes n, the old focus is released and body n is focused, nothing else changes |
| Ferrofluid.Sketch.constructor | src/app/ferrofluid/ferrofluid-sketch.ts:387-408 | 26 bodies of mass 0.015 at the random points of the world, body 0 the sole focus, no forces applied, time at 1 |
| Ferrofluid.Sketch.PointerDown | src/app/ferrofluid/ferrofluid-sketch.ts:410-414 | the focus moves to the next body, wrapping to 0 at 8, and stays the only focused body |
| Ferrofluid.Sketch.UpdatePhysics | src/app/ferrofluid/ferrofluid-sketch.ts:417-426 | the focus moves 15% of the way to the centre, then the plugin's forces for the moved bodies are applied, and the focus is still the only focused body |
| Ferrofluid.Sketch.Animate | src/app/ferrofluid/ferrofluid-sketch.ts:440-456 | a destroyed sketch changes nothing; otherwise the focus moves 15% of the way to the centre, the applied-force log gains the plugin's pushes for the moved bodies, every item position is its body's normalised, flipped position, and time advances by 0.05 |
| Ferrofluid.Sketch.Render | src/app/ferrofluid/ferrofluid-sketch.ts:458-461 | time advances by 0.05 |
| Ferrofluid.Sketch.Destroy | src/app/ferrofluid/ferrofluid-sketch.ts:463-465 | the sketch is marked destroyed |
| MatterAttractors.World.Translate | src/app/ferrofluid/ferrofluid-sketch.ts:420-423 | body i moves by the given offset and no other body changes |

## Left out

- Rendering: WebGL, shaders, three.js scene graphs, cameras and `OrbitControls`, lights, materials, `computeVertexNormals`, `updateProjectionMatrix` and `renderer.setSize` are library calls with no logic of the sketches in them. Uniforms the sketches write are fields; everything the renderer does with them is left out.
- Asset loading (`FileLoader`, `TextureLoader`, `Promise.all`, the ripple transition's video loading with its timeout) and `requestAnimationFrame` self-scheduling are I/O and browser scheduling: each sketch's `Animate` method is one frame, and constructors start from loaded assets.
- Noise functions, `Math.random`, raycasts, `Math.sqrt`/`length()`/`hypot`, `Math.atan2`/`cos`/`sin` and three.js rotation matrices are foreign computations. They enter as parameters, constrained only where a property needs it (random draws in [0, 1), lengths whose square is the sum of squares).
- Float32 storage and IEEE rounding: all numbers are mathematical reals or integers. Non-finite JavaScript values (a division by a zero window or container size, `x % 0`) are excluded by `requires` clauses asking for positive sizes and non-empty lines.
- Particles2.Particles2Sketch.AnimateLines: requires every line to have at least one point, because a path shorter than 0.4 gives a line of zero points whose cursor update `x % 0` yields NaN in JavaScript.
- Particles2.Particles2Sketch.Animate: requires every line to have at least one point, for the same reason.
- ImageTransition.ImageTransition1Sketch.SetImage: an exception thrown on an undefined texture is reported as `ok == false`, with the state the assignments before the throw leave behind; the exception's propagation through the caller is not modelled.
- ImageTransition.ImageTransition1Sketch.UpdateSize: an exception thrown on an undefined texture is reported in the same way, as `ok == false`.
- matter.js itself: `Engine.update`'s integration of forces into velocities and positions, air friction, collisions, `Common.chainPathAfter`/`chainPathBefore` (modelled only by their effect: `World.AddBody` runs `Body.init`, `Sketch.UpdatePhysics` runs the plugin's update), and `Matter.Body.applyForce`, which is modelled as an entry appended to the world's log of applied forces.
- Ferrofluid.RefocusShape: `Body.setStatic` is modelled by its static flag only. The infinite mass and inertia that matter.js gives a static body, and restores on release, are not modelled, so "no body changes its mass" speaks of the mass the body was created with.
- Ferrofluid.Sketch.constructor: body radii (`20 + Math.random() * 2`), friction, air friction, restitution and render styles are not modelled. Neither are the shader text injected into the material and the debugging renderer.
- Ribbon.RibbonStrip.Update: the rotation about the axis (target.y, -target.x, 0) by target.length() * 0.07 is the parameter `rotate`. The head joint's direction (the angle of its position minus a quarter turn) is the parameter `dir`, a unit vector by its use. The rotation's formula and the trigonometry are not modelled.
- Vectors: three.js vectors are mutable objects; each vector in the modelled code is owned by one field, so it is modelled as a value the field is reassigned to. The `Ribbon` joints' `currentPosition` objects are the exception that matters, and they are copied by value in the source too.
- The Angular components other than the image transition's `onMouseOver`, routing, the application module, and the sketches without logic of their own (holo landscape, gooch shading, dirty strokes, test, displace 2, particles 1) are not part of this model.
- The minified Stripe gradient inside a block comment of the gradient sketch is never compiled, and is not part of this model.

## Findings

| source | as written | input that shows it | evidently intended | confidence | as-written member | corrected member |
|---|---|---|---|---|---|---|
| src/app/evil-spaghetti/evil-spaghetti-sketch.ts:310-313 | the x difference of `curl.y` samples `noise3d(x + eps, y, z)` for both `n1` and `n2`, so it is always 0 and `curl.y` is the z difference alone | noise(x, y, z) = x at the origin: `curl.y` is 0 where the curl is -1; noise x * y: the field's central-difference divergence at the origin is 1 | `n2 = noise3d(x - eps, y, z)`, as in the other two components, which makes the curl field divergence-free | high; not executed | EvilSpaghetti.CurlAsWrittenHasSources | EvilSpaghetti.CurlIsDivergenceFree |
