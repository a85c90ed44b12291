/**
 * The evil-spaghetti sketch: 200 tubes, each traced through a curl-noise
 * flow field from a random start, slowly rotated by a follower of the
 * pointer, and lit by a sphere that hangs on a damped spring behind the
 * pointer's position in the scene.
 */
module EvilSpaghetti {
  import opened Vectors
  import opened Optional

  /** A scalar noise field over space; `SimplexNoise.noise3d` in the sketch. */
  type Noise = (real, real, real) -> real

  /** The step of the central differences. */
  const Eps: real := 0.0001

  /** The central difference of two noise samples taken Eps either side of a point. */
  function CentralDifference(n1: real, n2: real): real { (n1 - n2) / (2.0 * Eps) }

  /** The central differences of the noise along x, y and z at (x, y, z). */
  function Dx(noise: Noise, x: real, y: real, z: real): real
  {
    CentralDifference(noise(x + Eps, y, z), noise(x - Eps, y, z))
  }

  function Dy(noise: Noise, x: real, y: real, z: real): real
  {
    CentralDifference(noise(x, y + Eps, z), noise(x, y - Eps, z))
  }

  function Dz(noise: Noise, x: real, y: real, z: real): real
  {
    CentralDifference(noise(x, y, z + Eps), noise(x, y, z - Eps))
  }

  /**
   * `computeCurl` as it is written: its y component's second difference
   * samples x + Eps twice, so that difference is always 0 and the component
   * is the z difference alone.
   */
  function ComputeCurlAsWritten(noise: Noise, x: real, y: real, z: real): (curl: Vec3)
    ensures curl.x == Dy(noise, x, y, z) - Dz(noise, x, y, z)
    ensures curl.y == Dz(noise, x, y, z)
    ensures curl.z == Dx(noise, x, y, z) - Dy(noise, x, y, z)
  {
    var a1 := CentralDifference(noise(x, y + Eps, z), noise(x, y - Eps, z));
    var b1 := CentralDifference(noise(x, y, z + Eps), noise(x, y, z - Eps));
    var a2 := CentralDifference(noise(x, y, z + Eps), noise(x, y, z - Eps));
    var b2 := CentralDifference(noise(x + Eps, y, z), noise(x + Eps, y, z));
    var a3 := CentralDifference(noise(x + Eps, y, z), noise(x - Eps, y, z));
    var b3 := CentralDifference(noise(x, y + Eps, z), noise(x, y - Eps, z));
    Vec3(a1 - b1, a2 - b2, a3 - b3)
  }

  /**
   * The curl that the comments of `computeCurl` describe: each component is
   * the difference of the rates of change in the other two directions, and
   * the y component subtracts the x difference, sampled at x + Eps and x - Eps.
   */
  function ComputeCurl(noise: Noise, x: real, y: real, z: real): Vec3
  {
    Vec3(Dy(noise, x, y, z) - Dz(noise, x, y, z),
         Dz(noise, x, y, z) - Dx(noise, x, y, z),
         Dx(noise, x, y, z) - Dy(noise, x, y, z))
  }

  /** The central-difference divergence at (x, y, z) of the curl of `noise`. */
  function CurlDivergence(noise: Noise, x: real, y: real, z: real): real
  {
    CentralDifference(ComputeCurl(noise, x + Eps, y, z).x, ComputeCurl(noise, x - Eps, y, z).x) +
    CentralDifference(ComputeCurl(noise, x, y + Eps, z).y, ComputeCurl(noise, x, y - Eps, z).y) +
    CentralDifference(ComputeCurl(noise, x, y, z + Eps).z, ComputeCurl(noise, x, y, z - Eps).z)
  }

  /** The same divergence for the curl as written. */
  function CurlAsWrittenDivergence(noise: Noise, x: real, y: real, z: real): real
  {
    CentralDifference(ComputeCurlAsWritten(noise, x + Eps, y, z).x, ComputeCurlAsWritten(noise, x - Eps, y, z).x) +
    CentralDifference(ComputeCurlAsWritten(noise, x, y + Eps, z).y, ComputeCurlAsWritten(noise, x, y - Eps, z).y) +
    CentralDifference(ComputeCurlAsWritten(noise, x, y, z + Eps).z, ComputeCurlAsWritten(noise, x, y, z - Eps).z)
  }

  /**
   * The point of curl noise: whatever the noise, the curl field has no
   * sources or sinks, even measured with the same central differences,
   * because mixed differences along two axes commute.
   */
  lemma CurlIsDivergenceFree(noise: Noise, x: real, y: real, z: real)
    ensures CurlDivergence(noise, x, y, z) == 0.0
  {
  }

  /** Two noise fields that expose the difference: x, and x * y. */
  function NoiseX(x: real, y: real, z: real): real { x }
  function NoiseXY(x: real, y: real, z: real): real { x * y }

  /** For the noise x the y component as written is 0 where the curl is -1. */
  lemma CurlAsWrittenMissesX()
    ensures ComputeCurlAsWritten(NoiseX, 0.0, 0.0, 0.0).y == 0.0
    ensures ComputeCurl(NoiseX, 0.0, 0.0, 0.0).y == -1.0
  {
  }

  /**
   * The curl as written is not divergence-free: for the noise x * y its
   * divergence at the origin is 1, where the curl's is 0.
   */
  lemma CurlAsWrittenHasSources()
    ensures CurlAsWrittenDivergence(NoiseXY, 0.0, 0.0, 0.0) == 1.0
    ensures CurlDivergence(NoiseXY, 0.0, 0.0, 0.0) == 0.0
  {
    assert ComputeCurlAsWritten(NoiseXY, Eps, 0.0, 0.0).x == Eps;
    assert ComputeCurlAsWritten(NoiseXY, -Eps, 0.0, 0.0).x == -Eps;
    assert ComputeCurlAsWritten(NoiseXY, 0.0, Eps, 0.0).y == 0.0;
    assert ComputeCurlAsWritten(NoiseXY, 0.0, -Eps, 0.0).y == 0.0;
    assert ComputeCurlAsWritten(NoiseXY, 0.0, 0.0, Eps).z == 0.0;
    assert ComputeCurlAsWritten(NoiseXY, 0.0, 0.0, -Eps).z == 0.0;
    CurlIsDivergenceFree(NoiseXY, 0.0, 0.0, 0.0);
  }

  const TubeScale: real := 1.2
  const TubeSegments: int := 100

  /**
   * One step of a tube: `addScaledVector` of `computeCurl`, as written, at
   * the point scaled down by 1.2, by 1/100.
   */
  function TubeStep(noise: Noise, p: Vec3): Vec3
  {
    var curl := ComputeCurlAsWritten(noise, p.x / TubeScale, p.y / TubeScale, p.z / TubeScale);
    Add3(p, Scale3(curl, 1.0 / 100.0))
  }

  /** A noise field that changes along x only. */
  ghost predicate VariesWithXOnly(noise: Noise)
  {
    forall x, y, z :: noise(x, y, z) == noise(x, 0.0, 0.0)
  }

  /**
   * The y step ignores the x derivative: in a field that changes along x
   * only, a step moves the point along z alone, where the curl would also
   * move it along y.
   */
  lemma XOnlyStep(noise: Noise, p: Vec3)
    requires VariesWithXOnly(noise)
    ensures TubeStep(noise, p).x == p.x && TubeStep(noise, p).y == p.y
  {
    var x, y, z := p.x / TubeScale, p.y / TubeScale, p.z / TubeScale;
    assert noise(x, y + Eps, z) == noise(x, 0.0, 0.0) == noise(x, y - Eps, z);
    assert noise(x, y, z + Eps) == noise(x, 0.0, 0.0) == noise(x, y, z - Eps);
  }

  /** So in such a field every tube is a straight line along z through its start. */
  lemma {:induction false} XOnlyTubeIsLine(noise: Noise, start: Vec3, points: seq<Vec3>, k: nat)
    requires VariesWithXOnly(noise) && IsTube(noise, start, points) && k <= TubeSegments
    ensures forall i :: 0 <= i <= k ==> points[i].x == start.x && points[i].y == start.y
  {
    if k > 0 {
      XOnlyTubeIsLine(noise, start, points, k - 1);
      XOnlyStep(noise, points[k - 1]);
    }
  }

  /**
   * What the tube loses: for the noise x the first step from the origin
   * keeps y at 0, where a step along the intended curl moves it to -1/100.
   */
  lemma TubeStepMissesXDrift()
    ensures TubeStep(NoiseX, Zero3).y == 0.0
    ensures Add3(Zero3, Scale3(ComputeCurl(NoiseX, 0.0, 0.0, 0.0), 1.0 / 100.0)).y == -1.0 / 100.0
  {
    assert Zero3.x / TubeScale == 0.0 && Zero3.y / TubeScale == 0.0 && Zero3.z / TubeScale == 0.0;
    CurlAsWrittenMissesX();
  }

  /** A tube: 101 points, the first the start and each next one step along the flow from the previous. */
  predicate IsTube(noise: Noise, start: Vec3, points: seq<Vec3>)
  {
    |points| == TubeSegments + 1 && points[0] == start &&
    forall i :: 0 <= i < TubeSegments ==> points[i + 1] == TubeStep(noise, points[i])
  }

  /** The start decides the whole tube: two tubes from the same start agree up to every point. */
  lemma {:induction false} TubeIsDetermined(noise: Noise, start: Vec3, p1: seq<Vec3>, p2: seq<Vec3>, k: nat)
    requires IsTube(noise, start, p1) && IsTube(noise, start, p2) && k <= TubeSegments
    ensures p1[..k + 1] == p2[..k + 1]
  {
    if k > 0 {
      TubeIsDetermined(noise, start, p1, p2, k - 1);
      assert p1[k - 1] == p1[..k][k - 1] && p2[k - 1] == p2[..k][k - 1];
      assert p1[..k + 1] == p1[..k] + [p1[k]] && p2[..k + 1] == p2[..k] + [p2[k]];
    }
  }

  /** `initTube`'s point chain. */
  method InitTube(noise: Noise, start: Vec3) returns (points: seq<Vec3>)
    ensures IsTube(noise, start, points)
  {
    var currentPoint := start;
    points := [currentPoint];
    var i := 0;
    while i < TubeSegments
      invariant 0 <= i <= TubeSegments && |points| == i + 1 && points[0] == start
      invariant currentPoint == points[i]
      invariant forall j :: 0 <= j < i ==> points[j + 1] == TubeStep(noise, points[j])
    {
      currentPoint := TubeStep(noise, currentPoint);
      points := points + [currentPoint];
      i := i + 1;
    }
  }

  /** The follower closes a tenth of the gap to the pointer each frame. */
  function NextFollower(follower: Vec2, mouse: Vec2): (r: Vec2)
    ensures Sub2(mouse, r) == Scale2(Sub2(mouse, follower), 0.9)
  {
    Add2(follower, Scale2(Sub2(mouse, follower), 0.1))
  }

  /** The spring of the light sphere: its velocity and its position. */
  datatype Spring = Spring(velocity: Vec3, position: Vec3)

  /**
   * One spring step towards `target`: the velocity gains 1.5% of the gap
   * and is damped by 5%, and the position moves by the new velocity.
   */
  function SpringStep(s: Spring, target: Vec3): (r: Spring)
    ensures r.position == Add3(s.position, r.velocity)
    ensures Sub3(r.velocity, Scale3(s.velocity, 0.95)) == Scale3(Sub3(target, s.position), 0.95 * 0.015)
  {
    var velocity := Scale3(Add3(s.velocity, Scale3(Sub3(target, s.position), 0.015)), 0.95);
    Spring(velocity, Add3(s.position, velocity))
  }

  /** A spring at rest on its target stays there. */
  lemma SpringRestIsFixed(target: Vec3)
    ensures SpringStep(Spring(Zero3, target), target) == Spring(Zero3, target)
  {
  }

  class EvilSpaghettiSketch {
    var mousePos: Vec2
    var mouseFollowerPos: Vec2
    var rotationOffset: real
    var rotation: Vec2
    var mouseScenePos: Vec3
    var spring: Spring
    var lightSpherePos: Vec3
    var lightPos: Vec3
    var pageMouse: Vec2
    var time: real
    var bgTime: real
    var isDestroyed: bool
    var tubes: seq<seq<Vec3>>

    constructor ()
      ensures mousePos == Zero2 && mouseFollowerPos == Zero2 && rotationOffset == 0.0 && rotation == Zero2
      ensures mouseScenePos == Zero3 && spring == Spring(Zero3, Zero3) && lightSpherePos == Zero3 && lightPos == Zero3
      ensures pageMouse == Zero2 && time == 1.0 && bgTime == 1.0 && !isDestroyed && tubes == []
    {
      mousePos, mouseFollowerPos, rotationOffset, rotation := Zero2, Zero2, 0.0, Zero2;
      mouseScenePos, spring, lightSpherePos, lightPos := Zero3, Spring(Zero3, Zero3), Zero3, Zero3;
      pageMouse, time, bgTime, isDestroyed, tubes := Zero2, 1.0, 1.0, false, [];
    }

    /** `initTubes`: one tube per start point, 200 of them in the sketch. */
    method InitTubes(noise: Noise, starts: seq<Vec3>)
      modifies this`tubes
      ensures |tubes| == |starts|
      ensures forall t :: 0 <= t < |tubes| ==> IsTube(noise, starts[t], tubes[t])
    {
      tubes := [];
      var t := 0;
      while t < |starts|
        invariant 0 <= t <= |starts| && |tubes| == t
        invariant forall u :: 0 <= u < t ==> IsTube(noise, starts[u], tubes[u])
      {
        var points := InitTube(noise, starts[t]);
        tubes := tubes + [points];
        t := t + 1;
      }
    }

    /** The pointer in normalised device coordinates, and its page position for the shaders. */
    method PointerMove(clientX: real, clientY: real, pageX: real, pageY: real, innerWidth: real, innerHeight: real)
      requires innerWidth > 0.0 && innerHeight > 0.0
      modifies this`mousePos, this`pageMouse
      ensures mousePos == Vec2(clientX / innerWidth * 2.0 - 1.0, -(clientY / innerHeight) * 2.0 + 1.0)
      ensures pageMouse == Vec2(pageX, pageY)
    {
      mousePos := Vec2(clientX / innerWidth * 2.0 - 1.0, -(clientY / innerHeight) * 2.0 + 1.0);
      pageMouse := Vec2(pageX, pageY);
    }

    /**
     * One frame with `hit` the raycast's first hit on the background plane:
     * nothing once destroyed; otherwise the follower and the rotation move,
     * the hit (if any) becomes the spring's target, the spring steps and the
     * frame is rendered.
     */
    method Animate(hit: Option<Vec3>)
      modifies this
      ensures old(isDestroyed) ==> unchanged(this)
      ensures !old(isDestroyed) ==>
        && mouseFollowerPos == NextFollower(old(mouseFollowerPos), mousePos)
        && rotationOffset == old(rotationOffset) + 0.0005
        && rotation == Vec2(-mouseFollowerPos.y / 10.0, mouseFollowerPos.x / 10.0 + rotationOffset)
        && mouseScenePos == (if hit.Some? then hit.value else old(mouseScenePos))
        && spring == SpringStep(old(spring), mouseScenePos)
        && lightSpherePos == spring.position && lightPos == spring.position
        && time == old(time) + 0.05 && bgTime == old(bgTime) + 0.05
        && mousePos == old(mousePos) && pageMouse == old(pageMouse) && tubes == old(tubes) && !isDestroyed
    {
      if isDestroyed { return; }
      mouseFollowerPos := Add2(mouseFollowerPos, Scale2(Sub2(mousePos, mouseFollowerPos), 0.1));
      rotationOffset := rotationOffset + 0.0005;
      rotation := Vec2(-mouseFollowerPos.y / 10.0, mouseFollowerPos.x / 10.0 + rotationOffset);
      if hit.Some? {
        mouseScenePos := hit.value;
      }
      AnimateLightSphere();
      Render();
    }

    /** `animateLightSphere`: one spring step towards the pointer's scene position. */
    method AnimateLightSphere()
      modifies this`spring, this`lightSpherePos
      ensures spring == SpringStep(old(spring), mouseScenePos) && lightSpherePos == spring.position
    {
      var velocity := Scale3(Add3(spring.velocity, Scale3(Sub3(mouseScenePos, spring.position), 0.015)), 0.95);
      spring := Spring(velocity, Add3(spring.position, velocity));
      lightSpherePos := spring.position;
    }

    /** Both shaders' time advances and both light positions take the spring's position. */
    method Render()
      modifies this`time, this`bgTime, this`lightPos
      ensures time == old(time) + 0.05 && bgTime == old(bgTime) + 0.05 && lightPos == spring.position
    {
      time := time + 0.05;
      bgTime := bgTime + 0.05;
      lightPos := spring.position;
    }

    method Destroy()
      modifies this`isDestroyed
      ensures isDestroyed
    {
      isDestroyed := true;
    }
  }
}
