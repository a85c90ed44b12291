/**
 * The ferrofluid sketch.  Twenty-six circular matter.js bodies float in a
 * 280 x 280 physics world without gravity.  Exactly one of them, the focus,
 * is static and carries a single attractor that pulls every other body
 * towards it; each frame the focus is eased towards the centre of the world,
 * the engine steps, and the body positions are written, normalised, into the
 * shader's `itemPositions` uniform.  A pointer press moves the focus to the
 * next of the first eight bodies.
 */
module Ferrofluid {
  import opened Vectors
  import opened Optional
  import opened MatterAttractors

  /** `physicsScale`: the side of the square physics world. */
  const PhysicsScale: real := 280.0
  /** `ITEM_COUNT`: the number of bodies and of shader item positions. */
  const ItemCount: nat := 26
  /** The mass every body is created with. */
  const BodyMass: real := 0.015
  /** The pointer handler cycles the focus through bodies 0 .. FocusCycle - 1. */
  const FocusCycle: nat := 8
  /** The factor of the focus attractor. */
  const FocusPull: real := 0.000001
  /** The share of the distance to the centre the focus moves each frame. */
  const Centering: real := 0.15
  /** `u_time`'s step per rendered frame. */
  const TimeStep: real := 0.05

  // ----- FocusHandler.attractor ------------------------------------------

  /** `attractor(bodyA, bodyB)`: the difference A - B of the positions, scaled by 1e-6. */
  function FocusForce(a: Kin, b: Kin): Vec2
  {
    Vec2((a.position.x - b.position.x) * FocusPull, (a.position.y - b.position.y) * FocusPull)
  }

  /** Swapping the two bodies reverses the force. */
  lemma FocusForceAntisymmetric(a: Kin, b: Kin)
    ensures FocusForce(a, b) == Neg2(FocusForce(b, a))
    ensures a.position == b.position <==> FocusForce(a, b) == Zero2
  {
  }

  /**
   * The force on B points from B towards A: its dot product with B→A is
   * 1e-6 times the squared distance, so it is positive for distinct
   * positions.
   */
  lemma FocusForceTowardsA(a: Kin, b: Kin)
    ensures Dot2(FocusForce(a, b), Sub2(a.position, b.position)) == FocusPull * LengthSq2(Sub2(a.position, b.position))
    ensures LengthSq2(Sub2(a.position, b.position)) != 0.0 ==> Dot2(FocusForce(a, b), Sub2(a.position, b.position)) > 0.0
  {
    var d := Sub2(a.position, b.position);
    assert FocusForce(a, b) == Scale2(d, FocusPull);
    assert Dot2(Scale2(d, FocusPull), d) == FocusPull * LengthSq2(d);
    LengthSqNonNegative(d);
    if LengthSq2(d) != 0.0 {
      MulPositive(FocusPull, LengthSq2(d));
    }
  }

  /** The `(a, b) => this.attractor(a, b)` entry the focused body carries; its result, an object, is always truthy. */
  function FocusAttractor(): Attractor
  {
    Function((a: Kin, b: Kin) => Some(FocusForce(a, b)))
  }

  /** An attractor that behaves as the focus attractor on every pair of bodies. */
  ghost predicate IsFocus(att: Attractor)
  {
    att.Function? && forall a: Kin, b: Kin :: att.f(a, b) == Some(FocusForce(a, b))
  }

  lemma FocusAttractorIsFocus()
    ensures IsFocus(FocusAttractor())
  {
  }

  // ----- FocusHandler.setIndex -------------------------------------------

  /** The old focus: `Body.setStatic(body, false)` and `attractors = []`. */
  function Released(b: Body): Body
  {
    b.(isStatic := false, attractors := Some([]))
  }

  /** The new focus: `Body.setStatic(body, true)` and a plugin whose only attractor is the focus attractor. */
  function Focused(b: Body): Body
  {
    b.(isStatic := true, attractors := Some([FocusAttractor()]))
  }

  /** The bodies after `setIndex(to)` when the focus was body `from`. */
  function Refocus(bodies: seq<Body>, from: nat, to: nat): seq<Body>
    requires from < |bodies| && to < |bodies|
  {
    bodies[from := Released(bodies[from])][to := Focused(bodies[to])]
  }

  /**
   * After `setIndex(to)` body `to` is static with exactly the focus
   * attractor, also when `to` was already the focus; a different old focus
   * is released with an empty attractor list; no other body changes, and no
   * body moves.
   */
  lemma RefocusShape(bodies: seq<Body>, from: nat, to: nat)
    requires from < |bodies| && to < |bodies|
    ensures var r := Refocus(bodies, from, to);
            |r| == |bodies| &&
            r[to].isStatic && r[to].attractors.Some? && |Attractors(r[to])| == 1 && IsFocus(Attractors(r[to])[0]) &&
            (from != to ==> !r[from].isStatic && r[from].attractors == Some([])) &&
            (forall i :: 0 <= i < |bodies| && i != from && i != to ==> r[i] == bodies[i]) &&
            (forall i :: 0 <= i < |bodies| ==> r[i].position == bodies[i].position && r[i].mass == bodies[i].mass)
  {
    FocusAttractorIsFocus();
  }

  /**
   * Body `idx` is the only static body and the only one with attractors,
   * and its one attractor is the focus attractor.
   */
  ghost predicate SoleFocus(bodies: seq<Body>, idx: nat)
  {
    idx < |bodies| &&
    (forall i :: 0 <= i < |bodies| ==> (bodies[i].isStatic <==> i == idx)) &&
    (forall i :: 0 <= i < |bodies| && i != idx ==> !Attracts(bodies[i])) &&
    Attracts(bodies[idx]) && |Attractors(bodies[idx])| == 1 && IsFocus(Attractors(bodies[idx])[0])
  }

  /** Moving the focus keeps exactly one focused body, now the new one. */
  lemma RefocusKeepsSoleFocus(bodies: seq<Body>, from: nat, to: nat)
    requires SoleFocus(bodies, from) && to < |bodies|
    ensures SoleFocus(Refocus(bodies, from, to), to)
  {
    FocusAttractorIsFocus();
    var r := Refocus(bodies, from, to);
    forall i | 0 <= i < |bodies| && i != to
      ensures !r[i].isStatic && !Attracts(r[i])
    {
      if i != from {
        assert r[i] == bodies[i];
      }
    }
  }

  /** No body is static and none has attractors, as after `Body.create`. */
  predicate Idle(bodies: seq<Body>)
  {
    forall i :: 0 <= i < |bodies| ==> !bodies[i].isStatic && !Attracts(bodies[i])
  }

  /** The first `setIndex` on idle bodies makes the chosen body the sole focus. */
  lemma FocusIdle(bodies: seq<Body>, from: nat, to: nat)
    requires Idle(bodies) && from < |bodies| && to < |bodies|
    ensures SoleFocus(Refocus(bodies, from, to), to)
  {
    FocusAttractorIsFocus();
    var r := Refocus(bodies, from, to);
    forall i | 0 <= i < |bodies| && i != to
      ensures !r[i].isStatic && !Attracts(r[i])
    {
      if i != from {
        assert r[i] == bodies[i];
      }
    }
  }

  // ----- what the engine update does to a ferrofluid world ---------------

  /** The push the focus attractor of body idx gives body j. */
  function Pull(bodies: seq<Body>, idx: nat, j: nat): Push
    requires idx < |bodies| && j < |bodies|
  {
    Push(idx, j, j, FocusForce(bodies[idx].Kinematics(), bodies[j].Kinematics()))
  }

  /** One pull of the focus on each body before m other than itself, in body order. */
  function Pulls(bodies: seq<Body>, idx: nat, m: nat): seq<Push>
    requires idx < |bodies| && m <= |bodies|
  {
    if m == 0 then []
    else Pulls(bodies, idx, m - 1) + (if m - 1 == idx then [] else [Pull(bodies, idx, m - 1)])
  }

  /** What the update loop has issued at cursor (i, j, k) when body idx is the sole focus. */
  function FocusApplied(bodies: seq<Body>, idx: nat, i: nat, j: nat, k: nat): seq<Push>
    requires idx < |bodies| && j <= |bodies|
  {
    if i < idx then []
    else if i == idx then Pulls(bodies, idx, j) + (if k > 0 && j < |bodies| then [Pull(bodies, idx, j)] else [])
    else Pulls(bodies, idx, |bodies|)
  }

  lemma FocusPushes(bodies: seq<Body>, idx: nat, j: nat, hypot: (real, real) -> real)
    requires SoleFocus(bodies, idx) && j < |bodies|
    ensures AttractorPushes(bodies, idx, j, Attractors(bodies[idx])[0], hypot) == [Pull(bodies, idx, j)]
  {
    var att := Attractors(bodies[idx])[0];
    assert att.f(bodies[idx].Kinematics(), bodies[j].Kinematics()) == Some(FocusForce(bodies[idx].Kinematics(), bodies[j].Kinematics()));
  }

  lemma {:induction false} FocusedApplied(bodies: seq<Body>, idx: nat, i: nat, j: nat, k: nat, hypot: (real, real) -> real)
    requires SoleFocus(bodies, idx) && Cursor(bodies, i, j, k)
    ensures Applied(bodies, i, j, k, hypot) == FocusApplied(bodies, idx, i, j, k)
    decreases i, j, k
  {
    if k > 0 {
      FocusedApplied(bodies, idx, i, j, k - 1, hypot);
      FocusPushes(bodies, idx, j, hypot);
    } else if j > 0 {
      FocusedApplied(bodies, idx, i, j - 1, Span(bodies, i, j - 1), hypot);
    } else if i > 0 {
      FocusedApplied(bodies, idx, i - 1, |bodies|, 0, hypot);
    }
  }

  /**
   * With a sole focus an engine update pulls every other body towards the
   * focus exactly once, in body order, by (A - B) * 1e-6, and applies
   * nothing else.
   */
  lemma FocusedUpdate(bodies: seq<Body>, idx: nat, hypot: (real, real) -> real)
    requires SoleFocus(bodies, idx)
    ensures UpdatePushes(bodies, hypot) == Pulls(bodies, idx, |bodies|)
  {
    FocusedApplied(bodies, idx, |bodies|, 0, 0, hypot);
  }

  /** The pulls reach each body other than the focus once: the t-th goes to body t, or t + 1 past the focus. */
  lemma {:induction false} PullsAt(bodies: seq<Body>, idx: nat, m: nat)
    requires idx < |bodies| && m <= |bodies|
    ensures |Pulls(bodies, idx, m)| == (if idx < m then m - 1 else m)
    ensures forall t :: 0 <= t < |Pulls(bodies, idx, m)| ==>
              Pulls(bodies, idx, m)[t] == Pull(bodies, idx, if t < idx then t else t + 1)
  {
    if m > 0 {
      PullsAt(bodies, idx, m - 1);
    }
  }

  // ----- updatePhysics, item positions ------------------------------------

  /** The centre of the physics world. */
  const Centre: Vec2 := Vec2(PhysicsScale / 2.0, PhysicsScale / 2.0)

  /** The translation `updatePhysics` applies to the focused body at position p. */
  function CentreStep(p: Vec2): Vec2
  {
    Vec2((PhysicsScale / 2.0 - p.x) * Centering, (PhysicsScale / 2.0 - p.y) * Centering)
  }

  /** After the translation the focus is 85% as far from the centre as before, on the same side. */
  lemma CentreStepShrinks(p: Vec2)
    ensures Sub2(Centre, Add2(p, CentreStep(p))) == Scale2(Sub2(Centre, p), 1.0 - Centering)
  {
  }

  /** The shader's item position of a body at p: (x, 280 - y) / 280. */
  function ItemPosition(p: Vec2): Vec2
  {
    Vec2(p.x / PhysicsScale, (PhysicsScale - p.y) / PhysicsScale)
  }

  /** The physics position an item position stands for. */
  function BodyPosition(u: Vec2): Vec2
  {
    Vec2(u.x * PhysicsScale, PhysicsScale - u.y * PhysicsScale)
  }

  /** Item positions and body positions determine each other. */
  lemma ItemPositionRoundTrip(p: Vec2, u: Vec2)
    ensures BodyPosition(ItemPosition(p)) == p
    ensures ItemPosition(BodyPosition(u)) == u
  {
  }

  /** Bodies inside the world get item positions in the unit square, with y flipped. */
  lemma ItemPositionInUnitSquare(p: Vec2)
    requires 0.0 <= p.x <= PhysicsScale && 0.0 <= p.y <= PhysicsScale
    ensures 0.0 <= ItemPosition(p).x <= 1.0 && 0.0 <= ItemPosition(p).y <= 1.0
  {
  }

  // ----- the focus handler and the sketch ----------------------------------

  /** `FocusHandler`: the focus index over the world's body array. */
  class FocusHandler {
    var index: nat
    const world: World

    constructor (world: World)
      ensures this.world == world && index == 0
    {
      this.world := world;
      index := 0;
    }

    /** `setIndex(newFocusIndex)`. */
    method SetIndex(n: nat)
      requires index < |world.bodies| && n < |world.bodies|
      modifies this`index, world`bodies
      ensures index == n
      ensures world.bodies == Refocus(old(world.bodies), old(index), n)
    {
      var bodies := world.bodies;
      bodies := bodies[index := Released(bodies[index])];
      bodies := bodies[n := Focused(bodies[n])];
      world.bodies := bodies;
      index := n;
    }
  }

  /** `FerrofluidSketch` with its physics world, focus handler and the shader state it writes. */
  class Sketch {
    const world: World
    const focus: FocusHandler
    /** `extendedMaterial.userData.itemPositions.value`. */
    const itemPositions: array<Vec2>
    /** `u_time`. */
    var time: real
    var isDestroyed: bool

    /**
     * The body count matches the uniform array, the handler works on this
     * world, and the focus is one of the first eight bodies and the only
     * static, attracting body.
     */
    ghost predicate Valid()
      reads world, focus
    {
      focus.world == world && itemPositions.Length == ItemCount && |world.bodies| == ItemCount &&
      focus.index < FocusCycle && SoleFocus(world.bodies, focus.index)
    }

    /**
     * `init` as far as this model goes: `initPhysics` with the random body
     * positions given as fractions xs[i], ys[i] of the world side, and the
     * uniforms of `initObject`.  Radii and the remaining body options are
     * not modelled.
     */
    constructor (xs: seq<real>, ys: seq<real>)
      requires |xs| == ItemCount && |ys| == ItemCount
      ensures Valid() && fresh(world) && fresh(focus) && fresh(itemPositions)
      ensures focus.index == 0 && world.applied == [] && time == 1.0 && !isDestroyed
      ensures forall i :: 0 <= i < ItemCount ==>
                world.bodies[i].position == Vec2(xs[i] * PhysicsScale, ys[i] * PhysicsScale) &&
                world.bodies[i].mass == BodyMass
      ensures forall i :: 0 <= i < ItemCount ==> itemPositions[i] == Zero2
    {
      var w := new World();
      var i := 0;
      while i < ItemCount
        invariant i <= ItemCount && |w.bodies| == i && w.applied == []
        invariant Idle(w.bodies)
        invariant forall t :: 0 <= t < i ==>
                    w.bodies[t].position == Vec2(xs[t] * PhysicsScale, ys[t] * PhysicsScale) &&
                    w.bodies[t].mass == BodyMass
      {
        w.AddBody(Body(Vec2(xs[i] * PhysicsScale, ys[i] * PhysicsScale), BodyMass, false, None));
        i := i + 1;
      }
      var h := new FocusHandler(w);
      RefocusShape(w.bodies, 0, 0);
      FocusIdle(w.bodies, 0, 0);
      h.SetIndex(0);
      world := w;
      focus := h;
      itemPositions := new Vec2[ItemCount](_ => Zero2);
      time := 1.0;
      isDestroyed := false;
    }

    /** The `pointerdown` listener: focus the next body, wrapping to 0 at 8. */
    method PointerDown()
      requires Valid()
      modifies focus`index, world`bodies
      ensures Valid()
      ensures focus.index == if old(focus.index) + 1 >= FocusCycle then 0 else old(focus.index) + 1
      ensures world.bodies == Refocus(old(world.bodies), old(focus.index), focus.index)
    {
      var newFocusIndex := focus.index + 1;
      if newFocusIndex >= FocusCycle {
        newFocusIndex := 0;
      }
      RefocusKeepsSoleFocus(world.bodies, focus.index, newFocusIndex);
      focus.SetIndex(newFocusIndex);
    }

    /**
     * `updatePhysics`: translate the focused body 15% of the way to the
     * centre, then run the plugin's `Engine.update`.  matter.js's own
     * integration step is not part of this model.
     */
    method UpdatePhysics(hypot: (real, real) -> real)
      requires Valid()
      modifies world`bodies, world`applied
      ensures Valid()
      ensures var moved := old(world.bodies)[focus.index := old(world.bodies)[focus.index].(
                position := Add2(old(world.bodies)[focus.index].position, CentreStep(old(world.bodies)[focus.index].position)))];
              world.bodies == moved && world.applied == old(world.applied) + UpdatePushes(moved, hypot)
    {
      var current := world.bodies[focus.index];
      world.Translate(focus.index, CentreStep(current.position));
      assert forall i :: 0 <= i < |world.bodies| && i != focus.index ==> world.bodies[i] == old(world.bodies)[i];
      world.Update(hypot);
    }

    /**
     * One `animate` frame: nothing once destroyed; otherwise step the
     * physics, copy every body's normalised position into the uniform array
     * and render.
     */
    method Animate(hypot: (real, real) -> real)
      requires Valid()
      modifies world`bodies, world`applied, itemPositions, this`time
      ensures Valid()
      ensures old(isDestroyed) ==> world.bodies == old(world.bodies) && world.applied == old(world.applied) &&
                                   itemPositions[..] == old(itemPositions[..]) && time == old(time)
      ensures !old(isDestroyed) ==> time == old(time) + TimeStep &&
                                    forall i :: 0 <= i < ItemCount ==> itemPositions[i] == ItemPosition(world.bodies[i].position)
      ensures !old(isDestroyed) ==>
                var moved := old(world.bodies)[focus.index := old(world.bodies)[focus.index].(
                  position := Add2(old(world.bodies)[focus.index].position, CentreStep(old(world.bodies)[focus.index].position)))];
                world.bodies == moved && world.applied == old(world.applied) + UpdatePushes(moved, hypot)
    {
      if isDestroyed {
        return;
      }
      UpdatePhysics(hypot);
      var i := 0;
      while i < |world.bodies|
        modifies itemPositions
        invariant i <= |world.bodies| == itemPositions.Length
        invariant forall t :: 0 <= t < i ==> itemPositions[t] == ItemPosition(world.bodies[t].position)
      {
        itemPositions[i] := ItemPosition(world.bodies[i].position);
        i := i + 1;
      }
      Render();
    }

    /** `render`: advance `u_time`. */
    method Render()
      modifies this`time
      ensures time == old(time) + TimeStep
    {
      time := time + TimeStep;
    }

    /** `destroy`: stop the animation loop. */
    method Destroy()
      modifies this`isDestroyed
      ensures isDestroyed
    {
      isDestroyed := true;
    }
  }
}
