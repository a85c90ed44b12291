/**
 * The matter-attractors plugin for the matter.js physics engine.  Every body
 * carries a list of attractors in `body.plugin.attractors`; before each
 * engine step the plugin runs every attractor of every body A against every
 * other body B and applies the resulting force to B.  An attractor is either
 * a constant force vector, a function of the two bodies whose result (when
 * truthy) is the force, or the plugin's own gravity attractor, which applies
 * Newton's attraction to both bodies itself and returns nothing.
 *
 * Bodies are values held in the engine's `World`; the world keeps the
 * sequence of `Matter.Body.applyForce` calls the plugin has issued, each
 * tagged with the (bodyA, bodyB) pair whose attractor issued it.
 */
module MatterAttractors {
  import opened Vectors
  import opened Optional

  const GravityConstant: real := 0.001
  /** The squared distance gravity divides by when two bodies coincide. */
  const ZeroDistanceSq: real := 0.0001

  /** What an attractor function reads of a body: its position and mass. */
  datatype Kin = Kin(position: Vec2, mass: real)

  /**
   * An entry of `body.plugin.attractors`.  A `Function` attractor's result is
   * `None` when the JavaScript function returns a falsy value.
   */
  datatype Attractor =
    | Constant(force: Vec2)
    | Function(f: (Kin, Kin) -> Option<Vec2>)
    | Gravity

  /** A matter.js body as the plugin sees it; `attractors` is `None` while `body.plugin.attractors` is unset. */
  datatype Body = Body(position: Vec2, mass: real, isStatic: bool, attractors: Option<seq<Attractor>>)
  {
    function Kinematics(): Kin { Kin(position, mass) }
  }

  /**
   * One `Matter.Body.applyForce(body, body.position, force)` call on body
   * `target`, issued while the attractors of body `owner` ran against body
   * `other`.
   */
  datatype Push = Push(owner: nat, other: nat, target: nat, force: Vec2)

  // ----- Body.init -------------------------------------------------------

  /** `body.plugin.attractors = body.plugin.attractors || []` on a body value. */
  function Init(b: Body): (r: Body)
    ensures r.attractors.Some?
    ensures b.attractors.Some? ==> r == b
    ensures b.attractors.None? ==> r == b.(attractors := Some([]))
  {
    b.(attractors := Some(if b.attractors.Some? then b.attractors.value else []))
  }

  /** Running `Body.init` a second time changes nothing. */
  lemma InitIdempotent(b: Body)
    ensures Init(Init(b)) == Init(b)
    ensures Init(b).position == b.position && Init(b).mass == b.mass && Init(b).isStatic == b.isStatic
  {
  }

  // ----- the gravity attractor --------------------------------------------

  function Neg2(a: Vec2): Vec2 { Vec2(-a.x, -a.y) }

  function Dot2(a: Vec2, b: Vec2): real { a.x * b.x + a.y * b.y }

  /** `Matter.Vector.normalise`: the zero vector stays zero, any other vector is divided by its length `len`. */
  function Normalise(v: Vec2, len: real): Vec2
  {
    if len == 0.0 then Zero2 else Vec2(v.x / len, v.y / len)
  }

  /**
   * The force the gravity attractor of body a applies to body b; `len` is the
   * length of the vector from a to b.  The squared distance is replaced by
   * 0.0001 when it is 0 (the `|| 0.0001` of the source).
   */
  function GravityForce(a: Kin, b: Kin, len: real): Vec2
  {
    var bToA := Sub2(b.position, a.position);
    var distanceSq := if LengthSq2(bToA) == 0.0 then ZeroDistanceSq else LengthSq2(bToA);
    var magnitude := -GravityConstant * (a.mass * b.mass / distanceSq);
    Scale2(Normalise(bToA, len), magnitude)
  }

  /** The inverse-square law's strength G * mA * mB / d^2, for bodies a distance d > 0 apart. */
  function GravityStrength(a: Kin, b: Kin): real
    requires LengthSq2(Sub2(b.position, a.position)) != 0.0
  {
    GravityConstant * (a.mass * b.mass / LengthSq2(Sub2(b.position, a.position)))
  }

  lemma LengthSqNonNegative(v: Vec2)
    ensures LengthSq2(v) >= 0.0
  {
  }

  /** A length whose square is non-zero is positive. */
  lemma LengthPositive(v: Vec2, len: real)
    requires IsLength(len, v.x, v.y) && LengthSq2(v) != 0.0
    ensures len > 0.0 && LengthSq2(v) == len * len
  {
  }

  /** Scaling (x, y) by k multiplies its squared length by k * k. */
  lemma ScaledLengthSq(v: Vec2, k: real)
    ensures LengthSq2(Scale2(v, k)) == (k * k) * LengthSq2(v)
  {
  }

  lemma DivScale(x: real, len: real, m: real)
    requires len != 0.0
    ensures (x / len) * m == x * (m / len)
  {
  }

  /** For bodies apart, the gravity force is the vector from a to b scaled by -(G * mA * mB / d^2) / len. */
  lemma GravityAlongLine(a: Kin, b: Kin, len: real)
    requires var d := Sub2(b.position, a.position); IsLength(len, d.x, d.y) && LengthSq2(d) != 0.0
    ensures len > 0.0
    ensures GravityForce(a, b, len) == Scale2(Sub2(b.position, a.position), -GravityStrength(a, b) / len)
  {
    var d := Sub2(b.position, a.position);
    LengthPositive(d, len);
    var m := -GravityStrength(a, b);
    assert m == -GravityConstant * (a.mass * b.mass / LengthSq2(d));
    DivScale(d.x, len, m);
    DivScale(d.y, len, m);
  }

  /** Coincident bodies get no gravity force: the zero vector normalises to zero. */
  lemma GravityCoincident(a: Kin, b: Kin, len: real)
    requires a.position == b.position
    ensures GravityForce(a, b, len) == Zero2
  {
    var d := Sub2(b.position, a.position);
    assert d == Zero2;
    assert Normalise(d, len) == Zero2;
  }

  /**
   * Newton's law as the gravity attractor applies it.  For bodies apart,
   * at distance len, the force on b has squared length (G * mA * mB / d^2)^2,
   * and it lies along the line from a to b: its dot product with the vector
   * from a to b is -(G * mA * mB / d^2) * len.
   */
  lemma GravityInverseSquare(a: Kin, b: Kin, len: real)
    requires var d := Sub2(b.position, a.position); IsLength(len, d.x, d.y) && LengthSq2(d) != 0.0
    ensures var s := GravityStrength(a, b);
            LengthSq2(GravityForce(a, b, len)) == s * s &&
            Dot2(GravityForce(a, b, len), Sub2(b.position, a.position)) == -(s * len)
  {
    var d := Sub2(b.position, a.position);
    GravityAlongLine(a, b, len);
    LengthPositive(d, len);
    var s := GravityStrength(a, b);
    var k := -s / len;
    ScaledLengthSq(d, k);
    SquareOfProduct(k, len, -s);
    assert Dot2(Scale2(d, k), d) == k * LengthSq2(d);
    assert k * (len * len) == (k * len) * len;
  }

  /** (k * len) == m gives (k * k) * (len * len) == m * m. */
  lemma SquareOfProduct(k: real, len: real, m: real)
    requires k * len == m
    ensures (k * k) * (len * len) == m * m
  {
    assert (k * k) * (len * len) == (k * len) * (k * len);
  }

  /** With positive masses gravity pulls b towards a: the force opposes the vector from a to b. */
  lemma GravityAttracts(a: Kin, b: Kin, len: real)
    requires var d := Sub2(b.position, a.position); IsLength(len, d.x, d.y) && LengthSq2(d) != 0.0
    requires a.mass > 0.0 && b.mass > 0.0
    ensures Dot2(GravityForce(a, b, len), Sub2(b.position, a.position)) < 0.0
  {
    var d := Sub2(b.position, a.position);
    LengthSqNonNegative(d);
    LengthPositive(d, len);
    GravityInverseSquare(a, b, len);
    MulPositive(a.mass, b.mass);
    var s := GravityStrength(a, b);
    assert s > 0.0;
    MulPositive(s, len);
  }

  // ----- what one engine update applies -------------------------------------

  /** The attractor list of a body, an unset list read as empty. */
  function Attractors(b: Body): seq<Attractor>
  {
    if b.attractors.Some? then b.attractors.value else []
  }

  /** The plugin's guard `attractors && attractors.length > 0`. */
  predicate Attracts(b: Body)
  {
    b.attractors.Some? && |b.attractors.value| > 0
  }

  /**
   * The forces one attractor of body i applies when run against body j:
   * a constant is applied to j as it is, a function's truthy result is
   * applied to j, and gravity applies -F to i and F to j.
   */
  function AttractorPushes(bodies: seq<Body>, i: nat, j: nat, att: Attractor, hypot: (real, real) -> real): seq<Push>
    requires i < |bodies| && j < |bodies|
  {
    var a := bodies[i].Kinematics();
    var b := bodies[j].Kinematics();
    match att
    case Constant(v) => [Push(i, j, j, v)]
    case Function(f) => (match f(a, b) case Some(v) => [Push(i, j, j, v)] case None => [])
    case Gravity =>
      var bToA := Sub2(b.position, a.position);
      var force := GravityForce(a, b, hypot(bToA.x, bToA.y));
      [Push(i, j, i, Neg2(force)), Push(i, j, j, force)]
  }

  /**
   * How many attractors the innermost loop runs for body i against body j:
   * none when j is i itself (the `continue`) or when body i fails the
   * guard, otherwise all of them.
   */
  function Span(bodies: seq<Body>, i: nat, j: nat): nat
  {
    if i < |bodies| && j < |bodies| && j != i && Attracts(bodies[i]) then |Attractors(bodies[i])| else 0
  }

  /**
   * A point the update loop reaches: body i (or past the last body), target
   * j (or past the last target) and attractor k of that pair.
   */
  predicate Cursor(bodies: seq<Body>, i: nat, j: nat, k: nat)
  {
    i <= |bodies| && j <= |bodies| && (i == |bodies| ==> j == 0) && k <= Span(bodies, i, j)
  }

  /**
   * The `applyForce` calls `Engine.update` has issued by the time it reaches
   * attractor k of body i run against body j: all bodies before i, body i's
   * runs against the targets before j, and the first k attractors against j.
   */
  function Applied(bodies: seq<Body>, i: nat, j: nat, k: nat, hypot: (real, real) -> real): seq<Push>
    requires Cursor(bodies, i, j, k)
    decreases i, j, k
  {
    if k > 0 then Applied(bodies, i, j, k - 1, hypot) + AttractorPushes(bodies, i, j, Attractors(bodies[i])[k - 1], hypot)
    else if j > 0 then Applied(bodies, i, j - 1, Span(bodies, i, j - 1), hypot)
    else if i > 0 then Applied(bodies, i - 1, |bodies|, 0, hypot)
    else []
  }

  /** Every `applyForce` call of one `Engine.update`, in the order it issues them. */
  function UpdatePushes(bodies: seq<Body>, hypot: (real, real) -> real): seq<Push>
  {
    Applied(bodies, |bodies|, 0, 0, hypot)
  }

  /**
   * A body whose attractor list is missing or empty exerts nothing: the loop
   * passes over all of its targets without issuing a force.
   */
  lemma {:induction false} SilentBody(bodies: seq<Body>, i: nat, j: nat, hypot: (real, real) -> real)
    requires i < |bodies| && j <= |bodies| && !Attracts(bodies[i])
    ensures Applied(bodies, i, j, 0, hypot) == Applied(bodies, i, 0, 0, hypot)
  {
    if j > 0 {
      SilentBody(bodies, i, j - 1, hypot);
    }
  }

  // ----- what the pushes of an update satisfy -------------------------------

  /**
   * Push p was issued by an attractor of a body with a non-empty attractor
   * list against a different body, and hits that other body, or (gravity's
   * reaction) the attracting body itself.
   */
  predicate Issued(p: Push, bodies: seq<Body>)
  {
    p.owner < |bodies| && p.other < |bodies| && p.owner != p.other && Attracts(bodies[p.owner]) &&
    (p.target == p.other || (p.target == p.owner && HasGravity(Attractors(bodies[p.owner]))))
  }

  predicate HasGravity(atts: seq<Attractor>)
  {
    exists k :: 0 <= k < |atts| && atts[k].Gravity?
  }

  predicate AllIssued(log: seq<Push>, bodies: seq<Body>)
  {
    forall t :: 0 <= t < |log| ==> Issued(log[t], bodies)
  }

  lemma AllIssuedAppend(a: seq<Push>, b: seq<Push>, bodies: seq<Body>)
    requires AllIssued(a, bodies) && AllIssued(b, bodies)
    ensures AllIssued(a + b, bodies)
  {
    forall t | 0 <= t < |a + b|
      ensures Issued((a + b)[t], bodies)
    {
      if t >= |a| {
        assert (a + b)[t] == b[t - |a|];
      }
    }
  }

  /** The forces of attractor k of body i against a different body j all qualify. */
  lemma AttractorIssued(bodies: seq<Body>, i: nat, j: nat, k: nat, hypot: (real, real) -> real)
    requires i < |bodies| && j < |bodies| && i != j && Attracts(bodies[i]) && k < |Attractors(bodies[i])|
    ensures AllIssued(AttractorPushes(bodies, i, j, Attractors(bodies[i])[k], hypot), bodies)
  {
    var att := Attractors(bodies[i])[k];
    assert att.Gravity? ==> HasGravity(Attractors(bodies[i]));
  }

  /**
   * Every force of an engine update comes from an attractor of a body whose
   * list is set and non-empty, run against a different body: no body's
   * attractors ever run against that body itself, and bodies with a missing
   * or empty list exert nothing.  Only gravity pushes its own body.
   */
  lemma {:induction false} AppliedIssued(bodies: seq<Body>, i: nat, j: nat, k: nat, hypot: (real, real) -> real)
    requires Cursor(bodies, i, j, k)
    ensures AllIssued(Applied(bodies, i, j, k, hypot), bodies)
    decreases i, j, k
  {
    if k > 0 {
      AppliedIssued(bodies, i, j, k - 1, hypot);
      AttractorIssued(bodies, i, j, k - 1, hypot);
      AllIssuedAppend(Applied(bodies, i, j, k - 1, hypot),
                      AttractorPushes(bodies, i, j, Attractors(bodies[i])[k - 1], hypot), bodies);
    } else if j > 0 {
      AppliedIssued(bodies, i, j - 1, Span(bodies, i, j - 1), hypot);
    } else if i > 0 {
      AppliedIssued(bodies, i - 1, |bodies|, 0, hypot);
    }
  }

  /** How many times `Matter.Body.applyForce` runs for one attractor of body i against body j. */
  function ForceCount(bodies: seq<Body>, i: nat, j: nat, att: Attractor): nat
    requires i < |bodies| && j < |bodies|
  {
    match att
    case Constant(_) => 1
    case Function(f) => if f(bodies[i].Kinematics(), bodies[j].Kinematics()).Some? then 1 else 0
    case Gravity => 2
  }

  /**
   * For one attractor of body i run against body j: a constant is applied
   * once to j unchanged, a function once to j exactly when its result is
   * truthy, and gravity applies equal and opposite forces to i and j.
   */
  lemma AttractorPushesShape(bodies: seq<Body>, i: nat, j: nat, att: Attractor, hypot: (real, real) -> real)
    requires i < |bodies| && j < |bodies|
    ensures var ps := AttractorPushes(bodies, i, j, att, hypot);
            |ps| == ForceCount(bodies, i, j, att) &&
            (att.Constant? ==> ps[0].target == j && ps[0].force == att.force) &&
            (att.Function? && |ps| == 1 ==>
               ps[0].target == j && Some(ps[0].force) == att.f(bodies[i].Kinematics(), bodies[j].Kinematics())) &&
            (att.Gravity? ==> ps[0].target == i && ps[1].target == j && Add2(ps[0].force, ps[1].force) == Zero2)
  {
  }

  // ----- momentum ------------------------------------------------------------

  /** The sum of the forces of a sequence of pushes. */
  function NetForce(log: seq<Push>): Vec2
  {
    if |log| == 0 then Zero2 else Add2(log[0].force, NetForce(log[1..]))
  }

  lemma {:induction false} NetForceAppend(a: seq<Push>, b: seq<Push>)
    ensures NetForce(a + b) == Add2(NetForce(a), NetForce(b))
    decreases |a|
  {
    if |a| > 0 {
      assert (a + b)[1..] == a[1..] + b;
      assert (a + b)[0] == a[0];
      NetForceAppend(a[1..], b);
    } else {
      assert a + b == b;
    }
  }

  /** A log whose forces cancel out. */
  predicate Balanced(log: seq<Push>)
  {
    NetForce(log) == Zero2
  }

  /** Two balanced logs make a balanced log. */
  lemma BalancedAppend(a: seq<Push>, b: seq<Push>)
    requires Balanced(a) && Balanced(b)
    ensures Balanced(a + b)
  {
    NetForceAppend(a, b);
  }

  /** A world whose attractors are all gravity. */
  predicate GravityOnly(bodies: seq<Body>)
  {
    forall i, k :: 0 <= i < |bodies| && 0 <= k < |Attractors(bodies[i])| ==> Attractors(bodies[i])[k].Gravity?
  }

  /** One run of the gravity attractor applies forces that sum to zero. */
  lemma GravityPairBalanced(bodies: seq<Body>, i: nat, j: nat, hypot: (real, real) -> real)
    requires i < |bodies| && j < |bodies|
    ensures Balanced(AttractorPushes(bodies, i, j, Gravity, hypot))
  {
    var ps := AttractorPushes(bodies, i, j, Gravity, hypot);
    var f := ps[1].force;
    assert ps[1..] == [ps[1]];
    assert [ps[1]][1..] == [];
    assert NetForce([ps[1]]) == Add2(f, Zero2);
    assert NetForce(ps) == Add2(Neg2(f), NetForce([ps[1]]));
  }

  /**
   * Newton's third law for the plugin: when every attractor in the world is
   * gravity, the forces an engine update has applied at any point sum to zero.
   */
  lemma {:induction false} GravityConservesMomentum(bodies: seq<Body>, i: nat, j: nat, k: nat, hypot: (real, real) -> real)
    requires Cursor(bodies, i, j, k) && GravityOnly(bodies)
    ensures Balanced(Applied(bodies, i, j, k, hypot))
    decreases i, j, k
  {
    if k > 0 {
      GravityConservesMomentum(bodies, i, j, k - 1, hypot);
      GravityPairBalanced(bodies, i, j, hypot);
      BalancedAppend(Applied(bodies, i, j, k - 1, hypot), AttractorPushes(bodies, i, j, Gravity, hypot));
    } else if j > 0 {
      GravityConservesMomentum(bodies, i, j - 1, Span(bodies, i, j - 1), hypot);
    } else if i > 0 {
      GravityConservesMomentum(bodies, i - 1, |bodies|, 0, hypot);
    }
  }

  lemma AppendAssoc(a: seq<Push>, b: seq<Push>, c: seq<Push>)
    ensures (a + b) + c == a + (b + c)
  {
  }

  // ----- the engine's world ------------------------------------------------

  /**
   * `engine.world`: its bodies, in `Composite.allBodies` order, and the
   * `applyForce` calls the plugin has issued so far.
   */
  class World {
    var bodies: seq<Body>
    var applied: seq<Push>

    constructor ()
      ensures bodies == [] && applied == []
    {
      bodies := [];
      applied := [];
    }

    /** `Composite.add(world, body)` of a body made by `Body.create`, which runs `Body.init` on it. */
    method AddBody(b: Body)
      modifies this`bodies
      ensures bodies == old(bodies) + [Init(b)]
    {
      bodies := bodies + [Init(b)];
    }

    /** `MatterAttractors.Body.init` on body i. */
    method InitBody(i: nat)
      requires i < |bodies|
      modifies this`bodies
      ensures bodies == old(bodies)[i := Init(old(bodies)[i])]
    {
      bodies := bodies[i := Init(bodies[i])];
    }

    /** `Body.translate(bodies[i], delta)`: move body i by delta and leave every other body as it was. */
    method Translate(i: nat, delta: Vec2)
      requires i < |bodies|
      modifies this`bodies
      ensures bodies == old(bodies)[i := old(bodies)[i].(position := Add2(old(bodies)[i].position, delta))]
    {
      bodies := bodies[i := bodies[i].(position := Add2(bodies[i].position, delta))];
    }

    /** `MatterAttractors.Attractors.gravity(bodyA, bodyB)` with bodyA = bodies[i], bodyB = bodies[j]; `len` is the distance between them. */
    method ApplyGravity(i: nat, j: nat, len: real)
      requires i < |bodies| && j < |bodies|
      modifies this`applied
      ensures var force := GravityForce(bodies[i].Kinematics(), bodies[j].Kinematics(), len);
              applied == old(applied) + [Push(i, j, i, Neg2(force)), Push(i, j, j, force)]
    {
      var force := GravityForce(bodies[i].Kinematics(), bodies[j].Kinematics(), len);
      applied := applied + [Push(i, j, i, Neg2(force))];
      applied := applied + [Push(i, j, j, force)];
    }

    /** `MatterAttractors.Engine.update(engine)`; `hypot` is the vector length `Matter.Vector.magnitude` computes. */
    method Update(hypot: (real, real) -> real)
      modifies this`applied
      ensures applied == old(applied) + UpdatePushes(bodies, hypot)
    {
      ghost var start := applied;
      var i := 0;
      while i < |bodies|
        invariant i <= |bodies|
        invariant applied == start + Applied(bodies, i, 0, 0, hypot)
      {
        var attractors := bodies[i].attractors;
        if attractors.Some? && |attractors.value| > 0 {
          AttractAll(i, hypot, start);
        } else {
          SilentBody(bodies, i, |bodies|, hypot);
        }
        i := i + 1;
      }
    }

    /** The middle loop: the attractors of body i against every other body. */
    method AttractAll(i: nat, hypot: (real, real) -> real, ghost start: seq<Push>)
      requires i < |bodies| && Attracts(bodies[i])
      requires applied == start + Applied(bodies, i, 0, 0, hypot)
      modifies this`applied
      ensures applied == start + Applied(bodies, i, |bodies|, 0, hypot)
    {
      var j := 0;
      while j < |bodies|
        invariant j <= |bodies|
        invariant applied == start + Applied(bodies, i, j, 0, hypot)
      {
        if j != i {
          Attract(i, j, hypot, start);
        }
        j := j + 1;
      }
    }

    /** The inner loop: each attractor of body i, in list order, against body j. */
    method Attract(i: nat, j: nat, hypot: (real, real) -> real, ghost start: seq<Push>)
      requires i < |bodies| && j < |bodies| && i != j && Attracts(bodies[i])
      requires applied == start + Applied(bodies, i, j, 0, hypot)
      modifies this`applied
      ensures applied == start + Applied(bodies, i, j, Span(bodies, i, j), hypot)
    {
      var k := 0;
      while k < |bodies[i].attractors.value|
        invariant k <= |bodies[i].attractors.value| == Span(bodies, i, j)
        invariant applied == start + Applied(bodies, i, j, k, hypot)
      {
        AttractOnce(i, j, k, hypot, start);
        k := k + 1;
      }
    }

    /** Attractor k of body i acts on body j. */
    method AttractOnce(i: nat, j: nat, k: nat, hypot: (real, real) -> real, ghost start: seq<Push>)
      requires i < |bodies| && j < |bodies| && i != j && Attracts(bodies[i])
      requires k < Span(bodies, i, j)
      requires applied == start + Applied(bodies, i, j, k, hypot)
      modifies this`applied
      ensures applied == start + Applied(bodies, i, j, k + 1, hypot)
    {
      var attractors := bodies[i].attractors.value;
      ghost var before := applied;
      var bodyA := bodies[i].Kinematics();
      var bodyB := bodies[j].Kinematics();
      match attractors[k] {
        case Constant(v) =>
          applied := applied + [Push(i, j, j, v)];
        case Function(f) =>
          var forceVector := f(bodyA, bodyB);
          if forceVector.Some? {
            applied := applied + [Push(i, j, j, forceVector.value)];
          }
        case Gravity =>
          var bToA := Sub2(bodyB.position, bodyA.position);
          ApplyGravity(i, j, hypot(bToA.x, bToA.y));
      }
      AppendAssoc(start, Applied(bodies, i, j, k, hypot), applied[|before|..]);
    }
  }
}
