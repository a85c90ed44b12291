/**
 * The ribbon sketch: a strip of 400 joints, two vertices each, in one
 * shared position buffer.  Every frame the whole strip is rotated, the head
 * joint is placed across the pointer's follower, and every other joint
 * takes over the vertices of the joint before it, so the strip trails the
 * pointer one joint per frame.
 */
module Ribbon {
  import opened Vectors
  import opened Optional

  /** One width segment, so two vertices per joint. */
  const WidthSegmentCount: int := 1
  const VerticesPerJoint: int := 2

  /** The buffer offsets of joint i's vertices: (2i) * 3 and (2i + 1) * 3. */
  function JointIndexes(i: int): (indexes: seq<int>)
    ensures |indexes| == VerticesPerJoint
    ensures forall t :: 0 <= t < VerticesPerJoint ==> indexes[t] == 6 * i + 3 * t && indexes[t] % 3 == 0
  {
    [(i * VerticesPerJoint + 0) * 3, (i * VerticesPerJoint + 1) * 3]
  }

  /** Different joints own disjoint buffer entries. */
  lemma JointIndexesDisjoint(i: int, j: int, t: int, u: int, c: int, d: int)
    requires i != j && 0 <= t < VerticesPerJoint && 0 <= u < VerticesPerJoint && 0 <= c < 3 && 0 <= d < 3
    ensures JointIndexes(i)[t] + c != JointIndexes(j)[u] + d
  {
  }

  /** The width of the strip at a joint `len` away from the origin: the ribbon's width, shrunk near the origin. */
  function JointWidth(ribbonWidth: real, len: real): (w: real)
    requires ribbonWidth >= 0.0 && len >= 0.0
    ensures 0.0 <= w <= ribbonWidth
    ensures len >= 1.0 ==> w == ribbonWidth
  {
    MulAtMost(ribbonWidth, Min(1.0, len));
    ribbonWidth * Min(1.0, len)
  }

  /**
   * Vertex t of the head joint at `current` with strip width `width`, where
   * `dir` is the unit vector at the angle of `current` minus a quarter turn:
   * the first vertex half a width along `dir`, each next one a full segment
   * back, all in the plane z = 0.
   */
  function HeadVertex(current: Vec3, width: real, dir: Vec2, t: int): Vec3
  {
    var w2 := width / 2.0;
    var spread := width / WidthSegmentCount as real;
    Vec3(current.x + dir.x * w2 - t as real * (dir.x * spread),
         current.y + dir.y * w2 - t as real * (dir.y * spread), 0.0)
  }

  /** The head joint's two vertices lie on either side of its position, a full width apart along `dir`. */
  lemma HeadVerticesStraddle(current: Vec3, width: real, dir: Vec2)
    ensures var v0, v1 := HeadVertex(current, width, dir, 0), HeadVertex(current, width, dir, 1);
            v0.x + v1.x == 2.0 * current.x && v0.y + v1.y == 2.0 * current.y &&
            v0.x - v1.x == dir.x * width && v0.y - v1.y == dir.y * width && v0.z == 0.0 && v1.z == 0.0
  {
    assert dir.x * (width / 2.0) * 2.0 == dir.x * width;
    assert dir.y * (width / 2.0) * 2.0 == dir.y * width;
  }

  /** Entry k of the head joint's six buffer entries: coordinate k % 3 of vertex k / 3. */
  function HeadSlot(current: Vec3, width: real, dir: Vec2, k: int): real
  {
    Coord(HeadVertex(current, width, dir, k / 3), k % 3)
  }

  /** Coordinate c (0 = x, 1 = y, otherwise z) of a point. */
  function Coord(p: Vec3, c: int): real
  {
    if c == 0 then p.x else if c == 1 then p.y else p.z
  }

  /** Vertex v of a position buffer: its entries 3v, 3v + 1 and 3v + 2. */
  function VertexOf(s: seq<real>, v: int): Vec3
    requires 0 <= v && 3 * v + 2 < |s|
  {
    Vec3(s[3 * v], s[3 * v + 1], s[3 * v + 2])
  }

  /** Vertex v of the buffer array. */
  function Vertex(a: array<real>, v: int): Vec3
    requires 0 <= v && 3 * v + 2 < a.Length
    reads a
  {
    Vec3(a[3 * v], a[3 * v + 1], a[3 * v + 2])
  }

  class RibbonJoint {
    const parent: RibbonStrip
    const id: int
    const indexes: seq<int>
    var currentPosition: Vec3
    var previousPosition: Vec3

    constructor (parent: RibbonStrip, indexes: seq<int>, id: int)
      ensures this.parent == parent && this.indexes == indexes && this.id == id
      ensures currentPosition == Zero3 && previousPosition == Zero3
    {
      this.parent, this.indexes, this.id := parent, indexes, id;
      currentPosition, previousPosition := Zero3, Zero3;
    }

    /** The joint's vertices lie inside the buffer. */
    predicate InBuffer()
    {
      |indexes| == VerticesPerJoint && 0 <= indexes[0] && indexes[1] == indexes[0] + 3 &&
      indexes[1] + 3 <= parent.positions.Length
    }

    /**
     * `update` for the head joint: it moves to `target`, remembering where
     * it was, and writes its two vertices straddling the target, in z = 0.
     * `len` is the target's length and `dir` the unit vector a quarter turn
     * clockwise from the target's direction.  No other entry changes.
     */
    method Update(target: Vec3, len: real, dir: Vec2)
      requires InBuffer() && parent.width >= 0.0
      requires 0.0 <= len && len * len == target.x * target.x + target.y * target.y + target.z * target.z
      modifies this, parent.positions
      ensures previousPosition == old(currentPosition) && currentPosition == target
      ensures var width := JointWidth(parent.width, len);
              forall m :: indexes[0] <= m < indexes[0] + 6 ==>
                parent.positions[m] == HeadSlot(target, width, dir, m - indexes[0])
      ensures forall m :: 0 <= m < parent.positions.Length && !(indexes[0] <= m < indexes[1] + 3) ==>
                parent.positions[m] == old(parent.positions[m])
    {
      previousPosition := currentPosition;
      currentPosition := target;
      var width := parent.width * Min(1.0, len);
      var spread := width / WidthSegmentCount as real;
      var w2 := width / 2.0;
      var px, py := dir.x * w2 + currentPosition.x, dir.y * w2 + currentPosition.y;
      var posArray := parent.positions;
      var t := 0;
      while t < VerticesPerJoint
        modifies posArray
        invariant 0 <= t <= VerticesPerJoint
        invariant px == currentPosition.x + dir.x * w2 - t as real * (dir.x * spread)
        invariant py == currentPosition.y + dir.y * w2 - t as real * (dir.y * spread)
        invariant forall m :: indexes[0] <= m < indexes[0] + 3 * t ==>
                    posArray[m] == HeadSlot(target, width, dir, m - indexes[0])
        invariant forall m :: 0 <= m < posArray.Length && !(indexes[0] <= m < indexes[0] + 3 * t) ==>
                    posArray[m] == old(posArray[m])
      {
        var v := indexes[t];
        posArray[v + 0] := px;
        posArray[v + 1] := py;
        posArray[v + 2] := 0.0;
        px := px - dir.x * spread;
        py := py - dir.y * spread;
        t := t + 1;
      }
    }

    /**
     * `follow`: the joint moves to `target`'s position, remembering where it
     * was, and copies the three coordinates of each of `target`'s vertices
     * into its own.  No other entry changes.
     */
    method Follow(target: RibbonJoint)
      requires target != this && target.parent == parent && InBuffer() && target.InBuffer()
      requires target.indexes[1] + 3 <= indexes[0] || indexes[1] + 3 <= target.indexes[0]
      modifies this, parent.positions
      ensures previousPosition == old(currentPosition) && currentPosition == target.currentPosition
      ensures forall m :: indexes[0] <= m < indexes[0] + 6 ==>
                parent.positions[m] == old(parent.positions[m - indexes[0] + target.indexes[0]])
      ensures forall m :: 0 <= m < parent.positions.Length && !(indexes[0] <= m < indexes[1] + 3) ==>
                parent.positions[m] == old(parent.positions[m])
    {
      previousPosition := currentPosition;
      currentPosition := target.currentPosition;
      var posArray := parent.positions;
      var t := 0;
      while t < VerticesPerJoint
        modifies posArray
        invariant 0 <= t <= VerticesPerJoint
        invariant forall m :: indexes[0] <= m < indexes[0] + 3 * t ==>
                    posArray[m] == old(posArray[m - indexes[0] + target.indexes[0]])
        invariant forall m :: 0 <= m < posArray.Length && !(indexes[0] <= m < indexes[0] + 3 * t) ==>
                    posArray[m] == old(posArray[m])
      {
        var v := indexes[t];
        posArray[v + 0] := posArray[target.indexes[t] + 0];
        posArray[v + 1] := posArray[target.indexes[t] + 1];
        posArray[v + 2] := posArray[target.indexes[t] + 2];
        t := t + 1;
      }
    }
  }

  /** The `Ribbon` class of the sketch: its joints and the geometry's position buffer. */
  class RibbonStrip {
    var joints: seq<RibbonJoint>
    const width: real
    const positions: array<real>

    /**
     * Joint i belongs to this strip, has id i and owns the vertices 2i and
     * 2i + 1 of the buffer, which holds exactly the joints' vertices.
     */
    ghost predicate Valid()
      reads this
    {
      width >= 0.0 && positions.Length == 6 * |joints| &&
      (forall i :: 0 <= i < |joints| ==> joints[i].parent == this && joints[i].id == i && joints[i].indexes == JointIndexes(i)) &&
      (forall i, j :: 0 <= i < j < |joints| ==> joints[i] != joints[j])
    }

    /**
     * A strip of `numJoints` joints; the plane geometry starts with every
     * joint's vertices at (-width/2, 0, 0) and (width/2, 0, 0).
     */
    constructor (numJoints: nat, width: real)
      requires width >= 0.0
      ensures Valid() && |joints| == numJoints && this.width == width && fresh(positions)
      ensures forall i :: 0 <= i < numJoints ==> fresh(joints[i]) && joints[i].currentPosition == Zero3 && joints[i].previousPosition == Zero3
      ensures forall m :: 0 <= m < positions.Length ==>
                positions[m] == (if m % 6 == 0 then -width / 2.0 else if m % 6 == 3 then width / 2.0 else 0.0)
    {
      this.width := width;
      positions := new real[6 * numJoints](m => if m % 6 == 0 then -width / 2.0 else if m % 6 == 3 then width / 2.0 else 0.0);
      joints := [];
      new;
      var i := 0;
      while i < numJoints
        modifies this
        invariant 0 <= i <= numJoints && |joints| == i
        invariant forall k :: 0 <= k < i ==> joints[k].parent == this && joints[k].id == k && joints[k].indexes == JointIndexes(k)
        invariant forall k :: 0 <= k < i ==> fresh(joints[k]) && joints[k].currentPosition == Zero3 && joints[k].previousPosition == Zero3
        invariant forall k, j :: 0 <= k < j < i ==> joints[k] != joints[j]
      {
        var indexes := JointIndexes(i);
        var joint := new RibbonJoint(this, indexes, i);
        joints := joints + [joint];
        i := i + 1;
      }
    }

    /**
     * `update`: every vertex is rotated (`applyMatrix4`); then, from the last
     * joint to the first, each joint follows the one before it and the head
     * joint is placed at `target`.  Because the loop runs backwards, each
     * joint takes over its predecessor's rotated vertices and old position:
     * the strip shifts by one joint.
     */
    method Update(target: Vec3, rotate: Vec3 -> Vec3, len: real, dir: Vec2)
      requires Valid()
      requires 0.0 <= len && len * len == target.x * target.x + target.y * target.y + target.z * target.z
      modifies positions, set j | j in joints
      ensures Valid() && joints == old(joints)
      ensures forall v :: 2 <= v < 2 * |joints| ==> Vertex(positions, v) == rotate(VertexOf(old(positions[..]), v - 2))
      ensures forall v :: 0 <= v < 2 && v < 2 * |joints| ==> Vertex(positions, v) == HeadVertex(target, JointWidth(width, len), dir, v)
      ensures forall i :: 0 <= i < |joints| ==> joints[i].previousPosition == old(joints[i].currentPosition)
      ensures |joints| > 0 ==> joints[0].currentPosition == target
      ensures forall i :: 1 <= i < |joints| ==> joints[i].currentPosition == old(joints[i - 1].currentPosition)
    {
      ghost var original := positions[..];
      ApplyMatrix(rotate);
      ghost var rotated := positions[..];
      ShiftJoints();
      if |joints| > 0 {
        PlaceHead(target, len, dir);
      }
      forall v | 2 <= v < 2 * |joints|
        ensures Vertex(positions, v) == rotate(VertexOf(original, v - 2))
      {
        assert Vertex(positions, v) == VertexOf(rotated, v - 2);
      }
    }

    /** The head joint moves to `target` and rewrites the first two vertices; the rest of the buffer is kept. */
    method PlaceHead(target: Vec3, len: real, dir: Vec2)
      requires Valid() && |joints| > 0
      requires 0.0 <= len && len * len == target.x * target.x + target.y * target.y + target.z * target.z
      modifies positions, joints[0]
      ensures Valid()
      ensures forall v :: 0 <= v < 2 ==> Vertex(positions, v) == HeadVertex(target, JointWidth(width, len), dir, v)
      ensures forall m :: 6 <= m < positions.Length ==> positions[m] == old(positions[m])
      ensures joints[0].previousPosition == old(joints[0].currentPosition) && joints[0].currentPosition == target
    {
      var head := joints[0];
      assert forall k :: 1 <= k < |joints| ==> joints[k] != head;
      head.Update(target, len, dir);
      forall v | 0 <= v < 2
        ensures Vertex(positions, v) == HeadVertex(target, JointWidth(width, len), dir, v)
      {
        assert positions[3 * v] == HeadSlot(target, JointWidth(width, len), dir, 3 * v);
        assert positions[3 * v + 1] == HeadSlot(target, JointWidth(width, len), dir, 3 * v + 1);
        assert positions[3 * v + 2] == HeadSlot(target, JointWidth(width, len), dir, 3 * v + 2);
      }
    }

    /** The joints' current positions, in order. */
    function Currents(): (r: seq<Vec3>)
      reads this, set j | j in joints
      ensures |r| == |joints| && forall k :: 0 <= k < |joints| ==> r[k] == joints[k].currentPosition
    {
      seq(|joints|, k reads this, set j | j in joints requires 0 <= k < |joints| => joints[k].currentPosition)
    }

    /**
     * The state of `update`'s loop before it visits joint i, against the
     * buffer `p0` and the current positions `c0` at its start: joints up to
     * i and their entries are as they were, every later joint holds its
     * predecessor's entries and position and remembers its own.
     */
    ghost predicate Shifted(i: int, p0: seq<real>, c0: seq<Vec3>)
      reads this, positions, set j | j in joints
    {
      |p0| == positions.Length && |c0| == |joints| && 0 <= i + 1 <= |joints| &&
      (forall m :: 0 <= m < 6 * (i + 1) && m < positions.Length ==> positions[m] == p0[m]) &&
      (forall m :: 6 * (i + 1) <= m < positions.Length && 6 <= m ==> positions[m] == p0[m - 6]) &&
      (forall k :: 0 <= k <= i ==> joints[k].currentPosition == c0[k]) &&
      (forall k :: i < k < |joints| ==> joints[k].previousPosition == c0[k]) &&
      (forall k :: i < k < |joints| && 1 <= k ==> joints[k].currentPosition == c0[k - 1])
    }

    /**
     * The loop of `update` down to joint 1: each joint follows the one
     * before it, which has not moved yet.
     */
    method ShiftJoints()
      requires Valid()
      modifies positions, set j | j in joints
      ensures forall m :: 6 <= m < positions.Length ==> positions[m] == old(positions[m - 6])
      ensures forall m :: 0 <= m < 6 && m < positions.Length ==> positions[m] == old(positions[m])
      ensures forall i :: 1 <= i < |joints| ==> joints[i].previousPosition == old(joints[i].currentPosition)
      ensures forall i :: 1 <= i < |joints| ==> joints[i].currentPosition == old(joints[i - 1].currentPosition)
      ensures |joints| > 0 ==> joints[0].currentPosition == old(joints[0].currentPosition)
    {
      ghost var p0 := positions[..];
      ghost var c0 := Currents();
      var i := |joints| - 1;
      while i >= 1
        modifies positions, set j | j in joints
        invariant (|joints| > 0 ==> 0 <= i) && Shifted(i, p0, c0)
      {
        FollowStep(i, p0, c0);
        i := i - 1;
      }
    }

    /** One turn of the loop: joint i follows joint i - 1. */
    method FollowStep(i: int, ghost p0: seq<real>, ghost c0: seq<Vec3>)
      requires Valid() && 1 <= i && Shifted(i, p0, c0)
      modifies positions, joints[i]
      ensures Shifted(i - 1, p0, c0)
    {
      var joint := joints[i];
      assert forall k :: 0 <= k < |joints| && k != i ==> joints[k] != joint;
      joint.Follow(joints[i - 1]);
    }

    /** `applyMatrix4`: every vertex of the buffer replaced by its image under `rotate`. */
    method ApplyMatrix(rotate: Vec3 -> Vec3)
      requires Valid()
      modifies positions
      ensures forall v :: 0 <= v < 2 * |joints| ==> Vertex(positions, v) == rotate(VertexOf(old(positions[..]), v))
    {
      ghost var s := positions[..];
      var v := 0;
      while v < 2 * |joints|
        invariant 0 <= v <= 2 * |joints|
        invariant forall w :: 0 <= w < v ==> Vertex(positions, w) == rotate(VertexOf(s, w))
        invariant forall m :: 3 * v <= m < positions.Length ==> positions[m] == s[m]
      {
        var p := rotate(Vertex(positions, v));
        positions[3 * v] := p.x;
        positions[3 * v + 1] := p.y;
        positions[3 * v + 2] := p.z;
        v := v + 1;
      }
    }
  }

  /** The follower moves a sixteenth of the way to the target in x and y; z stays. */
  function NextFollower(follower: Vec3, target: Vec3): (r: Vec3)
    ensures target.x - r.x == (target.x - follower.x) * 15.0 / 16.0
    ensures target.y - r.y == (target.y - follower.y) * 15.0 / 16.0
    ensures r.z == follower.z
  {
    Vec3(Approach(follower.x, target.x, 16.0), Approach(follower.y, target.y, 16.0), follower.z)
  }

  class RibbonSketch {
    const ribbon: RibbonStrip
    var pointer: Vec2
    var pageMouse: Vec2
    var targetPosition: Vec3
    var followerPosition: Vec3
    var time: real
    var isDestroyed: bool

    /** `initRibbon`: 400 joints and a width of 0.3. */
    constructor ()
      ensures ribbon.Valid() && |ribbon.joints| == 400 && ribbon.width == 0.3 && fresh(ribbon) && fresh(ribbon.positions)
      ensures pointer == Zero2 && targetPosition == Zero3 && followerPosition == Zero3 && time == 1.0 && !isDestroyed
    {
      ribbon := new RibbonStrip(400, 0.3);
      pointer, pageMouse, targetPosition, followerPosition := Zero2, Zero2, Zero3, Zero3;
      time, isDestroyed := 1.0, false;
    }

    /** The pointer in normalised device coordinates, and its page position for the shader. */
    method PointerMove(clientX: real, clientY: real, pageX: real, pageY: real, innerWidth: real, innerHeight: real)
      requires innerWidth > 0.0 && innerHeight > 0.0
      modifies this`pointer, this`pageMouse
      ensures pointer == Vec2(clientX / innerWidth * 2.0 - 1.0, -(clientY / innerHeight) * 2.0 + 1.0)
      ensures pageMouse == Vec2(pageX, pageY)
    {
      pointer := Vec2(clientX / innerWidth * 2.0 - 1.0, -(clientY / innerHeight) * 2.0 + 1.0);
      pageMouse := Vec2(pageX, pageY);
    }

    /**
     * One frame with `hit` the raycast's first hit on the pointer plane:
     * nothing once destroyed; otherwise a hit becomes the target and the
     * follower moves towards it, and the ribbon is updated at the follower.
     * `rotate`, `len` and `dir` are the strip's rotation and the follower's
     * length and quarter-turned direction.
     */
    method Animate(hit: Option<Vec3>, rotate: Vec3 -> Vec3, len: real, dir: Vec2)
      requires ribbon.Valid()
      requires 0.0 <= len
      requires var f := if hit.Some? then NextFollower(followerPosition, hit.value) else followerPosition;
               len * len == f.x * f.x + f.y * f.y + f.z * f.z
      modifies this`targetPosition, this`followerPosition, this`time, ribbon.positions, set j | j in ribbon.joints
      ensures ribbon.Valid()
      ensures old(isDestroyed) ==> unchanged(this) && unchanged(ribbon.positions)
      ensures old(isDestroyed) ==> forall j :: j in ribbon.joints ==> unchanged(j)
      ensures !isDestroyed ==>
        && targetPosition == (if hit.Some? then hit.value else old(targetPosition))
        && followerPosition == (if hit.Some? then NextFollower(old(followerPosition), hit.value) else old(followerPosition))
        && (|ribbon.joints| > 0 ==> ribbon.joints[0].currentPosition == followerPosition)
        && time == old(time) + 0.05
      ensures !isDestroyed ==> forall v :: 2 <= v < 2 * |ribbon.joints| ==>
                Vertex(ribbon.positions, v) == rotate(VertexOf(old(ribbon.positions[..]), v - 2))
      ensures !isDestroyed ==> forall v :: 0 <= v < 2 && v < 2 * |ribbon.joints| ==>
                Vertex(ribbon.positions, v) == HeadVertex(followerPosition, JointWidth(ribbon.width, len), dir, v)
      ensures !isDestroyed ==> forall i :: 0 <= i < |ribbon.joints| ==>
                ribbon.joints[i].previousPosition == old(ribbon.joints[i].currentPosition)
      ensures !isDestroyed ==> forall i :: 1 <= i < |ribbon.joints| ==>
                ribbon.joints[i].currentPosition == old(ribbon.joints[i - 1].currentPosition)
    {
      if isDestroyed { return; }
      if hit.Some? {
        targetPosition := hit.value;
        followerPosition := Vec3(followerPosition.x + (targetPosition.x - followerPosition.x) / 16.0,
                                 followerPosition.y + (targetPosition.y - followerPosition.y) / 16.0,
                                 followerPosition.z);
      }
      ribbon.Update(followerPosition, rotate, len, dir);
      time := time + 0.05;
    }

    method Destroy()
      modifies this`isDestroyed
      ensures isDestroyed
    {
      isDestroyed := true;
    }
  }
}
