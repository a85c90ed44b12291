/**
 * The Voronoi cluster sketch: twelve cells drift towards the centre of the
 * page, pushed by noise and kept apart by a minimum-distance constraint for
 * every ordered pair of cells.  The cell under the mouse is "hovered": it
 * stops feeling the centre and the noise, and its constraints grow 2.4x, so
 * it opens up room around itself.
 */
module VoronoiCluster {
  import opened Vectors
  import opened Optional

  const CellCount: int := 12
  /** CellCount * (CellCount - 1): one constraint per ordered pair of distinct cells. */
  const PairCount: int := 132
  const Mass: real := 10.0
  const Drag: real := 1.25
  const HoverGrowth: real := 2.4
  const JitterRange: real := 50.0

  // ----- the constraints' pair list ------------------------------------

  /** The ids (from, to) of a constraint's two cells. */
  datatype Link = Link(from: int, to: int)

  /** Row i of n cells: (i, j) for every other cell j, in increasing j, as `initCells`' inner loop visits them. */
  function Row(i: nat, n: nat): seq<Link>
    requires i < n
  {
    seq(n - 1, j requires 0 <= j < n - 1 => Link(i, if j < i then j else j + 1))
  }

  /** Rows 0 .. rows - 1 of n cells, one after the other. */
  function Rows(n: nat, rows: nat): seq<Link>
    requires rows <= n
  {
    if rows == 0 then [] else Rows(n, rows - 1) + Row(rows - 1, n)
  }

  /** The (from, to) ids of the constraints `initCells` creates for n cells, in creation order. */
  function OrderedPairs(n: nat): seq<Link>
  {
    Rows(n, n)
  }

  /** Lexicographic order on pairs. */
  predicate Before(p: Link, q: Link)
  {
    p.from < q.from || (p.from == q.from && p.to < q.to)
  }

  predicate StrictlySorted(s: seq<Link>)
  {
    forall k, l :: 0 <= k < l < |s| ==> Before(s[k], s[l])
  }

  lemma SortedAppend(a: seq<Link>, b: seq<Link>)
    requires StrictlySorted(a) && StrictlySorted(b)
    requires forall k, l :: 0 <= k < |a| && 0 <= l < |b| ==> Before(a[k], b[l])
    ensures StrictlySorted(a + b)
  {
    forall k, l | 0 <= k < l < |a + b|
      ensures Before((a + b)[k], (a + b)[l])
    {
      if l < |a| {
      } else if k < |a| {
        assert (a + b)[k] == a[k] && (a + b)[l] == b[l - |a|];
      } else {
        assert (a + b)[k] == b[k - |a|] && (a + b)[l] == b[l - |a|];
      }
    }
  }

  /** Every entry of the first `rows` rows joins two different cells below n, starting below `rows`. */
  lemma {:induction false} RowsEntry(n: nat, rows: nat, k: int)
    requires rows <= n && 0 <= k < |Rows(n, rows)|
    ensures var p := Rows(n, rows)[k]; 0 <= p.from < rows && 0 <= p.to < n && p.from != p.to
  {
    var init := Rows(n, rows - 1);
    if k < |init| {
      RowsEntry(n, rows - 1, k);
    } else {
      assert Rows(n, rows)[k] == Row(rows - 1, n)[k - |init|];
    }
  }

  lemma {:induction false} RowsSorted(n: nat, rows: nat)
    requires rows <= n
    ensures StrictlySorted(Rows(n, rows))
  {
    if rows > 0 {
      RowsSorted(n, rows - 1);
      var init, row := Rows(n, rows - 1), Row(rows - 1, n);
      forall k, l | 0 <= k < |init| && 0 <= l < |row|
        ensures Before(init[k], row[l])
      {
        RowsEntry(n, rows - 1, k);
      }
      SortedAppend(init, row);
    }
  }

  lemma {:induction false} RowsLength(n: nat, rows: nat)
    requires rows <= n
    ensures |Rows(n, rows)| == rows * (n - 1)
  {
    if rows > 0 {
      RowsLength(n, rows - 1);
      assert (rows - 1) * (n - 1) + (n - 1) == rows * (n - 1);
    }
  }

  /** The first `rows` rows are a prefix of the first `more`. */
  lemma {:induction false} RowsPrefix(n: nat, rows: nat, more: nat, k: int)
    requires rows <= more <= n && 0 <= k < |Rows(n, rows)|
    ensures k < |Rows(n, more)| && Rows(n, more)[k] == Rows(n, rows)[k]
    decreases more
  {
    if rows < more {
      RowsPrefix(n, rows, more - 1, k);
    }
  }

  /** Where `initCells` puts the constraint for (a, b): after a's earlier rows, skipping (a, a). */
  function PairPosition(n: nat, a: nat, b: int): int
    requires a <= n
  {
    |Rows(n, a)| + (if a < b then b - 1 else b)
  }

  /** The pair (a, b) is found at its position among all n(n - 1) of them. */
  lemma PairIndex(n: nat, a: nat, b: int)
    requires a < n && 0 <= b < n && a != b
    ensures PairPosition(n, a, b) < |OrderedPairs(n)| && OrderedPairs(n)[PairPosition(n, a, b)] == Link(a, b)
  {
    var k := PairPosition(n, a, b);
    assert Rows(n, a + 1)[k] == Row(a, n)[if a < b then b - 1 else b];
    RowsPrefix(n, a + 1, n, k);
  }

  /**
   * `initCells` makes exactly one constraint per ordered pair of distinct
   * cells, n(n - 1) in all, each pair once, in reading order.
   */
  lemma OrderedPairsSpec(n: nat)
    ensures forall p :: p in OrderedPairs(n) <==> 0 <= p.from < n && 0 <= p.to < n && p.from != p.to
    ensures |OrderedPairs(n)| == n * (n - 1)
    ensures StrictlySorted(OrderedPairs(n))
    ensures forall k, l :: 0 <= k < l < |OrderedPairs(n)| ==> OrderedPairs(n)[k] != OrderedPairs(n)[l]
  {
    var pairs := OrderedPairs(n);
    forall p
      ensures p in pairs <==> 0 <= p.from < n && 0 <= p.to < n && p.from != p.to
    {
      if p in pairs {
        var k :| 0 <= k < |pairs| && pairs[k] == p;
        RowsEntry(n, n, k);
      }
      if 0 <= p.from < n && 0 <= p.to < n && p.from != p.to {
        PairIndex(n, p.from, p.to);
      }
    }
    RowsLength(n, n);
    RowsSorted(n, n);
  }

  // ----- cells --------------------------------------------------------------

  /** The moving parts of a cell. */
  datatype CellState = CellState(totalForce: Vec2, velocity: Vec2, pos: Vec2)

  /**
   * `Cell.update` on values: the force gains the pull towards the gravity
   * centre (the page centre, or the cell itself while hovered) and, when not
   * hovered, the noise push n * 15 on both axes; the force is divided by the
   * mass in place, the velocity gains it and is divided by the drag in place,
   * and the position gains the velocity.
   */
  function CellStep(s: CellState, isHovered: bool, center: Vec2, n: real): CellState
  {
    var gravityCenter := if isHovered then s.pos else center;
    var centerForce := Vec2((gravityCenter.x - s.pos.x) / 10.0, (gravityCenter.y - s.pos.y) / 10.0);
    var randomForce := Vec2(n * 15.0, n * 15.0);
    var force := Add2(s.totalForce, centerForce);
    var force' := if isHovered then force else Add2(force, randomForce);
    var totalForce := Vec2(force'.x / Mass, force'.y / Mass);
    var velocity := Add2(s.velocity, totalForce);
    var velocity' := Vec2(velocity.x / Drag, velocity.y / Drag);
    CellState(totalForce, velocity', Add2(s.pos, velocity'))
  }

  /** A hovered cell feels neither the centre nor the noise: only its decaying old force. */
  lemma HoveredCellIgnoresCentreAndNoise(s: CellState, center: Vec2, n: real, n': real)
    ensures var r := CellStep(s, true, center, n);
            r.totalForce == Vec2(s.totalForce.x / Mass, s.totalForce.y / Mass) &&
            r == CellStep(s, true, Zero2, n')
  {
  }

  /**
   * A resting, force-free cell that is not hovered and feels no noise moves
   * a 1/125 part of the way to the centre in one step.
   */
  lemma RestingCellMovesToCentre(pos: Vec2, center: Vec2)
    ensures var r := CellStep(CellState(Zero2, Zero2, pos), false, center, 0.0);
            center.x - r.pos.x == (center.x - pos.x) * 124.0 / 125.0 &&
            center.y - r.pos.y == (center.y - pos.y) * 124.0 / 125.0
  {
  }

  /** A hovered cell without force coasts: its velocity shrinks by the drag factor, so it dies out. */
  lemma HoveredVelocityDecays(s: CellState, center: Vec2, n: real)
    requires s.totalForce == Zero2
    ensures var r := CellStep(s, true, center, n);
            r.velocity == Vec2(s.velocity.x / Drag, s.velocity.y / Drag) &&
            Abs(r.velocity.x) <= Abs(s.velocity.x) && Abs(r.velocity.y) <= Abs(s.velocity.y)
  {
  }

  /** The simplex noise a cell samples at `time`: both coordinates time / 10 + id. */
  function CellNoise(noise: (real, real) -> real, time: real, id: int): real
  {
    noise(time / 10.0 + id as real, time / 10.0 + id as real)
  }

  class Cell {
    const id: int
    const mass: real
    const drag: real
    var totalForce: Vec2
    var velocity: Vec2
    var pos: Vec2
    var isHovered: bool

    constructor (id: int, pos: Vec2)
      ensures this.id == id && this.pos == pos && mass == Mass && drag == Drag
      ensures totalForce == Zero2 && velocity == Zero2 && !isHovered
    {
      this.id, this.pos := id, pos;
      mass, drag := Mass, Drag;
      totalForce, velocity, isHovered := Zero2, Zero2, false;
    }

    function State(): CellState
      reads this
    {
      CellState(totalForce, velocity, pos)
    }

    /** `update`, with `noise` the simplex noise sampled at (time / 10 + id, time / 10 + id). */
    method Update(time: real, center: Vec2, noise: (real, real) -> real)
      requires mass == Mass && drag == Drag
      modifies this
      ensures State() == CellStep(old(State()), isHovered, center, CellNoise(noise, time, id))
      ensures isHovered == old(isHovered)
    {
      var gravityCenter := if isHovered then pos else center;
      var centerForce := Vec2((gravityCenter.x - pos.x) / 10.0, (gravityCenter.y - pos.y) / 10.0);
      var n := CellNoise(noise, time, id);
      var randomForce := Vec2(n * 15.0, n * 15.0);
      totalForce := Add2(totalForce, centerForce);
      if !isHovered {
        totalForce := Add2(totalForce, randomForce);
      }
      totalForce := Vec2(totalForce.x / mass, totalForce.y / mass);
      velocity := Add2(velocity, totalForce);
      velocity := Vec2(velocity.x / drag, velocity.y / drag);
      pos := Add2(pos, velocity);
    }
  }

  // ----- constraints --------------------------------------------------------

  /** The distance a constraint keeps: 2.4 times its own while either end is hovered. */
  function EffectiveMinDistance(minDistance: real, aHovered: bool, bHovered: bool): (m: real)
    ensures aHovered || bHovered ==> m == minDistance * HoverGrowth
    ensures !aHovered && !bHovered ==> m == minDistance
  {
    if aHovered || bHovered then minDistance * HoverGrowth else minDistance
  }

  /**
   * The push on cell a, where `sub` = a.pos - b.pos has length `dist`: half
   * the shortfall against the minimum, along `sub` normalised (three.js
   * leaves the zero vector as it is).
   */
  function ConstraintForce(sub: Vec2, dist: real, mDist: real): Vec2
  {
    if dist < mDist then
      var f := (mDist - dist) / 2.0;
      var unit := if dist == 0.0 then sub else Vec2(sub.x / dist, sub.y / dist);
      Vec2(unit.x * f, unit.y * f)
    else Zero2
  }

  /** A square is never negative, and positive for a non-zero number. */
  lemma SquareZero(x: real)
    ensures x * x >= 0.0
    ensures x != 0.0 ==> x * x > 0.0
  {
    if x < 0.0 {
      MulPositive(-x, -x);
      assert (-x) * (-x) == x * x;
    } else if x > 0.0 {
      MulPositive(x, x);
    }
  }

  /** |k (x, y)|^2 = k^2 |(x, y)|^2. */
  lemma ScaledLength(x: real, y: real, k: real)
    ensures (x * k) * (x * k) + (y * k) * (y * k) == (k * k) * (x * x + y * y)
  {
  }

  /**
   * Apart enough, a constraint pushes nothing; too close, it pushes a away
   * from b along `sub` with strength exactly (mDist - dist) / 2; cells on
   * top of each other get no push.
   */
  lemma ConstraintForceSpec(sub: Vec2, dist: real, mDist: real)
    requires IsLength(dist, sub.x, sub.y)
    ensures dist >= mDist ==> ConstraintForce(sub, dist, mDist) == Zero2
    ensures dist == 0.0 ==> ConstraintForce(sub, dist, mDist) == Zero2
    ensures 0.0 < dist < mDist ==>
              var r, f := ConstraintForce(sub, dist, mDist), (mDist - dist) / 2.0;
              LengthSq2(r) == f * f && r == Vec2(sub.x * (f / dist), sub.y * (f / dist))
  {
    if dist == 0.0 {
      ZeroLength(sub, dist);
    }
    if 0.0 < dist < mDist {
      ConstraintForceApart(sub, dist, mDist);
    }
  }

  /** A zero length belongs to the zero vector only. */
  lemma ZeroLength(sub: Vec2, dist: real)
    requires IsLength(dist, sub.x, sub.y) && dist == 0.0
    ensures sub == Zero2
  {
    SquareZero(sub.x);
    SquareZero(sub.y);
    assert sub.x * sub.x == 0.0 && sub.y * sub.y == 0.0;
    ProductZero(sub.x, sub.x);
    ProductZero(sub.y, sub.y);
  }

  /** A product vanishes only when a factor does. */
  lemma ProductZero(a: real, b: real)
    requires a * b == 0.0
    ensures a == 0.0 || b == 0.0
  {
    if a < 0.0 && b < 0.0 {
      MulPositive(-a, -b);
    } else if a < 0.0 && b > 0.0 {
      MulPositive(-a, b);
    } else if a > 0.0 && b < 0.0 {
      MulPositive(a, -b);
    } else if a > 0.0 && b > 0.0 {
      MulPositive(a, b);
    }
  }

  /** Too close, the push is `sub` scaled to length (mDist - dist) / 2. */
  lemma ConstraintForceApart(sub: Vec2, dist: real, mDist: real)
    requires IsLength(dist, sub.x, sub.y) && 0.0 < dist < mDist
    ensures var r, f := ConstraintForce(sub, dist, mDist), (mDist - dist) / 2.0;
            LengthSq2(r) == f * f && r == Vec2(sub.x * (f / dist), sub.y * (f / dist))
  {
    var f := (mDist - dist) / 2.0;
    var k := f / dist;
    DivScale(sub.x, dist, f);
    DivScale(sub.y, dist, f);
    ScaledLength(sub.x, sub.y, k);
    SquareOfQuotient(f, dist);
  }

  /** Dividing by d and then scaling by f is scaling by f / d. */
  lemma DivScale(a: real, d: real, f: real)
    requires d != 0.0
    ensures a / d * f == a * (f / d)
  {
  }

  /** (f / d)^2 d^2 == f^2. */
  lemma SquareOfQuotient(f: real, d: real)
    requires d != 0.0
    ensures (f / d * (f / d)) * (d * d) == f * f
  {
    var k := f / d;
    assert k * d == f;
    assert (k * k) * (d * d) == (k * d) * (k * d);
  }

  /** A cell's starting point: the random draw `r` in [0, 1)^2 stretched over the page. */
  function PagePoint(r: Vec2, width: real, height: real): Vec2
  {
    Vec2(r.x * width, r.y * height)
  }

  /** What the `minDistance` setter stores for `value`, with `jitter` the `Math.random()` draw. */
  function Jittered(value: real, jitter: real): (m: real)
    ensures 0.0 <= jitter < 1.0 ==> value <= m < value + JitterRange
  {
    value + jitter * JitterRange
  }

  class MinDistanceConstraint {
    const a: Cell
    const b: Cell
    var minDistance: real

    /** The constructor stores the distance through the jittering setter; `jitter` is `Math.random()`. */
    constructor (a: Cell, b: Cell, minDistance: real, jitter: real)
      requires 0.0 <= jitter < 1.0
      ensures this.a == a && this.b == b && this.minDistance == Jittered(minDistance, jitter)
    {
      this.a, this.b := a, b;
      this.minDistance := Jittered(minDistance, jitter);
    }

    /** The `minDistance` setter: the value plus a random extra in [0, 50). */
    method SetMinDistance(value: real, jitter: real)
      requires 0.0 <= jitter < 1.0
      modifies this`minDistance
      ensures value <= minDistance < value + JitterRange
      ensures minDistance == Jittered(value, jitter)
    {
      minDistance := Jittered(value, jitter);
    }

    /**
     * `update`: when the cells are closer than the effective minimum,
     * a gets the push and b its opposite, except a hovered end, which is
     * left alone.  `length` is the Euclidean length.
     */
    method Update(length: (real, real) -> real)
      requires a != b && IsHypot(length)
      modifies a`totalForce, b`totalForce
      ensures var sub := Sub2(old(a.pos), old(b.pos));
              var fV := ConstraintForce(sub, length(sub.x, sub.y), EffectiveMinDistance(minDistance, a.isHovered, b.isHovered));
              && a.totalForce == (if a.isHovered then old(a.totalForce) else Add2(old(a.totalForce), fV))
              && b.totalForce == (if b.isHovered then old(b.totalForce) else Sub2(old(b.totalForce), fV))
    {
      var sub := Sub2(a.pos, b.pos);
      var dist := length(sub.x, sub.y);
      var mDist := if a.isHovered || b.isHovered then minDistance * HoverGrowth else minDistance;
      if dist < mDist {
        var f := (mDist - dist) / 2.0;
        var unit := if dist == 0.0 then sub else Vec2(sub.x / dist, sub.y / dist);
        var fV := Vec2(unit.x * f, unit.y * f);
        if !a.isHovered {
          a.totalForce := Add2(a.totalForce, fV);
        }
        if !b.isHovered {
          b.totalForce := Sub2(b.totalForce, fV);
        }
      }
    }
  }

  // ----- hovering -----------------------------------------------------------

  /** The last index holding true, if any. */
  function LastTrue(q: seq<bool>): (r: Option<int>)
    ensures r.Some? ==> 0 <= r.value < |q| && q[r.value] && forall j :: r.value < j < |q| ==> !q[j]
    ensures r.None? ==> forall j :: 0 <= j < |q| ==> !q[j]
  {
    if |q| == 0 then None else if q[|q| - 1] then Some(|q| - 1) else LastTrue(q[..|q| - 1])
  }

  /**
   * The hovered index after `animate`'s cell loop has visited cells
   * 0 .. |q| - 1 with flags q, starting from hovered index h: a flagged
   * cell takes the hover, an unflagged cell that holds it lets go.
   */
  function HoverAfter(h: Option<int>, q: seq<bool>): Option<int>
    decreases |q|
  {
    if |q| == 0 then h else HoverStep(HoverAfter(h, q[..|q| - 1]), |q| - 1, q[|q| - 1])
  }

  /** The hovered index after visiting cell i with flag `flag`. */
  function HoverStep(h: Option<int>, i: int, flag: bool): Option<int>
  {
    if flag then Some(i) else if h == Some(i) then None else h
  }

  /** The hover stays where it started or lands on a visited cell. */
  lemma {:induction false} HoverAfterRange(h: Option<int>, q: seq<bool>)
    ensures var r := HoverAfter(h, q); r.Some? ==> r == h || 0 <= r.value < |q|
  {
    if |q| > 0 {
      HoverAfterRange(h, q[..|q| - 1]);
    }
  }

  /**
   * Whatever the hover was, after the loop it is on the last flagged cell;
   * with no cell flagged it is gone, unless it started on a cell the loop
   * never reached.
   */
  lemma {:induction false} HoverAfterLastTrue(h: Option<int>, q: seq<bool>)
    requires h.Some? ==> h.value >= 0
    ensures HoverAfter(h, q) == if LastTrue(q).Some? then LastTrue(q) else if h.Some? && h.value >= |q| then h else None
  {
    if |q| > 0 {
      HoverAfterLastTrue(h, q[..|q| - 1]);
    }
  }

  /** A cell at `pos` is under the mouse when closer to it than minDistance / 1.5. */
  function UnderMouse(pos: Vec2, mouse: Vec2, minDistance: real, length: (real, real) -> real): bool
  {
    length(mouse.x - pos.x, mouse.y - pos.y) < minDistance / 1.5
  }

  /** Which cells are under the mouse, by their positions in `states`. */
  function HoverFlags(states: seq<CellState>, mouse: Vec2, minDistance: real, length: (real, real) -> real): (q: seq<bool>)
    ensures |q| == |states|
    ensures forall k :: 0 <= k < |q| ==> q[k] == UnderMouse(states[k].pos, mouse, minDistance, length)
  {
    seq(|states|, k requires 0 <= k < |states| => UnderMouse(states[k].pos, mouse, minDistance, length))
  }

  /** Cells at the same positions are under the mouse alike. */
  lemma SamePositionsSameFlags(s1: seq<CellState>, s2: seq<CellState>, mouse: Vec2, minDistance: real, length: (real, real) -> real)
    requires |s1| == |s2| && forall i :: 0 <= i < |s1| ==> s1[i].pos == s2[i].pos
    ensures HoverFlags(s1, mouse, minDistance, length) == HoverFlags(s2, mouse, minDistance, length)
  {
  }

  /** The cells' moving parts, in order. */
  function StatesOf(cells: seq<Cell>): (r: seq<CellState>)
    reads set c | c in cells
    ensures |r| == |cells| && forall k :: 0 <= k < |cells| ==> r[k] == cells[k].State()
  {
    seq(|cells|, k reads set c | c in cells requires 0 <= k < |cells| => cells[k].State())
  }

  /** The cells' hover flags, in order. */
  function FlagsOf(cells: seq<Cell>): (r: seq<bool>)
    reads set c | c in cells
    ensures |r| == |cells| && forall k :: 0 <= k < |cells| ==> r[k] == cells[k].isHovered
  {
    seq(|cells|, k reads set c | c in cells requires 0 <= k < |cells| => cells[k].isHovered)
  }

  /** Every cell's step from `states` with its flag; cell k samples the noise at its id k. */
  function StepAll(states: seq<CellState>, flags: seq<bool>, center: Vec2, noise: (real, real) -> real, time: real): (r: seq<CellState>)
    requires |flags| == |states|
    ensures |r| == |states|
    decreases |states|
  {
    if |states| == 0 then []
    else
      var n := |states| - 1;
      StepAll(states[..n], flags[..n], center, noise, time) + [CellStep(states[n], flags[n], center, CellNoise(noise, time, n))]
  }

  lemma {:induction false} StepAllAt(states: seq<CellState>, flags: seq<bool>, center: Vec2, noise: (real, real) -> real, time: real, k: int)
    requires |flags| == |states| && 0 <= k < |states|
    ensures StepAll(states, flags, center, noise, time)[k] == CellStep(states[k], flags[k], center, CellNoise(noise, time, k))
  {
    var n := |states| - 1;
    if k < n {
      StepAllAt(states[..n], flags[..n], center, noise, time, k);
    }
  }

  /** `u_itemPositions[i]`: the cell position scaled by the larger page side, y flipped. */
  function ItemPosition(pos: Vec2, width: real, height: real): Vec2
    requires Max(width, height) != 0.0
  {
    var a := Max(width, height);
    Vec2(pos.x / a, (height - pos.y) / a)
  }

  /** Constraint c's pair of cell ids. */
  function LinkOf(c: MinDistanceConstraint): Link
  {
    Link(c.a.id, c.b.id)
  }

  /** The constraints' pairs of cell ids, in list order. */
  function Endpoints(constraints: seq<MinDistanceConstraint>): (r: seq<Link>)
    ensures |r| == |constraints|
  {
    if |constraints| == 0 then [] else Endpoints(constraints[..|constraints| - 1]) + [LinkOf(constraints[|constraints| - 1])]
  }

  /** A list whose k-th constraint joins the k-th pair of `links` has `links` as its endpoints. */
  lemma {:induction false} EndpointsFrom(constraints: seq<MinDistanceConstraint>, links: seq<Link>)
    requires |constraints| == |links|
    requires forall k :: 0 <= k < |constraints| ==> LinkOf(constraints[k]) == links[k]
    ensures Endpoints(constraints) == links
  {
    if |constraints| > 0 {
      var n := |constraints| - 1;
      EndpointsFrom(constraints[..n], links[..n]);
      assert links == links[..n] + [links[n]];
    }
  }

  /** Constraint c joins two different cells of `cells`, each found at the index of its id. */
  predicate Joins(c: MinDistanceConstraint, cells: seq<Cell>)
  {
    0 <= c.a.id < |cells| && 0 <= c.b.id < |cells| && cells[c.a.id] == c.a && cells[c.b.id] == c.b && c.a.id != c.b.id
  }

  /** Constraint c joins the two cells of `link` and keeps `minDistance` plus the `jitter` draw. */
  ghost predicate Wired(c: MinDistanceConstraint, cells: seq<Cell>, minDistance: real, jitter: real, link: Link)
    reads c
  {
    Joins(c, cells) && LinkOf(c) == link && c.minDistance == Jittered(minDistance, jitter)
  }


  // ----- the constraints' pass ---------------------------------------------

  /** Every constraint of `cs` joins cells with ids below n. */
  predicate Indexed(cs: seq<MinDistanceConstraint>, n: int)
  {
    forall k :: 0 <= k < |cs| ==> 0 <= cs[k].a.id < n && 0 <= cs[k].b.id < n
  }

  /**
   * The push constraint c gives its cell a (and, negated, its cell b), with
   * the cells' positions taken from `states` and their hover flags from
   * `flags`.
   */
  function PairPush(c: MinDistanceConstraint, states: seq<CellState>, flags: seq<bool>, length: (real, real) -> real): Vec2
    reads c`minDistance
    requires 0 <= c.a.id < |states| && 0 <= c.b.id < |states| && |flags| == |states|
  {
    var sub := Sub2(states[c.a.id].pos, states[c.b.id].pos);
    ConstraintForce(sub, length(sub.x, sub.y), EffectiveMinDistance(c.minDistance, flags[c.a.id], flags[c.b.id]))
  }

  /** Every constraint's push, in list order. */
  function PairPushes(cs: seq<MinDistanceConstraint>, states: seq<CellState>, flags: seq<bool>, length: (real, real) -> real): (r: seq<Vec2>)
    reads set c | c in cs
    requires Indexed(cs, |states|) && |flags| == |states|
    ensures |r| == |cs| && forall k :: 0 <= k < |cs| ==> r[k] == PairPush(cs[k], states, flags, length)
  {
    seq(|cs|, k reads set c | c in cs requires 0 <= k < |cs| => PairPush(cs[k], states, flags, length))
  }

  /** What a constraint pushing with fV adds to the force of cell i: fV where i is its a, -fV where i is its b. */
  function PushOn(i: int, c: MinDistanceConstraint, fV: Vec2): Vec2
  {
    var onA := if c.a.id == i then fV else Zero2;
    if c.b.id == i then Sub2(onA, fV) else onA
  }

  /** The pushes of the first n constraints of `cs` on cell i, summed in list order; `pushes` holds each one's push. */
  function PushesOn(i: int, cs: seq<MinDistanceConstraint>, pushes: seq<Vec2>, n: int): Vec2
    requires 0 <= n <= |cs| == |pushes|
    decreases n
  {
    if n == 0 then Zero2 else Add2(PushesOn(i, cs, pushes, n - 1), PushOn(i, cs[n - 1], pushes[n - 1]))
  }

  /** One constraint's pushes on cells 0 .. m - 1, summed. */
  function SumPushOn(c: MinDistanceConstraint, fV: Vec2, m: int): Vec2
    decreases m
  {
    if m <= 0 then Zero2 else Add2(SumPushOn(c, fV, m - 1), PushOn(m - 1, c, fV))
  }

  /** The pushes of the first n constraints on cells 0 .. m - 1, summed. */
  function SumPushesOn(cs: seq<MinDistanceConstraint>, pushes: seq<Vec2>, n: int, m: int): Vec2
    requires 0 <= n <= |cs| == |pushes|
    decreases m
  {
    if m <= 0 then Zero2 else Add2(SumPushesOn(cs, pushes, n, m - 1), PushesOn(m - 1, cs, pushes, n))
  }

  /** On each axis, a constraint's push on cell i is its push where i is its a, less its push where i is its b. */
  lemma PushOnParts(i: int, c: MinDistanceConstraint, fV: Vec2)
    ensures PushOn(i, c, fV).x == (if c.a.id == i then fV.x else 0.0) - (if c.b.id == i then fV.x else 0.0)
    ensures PushOn(i, c, fV).y == (if c.a.id == i then fV.y else 0.0) - (if c.b.id == i then fV.y else 0.0)
  {
  }

  /** Over cells 0 .. m - 1, a constraint adds its push where its a is among them and takes it away where its b is, on each axis. */
  lemma {:induction false} SumPushOnEnds(c: MinDistanceConstraint, fV: Vec2, m: int)
    ensures SumPushOn(c, fV, m).x == (if 0 <= c.a.id < m then fV.x else 0.0) - (if 0 <= c.b.id < m then fV.x else 0.0)
    ensures SumPushOn(c, fV, m).y == (if 0 <= c.a.id < m then fV.y else 0.0) - (if 0 <= c.b.id < m then fV.y else 0.0)
    decreases m
  {
    if m > 0 {
      SumPushOnEnds(c, fV, m - 1);
      PushOnParts(m - 1, c, fV);
      var before, step := SumPushOn(c, fV, m - 1), PushOn(m - 1, c, fV);
      assert SumPushOn(c, fV, m).x == before.x + step.x && SumPushOn(c, fV, m).y == before.y + step.y;
      var ia, ib := c.a.id, c.b.id;
      if ia == m - 1 && ib == m - 1 {
        assert step.x == 0.0 && step.y == 0.0;
      } else if ia == m - 1 {
        assert step.x == fV.x && step.y == fV.y;
      } else if ib == m - 1 {
        assert step.x == -fV.x && step.y == -fV.y;
      } else {
        assert step.x == 0.0 && step.y == 0.0;
      }
    }
  }

  /** A constraint both of whose cells are among cells 0 .. m - 1 pushes them by nothing in sum. */
  lemma OneBalances(c: MinDistanceConstraint, fV: Vec2, m: int)
    requires 0 <= c.a.id < m && 0 <= c.b.id < m
    ensures SumPushOn(c, fV, m).x == 0.0 && SumPushOn(c, fV, m).y == 0.0
  {
    SumPushOnEnds(c, fV, m);
  }

  /** Summing over cells commutes with adding constraint n - 1, on each axis. */
  lemma {:induction false} SumPushesOnLast(cs: seq<MinDistanceConstraint>, pushes: seq<Vec2>, n: int, m: int)
    requires 1 <= n <= |cs| == |pushes|
    ensures SumPushesOn(cs, pushes, n, m).x == SumPushesOn(cs, pushes, n - 1, m).x + SumPushOn(cs[n - 1], pushes[n - 1], m).x
    ensures SumPushesOn(cs, pushes, n, m).y == SumPushesOn(cs, pushes, n - 1, m).y + SumPushOn(cs[n - 1], pushes[n - 1], m).y
    decreases m
  {
    if m > 0 {
      SumPushesOnLast(cs, pushes, n, m - 1);
      var p := PushesOn(m - 1, cs, pushes, n);
      var q := PushesOn(m - 1, cs, pushes, n - 1);
      var e := PushOn(m - 1, cs[n - 1], pushes[n - 1]);
      assert p.x == q.x + e.x && p.y == q.y + e.y;
      var a := SumPushesOn(cs, pushes, n, m - 1);
      var b := SumPushesOn(cs, pushes, n - 1, m - 1);
      var d := SumPushOn(cs[n - 1], pushes[n - 1], m - 1);
      assert SumPushesOn(cs, pushes, n, m).x == a.x + p.x;
      assert SumPushesOn(cs, pushes, n - 1, m).x == b.x + q.x;
      assert SumPushOn(cs[n - 1], pushes[n - 1], m).x == d.x + e.x;
      assert SumPushesOn(cs, pushes, n, m).y == a.y + p.y;
      assert SumPushesOn(cs, pushes, n - 1, m).y == b.y + q.y;
      assert SumPushOn(cs[n - 1], pushes[n - 1], m).y == d.y + e.y;
    }
  }

  /**
   * The pushes balance: every constraint gives its b the opposite of what
   * it gives its a, so over all cells the pushes of any prefix of the
   * constraints sum to zero on both axes.
   */
  lemma {:induction false} PushesBalance(cs: seq<MinDistanceConstraint>, pushes: seq<Vec2>, n: int, m: int)
    requires 0 <= n <= |cs| == |pushes| && Indexed(cs, m)
    ensures SumPushesOn(cs, pushes, n, m).x == 0.0 && SumPushesOn(cs, pushes, n, m).y == 0.0
    decreases n
  {
    if n == 0 {
      SumPushesOnZero(cs, pushes, m);
    } else {
      PushesBalance(cs, pushes, n - 1, m);
      SumPushesOnLast(cs, pushes, n, m);
      OneBalances(cs[n - 1], pushes[n - 1], m);
    }
  }

  /** No constraints push nothing. */
  lemma {:induction false} SumPushesOnZero(cs: seq<MinDistanceConstraint>, pushes: seq<Vec2>, m: int)
    requires |cs| == |pushes|
    ensures SumPushesOn(cs, pushes, 0, m).x == 0.0 && SumPushesOn(cs, pushes, 0, m).y == 0.0
    decreases m
  {
    if m > 0 {
      SumPushesOnZero(cs, pushes, m - 1);
    }
  }

  /** The cells after the constraints' pass, each constraint pushing by the cells' `states` and `flags`. */
  function ConstraintPass(cs: seq<MinDistanceConstraint>, states: seq<CellState>, flags: seq<bool>, length: (real, real) -> real): (r: seq<CellState>)
    reads set c | c in cs
    requires Indexed(cs, |states|) && |flags| == |states|
  {
    AfterConstraints(states, flags, cs, PairPushes(cs, states, flags, length))
  }

  /** The cells after the constraints' pass: every unhovered cell's force gains its pushes. */
  function AfterConstraints(states: seq<CellState>, flags: seq<bool>, cs: seq<MinDistanceConstraint>, pushes: seq<Vec2>): (r: seq<CellState>)
    requires |flags| == |states| && |pushes| == |cs|
    ensures |r| == |states|
    ensures forall i :: 0 <= i < |r| ==> r[i].pos == states[i].pos && r[i].velocity == states[i].velocity
    ensures forall i :: 0 <= i < |r| && flags[i] ==> r[i] == states[i]
  {
    seq(|states|, i requires 0 <= i < |states| =>
      if flags[i] then states[i]
      else states[i].(totalForce := Add2(states[i].totalForce, PushesOn(i, cs, pushes, |cs|))))
  }

  class VoronoiClusterSketch {
    var width: real
    var height: real
    var center: Vec2
    var minDistance: real
    var mouse: Vec2
    var time: real
    var cells: seq<Cell>
    var constraints: seq<MinDistanceConstraint>
    var hoveredCell: Option<Cell>
    /** `CELL_COUNT`. */
    const cellCount: nat
    /** `u_itemPositions`: one slot per cell. */
    const itemPositions: array<Vec2>
    var isDestroyed: bool

    /**
     * Cell i has id i, its mass and drag; cells are distinct; every
     * constraint joins two different cells of the sketch; and exactly the
     * hovered cell, if any, has its flag set.
     */
    ghost predicate Valid()
      reads this`cells, this`constraints, this`hoveredCell, set c | c in cells
    {
      CellsValid() && ConstraintsValid() && HoverValid()
    }

    /**
     * `CELL_COUNT` cells, cell i with id i (so no cell appears twice), its
     * mass and drag, and a slot each in `u_itemPositions`.
     */
    ghost predicate CellsValid()
      reads this`cells
    {
      |cells| == cellCount && itemPositions.Length == cellCount &&
      (forall i :: 0 <= i < |cells| ==> cells[i].id == i && cells[i].mass == Mass && cells[i].drag == Drag)
    }

    /** Every constraint joins two different cells of the sketch. */
    ghost predicate ConstraintsValid()
      reads this`cells, this`constraints
    {
      Indexed(constraints, |cells|) && forall k :: 0 <= k < |constraints| ==> Joins(constraints[k], cells)
    }

    /** Exactly the hovered cell, if any, has its flag set. */
    ghost predicate HoverValid()
      reads this`cells, this`hoveredCell, set c | c in cells
    {
      (hoveredCell.Some? ==> hoveredCell.value in cells) &&
      (forall i :: 0 <= i < |cells| ==> (cells[i].isHovered <==> hoveredCell == Some(cells[i])))
    }

    /**
     * `init`: the size first (no constraints yet), then `initCells` with
     * `cellRandoms` and `jitter` the `Math.random()` draws.
     */
    constructor (width: real, height: real, cellRandoms: seq<Vec2>, jitter: seq<real>)
      requires |cellRandoms| == CellCount && |jitter| == PairCount
      requires forall k :: 0 <= k < |jitter| ==> 0.0 <= jitter[k] < 1.0
      ensures cellCount == CellCount && Valid() && hoveredCell == None && !isDestroyed
      ensures center == Vec2(width / 2.0, height / 2.0) && minDistance == width / 7.5
      ensures forall i :: 0 <= i < |cells| ==> cells[i].pos == PagePoint(cellRandoms[i], width, height)
      ensures |constraints| == |jitter| && Endpoints(constraints) == OrderedPairs(cellCount)
      ensures forall k :: 0 <= k < |constraints| ==> constraints[k].minDistance == Jittered(minDistance, jitter[k])
    {
      cellCount := CellCount;
      this.width, this.height := width, height;
      center, minDistance, mouse, time := Vec2(100.0, 100.0), 140.0, Zero2, 1.0;
      cells, constraints, hoveredCell := [], [], None;
      itemPositions := new Vec2[CellCount](_ => Zero2);
      isDestroyed := false;
      new;
      UpdateSize(width, height, []);
      InitCells(cellRandoms, jitter);
    }

    /**
     * `initCells`: `CELL_COUNT` cells with ids 0, 1, ... at random points of
     * the page, then one constraint per ordered pair of distinct cells, in
     * the order of the nested loops, each at the current minimum distance
     * plus its jitter.
     */
    method InitCells(cellRandoms: seq<Vec2>, jitter: seq<real>)
      requires cells == [] && constraints == [] && hoveredCell == None && itemPositions.Length == cellCount
      requires |cellRandoms| == cellCount && |jitter| == |OrderedPairs(cellCount)|
      requires forall k :: 0 <= k < |jitter| ==> 0.0 <= jitter[k] < 1.0
      modifies this`cells, this`constraints
      ensures Valid() && hoveredCell == None
      ensures forall i :: 0 <= i < |cells| ==> cells[i].pos == PagePoint(cellRandoms[i], width, height)
      ensures |constraints| == |jitter| && Endpoints(constraints) == OrderedPairs(cellCount)
      ensures forall k :: 0 <= k < |constraints| ==> constraints[k].minDistance == Jittered(minDistance, jitter[k])
    {
      CreateCells(cellRandoms);
      CreateConstraints(jitter);
      EndpointsFrom(constraints, OrderedPairs(cellCount));
    }

    /** The first loop of `initCells`: cell i with id i at the i-th random point of the page. */
    method CreateCells(cellRandoms: seq<Vec2>)
      requires cells == [] && |cellRandoms| == cellCount && itemPositions.Length == cellCount
      modifies this`cells
      ensures CellsValid()
      ensures forall k :: 0 <= k < |cells| ==> fresh(cells[k]) && !cells[k].isHovered
      ensures forall k :: 0 <= k < |cells| ==> cells[k].pos == PagePoint(cellRandoms[k], width, height)
    {
      var i := 0;
      while i < cellCount
        invariant 0 <= i <= cellCount && |cells| == i
        invariant forall k :: 0 <= k < i ==> cells[k].id == k && cells[k].mass == Mass && cells[k].drag == Drag
        invariant forall k :: 0 <= k < i ==> fresh(cells[k]) && !cells[k].isHovered
        invariant forall k :: 0 <= k < i ==> cells[k].pos == PagePoint(cellRandoms[k], width, height)
      {
        var cell := new Cell(i, PagePoint(cellRandoms[i], width, height));
        cells := cells + [cell];
        i := i + 1;
      }
    }

    /**
     * The nested loops of `initCells`: one constraint per ordered pair of
     * distinct cells, constraint k joining the k-th pair and drawing the
     * k-th jitter.
     */
    method CreateConstraints(jitter: seq<real>)
      requires constraints == [] && |jitter| == |OrderedPairs(|cells|)|
      requires forall k :: 0 <= k < |jitter| ==> 0.0 <= jitter[k] < 1.0
      requires forall i :: 0 <= i < |cells| ==> cells[i].id == i
      modifies this`constraints
      ensures |constraints| == |jitter|
      ensures forall k :: 0 <= k < |constraints| ==> Wired(constraints[k], cells, minDistance, jitter[k], OrderedPairs(|cells|)[k])
    {
      ghost var pairs := OrderedPairs(|cells|);
      var a := 0;
      while a < |cells|
        invariant 0 <= a <= |cells| && |constraints| == |Rows(|cells|, a)| && |constraints| <= |pairs|
        invariant forall k :: 0 <= k < |constraints| ==> Wired(constraints[k], cells, minDistance, jitter[k], pairs[k])
      {
        CreateRow(a, jitter, pairs);
        a := a + 1;
      }
    }

    /** The inner loop of `initCells` for cell a: a constraint from a to every other cell, in id order. */
    method CreateRow(a: nat, jitter: seq<real>, ghost pairs: seq<Link>)
      requires 0 <= a < |cells| && pairs == OrderedPairs(|cells|) && |jitter| == |pairs|
      requires forall k :: 0 <= k < |jitter| ==> 0.0 <= jitter[k] < 1.0
      requires forall i :: 0 <= i < |cells| ==> cells[i].id == i
      requires |constraints| == |Rows(|cells|, a)| && |constraints| <= |pairs|
      requires forall k :: 0 <= k < |constraints| ==> Wired(constraints[k], cells, minDistance, jitter[k], pairs[k])
      modifies this`constraints
      ensures |constraints| == |Rows(|cells|, a + 1)| && |constraints| <= |pairs|
      ensures forall k :: 0 <= k < |constraints| ==> Wired(constraints[k], cells, minDistance, jitter[k], pairs[k])
    {
      ghost var start := |constraints|;
      var b := 0;
      while b < |cells|
        invariant 0 <= b <= |cells|
        invariant |constraints| == start + (if a < b then b - 1 else b) && |constraints| <= |pairs|
        invariant forall k :: 0 <= k < |constraints| ==> Wired(constraints[k], cells, minDistance, jitter[k], pairs[k])
      {
        VisitPair(a, b, jitter, pairs, start);
        b := b + 1;
      }
    }

    /** One step of the inner loop: the pair (a, b) gets the next constraint unless a == b. */
    method VisitPair(a: nat, b: int, jitter: seq<real>, ghost pairs: seq<Link>, ghost start: int)
      requires 0 <= a < |cells| && 0 <= b < |cells| && pairs == OrderedPairs(|cells|) && |jitter| == |pairs|
      requires forall k :: 0 <= k < |jitter| ==> 0.0 <= jitter[k] < 1.0
      requires forall i :: 0 <= i < |cells| ==> cells[i].id == i
      requires start == |Rows(|cells|, a)|
      requires |constraints| == start + (if a < b then b - 1 else b) && |constraints| <= |pairs|
      requires forall k :: 0 <= k < |constraints| ==> Wired(constraints[k], cells, minDistance, jitter[k], pairs[k])
      modifies this`constraints
      ensures |constraints| == start + (if a < b + 1 then b else b + 1) && |constraints| <= |pairs|
      ensures forall k :: 0 <= k < |constraints| ==> Wired(constraints[k], cells, minDistance, jitter[k], pairs[k])
    {
      if a != b {
        PairIndex(|cells|, a, b);
        AddConstraint(a, b, jitter, pairs);
      }
    }

    /** One `new MinDistanceConstraint(cells[a], cells[b], minDistance)` pushed onto the list. */
    method AddConstraint(a: int, b: int, jitter: seq<real>, ghost pairs: seq<Link>)
      requires 0 <= a < |cells| && 0 <= b < |cells| && a != b
      requires cells[a].id == a && cells[b].id == b
      requires |constraints| < |jitter| == |pairs| && 0.0 <= jitter[|constraints|] < 1.0
      requires pairs[|constraints|] == Link(a, b)
      requires forall k :: 0 <= k < |constraints| ==> Wired(constraints[k], cells, minDistance, jitter[k], pairs[k])
      modifies this`constraints
      ensures |constraints| == |old(constraints)| + 1
      ensures forall k :: 0 <= k < |constraints| ==> Wired(constraints[k], cells, minDistance, jitter[k], pairs[k])
    {
      var constraint := new MinDistanceConstraint(cells[a], cells[b], minDistance, jitter[|constraints|]);
      constraints := constraints + [constraint];
    }

    /**
     * `updateSize`: the centre moves to the middle of the page, the minimum
     * distance becomes width / 7.5 and every constraint is reset to it
     * through the jittering setter (`jitter[k]` the k-th `Math.random()`).
     */
    method UpdateSize(width: real, height: real, jitter: seq<real>)
      requires |jitter| == |constraints| && forall k :: 0 <= k < |jitter| ==> 0.0 <= jitter[k] < 1.0
      requires forall k, l :: 0 <= k < l < |constraints| ==> constraints[k] != constraints[l]
      modifies this`width, this`height, this`center, this`minDistance, set c | c in constraints
      ensures this.width == width && this.height == height
      ensures center == Vec2(width / 2.0, height / 2.0) && minDistance == width / 7.5
      ensures forall k :: 0 <= k < |constraints| ==>
                width / 7.5 <= constraints[k].minDistance < width / 7.5 + JitterRange &&
                constraints[k].minDistance == Jittered(width / 7.5, jitter[k])
    {
      this.width, this.height := width, height;
      center := Vec2(width / 2.0, height / 2.0);
      minDistance := width / 7.5;
      var k := 0;
      while k < |constraints|
        modifies set c | c in constraints
        invariant 0 <= k <= |constraints|
        invariant forall j :: 0 <= j < k ==> constraints[j].minDistance == Jittered(width / 7.5, jitter[j])
      {
        constraints[k].SetMinDistance(minDistance, jitter[k]);
        k := k + 1;
      }
    }

    /** The pointer handler: the mouse in page coordinates. */
    method PointerMove(pageX: real, pageY: real)
      modifies this`mouse
      ensures mouse == Vec2(pageX, pageY)
    {
      mouse := Vec2(pageX, pageY);
    }

    /**
     * The constraints' pass of `animate`: every constraint, in list order,
     * pushes its two cells apart, so each unhovered cell's force gains the
     * sum of its pushes; a hovered cell's force, and every position,
     * velocity and hover flag, stay.
     */
    method ApplyConstraints(length: (real, real) -> real)
      requires Valid() && IsHypot(length)
      modifies set c | c in cells
      ensures Valid() && Indexed(constraints, |cells|)
      ensures FlagsOf(cells) == old(FlagsOf(cells))
      ensures StatesOf(cells) == old(ConstraintPass(constraints, StatesOf(cells), FlagsOf(cells), length))
    {
      ghost var s0, q0 := StatesOf(cells), FlagsOf(cells);
      ghost var pushes := PairPushes(constraints, s0, q0, length);
      assert Pushed(0, s0, q0, pushes);
      assert forall i :: 0 <= i < |cells| ==> (q0[i] <==> hoveredCell == Some(cells[i]));
      PushAll(length, s0, q0, pushes);
      PassComplete(length, s0, q0, pushes);
    }

    /** Once every constraint has pushed, the cells hold the constraints' pass of `s0`, flagged as before. */
    lemma PassComplete(length: (real, real) -> real, s0: seq<CellState>, q0: seq<bool>, pushes: seq<Vec2>)
      requires CellsValid() && ConstraintsValid() && Pushed(|constraints|, s0, q0, pushes)
      requires pushes == PairPushes(constraints, s0, q0, length)
      requires hoveredCell.Some? ==> hoveredCell.value in cells
      requires forall i :: 0 <= i < |cells| ==> (q0[i] <==> hoveredCell == Some(cells[i]))
      ensures Valid() && Indexed(constraints, |cells|) && FlagsOf(cells) == q0
      ensures StatesOf(cells) == ConstraintPass(constraints, s0, q0, length)
    {
      var after := ConstraintPass(constraints, s0, q0, length);
      forall i | 0 <= i < |cells|
        ensures cells[i].State() == after[i]
      {
      }
    }

    /** `animate`'s loop over the constraints, from the first to the last. */
    method PushAll(length: (real, real) -> real, ghost s0: seq<CellState>, ghost q0: seq<bool>, ghost pushes: seq<Vec2>)
      requires CellsValid() && ConstraintsValid() && IsHypot(length) && Pushed(0, s0, q0, pushes)
      requires pushes == PairPushes(constraints, s0, q0, length)
      modifies set c | c in cells
      ensures Pushed(|constraints|, s0, q0, pushes)
    {
      var k := 0;
      while k < |constraints|
        invariant 0 <= k <= |constraints|
        invariant CellsValid() && ConstraintsValid() && Pushed(k, s0, q0, pushes)
        invariant forall j :: 0 <= j < |constraints| ==> constraints[j].minDistance == old(constraints[j].minDistance)
      {
        PushPair(k, length, s0, q0, pushes);
        k := k + 1;
      }
    }

    /**
     * The constraints before k have pushed: each cell keeps its position,
     * velocity and flag from `s0` and `q0`, and an unhovered one has gained
     * their pushes.
     */
    ghost predicate Pushed(k: int, s0: seq<CellState>, q0: seq<bool>, pushes: seq<Vec2>)
      reads this, set c | c in cells
    {
      0 <= k <= |constraints| == |pushes| && |s0| == |cells| && |q0| == |cells| && Indexed(constraints, |cells|) &&
      forall i :: 0 <= i < |cells| ==>
        cells[i].pos == s0[i].pos && cells[i].velocity == s0[i].velocity && cells[i].isHovered == q0[i] &&
        cells[i].totalForce == if q0[i] then s0[i].totalForce else Add2(s0[i].totalForce, PushesOn(i, constraints, pushes, k))
    }

    /**
     * Constraint c's `update`, with the cells at the positions of `s0` and
     * flagged as in `q0`, where c's push is fV: each unhovered cell's force
     * gains what c adds to it, and nothing else changes.
     */
    method UpdateConstraint(c: MinDistanceConstraint, length: (real, real) -> real, ghost s0: seq<CellState>, ghost q0: seq<bool>, ghost fV: Vec2)
      requires CellsValid() && Joins(c, cells) && IsHypot(length) && |s0| == |cells| && |q0| == |cells|
      requires forall i :: 0 <= i < |cells| ==> cells[i].pos == s0[i].pos && cells[i].isHovered == q0[i]
      requires fV == PairPush(c, s0, q0, length)
      modifies set c | c in cells
      ensures forall i :: 0 <= i < |cells| ==>
                cells[i].pos == old(cells[i].pos) && cells[i].velocity == old(cells[i].velocity) &&
                cells[i].isHovered == old(cells[i].isHovered)
      ensures forall i :: 0 <= i < |cells| ==>
                cells[i].totalForce == if q0[i] then old(cells[i].totalForce) else Add2(old(cells[i].totalForce), PushOn(i, c, fV))
    {
      c.Update(length);
      forall i | 0 <= i < |cells|
        ensures cells[i].totalForce == if q0[i] then old(cells[i].totalForce) else Add2(old(cells[i].totalForce), PushOn(i, c, fV))
      {
        if i != c.a.id && i != c.b.id {
          assert cells[i] != c.a && cells[i] != c.b;
        }
      }
    }

    /** Constraint k pushes its two cells. */
    method PushPair(k: int, length: (real, real) -> real, ghost s0: seq<CellState>, ghost q0: seq<bool>, ghost pushes: seq<Vec2>)
      requires CellsValid() && ConstraintsValid() && IsHypot(length) && 0 <= k < |constraints| && Pushed(k, s0, q0, pushes)
      requires pushes[k] == PairPush(constraints[k], s0, q0, length)
      modifies set c | c in cells
      ensures CellsValid() && ConstraintsValid() && Pushed(k + 1, s0, q0, pushes)
    {
      assert Joins(constraints[k], cells);
      UpdateConstraint(constraints[k], length, s0, q0, pushes[k]);
    }

    /**
     * The cells' pass of `animate`: visiting cells in order, a cell under the
     * mouse takes over the hover and a hovered cell no longer under it gives
     * it up; each cell then steps with its own flag and its slot in
     * `u_itemPositions` is set.  In the end the hovered cell is the last one
     * under the mouse, or none.
     */
    method UpdateCells(length: (real, real) -> real, noise: (real, real) -> real)
      requires Valid() && Max(width, height) != 0.0
      modifies this`hoveredCell, (set c | c in cells), itemPositions
      ensures Valid()
      ensures var q := HoverFlags(old(StatesOf(cells)), mouse, minDistance, length);
              hoveredCell == (if LastTrue(q).Some? then Some(cells[LastTrue(q).value]) else None)
      ensures var s := old(StatesOf(cells));
              var q := HoverFlags(s, mouse, minDistance, length);
              forall i :: 0 <= i < |cells| ==> cells[i].State() == CellStep(s[i], q[i], center, CellNoise(noise, time, i))
      ensures forall i :: 0 <= i < |cells| ==> itemPositions[i] == ItemPosition(cells[i].pos, width, height)
    {
      ghost var s0 := StatesOf(cells);
      ghost var q := HoverFlags(s0, mouse, minDistance, length);
      ghost var target := StepAll(s0, q, center, noise, time);
      ghost var h0: Option<int> := None;
      if hoveredCell.Some? {
        var j :| 0 <= j < |cells| && cells[j] == hoveredCell.value;
        h0 := Some(j);
      }
      VisitCells(length, noise, s0, q, target, h0);
      CellPassComplete(noise, s0, q, target, h0);
    }

    /** Once every cell has taken its turn, the hover is on the last flagged cell and every cell has stepped. */
    lemma CellPassComplete(noise: (real, real) -> real, s0: seq<CellState>, q: seq<bool>, target: seq<CellState>, h0: Option<int>)
      requires Pass(|cells|, s0, q, target, h0)
      requires target == StepAll(s0, q, center, noise, time)
      ensures hoveredCell == (if LastTrue(q).Some? then Some(cells[LastTrue(q).value]) else None)
      ensures forall i :: 0 <= i < |cells| ==> cells[i].State() == CellStep(s0[i], q[i], center, CellNoise(noise, time, i))
    {
      assert q[..|cells|] == q;
      HoverAfterLastTrue(h0, q);
      forall i | 0 <= i < |cells|
        ensures cells[i].State() == CellStep(s0[i], q[i], center, CellNoise(noise, time, i))
      {
        StepAllAt(s0, q, center, noise, time, i);
      }
    }

    /** Cells before i have reached their `target` states; the others are still at `s0`. */
    ghost predicate Stepped(i: int, s0: seq<CellState>, target: seq<CellState>)
      reads this, set c | c in cells
    {
      0 <= i <= |cells| && |s0| == |cells| && |target| == |cells| &&
      forall k :: 0 <= k < |cells| ==> cells[k].State() == if k < i then target[k] else s0[k]
    }

    /** The slots of `u_itemPositions` before i hold their cells' page positions. */
    ghost predicate Placed(i: int)
      reads this, itemPositions, set c | c in cells
    {
      0 <= i <= |cells| <= itemPositions.Length && Max(width, height) != 0.0 &&
      forall k :: 0 <= k < i ==> itemPositions[k] == ItemPosition(cells[k].pos, width, height)
    }

    /**
     * The state of the cell loop before turn i: cells before i have stepped,
     * their slots are written, and the hover is where the flags of cells
     * before i have moved it from h0.
     */
    ghost predicate Pass(i: int, s0: seq<CellState>, q: seq<bool>, target: seq<CellState>, h0: Option<int>)
      reads this, itemPositions, set c | c in cells
    {
      Valid() && 0 <= i <= |cells| && |q| == |cells| && (h0.Some? ==> 0 <= h0.value < |cells|) &&
      hoveredCell == CellAt(HoverAfter(h0, q[..i])) && Stepped(i, s0, target) && Placed(i)
    }

    /** The cell loop of a frame: every cell takes its turn, in index order. */
    method VisitCells(length: (real, real) -> real, noise: (real, real) -> real,
                      ghost s0: seq<CellState>, ghost q: seq<bool>, ghost target: seq<CellState>, ghost h0: Option<int>)
      requires Pass(0, s0, q, target, h0)
      requires q == HoverFlags(s0, mouse, minDistance, length)
      requires target == StepAll(s0, q, center, noise, time)
      modifies this`hoveredCell, (set c | c in cells), itemPositions
      ensures Pass(|cells|, s0, q, target, h0)
    {
      var i := 0;
      while i < |cells|
        invariant Pass(i, s0, q, target, h0)
      {
        StepAllAt(s0, q, center, noise, time, i);
        CellTurn(i, length, noise, s0, q, target, h0);
        i := i + 1;
      }
    }

    /** Turn i of the cell loop, stated against the frame's starting states and flags. */
    method CellTurn(i: int, length: (real, real) -> real, noise: (real, real) -> real,
                    ghost s0: seq<CellState>, ghost q: seq<bool>, ghost target: seq<CellState>, ghost h0: Option<int>)
      requires Pass(i, s0, q, target, h0) && i < |cells|
      requires q[i] == UnderMouse(s0[i].pos, mouse, minDistance, length)
      requires target[i] == CellStep(s0[i], q[i], center, CellNoise(noise, time, i))
      modifies this`hoveredCell, (set c | c in cells), itemPositions
      ensures Pass(i + 1, s0, q, target, h0)
    {
      HoverAfterRange(h0, q[..i]);
      VisitCell(i, length, noise, s0[i], HoverAfter(h0, q[..i]));
      assert q[..i + 1][..i] == q[..i];
    }

    /** The cell at an index, or none. */
    function CellAt(h: Option<int>): Option<Cell>
      reads this`cells
    {
      if h.Some? && 0 <= h.value < |cells| then Some(cells[h.value]) else None
    }

    /**
     * One turn of `animate`'s cell loop, for cell i in state `s` with the
     * hover on index h: the hover is handed over by cell i's flag, cell i
     * steps, and its slot of `u_itemPositions` is written; no other cell
     * moves and no other slot changes.
     */
    method VisitCell(i: int, length: (real, real) -> real, noise: (real, real) -> real, ghost s: CellState, ghost h: Option<int>)
      requires Valid() && 0 <= i < |cells| && Max(width, height) != 0.0
      requires cells[i].State() == s && (h.Some? ==> 0 <= h.value < |cells|) && hoveredCell == CellAt(h)
      modifies this`hoveredCell, (set c | c in cells), itemPositions
      ensures Valid()
      ensures hoveredCell == CellAt(HoverStep(h, i, UnderMouse(s.pos, mouse, minDistance, length)))
      ensures cells[i].State() == CellStep(s, UnderMouse(s.pos, mouse, minDistance, length), center, CellNoise(noise, time, i))
      ensures forall k :: 0 <= k < |cells| && k != i ==> cells[k].State() == old(cells[k].State())
      ensures itemPositions[i] == ItemPosition(cells[i].pos, width, height)
      ensures forall k :: 0 <= k < itemPositions.Length && k != i ==> itemPositions[k] == old(itemPositions[k])
    {
      var c := cells[i];
      var isHovered := UnderMouse(c.pos, mouse, minDistance, length);
      SetHover(i, isHovered, h);
      StepCell(i, noise);
      WriteItemPosition(i, c.pos);
    }

    /** Slot i of `u_itemPositions` receives the page position `pos`, scaled by the longer side with y flipped. */
    method WriteItemPosition(i: int, pos: Vec2)
      requires 0 <= i < itemPositions.Length && Max(width, height) != 0.0
      modifies itemPositions
      ensures itemPositions[i] == ItemPosition(pos, width, height)
      ensures forall k :: 0 <= k < itemPositions.Length && k != i ==> itemPositions[k] == old(itemPositions[k])
    {
      var a := Max(width, height);
      itemPositions[i] := Vec2(pos.x / a, (height - pos.y) / a);
    }

    /** Cell i steps with the flag it holds; every other cell and the hover stay as they are. */
    method StepCell(i: int, noise: (real, real) -> real)
      requires Valid() && 0 <= i < |cells|
      modifies cells[i]
      ensures Valid()
      ensures cells[i].State() == CellStep(old(cells[i].State()), cells[i].isHovered, center, CellNoise(noise, time, i))
      ensures forall k :: 0 <= k < |cells| && k != i ==> cells[k].State() == old(cells[k].State())
    {
      var c := cells[i];
      assert forall k :: 0 <= k < |cells| && k != i ==> cells[k] != c;
      c.Update(time, center, noise);
    }

    /**
     * The hover hand-over for cell i, with the hover on index h: flagged,
     * cell i takes the hover from the previous holder; unflagged while
     * holding it, it lets go.
     */
    method SetHover(i: int, isHovered: bool, ghost h: Option<int>)
      requires Valid() && 0 <= i < |cells| && (h.Some? ==> 0 <= h.value < |cells|) && hoveredCell == CellAt(h)
      modifies this`hoveredCell, set c | c in cells
      ensures Valid()
      ensures hoveredCell == CellAt(HoverStep(h, i, isHovered)) && cells[i].isHovered == isHovered
      ensures forall k :: 0 <= k < |cells| ==> cells[k].State() == old(cells[k].State())
    {
      var c := cells[i];
      if isHovered && hoveredCell != Some(c) {
        if hoveredCell.Some? {
          hoveredCell.value.isHovered := false;
        }
        hoveredCell := Some(c);
        c.isHovered := true;
      } else if !isHovered && hoveredCell == Some(c) {
        c.isHovered := false;
        hoveredCell := None;
      }
    }

    /**
     * One frame: the constraints push, the cells move and the hover moves to
     * the last cell under the mouse (by the positions at the start of the
     * frame), or to none; the time advances by 0.05.
     */
    method Animate(length: (real, real) -> real, noise: (real, real) -> real)
      requires Valid() && IsHypot(length) && Max(width, height) != 0.0
      modifies this`hoveredCell, this`time, (set c | c in cells), itemPositions
      ensures Valid() && Indexed(constraints, |cells|)
      ensures !old(isDestroyed) ==> forall i :: 0 <= i < |cells| ==> itemPositions[i] == ItemPosition(cells[i].pos, width, height)
      ensures old(isDestroyed) ==> unchanged(this) && unchanged(itemPositions)
      ensures old(isDestroyed) ==> forall i :: 0 <= i < |cells| ==> unchanged(cells[i])
      ensures !old(isDestroyed) ==>
                var q := HoverFlags(old(StatesOf(cells)), mouse, minDistance, length);
                hoveredCell == (if LastTrue(q).Some? then Some(cells[LastTrue(q).value]) else None) &&
                time == old(time) + 0.05
      ensures !old(isDestroyed) ==>
                var q := old(HoverFlags(StatesOf(cells), mouse, minDistance, length));
                var pushed := old(ConstraintPass(constraints, StatesOf(cells), FlagsOf(cells), length));
                forall i :: 0 <= i < |cells| ==> cells[i].State() == CellStep(pushed[i], q[i], center, CellNoise(noise, old(time), i))
    {
      if isDestroyed {
        assert Indexed(constraints, |cells|) by {
          assert ConstraintsValid();
        }
        return;
      }
      AnimateFrame(length, noise);
    }

    /** A frame of a live sketch: the constraints' pass, the cells' pass and the time step. */
    method AnimateFrame(length: (real, real) -> real, noise: (real, real) -> real)
      requires Valid() && IsHypot(length) && Max(width, height) != 0.0
      modifies this`hoveredCell, this`time, (set c | c in cells), itemPositions
      ensures forall i :: 0 <= i < |cells| ==> itemPositions[i] == ItemPosition(cells[i].pos, width, height)
      ensures Valid() && Indexed(constraints, |cells|)
      ensures var q := HoverFlags(old(StatesOf(cells)), mouse, minDistance, length);
              hoveredCell == (if LastTrue(q).Some? then Some(cells[LastTrue(q).value]) else None) &&
              time == old(time) + 0.05
      ensures var q := old(HoverFlags(StatesOf(cells), mouse, minDistance, length));
              var pushed := old(ConstraintPass(constraints, StatesOf(cells), FlagsOf(cells), length));
              forall i :: 0 <= i < |cells| ==> cells[i].State() == CellStep(pushed[i], q[i], center, CellNoise(noise, old(time), i))
    {
      CellPasses(length, noise);
      Render();
    }

    /** `render`: the shader time advances by 0.05; the GPU draw is not modelled. */
    method Render()
      modifies this`time
      ensures time == old(time) + 0.05
    {
      time := time + 0.05;
    }

    /** The two passes of a frame: the constraints push, then the cells move and the hover follows the mouse. */
    method CellPasses(length: (real, real) -> real, noise: (real, real) -> real)
      requires Valid() && IsHypot(length) && Max(width, height) != 0.0
      modifies this`hoveredCell, (set c | c in cells), itemPositions
      ensures forall i :: 0 <= i < |cells| ==> itemPositions[i] == ItemPosition(cells[i].pos, width, height)
      ensures Valid() && Indexed(constraints, |cells|)
      ensures var q := HoverFlags(old(StatesOf(cells)), mouse, minDistance, length);
              hoveredCell == (if LastTrue(q).Some? then Some(cells[LastTrue(q).value]) else None)
      ensures var q := old(HoverFlags(StatesOf(cells), mouse, minDistance, length));
              var pushed := old(ConstraintPass(constraints, StatesOf(cells), FlagsOf(cells), length));
              forall i :: 0 <= i < |cells| ==> cells[i].State() == CellStep(pushed[i], q[i], center, CellNoise(noise, time, i))
    {
      ghost var s, q0 := StatesOf(cells), FlagsOf(cells);
      ghost var q := HoverFlags(s, mouse, minDistance, length);
      ghost var pushed := ConstraintPass(constraints, s, q0, length);
      ApplyConstraints(length);
      SamePositionsSameFlags(pushed, s, mouse, minDistance, length);
      UpdateCells(length, noise);
    }

    method Destroy()
      modifies this`isDestroyed
      ensures isDestroyed
    {
      isDestroyed := true;
    }
  }
}
