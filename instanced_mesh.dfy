/**
 * The instanced-mesh sketch: a 30 x 30 grid of instanced squares, one point
 * near the corner of each square, the grid lines between them, a plane
 * scaled to the viewport, and a scene that tilts after a pointer follower.
 */
module InstancedMesh {
  import opened Vectors
  import opened Optional

  const GridSize: int := 30
  const Half: int := GridSize / 2
  /** The side of one square: 2.5 / GRID_SIZE. */
  const SquareSize: real := 2.5 / 30.0
  const Cells: int := GridSize * GridSize

  /** The running counter of the init loops at grid position (x, y). */
  function Slot(x: int, y: int): int
  {
    (x + Half) * GridSize + (y + Half)
  }

  predicate OnGrid(x: int, y: int) { -Half <= x < Half && -Half <= y < Half }

  /** The counter visits every slot of 0..899 once: grid position and slot determine each other. */
  lemma SlotCoords(x: int, y: int)
    requires OnGrid(x, y)
    ensures 0 <= Slot(x, y) < Cells && GridX(Slot(x, y)) == x && GridY(Slot(x, y)) == y
  {
  }

  lemma SlotOfCoords(c: int)
    requires 0 <= c < Cells
    ensures OnGrid(GridX(c), GridY(c)) && Slot(GridX(c), GridY(c)) == c
  {
  }

  /** The grid coordinates of slot c. */
  function GridX(c: int): int { c / GridSize - Half }
  function GridY(c: int): int { c % GridSize - Half }

  /** Square (x, y) sits at (x, y) * SQUARE_SIZE on the z = 0 plane. */
  function SquarePosition(c: int): Vec3
  {
    Vec3(GridX(c) as real * SquareSize, GridY(c) as real * SquareSize, 0.0)
  }

  /** Point (x, y) sits half a square down-left of the square, nudged by 0.0015. */
  function PointPosition(c: int): Vec3
  {
    Vec3(GridX(c) as real * SquareSize - SquareSize / 2.0 + 0.0015,
         GridY(c) as real * SquareSize - SquareSize / 2.0 - 0.0015, 0.0)
  }

  /** The grid lines at offset i: a horizontal segment from x = -5 to 5, a vertical one from y = -5 to 5. */
  function LinePoints(i: int): seq<Vec3>
  {
    var at := i as real * SquareSize - SquareSize / 2.0;
    [Vec3(-5.0, at, 0.0), Vec3(5.0, at, 0.0), Vec3(at, -5.0, 0.0), Vec3(at, 5.0, 0.0)]
  }

  /**
   * `initLines`: four points per grid offset i in [-15, 15), 120 in all;
   * points 4k..4k+3 are the two segments at offset k - 15.
   */
  method InitLines() returns (points: seq<Vec3>)
    ensures |points| == 4 * GridSize
    ensures forall k :: 0 <= k < GridSize ==> points[4 * k .. 4 * k + 4] == LinePoints(k - Half)
    ensures forall k :: 0 <= k < |points| ==> points[k].z == 0.0
    ensures forall k :: 0 <= k < |points| ==> (k % 4 < 2 ==> points[k].x == if k % 4 == 0 then -5.0 else 5.0)
  {
    points := [];
    var i := -Half;
    while i < Half
      invariant -Half <= i <= Half
      invariant |points| == 4 * (i + Half)
      invariant forall k :: 0 <= k < i + Half ==> points[4 * k .. 4 * k + 4] == LinePoints(k - Half)
    {
      var at := i as real * SquareSize - SquareSize / 2.0;
      ghost var before := points;
      points := points + [Vec3(-5.0, at, 0.0)];
      points := points + [Vec3(5.0, at, 0.0)];
      points := points + [Vec3(at, -5.0, 0.0)];
      points := points + [Vec3(at, 5.0, 0.0)];
      assert points == before + LinePoints(i);
      forall k | 0 <= k < i + 1 + Half ensures points[4 * k .. 4 * k + 4] == LinePoints(k - Half) {
        if k < i + Half {
          assert points[4 * k .. 4 * k + 4] == before[4 * k .. 4 * k + 4];
        }
      }
      i := i + 1;
    }
    forall k | 0 <= k < |points| ensures points[k].z == 0.0 && (k % 4 < 2 ==> points[k].x == if k % 4 == 0 then -5.0 else 5.0) {
      var g := k / 4;
      assert points[k] == points[4 * g .. 4 * g + 4][k % 4];
    }
  }

  /** In landscape `focusObject` stretches x; the test `w / h > 1` is `w > h` for canvas sizes. */
  function IsLandscape(width: real, height: real): (r: bool)
    requires width >= 0.0 && height >= 0.0
    ensures r <==> width > height
  {
    if height == 0.0 then width > 0.0 else (RatioAboveOne(width, height); width / height > 1.0)
  }

  lemma RatioAboveOne(width: real, height: real)
    requires height > 0.0
    ensures width / height > 1.0 <==> width > height
  {
    var q := width / height;
    assert q * height == width;
    if q > 1.0 {
      MulPositive(q - 1.0, height);
    } else {
      MulNonNeg(1.0 - q, height);
    }
  }

  /** A coordinate inside a positive extent is a fraction of it in [0, 1]. */
  lemma UnitFraction(v: real, extent: real)
    requires extent > 0.0 && 0.0 <= v <= extent
    ensures 0.0 <= v / extent <= 1.0
  {
    var q := v / extent;
    assert q * extent == v;
    if q > 1.0 {
      MulPositive(q - 1.0, extent);
    }
    if q < 0.0 {
      MulPositive(-q, extent);
    }
  }

  /** The follower closes a fifteenth of the gap to the pointer. */
  function NextFollower(follower: Vec2, mouse: Vec2): (r: Vec2)
    ensures Sub2(mouse, r) == Scale2(Sub2(mouse, follower), 14.0 / 15.0)
  {
    Approach2(follower, mouse, 15.0)
  }

  /** Points 0 .. n - 1 of the vertex buffer hold their x, y and z = 0. */
  ghost predicate PointsUpTo(vertices: array<real>, n: int)
    reads vertices
  {
    vertices.Length == 3 * Cells && 0 <= n <= Cells &&
    forall c :: 0 <= c < n ==>
      vertices[3 * c] == PointPosition(c).x && vertices[3 * c + 1] == PointPosition(c).y && vertices[3 * c + 2] == 0.0
  }

  class InstancedMesh1Sketch {
    /** The translation of each square's instance matrix. */
    const squareMatrices: array<Vec3>
    /** The points' position attribute, three numbers per point. */
    const pointVertices: array<real>
    var linePoints: seq<Vec3>
    var mouse: Vec2
    var mouseFollower: Vec2
    var mousePoint: Vec3
    var rotation: Vec2
    var planeTime: real
    var squaresTime: real
    var pointsTime: real
    /** The camera aspect, set once from the container in `init`. */
    const cameraAspect: real
    var planeScale: Vec3

    ghost predicate Valid()
      reads this
    {
      squareMatrices.Length == Cells && pointVertices.Length == 3 * Cells && cameraAspect > 0.0
    }

    constructor (containerWidth: real, containerHeight: real)
      requires containerWidth > 0.0 && containerHeight > 0.0
      ensures Valid() && fresh(squareMatrices) && fresh(pointVertices)
      ensures cameraAspect == containerWidth / containerHeight
      ensures mouse == Zero2 && mouseFollower == Zero2 && planeScale == Vec3(1.0, 1.0, 1.0)
    {
      squareMatrices := new Vec3[Cells](_ => Zero3);
      pointVertices := new real[3 * Cells];
      linePoints := [];
      cameraAspect := containerWidth / containerHeight;
      mouse, mouseFollower, mousePoint, rotation := Zero2, Zero2, Zero3, Zero2;
      planeTime, squaresTime, pointsTime := 1.0, 1.0, 1.0;
      planeScale := Vec3(1.0, 1.0, 1.0);
    }

    /** `initSquares`: instance c of the 900 is the square at grid position c. */
    method InitSquares()
      requires Valid()
      modifies squareMatrices
      ensures forall c :: 0 <= c < Cells ==> squareMatrices[c] == SquarePosition(c)
      ensures forall x, y :: OnGrid(x, y) ==> squareMatrices[Slot(x, y)] == Vec3(x as real * SquareSize, y as real * SquareSize, 0.0)
    {
      var count := 0;
      var x := -Half;
      while x < Half
        invariant -Half <= x <= Half && count == (x + Half) * GridSize
        invariant forall c :: 0 <= c < count ==> squareMatrices[c] == SquarePosition(c)
      {
        var y := -Half;
        while y < Half
          invariant -Half <= y <= Half && count == Slot(x, y)
          invariant forall c :: 0 <= c < count ==> squareMatrices[c] == SquarePosition(c)
        {
          SlotCoords(x, y);
          squareMatrices[count] := Vec3(x as real * SquareSize, y as real * SquareSize, 0.0);
          count := count + 1;
          y := y + 1;
        }
        x := x + 1;
      }
      forall x, y | OnGrid(x, y) ensures squareMatrices[Slot(x, y)] == Vec3(x as real * SquareSize, y as real * SquareSize, 0.0) {
        SlotCoords(x, y);
      }
    }

    /** `initPoints`: numbers 3c, 3c + 1 and 3c + 2 are the x, y and z = 0 of point c. */
    method InitPoints()
      requires Valid()
      modifies pointVertices
      ensures forall c :: 0 <= c < Cells ==>
        pointVertices[3 * c] == PointPosition(c).x && pointVertices[3 * c + 1] == PointPosition(c).y && pointVertices[3 * c + 2] == 0.0
    {
      var count := 0;
      var x := -Half;
      while x < Half
        invariant -Half <= x <= Half && count == 3 * ((x + Half) * GridSize)
        invariant PointsUpTo(pointVertices, (x + Half) * GridSize)
      {
        var y := -Half;
        while y < Half
          modifies pointVertices
          invariant -Half <= y <= Half && count == 3 * Slot(x, y)
          invariant PointsUpTo(pointVertices, Slot(x, y))
        {
          WritePoint(pointVertices, x, y, count);
          count := count + 3;
          y := y + 1;
        }
        x := x + 1;
      }
    }

    /** The body of the point loop: point (x, y) written to numbers count .. count + 2. */
    static method WritePoint(vertices: array<real>, x: int, y: int, count: int)
      requires -Half <= x < Half && -Half <= y < Half && count == 3 * Slot(x, y)
      requires PointsUpTo(vertices, Slot(x, y))
      modifies vertices
      ensures PointsUpTo(vertices, Slot(x, y) + 1)
    {
      SlotCoords(x, y);
      vertices[count] := x as real * SquareSize - SquareSize / 2.0 + 0.0015;
      vertices[count + 1] := y as real * SquareSize - SquareSize / 2.0 - 0.0015;
      vertices[count + 2] := 0.0;
    }

    method InitLinesField()
      modifies this`linePoints
      ensures |linePoints| == 4 * GridSize
      ensures forall k :: 0 <= k < GridSize ==> linePoints[4 * k .. 4 * k + 4] == LinePoints(k - Half)
    {
      linePoints := InitLines();
    }

    /**
     * `focusObject`: in landscape the plane's x scale becomes the camera
     * aspect, otherwise its y scale becomes the inverse; the other component
     * keeps whatever an earlier call left there.
     */
    method FocusObject(width: real, height: real)
      requires Valid() && width >= 0.0 && height >= 0.0
      modifies this`planeScale
      ensures width > height ==> planeScale == old(planeScale).(x := cameraAspect)
      ensures width <= height ==> planeScale == old(planeScale).(y := 1.0 / cameraAspect)
    {
      if IsLandscape(width, height) {
        planeScale := planeScale.(x := cameraAspect);
      } else {
        planeScale := planeScale.(y := 1.0 / cameraAspect);
      }
    }

    /**
     * The `pointermove` listener: the pointer in normalised device
     * coordinates, y pointing up; a pointer inside the window lands in
     * [-1, 1] on both axes.
     */
    method PointerMove(clientX: real, clientY: real, innerWidth: real, innerHeight: real)
      requires innerWidth > 0.0 && innerHeight > 0.0
      modifies this`mouse
      ensures mouse == Vec2(clientX / innerWidth * 2.0 - 1.0, -(clientY / innerHeight) * 2.0 + 1.0)
      ensures 0.0 <= clientX <= innerWidth && 0.0 <= clientY <= innerHeight ==>
                -1.0 <= mouse.x <= 1.0 && -1.0 <= mouse.y <= 1.0
    {
      mouse := Vec2(clientX / innerWidth * 2.0 - 1.0, -(clientY / innerHeight) * 2.0 + 1.0);
      if 0.0 <= clientX <= innerWidth && 0.0 <= clientY <= innerHeight {
        UnitFraction(clientX, innerWidth);
        UnitFraction(clientY, innerHeight);
      }
    }

    /**
     * One frame: the follower closes a fifteenth of the gap, the squares
     * receive the ray hit if there is one, the scene tilts by a tenth of the
     * follower (y negated), and all three materials advance their time.
     */
    method Animate(intersection: Option<Vec3>)
      modifies this`mouseFollower, this`mousePoint, this`rotation, this`planeTime, this`squaresTime, this`pointsTime
      ensures mouseFollower == NextFollower(old(mouseFollower), mouse)
      ensures mousePoint == if intersection.Some? then intersection.value else old(mousePoint)
      ensures rotation == Vec2(-mouseFollower.y / 10.0, mouseFollower.x / 10.0)
      ensures planeTime == old(planeTime) + 0.05 && squaresTime == old(squaresTime) + 0.05 && pointsTime == old(pointsTime) + 0.05
    {
      mouseFollower := Vec2(mouseFollower.x + (mouse.x - mouseFollower.x) / 15.0,
                            mouseFollower.y + (mouse.y - mouseFollower.y) / 15.0);
      if intersection.Some? {
        mousePoint := intersection.value;
      }
      rotation := Vec2(-mouseFollower.y / 10.0, mouseFollower.x / 10.0);
      planeTime, squaresTime, pointsTime := planeTime + 0.05, squaresTime + 0.05, pointsTime + 0.05;
    }
  }
}
