/**
 * The third particles sketch: a grid of instanced glyph quads whose long
 * side has 140 cells.  Each instance carries its normalised grid position
 * and the colour of the image pixel under it, and a per-instance value that
 * the moving pointer raises near itself and that decays every frame.
 */
module Particles3 {
  import opened Vectors
  import opened Optional

  const MaxCells: int := 140
  const TrailRadius: real := 10.0
  const TrailDecay: real := 0.98
  const TrailCap: real := 0.99
  const FocusedNoise: real := 0.18

  /** The number of rows and columns of the instance grid. */
  datatype Grid = Grid(rows: int, cols: int)

  /**
   * The grid for a container with aspect ratio `aspect`: the long side has
   * 140 cells and the short side the largest whole number of cells that
   * keeps the container's proportions.
   */
  function GridSize(aspect: real): (g: Grid)
    requires aspect > 0.0
    ensures g.rows >= 0 && g.cols >= 0
    ensures g.rows <= MaxCells && g.cols <= MaxCells && (g.rows == MaxCells || g.cols == MaxCells)
    ensures aspect > 1.0 ==> g.cols == MaxCells && g.rows as real <= 140.0 / aspect < g.rows as real + 1.0
    ensures aspect <= 1.0 ==> g.rows == MaxCells && g.cols as real <= 140.0 * aspect < g.cols as real + 1.0
  {
    if aspect > 1.0 then
      assert 140.0 / aspect < 140.0 by {
        var q := 140.0 / aspect;
        assert q * aspect == 140.0;
        if q >= 140.0 { MulMono(140.0, q, aspect); }
      }
      Grid((140.0 / aspect).Floor, MaxCells)
    else
      Grid(MaxCells, (140.0 * aspect).Floor)
  }

  /** `1 / Math.max(rows, cols)`: every grid has cells of size 1/140. */
  function CellSize(g: Grid): (size: real)
    requires g.rows <= MaxCells && g.cols <= MaxCells && (g.rows == MaxCells || g.cols == MaxCells)
    ensures size == 1.0 / 140.0
  {
    1.0 / (if g.rows >= g.cols then g.rows else g.cols) as real
  }

  // The instances are numbered column by column: slot x * rows + y holds the
  // cell in column x and row y.  `Column` and `Row` are the inverse that
  // `animatePointerTrail` computes, px = floor(i / rows), py = i - px * rows.

  function Column(c: int, rows: int): int { if rows > 0 then c / rows else 0 }
  function Row(c: int, rows: int): int { c - Column(c, rows) * rows }

  /** The slot of cell (x, y) splits back into x and y. */
  lemma SlotSplit(x: int, y: int, rows: int)
    requires 0 <= y < rows
    ensures Column(x * rows + y, rows) == x && Row(x * rows + y, rows) == y
  {
    var c := x * rows + y;
    var q := c / rows;
    assert q * rows <= c < q * rows + rows;
    assert (x + 1) * rows == x * rows + rows;
    assert (q + 1) * rows == q * rows + rows;
    if q > x {
      MulLe(x + 1, q, rows);
    } else if q < x {
      MulLe(q + 1, x, rows);
    }
  }

  /** Every slot of a rows x cols grid is the slot of exactly one cell of the grid. */
  lemma SlotCell(c: int, rows: int, cols: int)
    requires rows >= 0 && cols >= 0 && 0 <= c < rows * cols
    ensures rows > 0
    ensures 0 <= Column(c, rows) < cols && 0 <= Row(c, rows) < rows
    ensures c == Column(c, rows) * rows + Row(c, rows)
  {
    var q := c / rows;
    assert q * rows <= c;
    assert cols * rows == rows * cols;
    if q >= cols {
      MulLe(cols, q, rows);
    }
  }

  /** Every cell of the grid has a slot inside the grid. */
  lemma CellSlot(x: int, y: int, rows: int, cols: int)
    requires 0 <= x < cols && 0 <= y < rows
    ensures 0 <= x * rows + y < rows * cols
  {
    MulLe(0, x, rows);
    MulLe(x + 1, cols, rows);
    assert (x + 1) * rows == x * rows + rows;
    assert cols * rows == rows * cols;
  }

  lemma FractionBelowOne(a: int, b: int)
    requires 0 <= a < b
    ensures 0.0 <= a as real / b as real < 1.0
  {
    var q := a as real / b as real;
    assert q * b as real == a as real;
    if q >= 1.0 {
      MulMono(1.0, q, b as real);
      assert false;
    }
  }

  /**
   * The image pixel that instance slot c shows: the canvas is stored row by
   * row from the top while the grid's rows count from the bottom, so the
   * copy flips the image vertically.
   */
  function FlipSource(c: int, rows: int, cols: int): int
  {
    Column(c, rows) + (rows - Row(c, rows) - 1) * cols
  }

  /**
   * The copy reads every pixel of the image exactly once: slot c reads the
   * pixel in image column Column(c) and image row rows - 1 - Row(c), and
   * two slots never read the same pixel.
   */
  lemma FlipIsBijection(c: int, c2: int, rows: int, cols: int)
    requires rows >= 0 && cols >= 0
    requires 0 <= c < rows * cols && 0 <= c2 < rows * cols
    ensures 0 <= FlipSource(c, rows, cols) < rows * cols
    ensures cols > 0 && FlipSource(c, rows, cols) % cols == Column(c, rows)
    ensures FlipSource(c, rows, cols) / cols == rows - 1 - Row(c, rows)
    ensures FlipSource(c, rows, cols) == FlipSource(c2, rows, cols) ==> c == c2
  {
    SlotCell(c, rows, cols);
    SlotCell(c2, rows, cols);
    var x, y := Column(c, rows), Row(c, rows);
    var x2, y2 := Column(c2, rows), Row(c2, rows);
    CellSlot(rows - y - 1, x, cols, rows);
    assert FlipSource(c, rows, cols) == (rows - y - 1) * cols + x;
    SlotSplit(rows - y - 1, x, cols);
    assert FlipSource(c2, rows, cols) == (rows - y2 - 1) * cols + x2;
    SlotSplit(rows - y2 - 1, x2, cols);
    assert cols * rows == rows * cols;
  }

  /**
   * Slot c of the instance layout: the instance sits at its cell's column and
   * row times the cell size, and its `a_index` pair is the column over the
   * number of columns and the row over the number of rows, both in [0, 1).
   */
  ghost predicate SlotLaidOut(index: array<real>, positions: array<Vec3>, c: int, rows: int, cols: int, cellSize: real)
    reads index, positions
  {
    0 <= c < positions.Length && 2 * c + 1 < index.Length && rows > 0 && cols > 0 &&
    positions[c] == Vec3(Column(c, rows) as real * cellSize, Row(c, rows) as real * cellSize, 0.0) &&
    index[2 * c] == Column(c, rows) as real / cols as real && 0.0 <= index[2 * c] < 1.0 &&
    index[2 * c + 1] == Row(c, rows) as real / rows as real && 0.0 <= index[2 * c + 1] < 1.0
  }

  /**
   * Slot c of the colour attribute holds the four channels of image pixel
   * `FlipSource(c)`, each byte scaled to [0, 1].
   */
  ghost predicate PixelCopied(colors: array<real>, image: seq<int>, c: int, rows: int, cols: int)
    reads colors
  {
    var src := FlipSource(c, rows, cols);
    0 <= c && 4 * c + 3 < colors.Length && 0 <= src && 4 * src + 3 < |image| &&
    colors[4 * c] == image[4 * src] as real / 255.0 &&
    colors[4 * c + 1] == image[4 * src + 1] as real / 255.0 &&
    colors[4 * c + 2] == image[4 * src + 2] as real / 255.0 &&
    colors[4 * c + 3] == image[4 * src + 3] as real / 255.0 &&
    0.0 <= colors[4 * c] <= 1.0 && 0.0 <= colors[4 * c + 1] <= 1.0 &&
    0.0 <= colors[4 * c + 2] <= 1.0 && 0.0 <= colors[4 * c + 3] <= 1.0
  }

  /**
   * The part of one frame of the trail that every instance shares: the
   * pointer's movement clamped to [-1, 1] and the cell under the pointer.
   */
  datatype Trail = Trail(dmX: real, dmY: real, mX: int, mY: int)

  function MakeTrail(plane: Vec3, prev: Vec3, g: Grid): (t: Trail)
    ensures -1.0 <= t.dmX <= 1.0 && -1.0 <= t.dmY <= 1.0
    ensures t.mX as real <= plane.x * g.cols as real < t.mX as real + 1.0
    ensures t.mY as real <= plane.y * g.rows as real < t.mY as real + 1.0
  {
    Trail(Clamp(plane.x - prev.x, -1.0, 1.0), Clamp(plane.y - prev.y, -1.0, 1.0),
          (plane.x * g.cols as real).Floor, (plane.y * g.rows as real).Floor)
  }

  /** `distance(ox, oy)` is the Euclidean length of the cell offset (ox, oy). */
  ghost predicate IsCellDistance(distance: (int, int) -> real)
  {
    forall ox: int, oy: int :: IsLength(distance(ox, oy), ox as real, oy as real)
  }

  /** The instance is within ten cells of the pointer and the pointer moved along both axes. */
  predicate Raises(d: real, t: Trail)
  {
    d < TrailRadius && Abs(t.dmX) > 0.0 && Abs(t.dmY) > 0.0
  }

  /** The distance from instance slot i to the pointer's cell. */
  function TrailDistance(i: int, rows: int, t: Trail, distance: (int, int) -> real): real
  {
    distance(t.mX - Column(i, rows), t.mY - Row(i, rows))
  }

  /**
   * The new value of instance i: decayed by 0.98, raised by a tenth of the
   * linear falloff 1 - d / 10 when the pointer moves near it, and capped at 0.99.
   */
  function TrailValue(v: real, i: int, rows: int, t: Trail, distance: (int, int) -> real): real
  {
    var d := TrailDistance(i, rows, t, distance);
    var decayed := v * TrailDecay;
    Min(if Raises(d, t) then decayed + (1.0 - d / TrailRadius) * 0.1 else decayed, TrailCap)
  }

  /**
   * A frame keeps every value at most 0.99 and a non-negative value
   * non-negative; an instance gains over its decay exactly when the pointer
   * moved near it (and the cap leaves room).
   */
  lemma TrailValueBounds(v: real, i: int, rows: int, t: Trail, distance: (int, int) -> real)
    requires IsCellDistance(distance)
    ensures TrailValue(v, i, rows, t, distance) <= TrailCap
    ensures v >= 0.0 ==> TrailValue(v, i, rows, t, distance) >= 0.0
    ensures !Raises(TrailDistance(i, rows, t, distance), t) ==>
              TrailValue(v, i, rows, t, distance) == Min(v * TrailDecay, TrailCap)
    ensures Raises(TrailDistance(i, rows, t, distance), t) && v * TrailDecay < TrailCap ==>
              TrailValue(v, i, rows, t, distance) > v * TrailDecay
  {
    var d := TrailDistance(i, rows, t, distance);
    assert d >= 0.0;
  }

  /** noiseStrength moves an eighth of the way to its target each frame. */
  function NextNoiseStrength(noise: real, target: real): (r: real)
    ensures target - r == (target - noise) * 7.0 / 8.0
    ensures noise <= target ==> noise <= r <= target
    ensures target <= noise ==> target <= r <= noise
  {
    ApproachBetween(noise, target, 8.0);
    Approach(noise, target, 8.0)
  }

  /** The `focus` setter's target: 0.18 while focused, 1 otherwise. */
  function FocusTarget(focused: bool): (r: real)
    ensures FocusedNoise <= r <= 1.0
    ensures r == 1.0 <==> !focused
  {
    if focused then FocusedNoise else 1.0
  }

  class Particles3Sketch {
    const grid: Grid
    const cellSize: real
    var instanceValue: array<real>
    var instanceIndex: array<real>
    var instancePositions: array<Vec3>
    var imageColors: array<real>
    var planePosition: Vec3
    var prevPlanePosition: Option<Vec3>
    var noiseStrength: real
    var targetNoiseStrength: real
    var isDestroyed: bool
    var time: real

    /**
     * One value per instance, each in [0, 0.99]; the noise strength lies
     * between the focused target and 1, and so does its target.
     */
    ghost predicate Valid()
      reads this, instanceValue
    {
      grid.rows >= 0 && grid.cols >= 0 &&
      instanceValue.Length == grid.rows * grid.cols &&
      (forall k :: 0 <= k < instanceValue.Length ==> 0.0 <= instanceValue[k] <= TrailCap) &&
      (targetNoiseStrength == FocusedNoise || targetNoiseStrength == 1.0) &&
      FocusedNoise <= noiseStrength <= 1.0
    }

    /** The grid for the container's aspect ratio and a zeroed value per instance. */
    constructor (width: real, height: real)
      requires width > 0.0 && height > 0.0
      ensures Valid() && fresh(instanceValue)
      ensures grid == GridSize(width / height) && cellSize == 1.0 / 140.0
      ensures forall k :: 0 <= k < instanceValue.Length ==> instanceValue[k] == 0.0
      ensures planePosition == Zero3 && prevPlanePosition == None
      ensures noiseStrength == 1.0 && targetNoiseStrength == 1.0 && !isDestroyed && time == 1.0
    {
      var g := GridSize(width / height);
      grid := g;
      cellSize := CellSize(g);
      MulLe(0, g.rows, g.cols);
      instanceValue := new real[g.rows * g.cols](_ => 0.0);
      instanceIndex := new real[0];
      instancePositions := new Vec3[0];
      imageColors := new real[0];
      planePosition, prevPlanePosition := Zero3, None;
      noiseStrength, targetNoiseStrength := 1.0, 1.0;
      isDestroyed, time := false, 1.0;
    }

    /**
     * The instance layout of `initInstances`: slot c = x * rows + y sits at
     * (x, y) times the cell size and its `a_index` is (x / cols, y / rows),
     * both in [0, 1).
     */
    method InitInstances()
      requires Valid()
      modifies this`instanceIndex, this`instancePositions
      ensures Valid() && fresh(instanceIndex) && fresh(instancePositions)
      ensures instanceIndex.Length == 2 * (grid.rows * grid.cols) && instancePositions.Length == grid.rows * grid.cols
      ensures forall c :: 0 <= c < grid.rows * grid.cols ==>
                SlotLaidOut(instanceIndex, instancePositions, c, grid.rows, grid.cols, cellSize)
    {
      var rows, cols := grid.rows, grid.cols;
      MulLe(0, rows, cols);
      var index := new real[2 * (rows * cols)];
      var positions := new Vec3[rows * cols](_ => Zero3);
      var count := 0;
      var x := 0;
      while x < cols
        invariant 0 <= x <= cols && count == x * rows
        invariant forall c :: 0 <= c < count ==> SlotLaidOut(index, positions, c, rows, cols, cellSize)
      {
        var y := 0;
        while y < rows
          invariant 0 <= y <= rows && count == x * rows + y
          invariant forall c :: 0 <= c < count ==> SlotLaidOut(index, positions, c, rows, cols, cellSize)
        {
          LayOutSlot(index, positions, count, x, y, rows, cols, cellSize);
          count := count + 1;
          y := y + 1;
        }
        assert (x + 1) * rows == x * rows + rows;
        x := x + 1;
      }
      instanceIndex, instancePositions := index, positions;
    }

    /**
     * The body of the layout loop for cell (x, y) at slot `count`: the
     * instance matrix's position and the two `a_index` entries.
     */
    static method LayOutSlot(index: array<real>, positions: array<Vec3>, count: int, x: int, y: int,
                             rows: int, cols: int, cellSize: real)
      requires 0 <= x < cols && 0 <= y < rows && count == x * rows + y
      requires index.Length == 2 * (rows * cols) && positions.Length == rows * cols
      requires forall c :: 0 <= c < count ==> SlotLaidOut(index, positions, c, rows, cols, cellSize)
      modifies index, positions
      ensures forall c :: 0 <= c <= count ==> SlotLaidOut(index, positions, c, rows, cols, cellSize)
    {
      CellSlot(x, y, rows, cols);
      SlotSplit(x, y, rows);
      FractionBelowOne(x, cols);
      FractionBelowOne(y, rows);
      positions[count] := Vec3(x as real * cellSize, y as real * cellSize, 0.0);
      index[count * 2] := x as real / cols as real;
      index[count * 2 + 1] := y as real / rows as real;
      assert SlotLaidOut(index, positions, count, rows, cols, cellSize);
      forall c | 0 <= c < count ensures SlotLaidOut(index, positions, c, rows, cols, cellSize) {
        assert old(SlotLaidOut(index, positions, c, rows, cols, cellSize));
      }
    }

    /**
     * The image copy of `initInstances`: `image` is the canvas's RGBA bytes,
     * row by row from the top, and slot c receives the four channels of the
     * pixel `FlipSource(c)` scaled to [0, 1].
     */
    method InitImageColors(image: seq<int>)
      requires Valid() && |image| == grid.rows * grid.cols * 4
      requires forall k :: 0 <= k < |image| ==> 0 <= image[k] <= 255
      modifies this`imageColors
      ensures Valid() && fresh(imageColors) && imageColors.Length == 4 * (grid.rows * grid.cols)
      ensures forall c :: 0 <= c < grid.rows * grid.cols ==> PixelCopied(imageColors, image, c, grid.rows, grid.cols)
    {
      var rows, cols := grid.rows, grid.cols;
      MulLe(0, rows, cols);
      var colors := new real[4 * (rows * cols)];
      var index := 0;
      var j := 0;
      while j < cols
        invariant 0 <= j <= cols && index == j * rows
        invariant forall c :: 0 <= c < index ==> PixelCopied(colors, image, c, rows, cols)
      {
        var k := 0;
        while k < rows
          invariant 0 <= k <= rows && index == j * rows + k
          invariant forall c :: 0 <= c < index ==> PixelCopied(colors, image, c, rows, cols)
        {
          CopyPixel(colors, image, index, j, k, rows, cols);
          index := index + 1;
          k := k + 1;
        }
        assert (j + 1) * rows == j * rows + rows;
        j := j + 1;
      }
      imageColors := colors;
    }

    /** The body of the copy loop for cell (j, k) at slot `index`. */
    static method CopyPixel(colors: array<real>, image: seq<int>, index: int, j: int, k: int, rows: int, cols: int)
      requires 0 <= j < cols && 0 <= k < rows && index == j * rows + k
      requires colors.Length == 4 * (rows * cols) && |image| == rows * cols * 4
      requires forall m :: 0 <= m < |image| ==> 0 <= image[m] <= 255
      requires forall c :: 0 <= c < index ==> PixelCopied(colors, image, c, rows, cols)
      modifies colors
      ensures forall c :: 0 <= c <= index ==> PixelCopied(colors, image, c, rows, cols)
    {
      CellSlot(j, k, rows, cols);
      SlotSplit(j, k, rows);
      var srcIndex := j + (rows - k - 1) * cols;
      FlipIsBijection(index, index, rows, cols);
      colors[index * 4] := image[srcIndex * 4] as real / 255.0;
      colors[index * 4 + 1] := image[srcIndex * 4 + 1] as real / 255.0;
      colors[index * 4 + 2] := image[srcIndex * 4 + 2] as real / 255.0;
      colors[index * 4 + 3] := image[srcIndex * 4 + 3] as real / 255.0;
      assert PixelCopied(colors, image, index, rows, cols);
      forall c | 0 <= c < index ensures PixelCopied(colors, image, c, rows, cols) {
        assert old(PixelCopied(colors, image, c, rows, cols));
      }
    }

    /** The `focus` setter. */
    method SetFocus(value: bool)
      requires Valid()
      modifies this`targetNoiseStrength
      ensures Valid() && targetNoiseStrength == FocusTarget(value)
    {
      targetNoiseStrength := if value then 0.18 else 1.0;
    }

    /**
     * `updatePointer` with the raycast's first hit on the grid, if any: the
     * hit shifted by half the plane becomes the plane position, and the first
     * hit also becomes the previous one.
     */
    method UpdatePointer(hit: Option<Vec3>)
      modifies this`planePosition, this`prevPlanePosition
      ensures hit.None? ==> planePosition == old(planePosition) && prevPlanePosition == old(prevPlanePosition)
      ensures hit.Some? ==> planePosition == Vec3(hit.value.x + 0.5, hit.value.y + 0.5, hit.value.z)
      ensures hit.Some? ==> prevPlanePosition == if old(prevPlanePosition).None? then Some(planePosition) else old(prevPlanePosition)
    {
      if hit.Some? {
        planePosition := Vec3(hit.value.x + 0.5, hit.value.y + 0.5, hit.value.z);
        if prevPlanePosition.None? {
          prevPlanePosition := Some(planePosition);
        }
      }
    }

    /**
     * One frame: nothing once destroyed; otherwise the pointer update, the
     * noise easing, the trail (once a previous plane position exists) and
     * the time step.
     */
    method Animate(hit: Option<Vec3>, distance: (int, int) -> real)
      requires Valid() && IsCellDistance(distance)
      modifies this`planePosition, this`prevPlanePosition, this`noiseStrength, this`time, instanceValue
      ensures Valid()
      ensures old(isDestroyed) ==> unchanged(this) && unchanged(instanceValue)
      ensures !isDestroyed ==>
        && noiseStrength == NextNoiseStrength(old(noiseStrength), targetNoiseStrength)
        && time == old(time) + 0.05
        && (hit.Some? ==> planePosition == Vec3(hit.value.x + 0.5, hit.value.y + 0.5, hit.value.z))
        && (hit.None? ==> planePosition == old(planePosition))
        && (prevPlanePosition.Some? <==> old(prevPlanePosition).Some? || hit.Some?)
        && (prevPlanePosition.Some? ==> prevPlanePosition == Some(planePosition))
      ensures !isDestroyed && old(prevPlanePosition).None? && hit.None? ==> instanceValue[..] == old(instanceValue[..])
      ensures !isDestroyed && (old(prevPlanePosition).Some? || hit.Some?) ==>
        var from := if old(prevPlanePosition).Some? then old(prevPlanePosition).value else planePosition;
        var t := MakeTrail(planePosition, from, grid);
        forall k :: 0 <= k < instanceValue.Length ==> instanceValue[k] == TrailValue(old(instanceValue[k]), k, grid.rows, t, distance)
    {
      if isDestroyed { return; }
      UpdatePointer(hit);
      noiseStrength := noiseStrength + (targetNoiseStrength - noiseStrength) / 8.0;
      AnimatePointerTrail(distance);
      time := time + 0.05;
    }

    /**
     * `animatePointerTrail`: once a previous plane position exists every
     * instance takes its `TrailValue` for this frame and the previous
     * position catches up with the current one; before that nothing changes.
     */
    method AnimatePointerTrail(distance: (int, int) -> real)
      requires Valid() && IsCellDistance(distance)
      modifies instanceValue, this`prevPlanePosition
      ensures Valid()
      ensures old(prevPlanePosition).None? ==> prevPlanePosition == None && instanceValue[..] == old(instanceValue[..])
      ensures old(prevPlanePosition).Some? ==> prevPlanePosition == Some(planePosition)
      ensures old(prevPlanePosition).Some? ==>
        var t := MakeTrail(planePosition, old(prevPlanePosition).value, grid);
        forall k :: 0 <= k < instanceValue.Length ==> instanceValue[k] == TrailValue(old(instanceValue[k]), k, grid.rows, t, distance)
    {
      if prevPlanePosition.Some? {
        var t := MakeTrail(planePosition, prevPlanePosition.value, grid);
        var i := 0;
        while i < instanceValue.Length
          invariant 0 <= i <= instanceValue.Length
          invariant forall k :: 0 <= k < i ==> instanceValue[k] == TrailValue(old(instanceValue[k]), k, grid.rows, t, distance)
          invariant forall k :: i <= k < instanceValue.Length ==> instanceValue[k] == old(instanceValue[k])
        {
          instanceValue[i] := TrailStep(instanceValue[i], i, grid.rows, t, distance);
          i := i + 1;
        }
        forall k | 0 <= k < instanceValue.Length ensures 0.0 <= instanceValue[k] <= TrailCap {
          TrailValueBounds(old(instanceValue[k]), k, grid.rows, t, distance);
        }
        prevPlanePosition := Some(planePosition);
      }
    }

    /** The body of the trail loop for instance i. */
    static method TrailStep(v0: real, i: int, rows: int, t: Trail, distance: (int, int) -> real) returns (v: real)
      ensures v == TrailValue(v0, i, rows, t, distance)
    {
      v := v0 * 0.98;
      var px := Column(i, rows);
      var py := i - px * rows;
      var dx := t.mX - px;
      var dy := t.mY - py;
      var d := distance(dx, dy);
      var f := 1.0 - d / TrailRadius;
      if d < TrailRadius && Abs(t.dmX) > 0.0 && Abs(t.dmY) > 0.0 {
        v := v + f * 0.1;
      }
      v := Min(v, 0.99);
    }

    method Destroy()
      modifies this`isDestroyed
      ensures isDestroyed
    {
      isDestroyed := true;
    }
  }
}
