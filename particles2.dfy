/**
 * The second particles sketch: each path of an SVG logo becomes a line of
 * jittered points, and every frame 300 particles per line are placed on a
 * window of consecutive points that slides along the line, fading in from
 * the back of the window to the front.
 */
module Particles2 {
  import opened Vectors

  const ParticlesPerLine: int := 300
  const PointDensity: real := 0.4
  const PointOffset: real := 0.005

  /**
   * One line of particles: its points, the cursor where this frame's window
   * starts, how far the cursor moves per frame, and one opacity per point.
   */
  datatype ParticleLine = ParticleLine(points: seq<Vec3>, currentPosition: int, speed: int, opacities: seq<real>)

  /** The first two paths move 3 points per frame, the others 8. */
  function Speed(index: int): (speed: int)
    ensures speed == 3 || speed == 8
    ensures speed == 3 <==> index <= 1
  {
    if index > 1 then 8 else 3
  }

  /** A path of length `len` gets one point per 0.4 units, rounded down. */
  function PointCount(len: real): (n: nat)
    requires len >= 0.0
    ensures n as real * PointDensity <= len < (n + 1) as real * PointDensity
  {
    (len / PointDensity).Floor
  }

  /**
   * A point of a path in the scene: the SVG point (x, y) mapped to [-1, 1]
   * with x mirrored, plus a jitter of at most 0.0025 per axis from the two
   * random numbers.
   */
  function PathPoint(p: Vec2, svgWidth: real, svgHeight: real, jitterX: real, jitterY: real): Vec3
    requires svgWidth > 0.0 && svgHeight > 0.0
  {
    Vec3((1.0 - p.x / svgWidth) * 2.0 - 1.0 + (jitterX * PointOffset - PointOffset / 2.0),
         (p.y / svgHeight) * 2.0 - 1.0 + (jitterY * PointOffset - PointOffset / 2.0),
         0.0)
  }

  lemma FractionInUnit(a: real, b: real)
    requires b > 0.0 && 0.0 <= a <= b
    ensures 0.0 <= a / b <= 1.0
  {
    var q := a / b;
    assert q * b == a;
    if q > 1.0 {
      MulMono(1.0, q, b);
    }
  }

  /**
   * A point of the SVG canvas lands within 0.0025 of the square [-1, 1]^2
   * in the plane z = 0; the left edge of the logo goes to the right.
   */
  lemma PathPointRange(p: Vec2, svgWidth: real, svgHeight: real, jitterX: real, jitterY: real)
    requires svgWidth > 0.0 && svgHeight > 0.0
    requires 0.0 <= p.x <= svgWidth && 0.0 <= p.y <= svgHeight
    requires 0.0 <= jitterX < 1.0 && 0.0 <= jitterY < 1.0
    ensures var q := PathPoint(p, svgWidth, svgHeight, jitterX, jitterY);
            -1.0025 <= q.x < 1.0025 && -1.0025 <= q.y < 1.0025 && q.z == 0.0
    ensures p.x == 0.0 ==> PathPoint(p, svgWidth, svgHeight, jitterX, jitterY).x >= 0.9975
  {
    FractionInUnit(p.x, svgWidth);
    FractionInUnit(p.y, svgHeight);
  }

  /** Every line has points, so its cursor arithmetic is defined. */
  predicate NonEmpty(lines: seq<ParticleLine>)
  {
    forall k :: 0 <= k < |lines| ==> |lines[k].points| > 0
  }

  /** A well-formed line: one opacity per point, a positive speed and a cursor on the line. */
  predicate LineValid(line: ParticleLine)
  {
    |line.opacities| == |line.points| && line.speed > 0 &&
    0 <= line.currentPosition && (line.currentPosition < |line.points| || |line.points| == 0)
  }

  /** A line's cursor advanced by one frame. */
  function AdvanceLine(line: ParticleLine): (r: ParticleLine)
    requires |line.points| > 0
    ensures r.points == line.points && r.speed == line.speed && r.opacities == line.opacities
    ensures 0 <= r.currentPosition < |line.points|
  {
    line.(currentPosition := (line.currentPosition + line.speed) % |line.points|)
  }

  /**
   * With the cursor on the line and a speed below the line's length the
   * cursor moves forward by the speed, wrapping round the end of the line
   * at most once.
   */
  lemma AdvanceWraps(line: ParticleLine)
    requires 0 <= line.currentPosition < |line.points| && 0 <= line.speed <= |line.points|
    ensures var next := line.currentPosition + line.speed;
            AdvanceLine(line).currentPosition == if next < |line.points| then next else next - |line.points|
  {
    ModOnce(line.currentPosition + line.speed, |line.points|);
  }

  /** A valid line stays valid, and its cursor stays on the line. */
  lemma AdvanceLineValid(line: ParticleLine)
    requires |line.points| > 0 && LineValid(line)
    ensures LineValid(AdvanceLine(line))
  {
  }

  function AdvanceLines(lines: seq<ParticleLine>): (r: seq<ParticleLine>)
    requires NonEmpty(lines)
    ensures |r| == |lines| && NonEmpty(r)
    ensures forall k :: 0 <= k < |lines| ==> r[k] == AdvanceLine(lines[k])
  {
    seq(|lines|, k requires 0 <= k < |lines| => AdvanceLine(lines[k]))
  }

  /** Particle i of a line shows the point i places after the cursor, wrapping round. */
  function SampleIndex(line: ParticleLine, i: int): (index: int)
    requires |line.points| > 0 && 0 <= i
    ensures 0 <= index < |line.points|
  {
    (line.currentPosition + i) % |line.points|
  }

  /** The line and the particle that buffer slot s belongs to: line s / 300, particle s % 300. */
  function SlotPoint(lines: seq<ParticleLine>, s: int): Vec3
    requires NonEmpty(lines) && 0 <= s < |lines| * ParticlesPerLine
  {
    var line := lines[s / ParticlesPerLine];
    line.points[SampleIndex(line, s % ParticlesPerLine)]
  }

  /** A particle's opacity: its point's opacity faded by its place i / 300 in the window. */
  function ParticleOpacity(pointOpacity: real, i: int): real
  {
    pointOpacity * (i as real / ParticlesPerLine as real)
  }

  /** The first particle of a window is invisible and no particle is brighter than its point. */
  lemma ParticleOpacityRange(pointOpacity: real, i: int)
    requires 0.0 <= pointOpacity && 0 <= i < ParticlesPerLine
    ensures i == 0 ==> ParticleOpacity(pointOpacity, i) == 0.0
    ensures 0.0 <= ParticleOpacity(pointOpacity, i) <= pointOpacity
  {
    var fade := i as real / ParticlesPerLine as real;
    assert 0.0 <= fade <= 1.0;
    MulAtMost(pointOpacity, fade);
    assert ParticleOpacity(pointOpacity, i) == pointOpacity * fade;
  }

  function SlotOpacity(lines: seq<ParticleLine>, s: int): real
    requires NonEmpty(lines) && 0 <= s < |lines| * ParticlesPerLine
    requires forall k :: 0 <= k < |lines| ==> |lines[k].opacities| == |lines[k].points|
  {
    var line := lines[s / ParticlesPerLine];
    ParticleOpacity(line.opacities[SampleIndex(line, s % ParticlesPerLine)], s % ParticlesPerLine)
  }

  /** The length along a path of its i-th of n points. */
  function SampleLength(i: int, n: int, len: real): real
    requires 0 <= i < n
  {
    i as real / n as real * len
  }

  /** The n points are spread evenly from the start of the path and never reach its end. */
  lemma SampleLengthRange(i: int, n: int, len: real)
    requires 0 <= i < n && len > 0.0
    ensures 0.0 <= SampleLength(i, n, len) < len
    ensures i + 1 < n ==> SampleLength(i + 1, n, len) - SampleLength(i, n, len) == len / n as real
  {
    var f := i as real / n as real;
    assert f * n as real == i as real;
    if f >= 1.0 {
      MulMono(1.0, f, n as real);
    }
    assert 0.0 <= f < 1.0;
    MulAtMost(len, f);
    MulPositive(1.0 - f, len);
    assert (1.0 - f) * len == len - f * len;
    assert (i + 1) as real / n as real * len - f * len == (1.0 / n as real) * len;
  }

  /** Coordinate c (0 = x, 1 = y, otherwise z) of a point. */
  function Coord(p: Vec3, c: int): real
  {
    if c == 0 then p.x else if c == 1 then p.y else p.z
  }

  /** `Math.random()`: every value lies in [0, 1). */
  ghost predicate IsUnitRandom(random: (int, int, int) -> real)
  {
    forall a: int, b: int, c: int :: 0.0 <= random(a, b, c) < 1.0
  }

  /** Slots 0 .. n - 1 of the position buffer hold the coordinates of their points. */
  ghost predicate PositionsUpTo(positions: array<real>, lines: seq<ParticleLine>, n: int)
    reads positions
  {
    NonEmpty(lines) && 0 <= n <= |lines| * ParticlesPerLine && positions.Length == 3 * (|lines| * ParticlesPerLine) &&
    forall s, c :: 0 <= s < n && 0 <= c < 3 ==> positions[3 * s + c] == Coord(SlotPoint(lines, s), c)
  }

  /** Slots 0 .. n - 1 of the opacity buffer hold their particles' opacities. */
  ghost predicate OpacityUpTo(opacity: array<real>, lines: seq<ParticleLine>, n: int)
    reads opacity
  {
    NonEmpty(lines) && (forall k :: 0 <= k < |lines| ==> |lines[k].opacities| == |lines[k].points|) &&
    0 <= n <= |lines| * ParticlesPerLine && opacity.Length == |lines| * ParticlesPerLine &&
    forall s :: 0 <= s < n ==> opacity[s] == SlotOpacity(lines, s)
  }

  /** Slot k * 300 + i belongs to particle i of line k. */
  lemma SlotOf(k: int, i: int)
    requires 0 <= i < ParticlesPerLine
    ensures (k * ParticlesPerLine + i) / ParticlesPerLine == k && (k * ParticlesPerLine + i) % ParticlesPerLine == i
  {
  }

  /** A full position buffer, read coordinate by coordinate. */
  lemma PositionsComplete(positions: array<real>, lines: seq<ParticleLine>)
    requires PositionsUpTo(positions, lines, |lines| * ParticlesPerLine)
    ensures forall m :: 0 <= m < positions.Length ==> positions[m] == Coord(SlotPoint(lines, m / 3), m % 3)
  {
    forall m | 0 <= m < positions.Length
      ensures positions[m] == Coord(SlotPoint(lines, m / 3), m % 3)
    {
      var s, c := m / 3, m % 3;
      assert 3 * s + c == m && 0 <= s < |lines| * ParticlesPerLine;
      assert positions[3 * s + c] == Coord(SlotPoint(lines, s), c);
    }
  }

  /** A full opacity buffer. */
  lemma OpacityComplete(opacity: array<real>, lines: seq<ParticleLine>)
    requires OpacityUpTo(opacity, lines, |lines| * ParticlesPerLine)
    ensures forall s :: 0 <= s < opacity.Length ==> opacity[s] == SlotOpacity(lines, s)
  {
  }

  class Particles2Sketch {
    var particleLines: seq<ParticleLine>
    var particlePositions: array<real>
    var particleOpacity: array<real>
    var time: real
    var isDestroyed: bool

    /**
     * Every line is well formed, and the buffers hold three coordinates and
     * one opacity for each of 300 particles per line.
     */
    ghost predicate Valid()
      reads this
    {
      (forall k :: 0 <= k < |particleLines| ==> LineValid(particleLines[k])) &&
      particlePositions.Length == 3 * (|particleLines| * ParticlesPerLine) &&
      particleOpacity.Length == |particleLines| * ParticlesPerLine &&
      particlePositions != particleOpacity
    }

    constructor ()
      ensures Valid() && particleLines == [] && time == 1.0 && !isDestroyed
    {
      particleLines := [];
      particlePositions := new real[0];
      particleOpacity := new real[0];
      time, isDestroyed := 1.0, false;
    }

    /**
     * `initPoints`.  Path k has length `pathLengths[k]` and `pointAt(k, l)`
     * is its SVG point at length l; `random(k, i, j)` is the j-th random
     * number drawn for point i of path k, and `random(-1, s, 0)` the one
     * drawn for particle s.  Each path becomes a line with `PointCount`
     * points spread evenly along it, and the buffers are sized for 300
     * particles per line.
     */
    method InitPoints(pathLengths: seq<real>, pointAt: (int, real) -> Vec2, svgWidth: real, svgHeight: real,
                      random: (int, int, int) -> real)
      requires svgWidth > 0.0 && svgHeight > 0.0 && IsUnitRandom(random)
      requires forall k :: 0 <= k < |pathLengths| ==> pathLengths[k] >= 0.0
      modifies this`particleLines, this`particlePositions, this`particleOpacity
      ensures Valid() && fresh(particlePositions) && fresh(particleOpacity)
      ensures |particleLines| == |pathLengths|
      ensures forall k :: 0 <= k < |particleLines| ==>
                var line, n := particleLines[k], PointCount(pathLengths[k]);
                && line.speed == Speed(k) && line.currentPosition == 0
                && |line.points| == n && |line.opacities| == n
                && (forall i :: 0 <= i < n ==>
                      line.points[i] == PathPoint(pointAt(k, SampleLength(i, n, pathLengths[k])),
                                                  svgWidth, svgHeight, random(k, i, 0), random(k, i, 1)) &&
                      line.opacities[i] == random(k, i, 2))
      ensures forall m :: 0 <= m < particlePositions.Length ==> particlePositions[m] == 0.0
      ensures forall s :: 0 <= s < particleOpacity.Length ==> particleOpacity[s] == random(-1, s, 0)
    {
      var lines: seq<ParticleLine> := [];
      var k := 0;
      while k < |pathLengths|
        invariant 0 <= k <= |pathLengths| && |lines| == k
        invariant forall j :: 0 <= j < k ==>
                    var line, n := lines[j], PointCount(pathLengths[j]);
                    && line.speed == Speed(j) && line.currentPosition == 0
                    && |line.points| == n && |line.opacities| == n
                    && (forall i :: 0 <= i < n ==>
                          line.points[i] == PathPoint(pointAt(j, SampleLength(i, n, pathLengths[j])),
                                                      svgWidth, svgHeight, random(j, i, 0), random(j, i, 1)) &&
                          line.opacities[i] == random(j, i, 2))
      {
        var line := InitLine(k, pathLengths[k], pointAt, svgWidth, svgHeight, random);
        lines := lines + [line];
        k := k + 1;
      }
      var total := |lines| * ParticlesPerLine;
      var vertices := new real[total * 3](_ => 0.0);
      var opacity := new real[total];
      var count := 0;
      while count < total
        invariant 0 <= count <= total
        invariant forall s :: 0 <= s < count ==> opacity[s] == random(-1, s, 0)
        invariant forall m :: 0 <= m < vertices.Length ==> vertices[m] == 0.0
      {
        opacity[count] := random(-1, count, 0);
        count := count + 1;
      }
      particleLines, particlePositions, particleOpacity := lines, vertices, opacity;
    }

    /** One path of `initPoints`: its line of jittered points and their opacities. */
    static method InitLine(index: int, len: real, pointAt: (int, real) -> Vec2, svgWidth: real, svgHeight: real,
                           random: (int, int, int) -> real) returns (line: ParticleLine)
      requires len >= 0.0 && svgWidth > 0.0 && svgHeight > 0.0
      ensures var n := PointCount(len);
              && line.speed == Speed(index) && line.currentPosition == 0
              && |line.points| == n && |line.opacities| == n
              && (forall i :: 0 <= i < n ==>
                    line.points[i] == PathPoint(pointAt(index, SampleLength(i, n, len)),
                                                svgWidth, svgHeight, random(index, i, 0), random(index, i, 1)) &&
                    line.opacities[i] == random(index, i, 2))
    {
      line := ParticleLine([], 0, if index > 1 then 8 else 3, []);
      var numberOfPoints := PointCount(len);
      var i := 0;
      while i < numberOfPoints
        invariant 0 <= i <= numberOfPoints && |line.points| == i && |line.opacities| == i
        invariant line.speed == Speed(index) && line.currentPosition == 0
        invariant forall j :: 0 <= j < i ==>
                    line.points[j] == PathPoint(pointAt(index, SampleLength(j, numberOfPoints, len)),
                                                svgWidth, svgHeight, random(index, j, 0), random(index, j, 1)) &&
                    line.opacities[j] == random(index, j, 2)
      {
        var p := pointAt(index, SampleLength(i, numberOfPoints, len));
        var point := PathPoint(p, svgWidth, svgHeight, random(index, i, 0), random(index, i, 1));
        line := line.(points := line.points + [point], opacities := line.opacities + [random(index, i, 2)]);
        i := i + 1;
      }
    }

    /**
     * `animateLines`: every cursor advances by its line's speed, and slot
     * s = k * 300 + i of the buffers receives the coordinates of the point
     * particle i of line k shows and its faded opacity.  Slots are written
     * in order, each once.
     */
    method AnimateLines()
      requires Valid() && NonEmpty(particleLines)
      modifies this`particleLines, particlePositions, particleOpacity
      ensures Valid() && NonEmpty(particleLines)
      ensures particleLines == AdvanceLines(old(particleLines))
      ensures forall m :: 0 <= m < particlePositions.Length ==>
                particlePositions[m] == Coord(SlotPoint(particleLines, m / 3), m % 3)
      ensures forall s :: 0 <= s < particleOpacity.Length ==> particleOpacity[s] == SlotOpacity(particleLines, s)
    {
      ghost var advanced := AdvanceLines(particleLines);
      assert forall j :: 0 <= j < |advanced| ==> |advanced[j].opacities| == |advanced[j].points|;
      var count := 0;
      var k := 0;
      while k < |particleLines|
        invariant 0 <= k <= |particleLines| && count == k * ParticlesPerLine
        invariant |particleLines| == |advanced|
        invariant forall j :: 0 <= j < |particleLines| ==> LineValid(particleLines[j])
        invariant forall j :: 0 <= j < |particleLines| ==> particleLines[j] == (if j < k then advanced[j] else old(particleLines[j]))
        invariant PositionsUpTo(particlePositions, advanced, count)
        invariant OpacityUpTo(particleOpacity, advanced, count)
      {
        AdvanceLineValid(particleLines[k]);
        var line := AdvanceLine(particleLines[k]);
        particleLines := particleLines[k := line];
        assert LineValid(particleLines[k]);
        count := FillLine(particlePositions, particleOpacity, advanced, k, line, count);
        k := k + 1;
      }
      assert particleLines == advanced;
      PositionsComplete(particlePositions, advanced);
      OpacityComplete(particleOpacity, advanced);
    }

    /** The particle loop of one line: slots k * 300 .. k * 300 + 299 are written in order. */
    static method FillLine(positions: array<real>, opacity: array<real>, ghost lines: seq<ParticleLine>,
                           k: int, line: ParticleLine, count: int) returns (next: int)
      requires positions != opacity && 0 <= k < |lines| && line == lines[k] && count == k * ParticlesPerLine
      requires PositionsUpTo(positions, lines, count) && OpacityUpTo(opacity, lines, count)
      modifies positions, opacity
      ensures next == count + ParticlesPerLine
      ensures PositionsUpTo(positions, lines, next) && OpacityUpTo(opacity, lines, next)
    {
      next := count;
      var i := 0;
      while i < ParticlesPerLine
        modifies positions, opacity
        invariant 0 <= i <= ParticlesPerLine && next == count + i
        invariant PositionsUpTo(positions, lines, next) && OpacityUpTo(opacity, lines, next)
      {
        WriteParticle(positions, opacity, lines, k, line, i, next);
        next := next + 1;
        i := i + 1;
      }
    }

    /** The body of the particle loop: particle i of `line`, written to slot `count`. */
    static method WriteParticle(positions: array<real>, opacity: array<real>, ghost lines: seq<ParticleLine>,
                                k: int, line: ParticleLine, i: int, count: int)
      requires positions != opacity && 0 <= k < |lines| && line == lines[k]
      requires 0 <= i < ParticlesPerLine && count == k * ParticlesPerLine + i
      requires PositionsUpTo(positions, lines, count) && OpacityUpTo(opacity, lines, count)
      modifies positions, opacity
      ensures PositionsUpTo(positions, lines, count + 1) && OpacityUpTo(opacity, lines, count + 1)
    {
      SlotOf(k, i);
      var index := (line.currentPosition + i) % |line.points|;
      var point := line.points[index];
      WritePoint(positions, lines, count, point);
      WriteOpacity(opacity, lines, count, line.opacities[index] * (i as real / 300.0));
    }

    /** Slot `count` of the position buffer receives x, y and z of its point. */
    static method WritePoint(positions: array<real>, ghost lines: seq<ParticleLine>, count: int, point: Vec3)
      requires PositionsUpTo(positions, lines, count) && count < |lines| * ParticlesPerLine
      requires point == SlotPoint(lines, count)
      modifies positions
      ensures PositionsUpTo(positions, lines, count + 1)
    {
      positions[count * 3] := point.x;
      positions[count * 3 + 1] := point.y;
      positions[count * 3 + 2] := point.z;
    }

    /** Slot `count` of the opacity buffer receives its faded opacity. */
    static method WriteOpacity(opacity: array<real>, ghost lines: seq<ParticleLine>, count: int, value: real)
      requires OpacityUpTo(opacity, lines, count) && count < |lines| * ParticlesPerLine
      requires value == SlotOpacity(lines, count)
      modifies opacity
      ensures OpacityUpTo(opacity, lines, count + 1)
    {
      opacity[count] := value;
    }

    /**
     * One frame: nothing once destroyed; otherwise the lines advance and the
     * buffers are refilled as `AnimateLines` says, and the time advances.
     */
    method Animate()
      requires Valid() && NonEmpty(particleLines)
      modifies this`particleLines, this`time, particlePositions, particleOpacity
      ensures Valid() && NonEmpty(particleLines)
      ensures old(isDestroyed) ==> unchanged(this) && unchanged(particlePositions) && unchanged(particleOpacity)
      ensures !isDestroyed ==> particleLines == AdvanceLines(old(particleLines)) && time == old(time) + 0.05
      ensures !isDestroyed ==> forall m :: 0 <= m < particlePositions.Length ==>
                particlePositions[m] == Coord(SlotPoint(particleLines, m / 3), m % 3)
      ensures !isDestroyed ==> forall s :: 0 <= s < particleOpacity.Length ==>
                particleOpacity[s] == SlotOpacity(particleLines, s)
    {
      if isDestroyed { return; }
      AnimateLines();
      time := time + 0.05;
    }

    method Destroy()
      modifies this`isDestroyed
      ensures isDestroyed
    {
      isDestroyed := true;
    }
  }
}
