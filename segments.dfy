/** The segment grid of one axis, its validation, and the two stepping
    policies (generators/default.py, classes Axis, LinearAxis, CircularAxis),
    stated on values. The class `Generator.Axis` holds the same data in
    fields and steps in place by these functions. */
module Segments {
  import opened Wrappers

  /** The floating-point value of `math.pi`. */
  const Pi: real := 3.141592653589793

  /** Which stepping policy an axis follows. */
  datatype AxisKind = Linear | Circular

  /** The assertion of `update` that failed. */
  datatype ConfigError =
    | NonPositiveRadius
    | NonPositiveSegmentCount
    | NonPositiveTravel
    | StartBelowGrid
    | EndAboveGrid
    | StartAfterEnd

  /** The derived, fixed part of an axis: segment count and length, the
      full-grid index bounds and the movement window. */
  datatype Grid = Grid(
    segmentCount: int,
    segmentLength: real,
    segmentMin: int,
    segmentMax: int,
    movementStart: int,
    movementEnd: int)

  /** The changing part of an axis: current segment index, current position
      and the stored direction (`direction_increment`). */
  datatype Cursor = Cursor(index: int, pos: real, up: bool)

  /** What a successful `update` establishes. */
  predicate WellFormed(g: Grid) {
    && g.segmentCount > 0
    && g.segmentLength > 0.0
    && g.segmentMin == 0
    && g.segmentMax == g.segmentCount - 1
    && 0 <= g.movementStart <= g.movementEnd <= g.segmentMax
  }

  /** The assertions of `Axis.update`, in the order they run. */
  function CheckGrid(count: int, posMin: real, posMax: real, start: int, end: int): (r: Outcome<ConfigError>)
    ensures r.Pass? <==> count > 0 && posMin < posMax && 0 <= start <= end <= count - 1
    ensures r == Fail(NonPositiveSegmentCount) <==> count <= 0
    ensures r == Fail(NonPositiveTravel) <==> count > 0 && posMax <= posMin
  {
    if count <= 0 then Fail(NonPositiveSegmentCount)
    else if posMax - posMin <= 0.0 then Fail(NonPositiveTravel)
    else if start < 0 then Fail(StartBelowGrid)
    else if end > count - 1 then Fail(EndAboveGrid)
    else if start > end then Fail(StartAfterEnd)
    else Pass
  }

  /** The assertions of `CircularAxis.update`: a positive radius first, then
      those of `Axis.update` on the travel from 0 to the perimeter. */
  function CheckCircle(radius: int, count: int, start: int, end: int): (r: Outcome<ConfigError>)
    ensures r.Pass? <==> radius > 0 && count > 0 && 0 <= start <= end <= count - 1
    ensures r == Fail(NonPositiveRadius) <==> radius <= 0
    ensures r != Fail(NonPositiveTravel)
  {
    if radius <= 0 then Fail(NonPositiveRadius)
    else CheckGrid(count, 0.0, Perimeter(radius), start, end)
  }

  /** `segment_length_mm`: the travel divided into `count` equal parts. */
  function SegmentLength(travel: real, count: int): (len: real)
    requires count > 0
    ensures len * count as real == travel
    ensures travel > 0.0 ==> len > 0.0
  {
    travel / count as real
  }

  /** `perimeter_mm` of a circle of the given radius. */
  function Perimeter(radius: int): (p: real)
    ensures radius > 0 ==> p > 0.0
  {
    (Pi + Pi) * radius as real
  }

  /** The grid `update` derives when its checks pass. */
  function DeriveGrid(count: int, posMin: real, posMax: real, start: int, end: int): (g: Grid)
    requires CheckGrid(count, posMin, posMax, start, end).Pass?
    ensures WellFormed(g)
    ensures g.segmentLength * g.segmentCount as real == posMax - posMin
    ensures g.movementStart == start && g.movementEnd == end
  {
    Grid(count, SegmentLength(posMax - posMin, count), 0, count - 1, start, end)
  }

  /** `is_max_pos_segment`. */
  predicate IsMaxSegment(g: Grid, c: Cursor) {
    c.index >= g.segmentMax
  }

  /** `is_min_pos_segment`. */
  predicate IsMinSegment(g: Grid, c: Cursor) {
    c.index <= g.segmentMin
  }

  /** `represents_circle`: the movement window spans as many segments as the grid has. */
  predicate RepresentsCircle(g: Grid) {
    g.segmentCount == g.movementEnd - g.movementStart + 1
  }

  /** How far the position is from `index` whole segments: a step keeps it. */
  function Offset(g: Grid, c: Cursor): real {
    c.pos - c.index as real * g.segmentLength
  }

  /** Moves index and position together by one segment in direction `d`. */
  function Shift(g: Grid, c: Cursor, d: int, up: bool): (r: Cursor)
    requires d == 1 || d == -1
    ensures r.index == c.index + d && r.up == up
    ensures Offset(g, r) == Offset(g, c)
  {
    var r := Cursor(c.index + d, c.pos + d as real * g.segmentLength, up);
    assert r.index as real * g.segmentLength == c.index as real * g.segmentLength + d as real * g.segmentLength;
    r
  }

  /** `LinearAxis.compute_next_position`: at or below the grid minimum turn
      up, at or above the grid maximum turn down, otherwise keep the stored
      direction; then move one segment that way. */
  function LinearNext(g: Grid, c: Cursor): (r: Cursor)
    ensures c.index <= g.segmentMin ==> r.up
    ensures g.segmentMin < c.index && c.index >= g.segmentMax ==> !r.up
    ensures g.segmentMin < c.index < g.segmentMax ==> r.up == c.up
    ensures r.index == c.index + (if r.up then 1 else -1)
    ensures Offset(g, r) == Offset(g, c)
  {
    var up := if c.index <= g.segmentMin then true else if c.index >= g.segmentMax then false else c.up;
    Shift(g, c, if up then 1 else -1, up)
  }

  /** `CircularAxis.compute_next_position`. In circle mode the axis steps
      forward and jumps back to index 0 and position 0 from the grid maximum.
      Otherwise it steps back from the grid maximum and forward from every
      other index. The stored direction is never read or written. */
  function CircularNext(g: Grid, c: Cursor): (r: Cursor)
    ensures r.up == c.up
    ensures RepresentsCircle(g) && IsMaxSegment(g, c) ==> r.index == 0 && r.pos == 0.0
    ensures RepresentsCircle(g) && !IsMaxSegment(g, c) ==> r.index == c.index + 1 && Offset(g, r) == Offset(g, c)
    ensures !RepresentsCircle(g) ==> r.index == c.index + (if IsMaxSegment(g, c) then -1 else 1)
    ensures !RepresentsCircle(g) ==> Offset(g, r) == Offset(g, c)
  {
    if RepresentsCircle(g) && IsMaxSegment(g, c) then Cursor(0, 0.0, c.up)
    else Shift(g, c, if !RepresentsCircle(g) && IsMaxSegment(g, c) then -1 else 1, c.up)
  }

  /** One step of an axis of the given kind. */
  function Next(kind: AxisKind, g: Grid, c: Cursor): Cursor {
    match kind
    case Linear => LinearNext(g, c)
    case Circular => CircularNext(g, c)
  }

  /** The cursor after `n` steps. */
  function Iterate(kind: AxisKind, g: Grid, c: Cursor, n: nat): Cursor
    decreases n
  {
    if n == 0 then c else Iterate(kind, g, Next(kind, g, c), n - 1)
  }

  /** A linear axis with at least two segments that starts inside the grid
      never leaves it, however many steps it takes. */
  lemma {:induction false} LinearStaysInGrid(g: Grid, c: Cursor, n: nat)
    requires WellFormed(g) && g.segmentCount >= 2
    requires g.segmentMin <= c.index <= g.segmentMax
    ensures g.segmentMin <= Iterate(Linear, g, c, n).index <= g.segmentMax
    decreases n
  {
    if n > 0 {
      LinearStaysInGrid(g, LinearNext(g, c), n - 1);
    }
  }

  /** A linear axis with a single segment has minimum and maximum both 0, so
      from index 0 it alternates 0, 1, 0, 1, ... */
  lemma {:induction false} SingleSegmentAlternates(g: Grid, c: Cursor, n: nat)
    requires WellFormed(g) && g.segmentCount == 1
    requires c.index == 0
    ensures Iterate(Linear, g, c, n).index == n % 2
    decreases n
  {
    if n > 0 {
      var c1 := LinearNext(g, c);
      assert c1.index == 1;
      var c2 := LinearNext(g, c1);
      assert c2.index == 0;
      if n == 1 {
      } else {
        SingleSegmentAlternates(g, c2, n - 2);
        assert Iterate(Linear, g, c, n) == Iterate(Linear, g, c2, n - 2);
      }
    }
  }

  /** Every linear step keeps the coupling between index and position, and
      so does any number of steps. */
  lemma {:induction false} LinearKeepsOffset(g: Grid, c: Cursor, n: nat)
    ensures Offset(g, Iterate(Linear, g, c, n)) == Offset(g, c)
    decreases n
  {
    if n > 0 {
      LinearKeepsOffset(g, LinearNext(g, c), n - 1);
    }
  }

  /** In circle mode the circular axis climbs one index per step and, one
      step after the grid maximum, is back at index 0 and position 0: from
      any index of the grid that takes `count - index` steps. */
  lemma {:induction false} CircleModeReturnsToOrigin(g: Grid, c: Cursor, k: nat)
    requires WellFormed(g) && RepresentsCircle(g)
    requires 0 <= c.index <= g.segmentMax
    ensures k <= g.segmentMax - c.index ==> Iterate(Circular, g, c, k).index == c.index + k
    ensures Iterate(Circular, g, c, g.segmentCount - c.index) == Cursor(0, 0.0, c.up)
    decreases g.segmentMax - c.index
  {
    var c1 := CircularNext(g, c);
    if c.index < g.segmentMax {
      CircleModeReturnsToOrigin(g, c1, if k == 0 then 0 else k - 1);
    }
  }

  /** In partial mode with at least three segments the circular axis, once
      inside the grid, bounces between the grid maximum and the index below
      it and never returns to index 0 after one step. */
  lemma {:induction false} PartialModeNeverReturns(g: Grid, c: Cursor, n: nat)
    requires WellFormed(g) && !RepresentsCircle(g) && g.segmentCount >= 3
    requires 0 <= c.index <= g.segmentMax
    requires n >= 1
    ensures 1 <= Iterate(Circular, g, c, n).index <= g.segmentMax
    decreases n
  {
    var c1 := CircularNext(g, c);
    if n > 1 {
      PartialModeNeverReturns(g, c1, n - 1);
    }
  }

  /** In partial mode the circular axis does not oscillate from minimum to
      maximum and back: from the maximum it goes to the index below and then
      straight back to the maximum, where the linear policy would keep going
      down. */
  lemma PartialModeBounces(g: Grid, c: Cursor)
    requires WellFormed(g) && !RepresentsCircle(g) && g.segmentCount >= 3
    requires c.index == g.segmentMax
    ensures Iterate(Circular, g, c, 1).index == g.segmentMax - 1
    ensures Iterate(Circular, g, c, 2).index == g.segmentMax
    ensures Iterate(Linear, g, c, 2).index == g.segmentMax - 2
  {
  }
}
