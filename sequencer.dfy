/** The traversal of `CodeGenerator.get_program` (generators/default.py)
    stated on values: the loop's state, the event each iteration emits, one
    transition, and the whole run under a bound on the number of events. */
module Sequencer {
  import opened Wrappers
  import opened Segments

  /** The servo block: release and actuate positions and the three dwells. */
  datatype Servo = Servo(
    posRelease: int,
    posActuate: int,
    preActuateDelay: real,
    actuateDelay: real,
    postActuateDelay: real)

  /** One program line, without its text formatting. */
  datatype Command =
    | Blank                     // an empty line
    | ResetNote                 // `; set current position manually to X=0`
    | MoveCircular(x: real)     // `X<pos>`
    | ResetCircular             // `G92 X0`
    | MoveElevation(z: real)    // `Z<pos>`
    | Dwell(seconds: real)      // `G4 P<s>`
    | SetServo(position: int)   // `S<pos>`

  /** What one iteration emits: the circular position, whether the circular
      zero reference is reset, the elevation position when it is flushed, and
      the servo cycle. */
  datatype Event = Event(
    circularPos: real,
    resetCircular: bool,
    elevationPos: Option<real>,
    servo: Servo)

  /** The loop's state between iterations: both axes' cursors and the two
      flags `flush_elevation` and `reset_circular_position`. */
  datatype Scan = Scan(circ: Cursor, elev: Cursor, flushElevation: bool, resetCircular: bool)

  /** The state before the first iteration. */
  function Start(circ: Cursor, elev: Cursor): Scan {
    Scan(circ, elev, true, false)
  }

  /** `_generate_servo_code_for_current_position`: the text block opens
      with a line break, so its lines are an empty one, then wait, actuate,
      wait, release, wait. */
  function ServoLines(sv: Servo): (r: seq<Command>)
    ensures |r| == 6 && r[0] == Blank
    ensures r[2] == SetServo(sv.posActuate) && r[4] == SetServo(sv.posRelease)
    ensures r[1] == Dwell(sv.preActuateDelay) && r[3] == Dwell(sv.actuateDelay) && r[5] == Dwell(sv.postActuateDelay)
  {
    [Blank, Dwell(sv.preActuateDelay), SetServo(sv.posActuate), Dwell(sv.actuateDelay),
     SetServo(sv.posRelease), Dwell(sv.postActuateDelay)]
  }

  /** `_generate_code_for_current_position`: the lines of one event, in a
      fixed order: the circular move; the note and the reset only when
      flagged; the elevation move only when flushed; then the servo cycle,
      which is always there. */
  function EventLines(e: Event): (r: seq<Command>)
    ensures var reset := if e.resetCircular then 2 else 0;
      var extra := reset + (if e.elevationPos.Some? then 1 else 0);
      && |r| == 7 + extra
      && r[0] == MoveCircular(e.circularPos)
      && (ResetCircular in r <==> e.resetCircular)
      && (ResetNote in r <==> e.resetCircular)
      && (e.resetCircular ==> r[1] == ResetNote && r[2] == ResetCircular)
      && (e.elevationPos.Some? ==> r[1 + reset] == MoveElevation(e.elevationPos.value))
      && (forall z :: MoveElevation(z) in r <==> e.elevationPos == Some(z))
      && r[1 + extra..] == ServoLines(e.servo)
  {
    [MoveCircular(e.circularPos)]
    + (if e.resetCircular then [ResetNote, ResetCircular] else [])
    + (if e.elevationPos.Some? then [MoveElevation(e.elevationPos.value)] else [])
    + ServoLines(e.servo)
  }

  /** The event emitted in state `s`. */
  function Emit(sv: Servo, s: Scan): (e: Event)
    ensures e.circularPos == s.circ.pos && e.resetCircular == s.resetCircular && e.servo == sv
    ensures e.elevationPos.Some? <==> s.flushElevation
    ensures s.flushElevation ==> e.elevationPos.value == s.elev.pos
  {
    Event(s.circ.pos, s.resetCircular, if s.flushElevation then Some(s.elev.pos) else None, sv)
  }

  /** The loop's exit test: both axes at their full-grid maximum. */
  predicate Done(cg: Grid, eg: Grid, s: Scan) {
    IsMaxSegment(cg, s.circ) && IsMaxSegment(eg, s.elev)
  }

  /** One transition after an event that did not end the loop: the circular
      axis steps; when it lands at or below its minimum, the elevation axis
      steps too and both flags are armed for the next event. */
  function Advance(cg: Grid, eg: Grid, s: Scan): (r: Scan)
    ensures r.circ == CircularNext(cg, s.circ)
    ensures r.flushElevation == r.resetCircular == IsMinSegment(cg, r.circ)
    ensures r.elev == if IsMinSegment(cg, r.circ) then LinearNext(eg, s.elev) else s.elev
  {
    var circ := CircularNext(cg, s.circ);
    if IsMinSegment(cg, circ) then Scan(circ, LinearNext(eg, s.elev), true, true)
    else Scan(circ, s.elev, false, false)
  }

  /** The state after `n` transitions. */
  function Steps(cg: Grid, eg: Grid, s: Scan, n: nat): Scan
    decreases n
  {
    if n == 0 then s else Steps(cg, eg, Advance(cg, eg, s), n - 1)
  }

  /** A run: the states in which events were emitted, the state the axes are
      left in, and whether the loop ended by its own exit test. */
  datatype RunResult = RunResult(visited: seq<Scan>, exit: Scan, finished: bool)

  /** `get_program` allowed at most `fuel` events: the first event is
      emitted in `s`, and the run either ends in a state that passes the exit
      test, as its last event, or has used up the whole bound. */
  function Run(cg: Grid, eg: Grid, s: Scan, fuel: nat): (r: RunResult)
    ensures |r.visited| <= fuel
    ensures r.finished ==> Done(cg, eg, r.exit)
    ensures !r.finished ==> |r.visited| == fuel
    decreases fuel
  {
    if fuel == 0 then RunResult([], s, false)
    else if Done(cg, eg, s) then RunResult([s], s, true)
    else
      var rest := Run(cg, eg, Advance(cg, eg, s), fuel - 1);
      RunResult([s] + rest.visited, rest.exit, rest.finished)
  }

  /** A run that starts with the events of `prefix`. */
  function Join(prefix: seq<Scan>, r: RunResult): RunResult {
    RunResult(prefix + r.visited, r.exit, r.finished)
  }

  /** One iteration of `Run`: an event in state `s`, then either the end
      of the loop or the rest of the run from the next state. */
  lemma RunUnfold(cg: Grid, eg: Grid, s: Scan, fuel: nat)
    requires fuel > 0
    ensures Done(cg, eg, s) ==> Run(cg, eg, s, fuel) == RunResult([s], s, true)
    ensures !Done(cg, eg, s) ==> Run(cg, eg, s, fuel) == Join([s], Run(cg, eg, Advance(cg, eg, s), fuel - 1))
  {
  }

  /** The events of a run, in order. */
  function Events(sv: Servo, visited: seq<Scan>): (r: seq<Event>)
    ensures |r| == |visited|
    ensures forall i :: 0 <= i < |r| ==> r[i] == Emit(sv, visited[i])
  {
    seq(|visited|, i requires 0 <= i < |visited| => Emit(sv, visited[i]))
  }

  /** A run seen after `prefix` events that emits in state `s` and goes on:
      `s` joins the prefix and the run continues from the next state with
      one event less to spend. */
  lemma JoinStep(cg: Grid, eg: Grid, whole: RunResult, prefix: seq<Scan>, s: Scan, fuel: nat)
    requires fuel > 0
    requires whole == Join(prefix, Run(cg, eg, s, fuel))
    ensures Done(cg, eg, s) ==> whole == RunResult(prefix + [s], s, true)
    ensures !Done(cg, eg, s) ==> whole == Join(prefix + [s], Run(cg, eg, Advance(cg, eg, s), fuel - 1))
  {
    RunUnfold(cg, eg, s, fuel);
  }

  lemma EventsSnoc(sv: Servo, visited: seq<Scan>, s: Scan)
    ensures Events(sv, visited + [s]) == Events(sv, visited) + [Emit(sv, s)]
  {
    assert Events(sv, visited + [s])[..|visited|] == Events(sv, visited);
  }

  /** A run is the sequence of states reached by repeated transitions,
      emitted up to and including the first state that passes the exit test,
      or until the bound is used up; the axes are left in the state after the
      last event when the bound ran out, and in the last event's state when
      the exit test held. */
  lemma {:induction false} RunFollowsSteps(cg: Grid, eg: Grid, s: Scan, fuel: nat)
    ensures var r := Run(cg, eg, s, fuel);
      && |r.visited| <= fuel
      && (forall i :: 0 <= i < |r.visited| ==> r.visited[i] == Steps(cg, eg, s, i))
      && (forall i :: 0 <= i < |r.visited| - 1 ==> !Done(cg, eg, r.visited[i]))
      && (r.finished <==> |r.visited| > 0 && Done(cg, eg, r.visited[|r.visited| - 1]))
      && (r.finished ==> r.exit == r.visited[|r.visited| - 1])
      && (!r.finished ==> |r.visited| == fuel && r.exit == Steps(cg, eg, s, fuel))
    decreases fuel
  {
    if fuel > 0 && !Done(cg, eg, s) {
      var s1 := Advance(cg, eg, s);
      RunFollowsSteps(cg, eg, s1, fuel - 1);
      var rest := Run(cg, eg, s1, fuel - 1);
      forall i | 0 <= i < |rest.visited| + 1
        ensures ([s] + rest.visited)[i] == Steps(cg, eg, s, i)
      {
        if i > 0 {
          assert Steps(cg, eg, s, i) == Steps(cg, eg, s1, i - 1);
        }
      }
    }
  }

  /** The flags: the first event flushes the elevation without a reset, and
      in every later event the reset and the elevation flush go together. */
  lemma {:induction false} FlagsTravelTogether(cg: Grid, eg: Grid, sv: Servo, s: Scan, fuel: nat)
    requires s.resetCircular ==> s.flushElevation
    ensures var e := Events(sv, Run(cg, eg, s, fuel).visited);
      && (|e| > 0 ==> e[0].resetCircular == s.resetCircular && e[0].elevationPos.Some? == s.flushElevation)
      && (forall i :: 0 < i < |e| ==> e[i].resetCircular == e[i].elevationPos.Some?)
    decreases fuel
  {
    if fuel > 0 && !Done(cg, eg, s) {
      var s1 := Advance(cg, eg, s);
      FlagsTravelTogether(cg, eg, sv, s1, fuel - 1);
      var rest := Run(cg, eg, s1, fuel - 1).visited;
      assert Run(cg, eg, s, fuel).visited == [s] + rest;
      var e := Events(sv, [s] + rest);
      var e1 := Events(sv, rest);
      forall i | 0 < i < |e|
        ensures e[i].resetCircular == e[i].elevationPos.Some?
      {
        assert e[i] == Emit(sv, rest[i - 1]);
        if i > 1 {
          assert e1[i - 1] == e[i];
        }
      }
    }
  }

  /** Does the circular sweep bring the circular index back to 0 after it
      passes the maximum? In circle mode it jumps there; in partial mode with
      two segments the step down from the maximum lands on 0. */
  predicate SweepReturns(cg: Grid) {
    RepresentsCircle(cg) || cg.segmentCount == 2
  }

  /** The number of events still to come in a returning sweep, counting the
      one about to be emitted. */
  function Remaining(cg: Grid, eg: Grid, s: Scan): int {
    (eg.segmentMax - s.elev.index) * cg.segmentCount + (cg.segmentMax - s.circ.index) + 1
  }

  /** One transition of a returning sweep, not at the exit, takes one event
      off the count and keeps the sweep's invariant. */
  lemma SweepStep(cg: Grid, eg: Grid, s: Scan, e0: int)
    requires WellFormed(cg) && WellFormed(eg) && SweepReturns(cg)
    requires 0 <= s.circ.index <= cg.segmentMax
    requires e0 <= s.elev.index <= eg.segmentMax && s.elev.up
    requires !Done(cg, eg, s)
    ensures var s1 := Advance(cg, eg, s);
      && 0 <= s1.circ.index <= cg.segmentMax
      && e0 <= s1.elev.index <= eg.segmentMax && s1.elev.up
      && Remaining(cg, eg, s1) == Remaining(cg, eg, s) - 1
  {
  }

  /** At least one event is still to come, and exactly one when the exit
      test holds. */
  lemma RemainingAtLeastOne(cg: Grid, eg: Grid, s: Scan)
    requires WellFormed(cg) && WellFormed(eg)
    requires 0 <= s.circ.index <= cg.segmentMax && s.elev.index <= eg.segmentMax
    ensures Remaining(cg, eg, s) >= 1
    ensures Remaining(cg, eg, s) == 1 <==> Done(cg, eg, s)
  {
  }

  /** In a returning sweep with the elevation axis moving up from inside
      its grid, the loop ends after exactly `Remaining` events, unless the
      bound is smaller; the elevation index stays between its start and the
      grid maximum. */
  lemma {:induction false} SweepEnds(cg: Grid, eg: Grid, s: Scan, e0: int, fuel: nat)
    requires WellFormed(cg) && WellFormed(eg) && SweepReturns(cg)
    requires 0 <= s.circ.index <= cg.segmentMax
    requires e0 <= s.elev.index <= eg.segmentMax && s.elev.up
    ensures var r := Run(cg, eg, s, fuel);
      var n := Remaining(cg, eg, s);
      && (r.finished <==> fuel >= n)
      && |r.visited| == (if fuel < n then fuel else n)
      && (forall i :: 0 <= i < |r.visited| ==> e0 <= r.visited[i].elev.index <= eg.segmentMax)
    decreases fuel
  {
    RemainingAtLeastOne(cg, eg, s);
    if fuel > 0 && !Done(cg, eg, s) {
      var s1 := Advance(cg, eg, s);
      SweepStep(cg, eg, s, e0);
      SweepEnds(cg, eg, s1, e0, fuel - 1);
      var r1 := Run(cg, eg, s1, fuel - 1);
      assert Run(cg, eg, s, fuel) == RunResult([s] + r1.visited, r1.exit, r1.finished);
    }
  }

  /** Circle mode (and partial mode with two circular segments), starting as
      `setup` leaves the axes, ends after exactly `(count_e - start) * count_c`
      events once the bound allows that many, with the elevation index never
      above its grid maximum: the scan repeats until the elevation maximum is
      reached. */
  lemma SweepTerminates(cg: Grid, eg: Grid, circ: Cursor, elev: Cursor, fuel: nat)
    requires WellFormed(cg) && WellFormed(eg) && SweepReturns(cg)
    requires circ.index == 0
    requires 0 <= elev.index <= eg.segmentMax && elev.up
    ensures var n := (eg.segmentCount - elev.index) * cg.segmentCount;
      var r := Run(cg, eg, Start(circ, elev), fuel);
      && (r.finished <==> fuel >= n)
      && |r.visited| == (if fuel < n then fuel else n)
      && (forall i :: 0 <= i < |r.visited| ==> elev.index <= r.visited[i].elev.index <= eg.segmentMax)
  {
    var s := Start(circ, elev);
    var k := eg.segmentMax - elev.index;
    assert Remaining(cg, eg, s) == k * cg.segmentCount + cg.segmentCount;
    assert (k + 1) * cg.segmentCount == k * cg.segmentCount + cg.segmentCount;
    assert eg.segmentCount - elev.index == k + 1;
    SweepEnds(cg, eg, s, elev.index, fuel);
  }

  /** Partial mode with three or more circular segments: once the circular
      index has left 0 it never comes back, so the elevation axis never moves
      and, unless it already is at its maximum, the loop runs until the bound
      is used up. */
  lemma {:induction false} PartialModeRunsForever(cg: Grid, eg: Grid, s: Scan, fuel: nat)
    requires WellFormed(cg) && WellFormed(eg) && !RepresentsCircle(cg) && cg.segmentCount >= 3
    requires 0 <= s.circ.index <= cg.segmentMax
    requires s.elev.index < eg.segmentMax
    ensures var r := Run(cg, eg, s, fuel);
      && !r.finished && |r.visited| == fuel
      && (forall i :: 0 <= i < |r.visited| ==> r.visited[i].elev == s.elev)
    decreases fuel
  {
    if fuel > 0 {
      var s1 := Advance(cg, eg, s);
      assert 1 <= s1.circ.index <= cg.segmentMax;
      PartialModeRunsForever(cg, eg, s1, fuel - 1);
    }
  }

  /** Partial mode with three or more circular segments and the elevation
      axis already at its maximum: the loop ends when the circular axis
      first reaches its maximum. */
  lemma {:induction false} PartialModeAtTopEnds(cg: Grid, eg: Grid, s: Scan, fuel: nat)
    requires WellFormed(cg) && WellFormed(eg) && !RepresentsCircle(cg) && cg.segmentCount >= 3
    requires 0 <= s.circ.index <= cg.segmentMax
    requires s.elev.index == eg.segmentMax
    ensures var n := cg.segmentMax - s.circ.index + 1;
      var r := Run(cg, eg, s, fuel);
      && (r.finished <==> fuel >= n)
      && |r.visited| == (if fuel < n then fuel else n)
    decreases fuel
  {
    if fuel > 0 && !Done(cg, eg, s) {
      var s1 := Advance(cg, eg, s);
      assert s1.circ.index == s.circ.index + 1 && s1.elev == s.elev;
      PartialModeAtTopEnds(cg, eg, s1, fuel - 1);
    }
  }
}
