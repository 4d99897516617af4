/** The state that generators/default.py changes in place: the axes, the
    machine that owns them, `CodeGenerator.setup` and the loop of
    `CodeGenerator.get_program`. Each step is proved against the value-level
    definitions of modules Segments and Sequencer. */
module Generator {
  import opened Wrappers
  import opened Segments
  import opened Sequencer

  /** An axis: `LinearAxis` or `CircularAxis`, told apart by `kind`. The
      radius and perimeter are used by the circular kind only. */
  class Axis {
    const kind: AxisKind

    var posCurrent: real
    var segmentCurrent: int
    var directionIncrement: bool

    var posMin: real
    var posMax: real
    var posTravel: real

    var segmentCount: int
    var segmentLength: real
    var segmentMin: int
    var segmentMax: int

    var movementStart: int
    var movementEnd: int

    var radius: int
    var perimeter: real

    /** `Axis.__init__` (and `CircularAxis.__init__`): everything zero, direction up. */
    constructor (kind: AxisKind)
      ensures this.kind == kind
      ensures State() == Cursor(0, 0.0, true)
      ensures posMin == 0.0 && posMax == 0.0 && posTravel == 0.0
      ensures GridValue() == Grid(0, 0.0, 0, 0, 0, 0)
      ensures radius == 0 && perimeter == 0.0
    {
      this.kind := kind;
      posCurrent, segmentCurrent, directionIncrement := 0.0, 0, true;
      posMin, posMax, posTravel := 0.0, 0.0, 0.0;
      segmentCount, segmentLength, segmentMin, segmentMax := 0, 0.0, 0, 0;
      movementStart, movementEnd := 0, 0;
      radius, perimeter := 0, 0.0;
    }

    /** The grid fields as a value. */
    function GridValue(): Grid
      reads this
    {
      Grid(segmentCount, segmentLength, segmentMin, segmentMax, movementStart, movementEnd)
    }

    /** The index, position and direction as a value. */
    function State(): Cursor
      reads this
    {
      Cursor(segmentCurrent, posCurrent, directionIncrement)
    }

    /** What `update` decides for the present configuration fields. */
    function Check(): Outcome<ConfigError>
      reads this
    {
      match kind
      case Linear => CheckGrid(segmentCount, posMin, posMax, movementStart, movementEnd)
      case Circular => CheckCircle(radius, segmentCount, movementStart, movementEnd)
    }

    predicate IsMaxPosSegment()
      reads this
    {
      IsMaxSegment(GridValue(), State())
    }

    predicate IsMinPosSegment()
      reads this
    {
      IsMinSegment(GridValue(), State())
    }

    /** `Axis.update`: validate the configuration and derive the segment
      length and the full-grid bounds. */
    method UpdateGrid() returns (r: Outcome<ConfigError>)
      modifies this`posTravel, this`segmentLength, this`segmentMin, this`segmentMax
      ensures r == CheckGrid(segmentCount, posMin, posMax, movementStart, movementEnd)
      ensures r.Pass? ==> GridValue() == DeriveGrid(segmentCount, posMin, posMax, movementStart, movementEnd)
      ensures r.Pass? ==> posTravel == posMax - posMin
      ensures r == Fail(NonPositiveSegmentCount) ==> unchanged(this)
    {
      if segmentCount <= 0 {
        return Fail(NonPositiveSegmentCount);
      }
      posTravel := posMax - posMin;
      if posTravel <= 0.0 {
        return Fail(NonPositiveTravel);
      }
      segmentLength := posTravel / segmentCount as real;

      segmentMin := 0;
      segmentMax := segmentCount - 1;
      if movementStart < segmentMin {
        return Fail(StartBelowGrid);
      }
      if movementEnd > segmentMax {
        return Fail(EndAboveGrid);
      }
      if movementStart > movementEnd {
        return Fail(StartAfterEnd);
      }
      return Pass;
    }

    /** `update` of either kind. The circular kind first checks the radius
      and sets the travel to run from 0 to the perimeter. The index, the
      position and the direction are left alone. */
    method Update() returns (r: Outcome<ConfigError>)
      modifies this
      ensures r == old(Check())
      ensures State() == old(State())
      ensures segmentCount == old(segmentCount) && radius == old(radius)
      ensures movementStart == old(movementStart) && movementEnd == old(movementEnd)
      ensures kind == Linear ==> posMin == old(posMin) && posMax == old(posMax) && perimeter == old(perimeter)
      ensures kind == Circular && radius > 0 ==> perimeter == Perimeter(radius) && posMin == 0.0 && posMax == perimeter
      ensures r.Pass? ==> WellFormed(GridValue()) && GridValue() == DeriveGrid(segmentCount, posMin, posMax, movementStart, movementEnd)
      ensures r.Pass? ==> posTravel == posMax - posMin
      ensures r == Fail(NonPositiveRadius) ==> unchanged(this)
    {
      if kind == Circular {
        if radius <= 0 {
          return Fail(NonPositiveRadius);
        }
        perimeter := (Pi + Pi) * radius as real;
        posMin := 0.0;
        posMax := perimeter;
      }
      r := UpdateGrid();
    }

    /** `LinearAxis.compute_next_position`. */
    method StepLinear()
      modifies this`segmentCurrent, this`posCurrent, this`directionIncrement
      ensures State() == LinearNext(GridValue(), old(State()))
    {
      if IsMinPosSegment() {
        directionIncrement := true;
      } else if IsMaxPosSegment() {
        directionIncrement := false;
      }
      var direction := if directionIncrement then 1 else -1;
      segmentCurrent := segmentCurrent + direction;
      posCurrent := posCurrent + direction as real * segmentLength;
    }

    /** `CircularAxis.compute_next_position`. */
    method StepCircular()
      modifies this`segmentCurrent, this`posCurrent
      ensures State() == CircularNext(GridValue(), old(State()))
    {
      var direction := 1;
      if RepresentsCircle(GridValue()) {
        if IsMaxPosSegment() {
          segmentCurrent := 0;
          posCurrent := 0.0;
          return;
        }
      } else {
        if IsMaxPosSegment() {
          direction := -1;
        } else if IsMinPosSegment() {
          direction := 1;
        }
      }
      segmentCurrent := segmentCurrent + direction;
      posCurrent := posCurrent + direction as real * segmentLength;
    }

    /** `compute_next_position` of either kind. */
    method ComputeNextPosition()
      modifies this`segmentCurrent, this`posCurrent, this`directionIncrement
      ensures State() == Next(kind, GridValue(), old(State()))
    {
      match kind
      case Linear => StepLinear();
      case Circular => StepCircular();
    }
  }

  /** `MachineParameter` together with its `Axes`: a circular axis, an
      elevation axis, the servo block and the feed rate. */
  class Machine {
    const circular: Axis
    const elevation: Axis
    var servo: Servo
    var feedRate: int

    predicate Valid() {
      circular != elevation && circular.kind == Circular && elevation.kind == Linear
    }

    constructor ()
      ensures Valid() && fresh(circular) && fresh(elevation)
      ensures circular.State() == Cursor(0, 0.0, true) && elevation.State() == Cursor(0, 0.0, true)
      ensures servo == Servo(0, 0, 0.0, 0.0, 0.0) && feedRate == 0
    {
      circular := new Axis(Circular);
      elevation := new Axis(Linear);
      servo := Servo(0, 0, 0.0, 0.0, 0.0);
      feedRate := 0;
    }

    /** `MachineParameter.update`, that is `Axes.update`: the circular axis is
      validated first, and the elevation axis only when that passed. The
      servo's `update` does nothing. */
    method Update() returns (r: Outcome<ConfigError>)
      requires Valid()
      modifies circular, elevation
      ensures var rc := old(circular.Check());
        r == if rc.Fail? then rc else old(elevation.Check())
      ensures old(circular.Check()).Fail? ==> unchanged(elevation)
      ensures circular.State() == old(circular.State()) && elevation.State() == old(elevation.State())
      ensures circular.radius == old(circular.radius) && circular.segmentCount == old(circular.segmentCount)
      ensures circular.movementStart == old(circular.movementStart) && circular.movementEnd == old(circular.movementEnd)
      ensures elevation.segmentCount == old(elevation.segmentCount)
      ensures elevation.posMin == old(elevation.posMin) && elevation.posMax == old(elevation.posMax)
      ensures elevation.movementStart == old(elevation.movementStart) && elevation.movementEnd == old(elevation.movementEnd)
      ensures r.Pass? ==> circular.GridValue() == DeriveGrid(circular.segmentCount, 0.0, Perimeter(circular.radius),
                                                            circular.movementStart, circular.movementEnd)
      ensures r.Pass? ==> elevation.GridValue() == DeriveGrid(elevation.segmentCount, old(elevation.posMin), old(elevation.posMax),
                                                             elevation.movementStart, elevation.movementEnd)
      ensures r.Pass? ==> circular.perimeter == Perimeter(circular.radius)
                          && circular.posMin == 0.0 && circular.posMax == circular.perimeter
                          && circular.posTravel == circular.perimeter
      ensures r.Pass? ==> elevation.posTravel == elevation.posMax - elevation.posMin
    {
      r := circular.Update();
      if r.Fail? {
        return;
      }
      r := elevation.Update();
    }
  }

  /** The parsed command-line options `setup` reads. */
  datatype Args = Args(
    feedRate: int,
    circleRadius: int,
    circleSegments: int,
    circleSegmentsToMove: int,
    elevationMin: int,
    elevationMax: int,
    elevationSegments: int,
    elevationSegmentStart: int,
    elevationSegmentEnd: int,
    servoPositionRelease: int,
    servoPositionActuate: int,
    servoPreActuateDwell: real,
    servoActuateDwell: real,
    servoPostActuateDwell: real)

  /** The servo block `setup` builds from the options. */
  function ServoOf(args: Args): Servo {
    Servo(args.servoPositionRelease, args.servoPositionActuate,
          args.servoPreActuateDwell, args.servoActuateDwell, args.servoPostActuateDwell)
  }

  /** What `setup` decides: the circular axis's checks with its window fixed
      to start at 0, then the elevation axis's. */
  function CheckSetup(args: Args): (r: Outcome<ConfigError>)
    ensures r.Pass? <==>
      && args.circleRadius > 0
      && 0 <= args.circleSegmentsToMove <= args.circleSegments - 1
      && args.elevationSegments > 0
      && args.elevationMin < args.elevationMax
      && 0 <= args.elevationSegmentStart <= args.elevationSegmentEnd <= args.elevationSegments - 1
    ensures r == Fail(NonPositiveRadius) <==> args.circleRadius <= 0
  {
    var rc := CheckCircle(args.circleRadius, args.circleSegments, 0, args.circleSegmentsToMove);
    if rc.Fail? then rc
    else CheckGrid(args.elevationSegments, args.elevationMin as real, args.elevationMax as real,
                   args.elevationSegmentStart, args.elevationSegmentEnd)
  }

  /** The circular grid `setup` derives when it succeeds. */
  function CircularGrid(args: Args): Grid
    requires CheckSetup(args).Pass?
  {
    DeriveGrid(args.circleSegments, 0.0, Perimeter(args.circleRadius), 0, args.circleSegmentsToMove)
  }

  /** The elevation grid `setup` derives when it succeeds. */
  function ElevationGrid(args: Args): Grid
    requires CheckSetup(args).Pass?
  {
    DeriveGrid(args.elevationSegments, args.elevationMin as real, args.elevationMax as real,
               args.elevationSegmentStart, args.elevationSegmentEnd)
  }

  /** The generator `circular-first-then-elevation`. */
  class CodeGenerator {
    const machine: Machine

    constructor ()
      ensures machine.Valid() && fresh(machine) && fresh(machine.circular) && fresh(machine.elevation)
      ensures machine.circular.State() == Cursor(0, 0.0, true)
      ensures machine.elevation.State() == Cursor(0, 0.0, true)
    {
      machine := new Machine();
    }

    /** `setup` without the summary it prints: copy the options into the
      axes and the servo block, then validate and derive. The circular window
      always starts at 0; the elevation index is set to its window start
      while the elevation position is not touched. */
    method Setup(args: Args) returns (r: Outcome<ConfigError>)
      requires machine.Valid()
      modifies machine, machine.circular, machine.elevation
      ensures r == CheckSetup(args)
      ensures machine.feedRate == args.feedRate
      ensures machine.servo == ServoOf(args)
      ensures machine.circular.radius == args.circleRadius
      ensures machine.circular.segmentCount == args.circleSegments
      ensures machine.circular.movementStart == 0 && machine.circular.movementEnd == args.circleSegmentsToMove
      ensures machine.elevation.posMin == args.elevationMin as real && machine.elevation.posMax == args.elevationMax as real
      ensures machine.elevation.segmentCount == args.elevationSegments
      ensures machine.elevation.movementStart == args.elevationSegmentStart
      ensures machine.elevation.movementEnd == args.elevationSegmentEnd
      ensures machine.circular.State() == old(machine.circular.State())
      ensures machine.elevation.State() == old(machine.elevation.State()).(index := args.elevationSegmentStart)
      ensures r.Pass? ==> machine.circular.GridValue() == CircularGrid(args)
      ensures r.Pass? ==> machine.elevation.GridValue() == ElevationGrid(args)
      ensures r.Pass? ==> machine.circular.perimeter == Perimeter(args.circleRadius)
                          && machine.circular.posMin == 0.0 && machine.circular.posMax == machine.circular.perimeter
                          && machine.circular.posTravel == machine.circular.perimeter
      ensures r.Pass? ==> machine.elevation.posTravel == (args.elevationMax - args.elevationMin) as real
    {
      machine.feedRate := args.feedRate;

      var circular := machine.circular;
      circular.radius := args.circleRadius;
      circular.segmentCount := args.circleSegments;
      circular.movementStart := 0;
      circular.movementEnd := args.circleSegmentsToMove;

      var elevation := machine.elevation;
      elevation.posMin := args.elevationMin as real;
      elevation.posMax := args.elevationMax as real;
      elevation.segmentCurrent := args.elevationSegmentStart;
      elevation.segmentCount := args.elevationSegments;
      elevation.movementStart := args.elevationSegmentStart;
      elevation.movementEnd := args.elevationSegmentEnd;

      machine.servo := ServoOf(args);

      r := machine.Update();
    }

    /** `_generate_code_for_current_position` as a record. */
    method CodeForCurrentPosition(resetCircularPosition: bool, includeElevation: bool) returns (e: Event)
      ensures e == Emit(machine.servo, Scan(machine.circular.State(), machine.elevation.State(), includeElevation, resetCircularPosition))
    {
      var elevationPos := if includeElevation then Some(machine.elevation.posCurrent) else None;
      e := Event(machine.circular.posCurrent, resetCircularPosition, elevationPos, machine.servo);
    }

    /** `get_program`, allowed at most `budget` events: it returns the
      events emitted and whether the loop ended by its own exit test, and
      leaves the axes where the run of module Sequencer says. Only the
      index, the position and the direction of each axis change. */
    method GetProgram(budget: nat) returns (events: seq<Event>, finished: bool)
      requires machine.Valid()
      modifies machine.circular`segmentCurrent, machine.circular`posCurrent, machine.circular`directionIncrement
      modifies machine.elevation`segmentCurrent, machine.elevation`posCurrent, machine.elevation`directionIncrement
      ensures machine.circular.GridValue() == old(machine.circular.GridValue())
      ensures machine.elevation.GridValue() == old(machine.elevation.GridValue())
      ensures var r := Run(old(machine.circular.GridValue()), old(machine.elevation.GridValue()),
                           Start(old(machine.circular.State()), old(machine.elevation.State())), budget);
        && events == Events(machine.servo, r.visited)
        && finished == r.finished
        && machine.circular.State() == r.exit.circ
        && machine.elevation.State() == r.exit.elev
    {
      var circular, elevation := machine.circular, machine.elevation;
      ghost var cg, eg := circular.GridValue(), elevation.GridValue();
      ghost var s0 := Start(circular.State(), elevation.State());
      ghost var visited: seq<Scan> := [];

      events := [];
      var flushElevation := true;
      var resetCircularPosition := false;
      finished := false;
      while |events| < budget
        invariant |events| == |visited| <= budget
        invariant circular.GridValue() == cg && elevation.GridValue() == eg
        invariant events == Events(machine.servo, visited)
        invariant !finished
        invariant Run(cg, eg, s0, budget)
          == Join(visited, Run(cg, eg, Scan(circular.State(), elevation.State(), flushElevation, resetCircularPosition), budget - |visited|))
        decreases budget - |events|
      {
        ghost var s := Scan(circular.State(), elevation.State(), flushElevation, resetCircularPosition);
        JoinStep(cg, eg, Run(cg, eg, s0, budget), visited, s, budget - |visited|);
        var e := CodeForCurrentPosition(resetCircularPosition, flushElevation);
        EventsSnoc(machine.servo, visited, s);
        events := events + [e];
        visited := visited + [s];
        flushElevation := false;
        resetCircularPosition := false;
        if circular.IsMaxPosSegment() && elevation.IsMaxPosSegment() {
          finished := true;
          break;
        }
        circular.ComputeNextPosition();
        if circular.IsMinPosSegment() {
          elevation.ComputeNextPosition();
          flushElevation := true;
          resetCircularPosition := true;
        }
        assert Scan(circular.State(), elevation.State(), flushElevation, resetCircularPosition) == Advance(cg, eg, s);
      }
    }
  }

  /** `Exporter.__init__` without the command line: a fresh generator set up
      from the options. The circular axis starts at index 0 and position 0;
      the elevation axis starts at its window start but at position 0. */
  method Configure(args: Args) returns (g: CodeGenerator, r: Outcome<ConfigError>)
    ensures fresh(g) && fresh(g.machine) && fresh(g.machine.circular) && fresh(g.machine.elevation)
    ensures g.machine.Valid()
    ensures r == CheckSetup(args)
    ensures g.machine.feedRate == args.feedRate
    ensures g.machine.servo == ServoOf(args)
    ensures g.machine.elevation.posMin == args.elevationMin as real && g.machine.elevation.posMax == args.elevationMax as real
    ensures g.machine.circular.State() == Cursor(0, 0.0, true)
    ensures g.machine.elevation.State() == Cursor(args.elevationSegmentStart, 0.0, true)
    ensures r.Pass? ==> g.machine.circular.GridValue() == CircularGrid(args)
    ensures r.Pass? ==> g.machine.elevation.GridValue() == ElevationGrid(args)
  {
    g := new CodeGenerator();
    r := g.Setup(args);
  }

  /** The events `get_program` emits for a configuration, at most `budget`
      of them, and whether the loop ended by itself; a configuration that
      fails validation yields its error and no events. The loop ends after
      exactly `(elevation_segments - elevation_segment_start) *
      circle_segments` events when the circular sweep returns to index 0
      (circle mode, or two circular segments); otherwise it ends after
      `circle_segments` events when the elevation axis starts at its
      maximum, and never when it starts below. The first event moves the
      elevation axis to position 0, whatever its start index. */
  method PlanScan(args: Args, budget: nat) returns (r: Result<(seq<Event>, bool), ConfigError>)
    ensures r.Err? <==> CheckSetup(args).Fail?
    ensures r.Err? ==> r.error == CheckSetup(args).error
    ensures r.Ok? ==> |r.value.0| <= budget
    ensures r.Ok? ==> forall e :: e in r.value.0 ==> e.servo == ServoOf(args)
    ensures r.Ok? && budget > 0 ==> |r.value.0| > 0
    ensures r.Ok? && |r.value.0| > 0 ==>
      (r.value.0[0].circularPos == 0.0 && r.value.0[0].elevationPos == Some(0.0) && !r.value.0[0].resetCircular)
    ensures r.Ok? && SweepReturns(CircularGrid(args)) ==>
      var n := (args.elevationSegments - args.elevationSegmentStart) * args.circleSegments;
      && (r.value.1 <==> budget >= n)
      && |r.value.0| == (if budget < n then budget else n)
    ensures r.Ok? && !SweepReturns(CircularGrid(args)) && args.elevationSegmentStart == args.elevationSegments - 1 ==>
      && (r.value.1 <==> budget >= args.circleSegments)
      && |r.value.0| == (if budget < args.circleSegments then budget else args.circleSegments)
    ensures r.Ok? && !SweepReturns(CircularGrid(args)) && args.elevationSegmentStart < args.elevationSegments - 1 ==>
      !r.value.1 && |r.value.0| == budget
  {
    var g, outcome := Configure(args);
    if outcome.Fail? {
      return Err(outcome.error);
    }
    ghost var cg, eg := CircularGrid(args), ElevationGrid(args);
    ghost var s0 := Start(g.machine.circular.State(), g.machine.elevation.State());
    var events, finished := g.GetProgram(budget);
    RunFollowsSteps(cg, eg, s0, budget);
    if SweepReturns(cg) {
      SweepTerminates(cg, eg, s0.circ, s0.elev, budget);
    } else if args.elevationSegmentStart == args.elevationSegments - 1 {
      PartialModeAtTopEnds(cg, eg, s0, budget);
    } else {
      PartialModeRunsForever(cg, eg, s0, budget);
    }
    return Ok((events, finished));
  }
}
