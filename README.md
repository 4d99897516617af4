# Scan planner of the photogrammetry G-code generator

This project models the core of the `circular-first-then-elevation` G-code
generator. The generator plans a scan for a two-axis machine. A rotary
("circular") axis makes the fast inner sweep. A linear ("elevation") axis takes
one step each time the circular sweep comes back to its origin. A servo trigger
cycle runs at every visited position.

The model covers four parts:

- **Grid validation and derivation** (module `Segments`, class
  `Generator.Axis`). The segment count must be positive, the travel must be
  positive, and the movement window must lie inside the grid. The model derives
  the segment length and the full-grid bounds 0 and `count - 1`. For the circular
  axis it also derives the perimeter `2·π·radius` and uses it as the travel.
- **The two stepping policies** (`Segments.LinearNext`,
  `Segments.CircularNext`). The classes step in place by these functions.
  - The linear axis oscillates between the full-grid bounds and keeps a stored
    direction.
  - In circle mode, the circular axis steps forward and jumps back to index 0,
    position 0 after the maximum.
  - In partial mode, the circular axis steps back from the maximum and forward
    from every other index.
- **The traversal loop of `get_program`** (module `Sequencer` for the
  specification, `Generator.CodeGenerator.GetProgram` for the loop itself).
  Each iteration emits one event record: the circular position, the reset flag,
  the optional elevation position and the servo cycle. The loop then either stops
  with both axes at their grid maximum or advances the axes.
- **The two small pure helpers**: `Exporter.compress` (strip lines, drop comments
  and empty lines) and the unsigned-integer validators `assert_uint` and the
  nested `uint`.

Results about the traversal, proved for all configurations:

- When the circular sweep returns to index 0, the loop ends after exactly
  `(elevation_segments - elevation_segment_start) * circle_segments` events. The
  sweep returns to 0 in circle mode, and also in partial mode with two circular
  segments, where the step down from the maximum lands on 0.
- In partial mode with three or more circular segments, the circular index never
  comes back to 0. The elevation axis therefore never moves, and the loop ends
  only if the elevation axis already starts at its maximum.

The docstring of `CircularAxis.compute_next_position` says that partial mode
oscillates from the minimum to the maximum and back. The code does not do that:
it bounces between the maximum and the index below it. The model follows the
code, and `Segments.PartialModeBounces` shows where it departs from the linear
oscillation.

The generator's description says the scan "repeats until elevation max is
reached". This holds for sweeps that return to index 0. In partial mode with
three or more circular segments the loop ends only when the elevation axis
starts at its maximum, after one partial sweep of `circle_segments` events; it
runs forever when the elevation starts below its maximum.

`setup` sets the elevation index to its window start but never sets the
elevation position. The first event therefore moves the elevation axis to
position 0 (`Generator.PlanScan`).

Positions are `real`. `math.pi` is the constant `Segments.Pi`. Events are
records, and `Sequencer.EventLines` gives every line each event renders to, in
order, as an abstract command without its text. That includes the comment line
before the reset and the empty line that opens the servo block.

## Model

| member | source | states |
|---|---|---|
| `Helpers.AssertUint` | helpers.py:4-8 | a value is accepted exactly when it is non-negative and inside every bound that is truthy; an accepted value comes back unchanged, anything else raises `ValueError` |
| `Helpers.Uint` | generators/default.py:171-179 | the chain of separate tests decides every input exactly as `assert_uint` does |
| `Helpers.NegativeRejected` | helpers.py:6 | every negative integer is rejected, whatever the bounds |
| `Helpers.ZeroBoundIgnored` | helpers.py:6 | bounds of 0 or `None` are falsy and reject nothing: any non-negative value passes |
| `Exporter.TrimStart` | main.py:43 | only leading whitespace is removed, and the result does not start with whitespace |
| `Exporter.TrimEnd` | main.py:43 | only trailing whitespace is removed, and the result does not end with whitespace |
| `Exporter.Strip` | main.py:43 | `strip()` returns a slice of the line with only whitespace cut from either side and no whitespace left at either end |
| `Exporter.StripAll` | main.py:43 | one stripped line per input line, in the same position |
| `Exporter.Filter` | main.py:44-45 | a filtered list is no longer than its input; it keeps exactly the elements that pass the test: each kept element is from the input and passes, and each input element that passes is kept |
| `Exporter.FilterAppend` | main.py:44-45 | filtering works element by element and keeps the original order: filtering `a + b` gives the filtered `a` followed by the filtered `b` |
| `Exporter.Compress` | main.py:39-45 | with the flag off the lines come back unchanged; with it on, every output line is non-empty, is not a comment, and is the stripped form of some input line |
| `Exporter.CompressOne` | main.py:43-45 | a single line is kept, in stripped form, exactly when its stripped form is neither empty nor starts with `;` |
| `Exporter.CompressAppend` | main.py:43-45 | compression works line by line and keeps the original relative order: compressing `a + b` gives the compressed `a` followed by the compressed `b` |
| `Exporter.CompressIdempotent` | main.py:43-45 | compressing already compressed lines changes nothing |
| `Exporter.StripStripped` | main.py:43 | a line with no whitespace at either end strips to itself |
| `Segments.CheckGrid` | generators/default.py:56-66 | validation passes exactly when count > 0, travel > 0 and 0 ≤ start ≤ end ≤ count-1; a non-positive count is reported first, then a non-positive travel |
| `Segments.CheckCircle` | generators/default.py:98-103 | the circular axis passes exactly when its radius, count and window are valid; a non-positive radius is reported before anything else, and the travel check cannot fail |
| `Segments.SegmentLength` | generators/default.py:58-60 | segment length × segment count equals the travel, and the length is positive when the travel is |
| `Segments.Perimeter` | generators/default.py:100 | a positive radius gives a positive perimeter |
| `Segments.DeriveGrid` | generators/default.py:56-66 | a grid that passed validation has minimum index 0, maximum index count-1, the window as configured, and segments that tile the travel exactly |
| `Segments.Shift` | generators/default.py:86-88 | a step moves the index by ±1 and the position by the same sign × the segment length, so the offset `pos - index·length` is kept |
| `Segments.LinearNext` | generators/default.py:77-88 | at or below the grid minimum the direction turns up, at or above the maximum (above the minimum) it turns down, otherwise it is kept; the index moves one step that way and the offset is kept |
| `Segments.CircularNext` | generators/default.py:105-128 | circle mode: from the maximum to index 0 and position 0, otherwise one step forward; partial mode: −1 at the maximum and +1 at every other index; the stored direction is never changed |
| `Segments.LinearStaysInGrid` | generators/default.py:77-88 | with at least two segments and a start inside the grid, the linear index stays in [0, count-1] after any number of steps |
| `Segments.SingleSegmentAlternates` | generators/default.py:77-88 | with one segment, the linear index alternates 0, 1, 0, … |
| `Segments.LinearKeepsOffset` | generators/default.py:86-88 | any number of linear steps keeps `pos - index·length` |
| `Segments.CircleModeReturnsToOrigin` | generators/default.py:112-117 | in circle mode the index climbs one per step and is back at index 0, position 0 after `count - index` steps |
| `Segments.PartialModeNeverReturns` | generators/default.py:118-125 | in partial mode with three or more segments, every step after the first lands in [1, count-1] |
| `Segments.PartialModeBounces` | generators/default.py:105-125 | in partial mode from the maximum, the axis goes to max-1 and straight back to max, where the linear policy would reach max-2 |
| `Sequencer.ServoLines` | generators/default.py:337-345 | the servo block is an empty line (the text opens with a line break), then pre-dwell, actuate, actuate-dwell, release, post-dwell |
| `Sequencer.EventLines` | generators/default.py:347-356 | an event renders to `7 + 2·reset + elevation` lines: the circular move; the reset comment and `G92 X0` exactly when the reset is flagged; the elevation move exactly when it is flushed; then the six servo lines |
| `Sequencer.Emit` | generators/default.py:347-356 | an event carries the current circular position, the reset flag, the elevation position exactly when it is flushed, and the servo block |
| `Segments.IsMaxSegment` | generators/default.py:44-46 | an axis is at its maximum when its index is at or above the grid maximum (a definition, no contract) |
| `Segments.IsMinSegment` | generators/default.py:48-50 | an axis is at its minimum when its index is at or below the grid minimum (a definition, no contract) |
| `Segments.RepresentsCircle` | generators/default.py:127-128 | the circular axis is in circle mode when its window spans all `count` segments (a definition, no contract) |
| `Sequencer.Start` | generators/default.py:361-362 | the loop starts with the elevation flush armed and no circular reset (a definition, no contract) |
| `Sequencer.Done` | generators/default.py:367 | the loop's exit test: both axes at their grid maximum (a definition, no contract) |
| `Sequencer.Run` | generators/default.py:358-375 | a run never emits more events than its bound; a finished run stopped in a state that passes the exit test; an unfinished run has used up its whole bound (the full characterisation is `Sequencer.RunFollowsSteps`) |
| `Sequencer.Advance` | generators/default.py:369-373 | after a non-final event the circular axis steps; the elevation axis steps and both flags are armed exactly when the circular index is then at or below its minimum |
| `Sequencer.Events` | generators/default.py:364 | one event per visited state, in order |
| `Sequencer.RunFollowsSteps` | generators/default.py:358-375 | the loop emits the states reached by repeated transitions; it stops right after the first state with both axes at the grid maximum, or when the bound is used up; the axes are left in that state or in the state after the last event |
| `Sequencer.FlagsTravelTogether` | generators/default.py:361-373 | the first event flushes the elevation without a reset; in every later event the reset flag equals the elevation flag |
| `Sequencer.SweepEnds` | generators/default.py:363-373 | in a returning sweep with the elevation axis moving up, the loop ends after exactly the remaining count of events, and the elevation index stays between its start and its maximum |
| `Sequencer.SweepTerminates` | generators/default.py:358-375 | from the state `setup` leaves, a returning sweep ends after exactly `(count_e - start)·count_c` events and never takes the elevation index above its maximum |
| `Sequencer.PartialModeRunsForever` | generators/default.py:367-373 | in partial mode with three or more circular segments and the elevation below its maximum, the elevation never moves and the loop never ends |
| `Sequencer.PartialModeAtTopEnds` | generators/default.py:367-373 | in partial mode with three or more circular segments and the elevation at its maximum, the loop ends when the circular axis first reaches its maximum |
| `Generator.Axis.constructor` | generators/default.py:9-30 | a new axis has index 0, position 0, direction up and every bound zero |
| `Generator.Axis.UpdateGrid` | generators/default.py:56-66 | the outcome is `CheckGrid` of the fields; on success the derived grid and travel are stored; nothing changes when the count check fails |
| `Generator.Axis.Update` | generators/default.py:98-103 | circular kind: a radius check, then travel from 0 to the perimeter, then the grid update; no index, position or direction changes |
| `Generator.Axis.StepLinear` | generators/default.py:77-88 | the new index, position and direction are `LinearNext` of the old ones |
| `Generator.Axis.StepCircular` | generators/default.py:105-125 | the new index and position are `CircularNext` of the old ones |
| `Generator.Axis.ComputeNextPosition` | generators/default.py:68-69 | each kind of axis steps by its own policy |
| `Generator.Machine.constructor` | generators/default.py:153-157 | a new machine owns a fresh circular axis and a fresh, distinct elevation axis |
| `Generator.Machine.Update` | generators/default.py:136-138 | the circular axis is validated first; the elevation axis is validated only if that passed, and is untouched otherwise; the configured counts, windows and elevation bounds are kept; on success the circular axis spans 0 to its perimeter and both axes carry their derived grid and travel |
| `Generator.CheckSetup` | generators/default.py:231-256 | `setup` succeeds exactly when the radius is positive, 0 ≤ segments_to_move ≤ circle_segments-1, and the elevation grid and window are valid |
| `Generator.CodeGenerator.constructor` | generators/default.py:166-169 | a new generator owns a fresh, valid machine with both axes at index 0 |
| `Generator.CodeGenerator.Setup` | generators/default.py:231-256 | the options are copied into the axes and the servo; the circular window starts at 0; `elevation_min`/`elevation_max` become the elevation axis's position bounds; the elevation index becomes the window start while its position is untouched; the result is `CheckSetup`; on success the circular axis runs from 0 to the perimeter `2·π·radius`, and both axes carry their derived grid and travel |
| `Generator.CodeGenerator.CodeForCurrentPosition` | generators/default.py:347-356 | the event built from the current axes equals `Emit` of the current state |
| `Generator.CodeGenerator.GetProgram` | generators/default.py:358-375 | the events, the finished flag and the final axis states are those of `Sequencer.Run` from the current state; only the index, position and direction of the axes may change |
| `Generator.Configure` | main.py:31-37 | a fresh generator set up from the options: circular axis at index 0, position 0; elevation at its window start but position 0; the feed rate, the servo block and the elevation bounds are the options; the outcome is `CheckSetup` |
| `Generator.PlanScan` | generators/default.py:358-375 | for any configuration: the validation error, or the events; the loop ends after exactly `(count_e - start)·count_c` events when the sweep returns to 0; otherwise it ends after `count_c` events when the elevation starts at its maximum and never when it starts below; the first event moves the elevation to 0; every event carries the configured servo block |

## Left out

- Command-line parsing (`argparse` groups, defaults, help texts), the `info` summary printed by `setup`, and the `name`/`description` strings: configuration plumbing and console output. The parsed options are the `Generator.Args` record.
- File I/O in `Exporter.run`: the existence check, `exit(1)`, writing the file and `os.stat`. The joining of preamble, program and postamble into one file is also left out.
- `environ_or_default`: it reads the process environment.
- The preamble and postamble templates and the `{:.1f}` number formatting: fixed text and float-to-text conversion. Program lines are the abstract `Sequencer.Command` values.
- `_is_max_pos_mm`, `_is_min_pos_mm` and `_is_min_or_max_pos_mm`: nothing calls them. `is_min_or_max_pos_segment` is also never called.
- `code_generator_base.py`: an abstract base whose methods only raise `NotImplementedError`.
- `Servo.update`: it does nothing, so `Generator.Machine.Update` does not model it.
- Python's `int(x)` conversion in `assert_uint` and `uint`: the model takes an already parsed integer.
- Floating point: positions and lengths are exact reals, so rounding drift from repeated additions is not modelled. `math.pi` is the real constant 3.141592653589793.
- Generator.CodeGenerator.GetProgram: takes a bound on the number of events, because the source loop can run forever in partial mode with three or more circular segments when the elevation starts below its maximum. Within the bound it does exactly what the source loop does; `finished` says whether the loop's own exit test ended it.
- Generator.CodeGenerator.GetProgram: returns event records rather than the flat list of text lines. `Sequencer.EventLines` gives each event's lines in order, as abstract commands without their text.
- Generator.Axis: one class with a kind tag stands for `LinearAxis` and `CircularAxis`. `Generator.Machine` stands for `MachineParameter` together with `Axes`.
- Generator.Axis.Update: an assertion failure is returned as an `Outcome` error instead of raising `AssertionError`.
