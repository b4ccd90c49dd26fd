# Two-axis stage: calibration, grid planning and playback

This project models the sequencing core of a program that drives a two-axis
motorised stage (two Zaber linear axes, `axis_x` and `axis_y`) through a list
of waypoints, pausing at each one. It covers the three routines in
`src/main.cpp`:

- **Origin calibration** (`find_absolute_beginnings`). The operator types
  signed millimetre jogs for x until the first zero, then the same for y. Each
  non-zero jog sends `unpark; moveRelative; waitUntilIdle; park` to its axis
  and is added to that axis's accumulator. At the end the origin row
  `x0,y0,0` is written to the waypoint file.
- **Grid plan generation** (`generate_and_save_coordinates`). This is a
  row-major raster of waypoints `x0 + i*xs, y0 + j*ys, stay`. The loop bounds
  are floating-point step counts compared with `<`.
- **Line-driven playback** (`process_csv`). Each line is split by four
  `getline(…, ',')` extractions. x, y and the stay time are converted. Then
  the x axis moves, then the y axis, then the stage dwells and a visit record
  is written. A conversion or device error is reported and the loop goes on
  with the next line.

Layout:

- `model.dfy`: axes, stage events, rows, visits and reports.
- `driver.dfy`: the axis driver as a fault oracle, and `Exec`, which sends
  commands until one raises.
- `calibration.dfy`, `grid.dfy`, `fields.dfy` and `playback.dfy`: the
  specification functions and the lemmas about them.
- `stage.dfy`: the class `Stage`. Its methods are the imperative loops of the
  three routines, and each is proved equal to its specification function.

Abstractions:

- The console input of calibration is one finite sequence of numbers, shared
  by both axes, as `std::cin` is. Reading past its end counts as 0, because a
  failed `std::cin >> counter1` leaves 0. A zero (`0`, `00` or `0.0`) ends
  the axis.
- Which driver call raises is a parameter: the call at trace position k
  raises iff k is in `faults`. A call that raises is still in the trace, and
  no later call in the same exception scope is sent.
- `std::stod`, `std::stoi` and the wall clock are the parameters `stod`,
  `stoi` and `now` of `Playback.Runtime`.
- "File could not be opened" is the parameter `fileOpens`. When it is false
  the routine returns with no effect.

Behaviour of the code worth noting:

- A device error during playback does not end the run. The `catch` of
  `process_csv` (src/main.cpp:285-287) catches it, reports the line and goes
  on with the next line (`Playback.FailedLine`, `Playback.ErrorThenContinue`).
- A line qualifies only if four extractions succeed. That means at least
  three commas and some text after the third one. So the three-field rows
  that calibration (src/main.cpp:186) and grid generation (src/main.cpp:204)
  write are never acted on (`Playback.RowFileIsInert`).
- Negative step counts are not rejected. The loops simply run zero times.
  A fractional count c > 0 runs ⌈c⌉ times (`GridPlan.StepCountIsExact`).
- As written, `process_csv` does not compile: its first `try` has no handler,
  `output_file` is undeclared, and a second block goes on reading the same
  line stream (src/main.cpp:257-280). After a four-field record that stream is
  exhausted; a longer line would be read again from its fifth field. The model is the single intended pass: one
  move, one dwell and one record `x,y,stay,timestamp` per qualifying line.

## Model

| member | source | states |
|---|---|---|
| Driver.Exec | src/main.cpp:241-249 | calls are sent in order; the run stops at the first call that raises, and that call is sent; it completes iff no position of the block raises, and then all calls were sent |
| Driver.ExecConcat | src/main.cpp:241-249 | sending two blocks in one exception scope is sending the first and, only if it completed, the second |
| Calibration.Deltas | src/main.cpp:138-147 | the jogs used are the longest zero-free prefix of the input; input ends there or at a zero |
| Calibration.JogsAt | src/main.cpp:148-151 | delta k of an axis is sent as exactly calls 4k..4k+3: unpark, moveRelative(delta), waitUntilIdle, park |
| Calibration.JogsOnAxis | src/main.cpp:148-151 | calibration of one axis sends calls for that axis only |
| Calibration.CalibrateAxis | src/main.cpp:139-156 | defines one `while (first_flag)` loop: a zero or the end of input ends it with the rest unread; a non-zero jog sends its four calls and, if none raises, is added to the accumulator; a raising call ends the run with the accumulator unchanged. Its contract states that earlier calls are never changed; CalibrateAxisCompletes, CalibrateAxisResult and CalibrateAxisFails characterise it |
| Calibration.CalibrateAxisCompletes | src/main.cpp:139-156 | an axis loop completes iff none of its jog calls raises |
| Calibration.CalibrateAxisResult | src/main.cpp:139-156 | a completed axis loop sent one jog per delta before the sentinel, its accumulator is the start plus their sum, and the input after the sentinel is left unread |
| Calibration.CalibrateAxisPrefix | src/main.cpp:139-156 | whatever the faults, an axis loop has sent a prefix of the jogs of its deltas |
| Calibration.CalibrateAxisFails | src/main.cpp:148-151 | a failed axis loop ends at its first raising call: that call is sent, no earlier call of the loop raised, and nothing is sent after it |
| Calibration.Calibrate | src/main.cpp:138-183 | defines calibration: the x loop, then, only if it completed, the y loop on the rest of the same input. Its contract states that earlier calls are never changed; CalibrateCompletes, CalibrateResult, CalibrateAxisOrder and XFailureSkipsY characterise it |
| Calibration.CalibrateCompletes | src/main.cpp:138-183 | calibration of both axes completes iff no jog call of either axis raises |
| Calibration.CalibrateResult | src/main.cpp:138-183 | completed calibration: trace is all x jogs then all y jogs; x0 and y0 are the starts plus the sums of each axis's deltas before its sentinel |
| Calibration.CalibrateAxisOrder | src/main.cpp:138-183 | whatever the faults, every x-axis call of calibration precedes every y-axis call |
| Calibration.XFailureSkipsY | src/main.cpp:138-183 | a device error in the x loop fails calibration, and no y-axis call is sent after it |
| Calibration.SentinelExample | src/main.cpp:139-183 | the input 5, -2, 0, 0 calibrates x to 3 and y to 0 |
| GridPlan.StepCount | src/main.cpp:200-201 | the number of iterations of a double loop counter from 0 by 1 while below the bound: the least natural number at or above the bound |
| GridPlan.StepCountIsExact | src/main.cpp:200-201 | a loop with counter starting at 0, step 1 and bound b runs once for each natural number k with k < b, and only for those |
| GridPlan.Grid | src/main.cpp:200-206 | defines the plan: ny rows in order, row j being the x sweep at y0 + j*ySize, waypoint i of a sweep at x0 + i*xSize with the common stay time; GridSize and GridAt characterise it |
| GridPlan.GridSize | src/main.cpp:200-206 | the plan has exactly nx * ny waypoints |
| GridPlan.GridAt | src/main.cpp:200-204 | waypoint j*nx + i is at x0 + i*xSize, y0 + j*ySize with the common stay time (row-major order) |
| GridPlan.GridEmpty | src/main.cpp:200-201 | no columns or no rows gives an empty plan |
| GridPlan.NonPositiveBoundsGiveEmptyPlan | src/main.cpp:200-201 | a step count at or below zero gives an empty plan |
| GridPlan.GridExample | src/main.cpp:200-204 | origin (10, 5), 2 x 2 steps of 1 and 2 mm, stay 3 gives (10,5,3), (11,5,3), (10,7,3), (11,7,3) |
| CsvFields.GetField | src/main.cpp:236 | one extraction fails iff nothing is left; otherwise the field is comma-free and is either all the rest or followed by the consumed comma |
| CsvFields.Split4 | src/main.cpp:236 | defines the four chained extractions, failing as soon as one fails; Split4Sound and Split4Complete characterise it |
| CsvFields.Split4Sound | src/main.cpp:236 | a qualifying line starts with three comma-terminated fields and has text after the third comma; the fourth field is that text up to the next comma |
| CsvFields.Split4Complete | src/main.cpp:236 | every line of that shape qualifies, with exactly those fields |
| CsvFields.RecordRoundTrip | src/main.cpp:236 | a record line x,y,stay,timestamp with comma-free fields and a non-empty timestamp splits back into the same fields |
| CsvFields.ThreeFieldLineIgnored | src/main.cpp:236 | a three-field line x,y,n never qualifies |
| Playback.Classify | src/main.cpp:236-239 | defines how a line is handled: skipped when the extractions fail, malformed when a conversion fails, otherwise a waypoint from the three converted fields |
| Playback.PlayLine | src/main.cpp:232-287 | defines one iteration of the line loop: skip, conversion report, or the x and y blocks in one exception scope followed by dwell and record, with a device report on a raise; UnqualifiedLineIsInert, MalformedLine, CompletedLine and FailedLine characterise it |
| Playback.Play | src/main.cpp:231 | defines the line loop as the lines processed one after the other in file order; PlayConcat, PlayExtends and PlayWithoutFaults characterise it |
| Playback.UnqualifiedLineIsInert | src/main.cpp:236 | a line without four extractable fields sends no call and adds no record and no report |
| Playback.ThreeFieldRowIsInert | src/main.cpp:236 | a three-field row line changes nothing in playback |
| Playback.RowFileIsInert | src/main.cpp:231-236 | a whole file of three-field rows, as grid generation writes it, plays without any call, record or report, whatever the faults |
| Playback.MalformedLine | src/main.cpp:237-239 | a qualifying line whose numbers do not convert is reported as a conversion error and moves nothing |
| Playback.CompletedLine | src/main.cpp:241-251 | with no fault: the whole x sequence, then the whole y sequence, then one dwell of exactly the stay time, then one visit record |
| Playback.FailedLine | src/main.cpp:241-249 | with a fault: a non-empty prefix of the eight calls ending at the first raising one, with no earlier call raising, no dwell, no record, one device report |
| Playback.PlayConcat | src/main.cpp:231 | lines are processed in file order: playing a + b is playing b after a |
| Playback.ErrorThenContinue | src/main.cpp:285-287 | after the first line, whatever its outcome, playback resumes with the next line from the state it left |
| Playback.PlayExtends | src/main.cpp:231-287 | earlier calls, records and reports are never changed; each line adds at most one record or report |
| Playback.PlayWithoutFaults | src/main.cpp:231-254 | with a device that never errs: visits are exactly the waypoints of the convertible lines in file order, the trace is exactly their motions and dwells, and the reports are exactly the non-convertible lines |
| Playback.SkipAndContinue | src/main.cpp:231-287 | a malformed line between two good ones: exactly two records in order and one conversion report |
| Playback.RecordReplays | src/main.cpp:236-239 | a visit record written out and read back is replayed as the same waypoint when the conversions invert the formatting |
| Collimator.Stage.Send | src/main.cpp:148-151 | one driver call: it is appended to the trace, and it raises iff its trace position is a fault |
| Collimator.Stage.Block | src/main.cpp:241-244 | the four-call block on one axis behaves as Exec: it stops at the first call that raises |
| Collimator.Stage.JogAxis | src/main.cpp:138-156 | the while loop of one axis updates the trace, the accumulator and the input position exactly as CalibrateAxis |
| Collimator.Stage.FindAbsoluteBeginnings | src/main.cpp:124-190 | trace, x0, y0 and outcome are those of Calibrate; the file holds exactly the one origin row x0,y0,0 on success and nothing on a device error; no effect if the file does not open |
| Collimator.Stage.GenerateAndSaveCoordinates | src/main.cpp:192-210 | the file holds exactly Grid for the step counts of the two loop bounds; no effect if the file does not open |
| Collimator.Stage.ProcessCsv | src/main.cpp:223-291 | trace, records and reports are those of Play over the file's lines; no effect if the file does not open |

## Left out

- Device setup in `main` (serial port, device detection, homing; src/main.cpp:19-44) and the mode menu (src/main.cpp:56-112): hardware and console I/O, not sequencing logic.
- Console prompts and messages, and the "Moved to …" and error texts: output only.
- Number parsing and formatting (`std::stod`, `std::stoi`, `operator<<` on doubles, and the `std::cin >> double` of calibration): these are parameters or plain `real`/`int` values. IEEE rounding of positions and the 32-bit range of `int` are not modelled.
- `get_current_timestamp` (src/main.cpp:212-220): it reads the wall clock, so it is an opaque clock parameter. Records being non-decreasing in time is therefore not stated.
- `sleep_for` becomes a `Dwell(n)` event. A negative n is kept as given, although the real call returns at once.
- The duplicated second playback block (src/main.cpp:257-280) is a defect, not reproduced.
- Playback.RecordReplays: it assumes the conversions invert the formatting. The program writes doubles with the default six significant digits, so a position such as 123.4567 is written as 123.457 and does not read back as the same value; the round trip of positions does not hold for the program in general.
- Collimator.Stage.GenerateAndSaveCoordinates: loop counters are exact reals, so the double counters that stop increasing above 2^53 are not modelled.
- What the program does after a device error escapes calibration (main's `catch` reports it and exits) is outside these routines.
