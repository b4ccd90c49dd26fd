/**
 * The program's effects, step by step: the two axes (as the trace of the
 * calls sent to them), the waypoint file `data.csv` that calibration and grid
 * generation write, and the visit records and error reports of playback.
 * Each routine of src/main.cpp is a method that updates these fields as the
 * source does and is proved against the corresponding specification
 * function.
 */
module Collimator {
  import opened Wrappers
  import opened Model
  import opened Driver
  import opened Calibration
  import opened GridPlan
  import opened CsvFields
  import opened Playback

  class Stage {
    /** The driver's fault oracle: the call at trace position k raises iff k is in `faults`. */
    const faults: set<nat>
    /** Every call sent to the axes and every dwell, in order. */
    var trace: seq<Event>
    /** The rows of the waypoint file as last written. */
    var dataFile: seq<Row>
    /** The visit records of playback. */
    var visits: seq<Visit>
    /** The per-line error reports of playback. */
    var errors: seq<Report>

    function Snapshot(): Session
      reads this
    {
      Session(trace, visits, errors)
    }

    constructor (faults: set<nat>)
      ensures this.faults == faults
      ensures trace == [] && dataFile == [] && visits == [] && errors == []
    {
      this.faults := faults;
      trace, dataFile, visits, errors := [], [], [], [];
    }

    /** Sends one call to an axis; `ok` is false when it raises. */
    method Send(c: Event) returns (ok: bool)
      modifies this`trace
      ensures trace == old(trace) + [c]
      ensures ok <==> |old(trace)| !in faults
    {
      ok := |trace| !in faults;
      trace := trace + [c];
    }

    /**
     * `axis.unpark(); <move>; axis.waitUntilIdle(); axis.park();` — the first
     * call that raises ends the block.
     */
    method Block(a: Axis, move: Event) returns (ok: bool)
      modifies this`trace
      ensures (trace, ok) == Exec(old(trace), faults, [Unpark(a), move, WaitUntilIdle(a), Park(a)])
    {
      ghost var t0 := trace;
      ghost var cmds := [Unpark(a), move, WaitUntilIdle(a), Park(a)];
      ok := Send(Unpark(a));
      if !ok { return; }
      assert Exec(t0, faults, cmds) == Exec(trace, faults, cmds[1..]);
      ok := Send(move);
      if !ok { return; }
      assert Exec(t0, faults, cmds) == Exec(trace, faults, cmds[2..]);
      ok := Send(WaitUntilIdle(a));
      if !ok { return; }
      assert Exec(t0, faults, cmds) == Exec(trace, faults, cmds[3..]);
      ok := Send(Park(a));
    }

    /**
     * One `while (first_flag)` loop of find_absolute_beginnings on axis `a`:
     * reads from position `k0` of the operator's input, accumulating into
     * `acc`. Returns the accumulator, the next unread position and whether
     * no device error was raised.
     */
    method JogAxis(a: Axis, input: seq<real>, k0: nat, acc: real) returns (origin: real, k: nat, ok: bool)
      requires k0 <= |input|
      modifies this`trace
      ensures var r := CalibrateAxis(old(trace), faults, a, input[k0..], acc);
        && k <= |input| && trace == r.trace && origin == r.origin && ok == r.ok
        && (ok ==> input[k..] == r.rest)
    {
      ghost var r := CalibrateAxis(trace, faults, a, input[k0..], acc);
      origin, k, ok := acc, k0, true;
      var more := true;
      while more
        invariant k0 <= k <= |input|
        invariant more ==> CalibrateAxis(trace, faults, a, input[k..], origin) == r
        invariant !more ==> r == AxisRun(trace, origin, input[k..], true)
        decreases |input| - k, more
      {
        var d := 0.0;
        if k < |input| {
          d := input[k];
          k := k + 1;
        }
        if d == 0.0 {
          more := false;
        } else {
          ok := Block(a, MoveRelative(a, d));
          if !ok { return; }
          origin := origin + d;
        }
      }
    }

    /**
     * find_absolute_beginnings. `x` and `y` are the values of the
     * by-reference accumulators on entry, `input` the numbers the operator
     * types; `ok` is false when a device error escaped the routine.
     */
    method FindAbsoluteBeginnings(fileOpens: bool, input: seq<real>, x: real, y: real)
      returns (x0: real, y0: real, ok: bool)
      modifies this`trace, this`dataFile
      ensures !fileOpens ==> trace == old(trace) && dataFile == old(dataFile) && x0 == x && y0 == y && ok
      ensures fileOpens ==>
        var r := Calibrate(old(trace), faults, input, x, y);
        && trace == r.trace && x0 == r.x0 && y0 == r.y0 && ok == r.ok
        && dataFile == (if r.ok then [Row(r.x0, r.y0, 0)] else [])
    {
      x0, y0, ok := x, y, true;
      if !fileOpens { return; }
      dataFile := [];
      var k;
      x0, k, ok := JogAxis(X, input, 0, x);
      if !ok { return; }
      y0, k, ok := JogAxis(Y, input, k, y);
      if !ok { return; }
      dataFile := dataFile + [Row(x0, y0, 0)];
    }
 
    /**
     * generate_and_save_coordinates: opens (and so empties) the waypoint file
     * and streams one row per waypoint into it, outer loop over y, inner loop
     * over x. The step counts are the floating-point bounds of the loops.
     */
    method GenerateAndSaveCoordinates(fileOpens: bool, g: GridSpec, xSteps: real, ySteps: real)
      modifies this`dataFile
      ensures dataFile == if fileOpens then Grid(g, StepCount(xSteps), StepCount(ySteps)) else old(dataFile)
    {
      if !fileOpens { return; }
      dataFile := [];
      var nx := StepCount(xSteps);
      var y := 0.0;
      ghost var j: nat := 0;
      while y < ySteps
        invariant y == j as real && j <= StepCount(ySteps)
        invariant dataFile == Grid(g, nx, j)
        decreases StepCount(ySteps) - j
      {
        StepCountIsExact(ySteps, j);
        var yPosition := g.y0 + y * g.ySize;
        var x := 0.0;
        ghost var i: nat := 0;
        while x < xSteps
          invariant x == i as real && i <= nx
          invariant dataFile == Grid(g, nx, j) + Sweep(g, yPosition, i)
          decreases nx - i
        {
          StepCountIsExact(xSteps, i);
          var point := Row(g.x0 + x * g.xSize, yPosition, g.stay);
          assert point.x == Coord(g.x0, i, g.xSize);
          assert Sweep(g, yPosition, i + 1) == Sweep(g, yPosition, i) + [point];
          dataFile := dataFile + [point];
          x, i := x + 1.0, i + 1;
        }
        StepCountIsExact(xSteps, i);
        assert yPosition == Coord(g.y0, j, g.ySize);
        assert Grid(g, nx, j + 1) == Grid(g, nx, j) + Sweep(g, yPosition, nx);
        y, j := y + 1.0, j + 1;
      }
      StepCountIsExact(ySteps, j);
    }

    /**
     * process_csv with the single move-dwell-record pass: every line of the
     * file, in order, is split, converted, moved to, dwelt at and recorded;
     * an error on a line is reported and the loop goes on with the next.
     */
    method ProcessCsv(fileOpens: bool, lines: seq<string>, rt: Runtime)
      modifies this`trace, this`visits, this`errors
      ensures Snapshot() == if fileOpens then Play(old(Snapshot()), faults, rt, lines) else old(Snapshot())
    {
      if !fileOpens { return; }
      ghost var s0 := Snapshot();
      for n := 0 to |lines|
        invariant Snapshot() == Play(s0, faults, rt, lines[..n])
      {
        ghost var before := Snapshot();
        var line := lines[n];
        var fields := Split4(line);
        if fields.Some? {
          var f := fields.value;
          var x, y, stay := rt.stod(f.x), rt.stod(f.y), rt.stoi(f.stay);
          if x.None? || y.None? || stay.None? {
            errors := errors + [Report(line, Conversion)];
          } else {
            var p := Row(x.value, y.value, stay.value);
            ExecConcat(trace, faults, MoveTo(X, p.x), MoveTo(Y, p.y));
            var ok := Block(X, MoveAbsolute(X, p.x));
            if ok {
              ok := Block(Y, MoveAbsolute(Y, p.y));
            }
            if !ok {
              errors := errors + [Report(line, Device)];
            } else {
              trace := trace + [Dwell(p.stay)];
              visits := visits + [Visit(p, rt.now(|trace|))];
            }
          }
        }
        assert Snapshot() == PlayLine(before, faults, rt, line);
        assert lines[..n + 1][..n] == lines[..n];
      }
      assert lines[..|lines|] == lines;
    }
  }
}
