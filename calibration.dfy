/**
 * Origin calibration (find_absolute_beginnings): the operator types signed
 * millimetre jogs for the x axis until a zero, then for the y axis until a
 * zero. Every non-zero jog moves the axis and is added to that axis's
 * accumulator; the accumulators are the calibrated origin.
 *
 * Both axes read the same console stream, modelled as one finite sequence of
 * numbers. A read past its end stands for a failed `std::cin >> counter1`,
 * which leaves `counter1` at 0 and so also ends the axis.
 */
module Calibration {
  import opened Model
  import opened Driver

  /** The jogs the operator entered before the first zero (the sentinel). */
  function Deltas(input: seq<real>): (r: seq<real>)
    ensures r <= input
    ensures forall i :: 0 <= i < |r| ==> r[i] != 0.0
    ensures |r| == |input| || input[|r|] == 0.0
  {
    if |input| == 0 || input[0] == 0.0 then [] else [input[0]] + Deltas(input[1..])
  }

  /** What is left of the stream once the sentinel has been read. */
  function Remaining(input: seq<real>): seq<real> {
    var n := |Deltas(input)|;
    if n < |input| then input[n + 1..] else []
  }

  function Sum(ds: seq<real>): real {
    if |ds| == 0 then 0.0 else ds[0] + Sum(ds[1..])
  }

  /** The commands of a sequence of jogs on one axis, one `Jog` per delta. */
  function Jogs(a: Axis, ds: seq<real>): seq<Event> {
    if |ds| == 0 then [] else Jog(a, ds[0]) + Jogs(a, ds[1..])
  }

  /** Delta number k of `ds` is sent as exactly commands 4k .. 4k+3. */
  lemma {:induction false} JogsAt(a: Axis, ds: seq<real>, k: nat)
    requires k < |ds|
    ensures |Jogs(a, ds)| == 4 * |ds|
    ensures Jogs(a, ds)[4 * k..4 * k + 4] == Jog(a, ds[k])
  {
    JogsLength(a, ds[1..]);
    if k > 0 {
      JogsAt(a, ds[1..], k - 1);
      assert Jogs(a, ds)[4 * k..4 * k + 4] == Jogs(a, ds[1..])[4 * (k - 1)..4 * (k - 1) + 4];
    }
  }

  lemma {:induction false} JogsLength(a: Axis, ds: seq<real>)
    ensures |Jogs(a, ds)| == 4 * |ds|
  {
    if |ds| > 0 { JogsLength(a, ds[1..]); }
  }

  /** Calibration of one axis sends commands for that axis only. */
  lemma {:induction false} JogsOnAxis(a: Axis, ds: seq<real>, i: nat)
    requires i < |Jogs(a, ds)|
    ensures OnAxis(Jogs(a, ds)[i], a)
  {
    if i >= 4 { JogsOnAxis(a, ds[1..], i - 4); }
  }

  /** The outcome of one axis: trace, accumulator, unread input, and whether no device error was raised. */
  datatype AxisRun = AxisRun(trace: seq<Event>, origin: real, rest: seq<real>, ok: bool)

  /**
   * One `while (first_flag)` loop on axis `a`, with the accumulator starting
   * at `acc` (the by-reference out-parameter). A device error leaves the
   * accumulator without the failing jog and ends the run.
   */
  function CalibrateAxis(t: seq<Event>, faults: set<nat>, a: Axis, input: seq<real>, acc: real): (r: AxisRun)
    ensures t <= r.trace
    decreases |input|
  {
    if |input| == 0 then AxisRun(t, acc, [], true)
    else if input[0] == 0.0 then AxisRun(t, acc, input[1..], true)
    else
      var e := Exec(t, faults, Jog(a, input[0]));
      if !e.1 then AxisRun(e.0, acc, input[1..], false)
      else CalibrateAxis(e.0, faults, a, input[1..], acc + input[0])
  }

  /** An axis run completes iff none of the jog commands of its deltas raises. */
  lemma {:induction false} CalibrateAxisCompletes(t: seq<Event>, faults: set<nat>, a: Axis, input: seq<real>, acc: real)
    ensures CalibrateAxis(t, faults, a, input, acc).ok <==> FaultFree(faults, |t|, |t| + 4 * |Deltas(input)|)
    decreases |input|
  {
    if |input| > 0 && input[0] != 0.0 {
      var e := Exec(t, faults, Jog(a, input[0]));
      DeltasStep(a, input);
      FaultFreeSplit(faults, |t|, |t| + 4, |t| + 4 * |Deltas(input)|);
      if e.1 {
        CalibrateAxisCompletes(e.0, faults, a, input[1..], acc + input[0]);
      }
    } else {
      assert Deltas(input) == [];
    }
  }

  /**
   * A completed axis run has sent exactly one `Jog` per delta before the
   * sentinel, its origin is the start plus their sum, and the input after the
   * sentinel is left unread.
   */
  lemma {:induction false} CalibrateAxisResult(t: seq<Event>, faults: set<nat>, a: Axis, input: seq<real>, acc: real)
    requires CalibrateAxis(t, faults, a, input, acc).ok
    ensures CalibrateAxis(t, faults, a, input, acc)
      == AxisRun(t + Jogs(a, Deltas(input)), acc + Sum(Deltas(input)), Remaining(input), true)
    decreases |input|
  {
    if |input| > 0 && input[0] != 0.0 {
      var e := Exec(t, faults, Jog(a, input[0]));
      DeltasStep(a, input);
      CalibrateAxisResult(e.0, faults, a, input[1..], acc + input[0]);
    } else {
      assert Deltas(input) == [];
    }
  }

  /** How the deltas, unread input, sum and jogs of a stream relate to those of its tail. */
  lemma DeltasStep(a: Axis, input: seq<real>)
    requires |input| > 0 && input[0] != 0.0
    ensures var d, ds, ds' := input[0], Deltas(input), Deltas(input[1..]);
      && |ds| == 1 + |ds'|
      && Remaining(input) == Remaining(input[1..])
      && Sum(ds) == d + Sum(ds')
      && Jogs(a, ds) == Jog(a, d) + Jogs(a, ds')
  {
    var ds, ds' := Deltas(input), Deltas(input[1..]);
    assert ds[1..] == ds';
  }

  /** A range is fault-free iff both of its halves are. */
  lemma FaultFreeSplit(faults: set<nat>, lo: nat, mid: nat, hi: nat)
    requires lo <= mid <= hi
    ensures FaultFree(faults, lo, hi) <==> FaultFree(faults, lo, mid) && FaultFree(faults, mid, hi)
  {
  }

  /** Whatever the faults, an axis run has sent a prefix of the jogs of its deltas. */
  lemma {:induction false} CalibrateAxisPrefix(t: seq<Event>, faults: set<nat>, a: Axis, input: seq<real>, acc: real)
    ensures CalibrateAxis(t, faults, a, input, acc).trace <= t + Jogs(a, Deltas(input))
    decreases |input|
  {
    if |input| > 0 && input[0] != 0.0 {
      var d, tail := input[0], input[1..];
      var e := Exec(t, faults, Jog(a, d));
      assert Deltas(input) == [d] + Deltas(tail);
      assert t + Jogs(a, Deltas(input)) == t + Jog(a, d) + Jogs(a, Deltas(tail));
      if e.1 {
        CalibrateAxisPrefix(e.0, faults, a, tail, acc + d);
      }
    }
  }

  /**
   * A failed axis run ends at the first jog call that raised: that call was
   * sent, no earlier call of the run raised, and nothing was sent after it.
   */
  lemma {:induction false} CalibrateAxisFails(t: seq<Event>, faults: set<nat>, a: Axis, input: seq<real>, acc: real)
    requires !CalibrateAxis(t, faults, a, input, acc).ok
    ensures var r := CalibrateAxis(t, faults, a, input, acc);
      |t| < |r.trace| && (|r.trace| - 1) in faults && FaultFree(faults, |t|, |r.trace| - 1)
    decreases |input|
  {
    var e := Exec(t, faults, Jog(a, input[0]));
    if e.1 {
      CalibrateAxisFails(e.0, faults, a, input[1..], acc + input[0]);
    }
  }

  /** Both axes: the final trace, the origin and whether no device error escaped. */
  datatype CalibrationRun = CalibrationRun(trace: seq<Event>, x0: real, y0: real, ok: bool)

  /**
   * The x axis is calibrated completely, then the y axis from the rest of the
   * stream. A device error on x propagates before y is touched.
   */
  function Calibrate(t: seq<Event>, faults: set<nat>, input: seq<real>, x0: real, y0: real): (r: CalibrationRun)
    ensures t <= r.trace
  {
    var rx := CalibrateAxis(t, faults, X, input, x0);
    if !rx.ok then CalibrationRun(rx.trace, rx.origin, y0, false)
    else
      var ry := CalibrateAxis(rx.trace, faults, Y, rx.rest, y0);
      CalibrationRun(ry.trace, rx.origin, ry.origin, ry.ok)
  }

  /** Calibration succeeds iff no jog command of either axis raises. */
  lemma CalibrateCompletes(t: seq<Event>, faults: set<nat>, input: seq<real>, x0: real, y0: real)
    ensures var xs, ys := Deltas(input), Deltas(Remaining(input));
      Calibrate(t, faults, input, x0, y0).ok <==> FaultFree(faults, |t|, |t| + 4 * (|xs| + |ys|))
  {
    var xs, ys := Deltas(input), Deltas(Remaining(input));
    var rx := CalibrateAxis(t, faults, X, input, x0);
    CalibrateAxisCompletes(t, faults, X, input, x0);
    FaultFreeSplit(faults, |t|, |t| + 4 * |xs|, |t| + 4 * (|xs| + |ys|));
    if rx.ok {
      CalibrateAxisResult(t, faults, X, input, x0);
      JogsLength(X, xs);
      CalibrateAxisCompletes(rx.trace, faults, Y, rx.rest, y0);
    }
  }

  /**
   * A successful calibration has moved x by each of its jogs and then y by
   * each of its jogs, and the origin is each axis's start plus the sum of
   * that axis's jogs before its sentinel.
   */
  lemma CalibrateResult(t: seq<Event>, faults: set<nat>, input: seq<real>, x0: real, y0: real)
    requires Calibrate(t, faults, input, x0, y0).ok
    ensures var xs, ys := Deltas(input), Deltas(Remaining(input));
      Calibrate(t, faults, input, x0, y0)
        == CalibrationRun(t + Jogs(X, xs) + Jogs(Y, ys), x0 + Sum(xs), y0 + Sum(ys), true)
  {
    var rx := CalibrateAxis(t, faults, X, input, x0);
    CalibrateAxisResult(t, faults, X, input, x0);
    CalibrateAxisResult(rx.trace, faults, Y, rx.rest, y0);
  }

  /**
   * Whatever the faults, every x-axis command of a calibration run precedes
   * every y-axis command.
   */
  lemma CalibrateAxisOrder(t: seq<Event>, faults: set<nat>, input: seq<real>, x0: real, y0: real, i: nat, j: nat)
    requires var r := Calibrate(t, faults, input, x0, y0);
      |t| <= i < |r.trace| && |t| <= j < |r.trace| && OnAxis(r.trace[i], X) && OnAxis(r.trace[j], Y)
    ensures i < j
  {
    var r := Calibrate(t, faults, input, x0, y0);
    var xs, ys := Deltas(input), Deltas(Remaining(input));
    var rx := CalibrateAxis(t, faults, X, input, x0);
    CalibrateAxisPrefix(t, faults, X, input, x0);
    if rx.ok {
      CalibrateAxisResult(t, faults, X, input, x0);
      CalibrateAxisPrefix(rx.trace, faults, Y, rx.rest, y0);
      var n := |rx.trace|;
      if j < n {
        JogsOnAxis(X, xs, j - |t|);
      } else if i >= n {
        JogsOnAxis(Y, ys, i - n);
      }
    } else {
      JogsOnAxis(X, xs, j - |t|);
    }
  }

  /** A device error during the x loop propagates before any y-axis call is sent. */
  lemma XFailureSkipsY(t: seq<Event>, faults: set<nat>, input: seq<real>, x0: real, y0: real, i: nat)
    requires !CalibrateAxis(t, faults, X, input, x0).ok
    requires |t| <= i < |Calibrate(t, faults, input, x0, y0).trace|
    ensures !Calibrate(t, faults, input, x0, y0).ok
    ensures !OnAxis(Calibrate(t, faults, input, x0, y0).trace[i], Y)
  {
    var r := Calibrate(t, faults, input, x0, y0);
    CalibrateAxisPrefix(t, faults, X, input, x0);
    JogsOnAxis(X, Deltas(input), i - |t|);
  }

  /** The stream `5 -2 0 0` calibrates x to 3 and y to 0 (an immediate sentinel). */
  lemma SentinelExample()
    ensures Calibrate([], {}, [5.0, -2.0, 0.0, 0.0], 0.0, 0.0).x0 == 3.0
    ensures Calibrate([], {}, [5.0, -2.0, 0.0, 0.0], 0.0, 0.0).y0 == 0.0
  {
    var input := [5.0, -2.0, 0.0, 0.0];
    assert Deltas(input[2..]) == [];
    assert Deltas(input) == [5.0, -2.0];
    assert Remaining(input) == [0.0];
    assert Deltas([0.0]) == [];
    CalibrateCompletes([], {}, input, 0.0, 0.0);
    CalibrateResult([], {}, input, 0.0, 0.0);
  }
}
