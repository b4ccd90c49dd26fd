/**
 * The axis driver seen from the program: commands are sent one at a time and
 * each either completes or raises a device error. Which commands raise is an
 * oracle: the command that lands at position k of the event trace raises iff
 * k is in `faults`. A raising command has been sent, so it is in the trace,
 * and nothing after it in the same exception scope is sent.
 */
module Driver {
  import opened Model

  /** No trace position in [lo, hi) raises. */
  predicate FaultFree(faults: set<nat>, lo: nat, hi: nat) {
    forall k: nat :: lo <= k < hi ==> k !in faults
  }

  /**
   * Sends `cmds` in order after trace `t` and stops at the first command that
   * raises; the flag tells whether all of them completed.
   */
  function Exec(t: seq<Event>, faults: set<nat>, cmds: seq<Event>): (r: (seq<Event>, bool))
    ensures |t| <= |r.0| <= |t| + |cmds|
    ensures r.0 == t + cmds[..|r.0| - |t|]
    ensures r.1 <==> FaultFree(faults, |t|, |t| + |cmds|)
    ensures r.1 ==> r.0 == t + cmds
    ensures !r.1 ==> |t| < |r.0| && (|r.0| - 1) in faults && FaultFree(faults, |t|, |r.0| - 1)
    decreases |cmds|
  {
    if |cmds| == 0 then (t, true)
    else if |t| in faults then (t + [cmds[0]], false)
    else
      var r' := Exec(t + [cmds[0]], faults, cmds[1..]);
      assert t + cmds[..|r'.0| - |t|] == t + [cmds[0]] + cmds[1..][..|r'.0| - |t| - 1];
      r'
  }

  /** The four calls of one calibration jog: `unpark; moveRelative(d); waitUntilIdle; park`. */
  function Jog(a: Axis, d: real): seq<Event> {
    [Unpark(a), MoveRelative(a, d), WaitUntilIdle(a), Park(a)]
  }

  /** The four calls of one playback move: `unpark; moveAbsolute(p); waitUntilIdle; park`. */
  function MoveTo(a: Axis, p: real): seq<Event> {
    [Unpark(a), MoveAbsolute(a, p), WaitUntilIdle(a), Park(a)]
  }

  /** Sending `a + b` is sending `a` and, if that completed, then `b`. */
  lemma {:induction false} ExecConcat(t: seq<Event>, faults: set<nat>, a: seq<Event>, b: seq<Event>)
    ensures Exec(t, faults, a + b)
      == if Exec(t, faults, a).1 then Exec(Exec(t, faults, a).0, faults, b) else Exec(t, faults, a)
    decreases |a|
  {
    if |a| == 0 {
      assert a + b == b;
    } else {
      assert (a + b)[0] == a[0] && (a + b)[1..] == a[1..] + b;
      if |t| in faults {
        assert Exec(t, faults, a + b) == (t + [a[0]], false);
        assert Exec(t, faults, a) == (t + [a[0]], false);
      } else {
        assert Exec(t, faults, a + b) == Exec(t + [a[0]], faults, a[1..] + b);
        assert Exec(t, faults, a) == Exec(t + [a[0]], faults, a[1..]);
        ExecConcat(t + [a[0]], faults, a[1..], b);
      }
    }
  }
}
