/**
 * Line-driven playback (process_csv): for every line of the waypoint file,
 * in file order, split off four fields; if all four extractions succeed,
 * convert x, y and the stay time, move x, then y, dwell, and record the
 * visit. A conversion or device error on a line is reported and the loop
 * goes on with the next line.
 *
 * `std::stod`/`std::stoi` are the partial functions `stod`/`stoi` of
 * `Runtime`; `now(n)` is the wall-clock reading taken once the stage has
 * executed n events.
 */
module Playback {
  import opened Wrappers
  import opened Model
  import opened Driver
  import opened CsvFields

  datatype Runtime = Runtime(stod: string -> Option<real>, stoi: string -> Option<int>, now: nat -> string)

  /** What playback has produced so far: stage events, visit records and error reports. */
  datatype Session = Session(trace: seq<Event>, visits: seq<Visit>, errors: seq<Report>)

  /** How one line is handled: ignored, rejected by a conversion, or a waypoint to visit. */
  datatype LineKind = Skipped | Malformed | Target(point: Row)

  function Classify(rt: Runtime, line: string): LineKind {
    match Split4(line)
    case None => Skipped
    case Some(f) =>
      match (rt.stod(f.x), rt.stod(f.y), rt.stoi(f.stay))
      case (Some(x), Some(y), Some(n)) => Target(Row(x, y, n))
      case _ => Malformed
  }

  /** The eight calls that bring the stage to `p`: the whole x sequence, then the whole y sequence. */
  function Motion(p: Row): seq<Event> {
    MoveTo(X, p.x) + MoveTo(Y, p.y)
  }

  /** One iteration of the `while (getline(file, line))` loop. */
  function PlayLine(s: Session, faults: set<nat>, rt: Runtime, line: string): Session {
    match Classify(rt, line)
    case Skipped => s
    case Malformed => s.(errors := s.errors + [Report(line, Conversion)])
    case Target(p) =>
      var e := Exec(s.trace, faults, Motion(p));
      if !e.1 then Session(e.0, s.visits, s.errors + [Report(line, Device)])
      else
        var t := e.0 + [Dwell(p.stay)];
        Session(t, s.visits + [Visit(p, rt.now(|t|))], s.errors)
  }

  /** The lines processed one after the other, in file order. */
  function Play(s: Session, faults: set<nat>, rt: Runtime, lines: seq<string>): Session
    decreases |lines|
  {
    if |lines| == 0 then s
    else PlayLine(Play(s, faults, rt, lines[..|lines| - 1]), faults, rt, lines[|lines| - 1])
  }

  /** A line without four extractable fields issues no command, records nothing and reports nothing. */
  lemma UnqualifiedLineIsInert(s: Session, faults: set<nat>, rt: Runtime, line: string)
    requires Split4(line).None?
    ensures PlayLine(s, faults, rt, line) == s
  {
  }

  /** In particular every three-field row `x,y,n`, as calibration and grid generation write them, is inert. */
  lemma ThreeFieldRowIsInert(s: Session, faults: set<nat>, rt: Runtime, x: string, y: string, n: string)
    requires ',' !in x && ',' !in y && ',' !in n
    ensures PlayLine(s, faults, rt, x + [','] + y + [','] + n) == s
  {
    ThreeFieldLineIgnored(x, y, n);
  }

  /** A line whose numbers do not convert is reported and moves nothing. */
  lemma MalformedLine(s: Session, faults: set<nat>, rt: Runtime, line: string)
    requires Classify(rt, line) == Malformed
    ensures PlayLine(s, faults, rt, line) == Session(s.trace, s.visits, s.errors + [Report(line, Conversion)])
  {
  }

  /**
   * A waypoint line whose commands all complete: x moves completely, then y,
   * then one dwell of exactly the stay time with no motion command, then one
   * visit record.
   */
  lemma CompletedLine(s: Session, faults: set<nat>, rt: Runtime, line: string)
    requires Classify(rt, line).Target?
    requires FaultFree(faults, |s.trace|, |s.trace| + 8)
    ensures var p := Classify(rt, line).point;
      var t := s.trace + Motion(p) + [Dwell(p.stay)];
      PlayLine(s, faults, rt, line) == Session(t, s.visits + [Visit(p, rt.now(|t|))], s.errors)
  {
  }

  /**
   * A waypoint line on which a device error is raised: it has sent a
   * non-empty prefix of its eight calls ending with the first one that
   * raised, no dwell, no record, and one device report.
   */
  lemma FailedLine(s: Session, faults: set<nat>, rt: Runtime, line: string)
    requires Classify(rt, line).Target?
    requires !FaultFree(faults, |s.trace|, |s.trace| + 8)
    ensures var p, r := Classify(rt, line).point, PlayLine(s, faults, rt, line);
      && s.trace < r.trace <= s.trace + Motion(p)
      && (|r.trace| - 1) in faults
      && FaultFree(faults, |s.trace|, |r.trace| - 1)
      && r.visits == s.visits
      && r.errors == s.errors + [Report(line, Device)]
  {
  }

  /** Processing a file in two parts is processing it in one go: later lines never undo earlier ones. */
  lemma {:induction false} PlayConcat(s: Session, faults: set<nat>, rt: Runtime, a: seq<string>, b: seq<string>)
    ensures Play(s, faults, rt, a + b) == Play(Play(s, faults, rt, a), faults, rt, b)
    decreases |b|
  {
    if |b| == 0 {
      assert a + b == a;
    } else {
      var ab := a + b;
      assert ab[..|ab| - 1] == a + b[..|b| - 1];
      assert ab[|ab| - 1] == b[|b| - 1];
      PlayConcat(s, faults, rt, a, b[..|b| - 1]);
    }
  }

  /** After an error on the first line, playback resumes with the second from the state that line left. */
  lemma ErrorThenContinue(s: Session, faults: set<nat>, rt: Runtime, lines: seq<string>)
    requires |lines| > 0
    ensures Play(s, faults, rt, lines) == Play(PlayLine(s, faults, rt, lines[0]), faults, rt, lines[1..])
  {
    assert lines == [lines[0]] + lines[1..];
    PlayConcat(s, faults, rt, [lines[0]], lines[1..]);
    assert Play(s, faults, rt, [lines[0]]) == PlayLine(s, faults, rt, lines[0]) by {
      assert [lines[0]][..0] == [];
    }
  }

  /** Earlier events, records and reports are never changed; each line adds at most one record or report. */
  lemma {:induction false} PlayExtends(s: Session, faults: set<nat>, rt: Runtime, lines: seq<string>)
    ensures var r := Play(s, faults, rt, lines);
      && s.trace <= r.trace && s.visits <= r.visits && s.errors <= r.errors
      && |r.visits| + |r.errors| <= |s.visits| + |s.errors| + |lines|
    decreases |lines|
  {
    if |lines| > 0 {
      PlayExtends(s, faults, rt, lines[..|lines| - 1]);
    }
  }

  /** The waypoints of the lines that pass splitting and conversion, in file order. */
  function Targets(rt: Runtime, lines: seq<string>): seq<Row>
    decreases |lines|
  {
    if |lines| == 0 then []
    else
      var init := Targets(rt, lines[..|lines| - 1]);
      match Classify(rt, lines[|lines| - 1])
      case Target(p) => init + [p]
      case _ => init
  }

  /** The conversion reports of the lines that split but do not convert, in file order. */
  function Rejections(rt: Runtime, lines: seq<string>): seq<Report>
    decreases |lines|
  {
    if |lines| == 0 then []
    else
      var init := Rejections(rt, lines[..|lines| - 1]);
      var line := lines[|lines| - 1];
      if Classify(rt, line) == Malformed then init + [Report(line, Conversion)] else init
  }

  /** What a device that never errs executes for a plan: motion then dwell, waypoint by waypoint. */
  function Motions(ps: seq<Row>): seq<Event>
    decreases |ps|
  {
    if |ps| == 0 then [] else Motions(ps[..|ps| - 1]) + Motion(ps[|ps| - 1]) + [Dwell(ps[|ps| - 1].stay)]
  }

  function Points(vs: seq<Visit>): seq<Row>
    decreases |vs|
  {
    if |vs| == 0 then [] else Points(vs[..|vs| - 1]) + [vs[|vs| - 1].point]
  }

  lemma {:induction false} PointsAppend(vs: seq<Visit>, v: Visit)
    ensures Points(vs + [v]) == Points(vs) + [v.point]
  {
    assert (vs + [v])[..|vs|] == vs;
  }

  /**
   * With a device that never errs, playback visits exactly the waypoints of
   * the lines that split and convert, in file order, issues exactly their
   * motions and dwells, and reports exactly the lines that do not convert.
   */
  lemma PlayWithoutFaults(s: Session, rt: Runtime, lines: seq<string>)
    ensures var r := Play(s, {}, rt, lines);
      && r.trace == s.trace + Motions(Targets(rt, lines))
      && Points(r.visits) == Points(s.visits) + Targets(rt, lines)
      && r.errors == s.errors + Rejections(rt, lines)
  {
    PlayWithoutFaultsTrace(s, rt, lines);
    PlayWithoutFaultsVisits(s, rt, lines);
    PlayWithoutFaultsErrors(s, rt, lines);
  }

  lemma {:induction false} PlayWithoutFaultsTrace(s: Session, rt: Runtime, lines: seq<string>)
    ensures Play(s, {}, rt, lines).trace == s.trace + Motions(Targets(rt, lines))
    decreases |lines|
  {
    if |lines| > 0 {
      var init, line := lines[..|lines| - 1], lines[|lines| - 1];
      var m := Play(s, {}, rt, init);
      PlayWithoutFaultsTrace(s, rt, init);
      LineTraceWithoutFaults(m, rt, line);
      TargetsStep(rt, lines);
      if Classify(rt, line).Target? {
        MotionsAppend(Targets(rt, init), Classify(rt, line).point);
      }
    }
  }

  /** One line on a device that never errs adds its motion and dwell if it is a waypoint, and nothing otherwise. */
  lemma LineTraceWithoutFaults(m: Session, rt: Runtime, line: string)
    ensures var k := Classify(rt, line);
      PlayLine(m, {}, rt, line).trace
        == if k.Target? then m.trace + Motion(k.point) + [Dwell(k.point.stay)] else m.trace
  {
    if Classify(rt, line).Target? {
      assert FaultFree({}, |m.trace|, |m.trace| + 8);
      CompletedLine(m, {}, rt, line);
    }
  }

  lemma TargetsStep(rt: Runtime, lines: seq<string>)
    requires |lines| > 0
    ensures var k := Classify(rt, lines[|lines| - 1]);
      Targets(rt, lines) == Targets(rt, lines[..|lines| - 1]) + (if k.Target? then [k.point] else [])
  {
  }

  lemma {:induction false} PlayWithoutFaultsVisits(s: Session, rt: Runtime, lines: seq<string>)
    ensures Points(Play(s, {}, rt, lines).visits) == Points(s.visits) + Targets(rt, lines)
    decreases |lines|
  {
    if |lines| > 0 {
      var init, line := lines[..|lines| - 1], lines[|lines| - 1];
      var m := Play(s, {}, rt, init);
      PlayWithoutFaultsVisits(s, rt, init);
      if Classify(rt, line).Target? {
        var p := Classify(rt, line).point;
        assert FaultFree({}, |m.trace|, |m.trace| + 8);
        CompletedLine(m, {}, rt, line);
        PointsAppend(m.visits, Visit(p, rt.now(|m.trace| + 9)));
      }
    }
  }

  lemma {:induction false} PlayWithoutFaultsErrors(s: Session, rt: Runtime, lines: seq<string>)
    ensures Play(s, {}, rt, lines).errors == s.errors + Rejections(rt, lines)
    decreases |lines|
  {
    if |lines| > 0 {
      var init, line := lines[..|lines| - 1], lines[|lines| - 1];
      var m := Play(s, {}, rt, init);
      PlayWithoutFaultsErrors(s, rt, init);
      if Classify(rt, line).Target? {
        assert FaultFree({}, |m.trace|, |m.trace| + 8);
        CompletedLine(m, {}, rt, line);
      }
    }
  }

  lemma MotionsAppend(ps: seq<Row>, p: Row)
    ensures Motions(ps + [p]) == Motions(ps) + Motion(p) + [Dwell(p.stay)]
  {
    assert (ps + [p])[..|ps|] == ps;
  }

  /**
   * A malformed line between two good ones, with a device that never errs:
   * exactly two records, for the good lines in their order, and one report.
   */
  lemma SkipAndContinue(s: Session, rt: Runtime, a: string, m: string, b: string)
    requires Classify(rt, a).Target? && Classify(rt, m) == Malformed && Classify(rt, b).Target?
    ensures var r := Play(s, {}, rt, [a, m, b]);
      && Points(r.visits) == Points(s.visits) + [Classify(rt, a).point, Classify(rt, b).point]
      && r.errors == s.errors + [Report(m, Conversion)]
  {
    var lines := [a, m, b];
    assert lines[..2] == [a, m] && [a, m][..1] == [a] && [a][..0] == [];
    assert Targets(rt, [a]) == [Classify(rt, a).point];
    assert Targets(rt, [a, m]) == [Classify(rt, a).point];
    assert Targets(rt, lines) == [Classify(rt, a).point, Classify(rt, b).point];
    assert Rejections(rt, [a]) == [];
    assert Rejections(rt, [a, m]) == [Report(m, Conversion)];
    assert Rejections(rt, lines) == [Report(m, Conversion)];
    PlayWithoutFaults(s, rt, lines);
  }

  /** A visit record written out and read back is replayed as the same waypoint when the conversions invert the formatting. */
  lemma RecordReplays(rt: Runtime, v: Visit, sx: string, sy: string, sn: string)
    requires ',' !in sx && ',' !in sy && ',' !in sn && ',' !in v.at && |v.at| > 0
    requires rt.stod(sx) == Some(v.point.x) && rt.stod(sy) == Some(v.point.y) && rt.stoi(sn) == Some(v.point.stay)
    ensures Classify(rt, RecordLine(Fields(sx, sy, sn, v.at))) == Target(v.point)
  {
    RecordRoundTrip(Fields(sx, sy, sn, v.at));
  }

  /** The text of a three-field row `x,y,n` under a number formatter. */
  function RowLine(r: Row, showReal: real -> string, showInt: int -> string): string {
    showReal(r.x) + [','] + showReal(r.y) + [','] + showInt(r.stay)
  }

  function RowLines(rows: seq<Row>, showReal: real -> string, showInt: int -> string): (lines: seq<string>)
    ensures |lines| == |rows|
    decreases |rows|
  {
    if |rows| == 0 then [] else RowLines(rows[..|rows| - 1], showReal, showInt) + [RowLine(rows[|rows| - 1], showReal, showInt)]
  }

  /**
   * A file of three-field rows, such as the one grid generation writes, is
   * played without a single command, record or report, whatever the faults
   * and conversions, as long as the formatted numbers contain no comma.
   */
  lemma {:induction false} RowFileIsInert(s: Session, faults: set<nat>, rt: Runtime, rows: seq<Row>,
                                          showReal: real -> string, showInt: int -> string)
    requires forall v :: ',' !in showReal(v)
    requires forall n :: ',' !in showInt(n)
    ensures Play(s, faults, rt, RowLines(rows, showReal, showInt)) == s
    decreases |rows|
  {
    if |rows| > 0 {
      var lines := RowLines(rows, showReal, showInt);
      var r := rows[|rows| - 1];
      assert lines[..|lines| - 1] == RowLines(rows[..|rows| - 1], showReal, showInt);
      RowFileIsInert(s, faults, rt, rows[..|rows| - 1], showReal, showInt);
      ThreeFieldRowIsInert(s, faults, rt, showReal(r.x), showReal(r.y), showInt(r.stay));
    }
  }
}
