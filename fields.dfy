/**
 * The field splitter of playback: `std::getline(ss, field, ',')` applied four
 * times to one line. Each call takes the characters up to the next comma (or
 * to the end), consumes that comma, and fails only when nothing at all is
 * left to read.
 */
module CsvFields {
  import opened Wrappers

  /** One `getline(ss, field, ',')` on the unread text `s`: the field and the text after its comma. */
  function GetField(s: string): (r: Option<(string, string)>)
    ensures r.None? <==> |s| == 0
    ensures r.Some? ==> ',' !in r.value.0
    ensures r.Some? ==> (s == r.value.0 && r.value.1 == []) || s == r.value.0 + [','] + r.value.1
  {
    if |s| == 0 then None
    else if s[0] == ',' then Some(([], s[1..]))
    else match GetField(s[1..])
      case None => Some(([s[0]], []))
      case Some(p) => Some(([s[0]] + p.0, p.1))
  }

  /** A comma-free field followed by a comma and more text is read back exactly. */
  lemma {:induction false} GetFieldBeforeComma(f: string, rest: string)
    requires ',' !in f
    ensures GetField(f + [','] + rest) == Some((f, rest))
  {
    var s := f + [','] + rest;
    if |f| == 0 {
      assert s[1..] == rest;
    } else {
      assert s[0] == f[0] && f[0] != ',';
      assert s[1..] == f[1..] + [','] + rest;
      GetFieldBeforeComma(f[1..], rest);
      assert [f[0]] + f[1..] == f;
    }
  }

  /** A non-empty comma-free remainder is read back as the last field. */
  lemma {:induction false} GetFieldAtEnd(f: string)
    requires ',' !in f && |f| > 0
    ensures GetField(f) == Some((f, []))
  {
    if |f| > 1 {
      GetFieldAtEnd(f[1..]);
    }
  }

  /** The four fields a qualifying line yields: x, y, stay time and (ignored) timestamp. */
  datatype Fields = Fields(x: string, y: string, stay: string, stamp: string)

  /** The four chained extractions; `None` when any of them fails. */
  function Split4(line: string): Option<Fields> {
    match GetField(line)
    case None => None
    case Some((x, r1)) =>
      match GetField(r1)
      case None => None
      case Some((y, r2)) =>
        match GetField(r2)
        case None => None
        case Some((stay, r3)) =>
          match GetField(r3)
          case None => None
          case Some((stamp, _)) => Some(Fields(x, y, stay, stamp))
  }

  /**
   * A line qualifies only if it starts with three comma-terminated fields and
   * has text after the third comma; the fourth field is that text up to the
   * next comma.
   */
  lemma Split4Sound(line: string)
    requires Split4(line).Some?
    ensures var f := Split4(line).value;
      var k := |f.x| + |f.y| + |f.stay| + 3;
      && ',' !in f.x && ',' !in f.y && ',' !in f.stay && ',' !in f.stamp
      && k < |line|
      && line[..k] == f.x + [','] + f.y + [','] + f.stay + [',']
      && (line[k..] == f.stamp || f.stamp + [','] <= line[k..])
  {
    var f := Split4(line).value;
    var r1 := GetField(line).value.1;
    var r2 := GetField(r1).value.1;
    var r3 := GetField(r2).value.1;
    assert line == f.x + [','] + r1;
    assert r1 == f.y + [','] + r2;
    assert r2 == f.stay + [','] + r3;
    assert |r3| > 0;
    ThreeFieldsSlice(line, f.x, f.y, f.stay, r1, r2, r3);
  }

  lemma ThreeFieldsSlice(line: string, x: string, y: string, stay: string, r1: string, r2: string, r3: string)
    requires line == x + [','] + r1 && r1 == y + [','] + r2 && r2 == stay + [','] + r3
    ensures var k := |x| + |y| + |stay| + 3;
      k <= |line| && line[..k] == x + [','] + y + [','] + stay + [','] && line[k..] == r3
  {
    assert line == x + [','] + y + [','] + stay + [','] + r3;
  }

  /** Conversely, every line of that shape qualifies, with exactly those fields. */
  lemma Split4Complete(x: string, y: string, stay: string, stamp: string, rest: string)
    requires ',' !in x && ',' !in y && ',' !in stay && ',' !in stamp
    requires |rest| > 0 && (rest == stamp || stamp + [','] <= rest)
    ensures Split4(x + [','] + y + [','] + stay + [','] + rest) == Some(Fields(x, y, stay, stamp))
  {
    var line := x + [','] + y + [','] + stay + [','] + rest;
    assert line == x + [','] + (y + [','] + stay + [','] + rest);
    GetFieldBeforeComma(x, y + [','] + stay + [','] + rest);
    assert y + [','] + stay + [','] + rest == y + [','] + (stay + [','] + rest);
    GetFieldBeforeComma(y, stay + [','] + rest);
    GetFieldBeforeComma(stay, rest);
    if rest == stamp {
      GetFieldAtEnd(stamp);
    } else {
      assert rest == stamp + [','] + rest[|stamp| + 1..];
      GetFieldBeforeComma(stamp, rest[|stamp| + 1..]);
    }
  }

  /** The text of a four-field record `x,y,stay,timestamp`. */
  function RecordLine(f: Fields): string {
    f.x + [','] + f.y + [','] + f.stay + [','] + f.stamp
  }

  /** A record with comma-free fields and a non-empty timestamp splits back into its fields. */
  lemma RecordRoundTrip(f: Fields)
    requires ',' !in f.x && ',' !in f.y && ',' !in f.stay && ',' !in f.stamp && |f.stamp| > 0
    ensures Split4(RecordLine(f)) == Some(f)
  {
    Split4Complete(f.x, f.y, f.stay, f.stamp, f.stamp);
  }

  /**
   * A three-field line `x,y,n`, the shape of every row the program itself
   * writes, never qualifies: the fourth extraction finds nothing to read.
   */
  lemma ThreeFieldLineIgnored(x: string, y: string, n: string)
    requires ',' !in x && ',' !in y && ',' !in n
    ensures Split4(x + [','] + y + [','] + n) == None
  {
    var line := x + [','] + y + [','] + n;
    assert line == x + [','] + (y + [','] + n);
    GetFieldBeforeComma(x, y + [','] + n);
    GetFieldBeforeComma(y, n);
    if |n| > 0 {
      GetFieldAtEnd(n);
    }
  }
}
