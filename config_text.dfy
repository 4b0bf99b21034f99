/**
 * Pieces of the configuration-file syntax shared by the three readers
 * (src/config/parameters/parse_config_file.c, src/config/config_file.c and
 * src/config.c): skipping the rest of a line, the comma-separated option
 * list that ends an axis line, and the five numbers of an axis line.
 *
 * An axis line reads `<axis> <min> <max> <fuzz> <flat> <resolution>`, then
 * (in the newer readers) a list of option names such as `direct, framed`.
 */
module ConfigText {
  import opened Wrappers
  import opened CText
  import opened StringUtil
  import opened Stdio
  import opened Axis
  import opened AxisOption

  /** `RELABSD_OPTION_MAX_SIZE`: the longest option name accepted. */
  const OPTION_MAX_SIZE: nat := 64

  /**
   * `reach_next_line_or_eof`: 1 once a newline is consumed, 0 when the file
   * ends (or a 0xFF byte is met) first; also the text left.
   */
  function SkipLine(s: string): (r: (int, string))
    ensures r.0 == 0 || r.0 == 1
    ensures |r.1| < |s| || s == []
    decreases |s|
  {
    if s == [] then (0, [])
    else if s[0] == '\n' then (1, s[1..])
    else if s[0] == EOF_BYTE then (0, s[1..])
    else SkipLine(s[1..])
  }

  /** A line without a newline and without a 0xFF byte. */
  predicate PlainLine(line: string)
  {
    '\n' !in line && EOF_BYTE !in line
  }

  /** Skipping a plain line and its newline gives 1 and the text after it; a plain last line gives 0. */
  lemma {:induction false} SkipLineExactly(line: string, rest: string)
    requires PlainLine(line)
    ensures SkipLine(line + "\n" + rest) == (1, rest)
    ensures SkipLine(line) == (0, [])
    decreases |line|
  {
    if line == [] {
      assert line + "\n" + rest == "\n" + rest;
    } else {
      assert (line + "\n" + rest)[1..] == line[1..] + "\n" + rest;
      SkipLineExactly(line[1..], rest);
    }
  }

  /**
   * The first word of a line starting with `#` is a comment marker: it
   * starts with `#`, and what is left of the line after it is plain.
   */
  lemma CommentWord(line: string, rest: string, width: nat) returns (w: string, tail: string)
    requires width > 0 && line != [] && line[0] == '#' && PlainLine(line)
    ensures ScanWord(line + "\n" + rest, width) == (Some(w), tail + "\n" + rest)
    ensures PlainLine(tail) && IsPrefix("#", CStr(w))
  {
    var t := line + "\n" + rest;
    assert t[0] == '#';
    assert LeadingSpaces(t) == 0;
    assert t[0..] == t;
    var k := WordLength(t, width);
    assert IsSpace(t[|line|]);
    assert k <= |line|;
    w := t[..k];
    assert ScanWord(t, width) == (Some(w), t[k..]);
    tail := line[k..];
    assert t[k..] == tail + "\n" + rest;
    assert PlainLine(tail) by {
      forall c | c in tail
        ensures c in line
      {
        var i :| 0 <= i < |tail| && tail[i] == c;
        assert line[k + i] == c;
      }
    }
    var name := CStr(w);
    assert name != [] && name[0] == '#' by {
      assert w[0] == '#';
    }
    assert IsPrefix("#", name) by {
      assert name[..1] == "#";
    }
  }

  /**
   * `reach_next_line_or_eof` (src/config/config_file.c, and its copy in
   * src/config.c): reads characters until a newline or EOF.
   */
  method ReachNextLineOrEof(f: File) returns (r: int)
    modifies f
    ensures (r, f.rest) == SkipLine(old(f.rest)) && f.rangeError == old(f.rangeError)
  {
    var c := f.Getc();
    while !ReadsAsEof(c) && c.value != '\n'
      invariant f.rangeError == old(f.rangeError)
      invariant SkipLine(old(f.rest)) == if c == Some('\n') then (1, f.rest)
                                         else if ReadsAsEof(c) then (0, f.rest)
                                         else SkipLine(f.rest)
      decreases |f.rest| + (if c.None? then 0 else 1)
    {
      c := f.Getc();
    }
    if ReadsAsEof(c) {
      return 0;
    }
    return 1;
  }

  /** How an option list ended: at a newline, at EOF, or on a name too long for the buffer. */
  datatype ListEnd = AtNewline | AtEof | TooLong

  /**
   * An option list as the readers scan it: the names ended by a comma, the
   * name being read when the list ended, how it ended and the text left.
   */
  datatype OptionList = OptionList(names: seq<string>, last: string, end: ListEnd, rest: string)

  /**
   * The option list at the start of `s`, `cur` being the name read so far.
   * Blanks and tabs are dropped anywhere, a comma ends a name, a newline or
   * EOF ends the list, and a name reaching 65 characters stops the reader.
   */
  function ScanOptions(s: string, cur: string): (r: OptionList)
    ensures |r.rest| <= |s|
    decreases |s|
  {
    if |cur| > OPTION_MAX_SIZE then OptionList([], cur, TooLong, s)
    else if s == [] || s[0] == EOF_BYTE then OptionList([], cur, AtEof, Advance(s))
    else if s[0] == ' ' || s[0] == '\t' then ScanOptions(s[1..], cur)
    else if s[0] == ',' then
      var o := ScanOptions(s[1..], []);
      o.(names := [cur] + o.names)
    else if s[0] == '\n' then OptionList([], cur, AtNewline, s[1..])
    else ScanOptions(s[1..], cur + [s[0]])
  }

  /** The scan of `s` once the names `done` are complete. */
  function After(done: seq<string>, o: OptionList): OptionList
  {
    o.(names := done + o.names)
  }

  /** A piece of an option name: no blank, tab, comma, newline or 0xFF byte. */
  predicate PlainName(name: string)
  {
    forall c :: c in name ==> c !in {' ', '\t', ',', '\n', EOF_BYTE}
  }

  /** A plain piece of a name is appended to the name being read while it fits. */
  lemma {:induction false} NameAccumulates(name: string, cur: string, rest: string)
    requires PlainName(name) && |cur| + |name| <= OPTION_MAX_SIZE + 1
    ensures ScanOptions(name + rest, cur) == ScanOptions(rest, cur + name)
    decreases |name|
  {
    if name == [] {
      assert name + rest == rest && cur + name == cur;
    } else {
      assert (name + rest)[0] == name[0] && (name + rest)[1..] == name[1..] + rest;
      assert name[0] in name;
      forall c | c in name[1..] ensures c in name { }
      NameAccumulates(name[1..], cur + [name[0]], rest);
      assert cur + [name[0]] + name[1..] == cur + name;
    }
  }

  /** `name` then a newline: the list holds `name` alone, and the text after the newline is left. */
  lemma LastName(name: string, rest: string)
    requires PlainName(name) && |name| <= OPTION_MAX_SIZE
    ensures ScanOptions(name + "\n" + rest, []) == OptionList([], name, AtNewline, rest)
  {
    assert name + "\n" + rest == name + ("\n" + rest);
    NameAccumulates(name, [], "\n" + rest);
    assert [] + name == name;
  }

  /** `name` then a comma: `name` is the first name and the scan goes on after the comma. */
  lemma NameThenComma(name: string, rest: string)
    requires PlainName(name) && |name| <= OPTION_MAX_SIZE
    ensures ScanOptions(name + "," + rest, []) == After([name], ScanOptions(rest, []))
  {
    assert name + "," + rest == name + ("," + rest);
    NameAccumulates(name, [], "," + rest);
    assert [] + name == name;
  }

  /** A name of 65 characters or more stops the reader before any further character. */
  lemma LongNameStops(name: string, rest: string)
    requires PlainName(name) && |name| > OPTION_MAX_SIZE
    ensures ScanOptions(name + rest, []).end == TooLong
    ensures ScanOptions(name + rest, []).names == []
  {
    var head := name[..OPTION_MAX_SIZE + 1];
    forall c | c in head ensures c in name { }
    assert name + rest == head + (name[OPTION_MAX_SIZE + 1..] + rest);
    NameAccumulates(head, [], name[OPTION_MAX_SIZE + 1..] + rest);
  }

  /** A comma completes the name being read. */
  lemma CommaStep(t0: string, done: seq<string>, before: string, option: string)
    requires |option| <= OPTION_MAX_SIZE && before != [] && before[0] == ','
    requires ScanOptions(t0, []) == After(done, ScanOptions(before, option))
    ensures ScanOptions(t0, []) == After(done + [option], ScanOptions(before[1..], []))
  {
    var o := ScanOptions(before[1..], []);
    assert ScanOptions(before, option) == o.(names := [option] + o.names);
    assert done + ([option] + o.names) == (done + [option]) + o.names;
  }

  /** At EOF or a newline, the list holds the names completed so far, the name being read pending. */
  lemma ListEnds(t0: string, done: seq<string>, before: string, option: string)
    requires |option| <= OPTION_MAX_SIZE && (before == [] || before[0] == EOF_BYTE || before[0] == '\n')
    requires ScanOptions(t0, []) == After(done, ScanOptions(before, option))
    ensures var o := ScanOptions(t0, []);
      o.names == done && o.last == option && o.rest == Advance(before)
      && o.end == if before != [] && before[0] == '\n' then AtNewline else AtEof
  {
    assert done + [] == done;
  }

  /** A name of 65 characters ends the list. */
  lemma TooLongEnds(t0: string, done: seq<string>, rest: string, option: string)
    requires |option| > OPTION_MAX_SIZE
    requires ScanOptions(t0, []) == After(done, ScanOptions(rest, option))
    ensures ScanOptions(t0, []) == OptionList(done, option, TooLong, rest)
  {
    assert done + [] == done;
  }

  /** Option names written with commas between them. */
  function Joined(names: seq<string>): string
    requires names != []
    decreases |names|
  {
    if |names| == 1 then names[0] else names[0] + "," + Joined(names[1..])
  }

  /**
   * A list of plain names that fit, joined by commas: every name but the
   * last is complete, and the scan goes on after the last with that name
   * pending.
   */
  lemma {:induction false} JoinedScan(names: seq<string>, rest: string)
    requires names != []
    requires forall i :: 0 <= i < |names| ==> PlainName(names[i]) && |names[i]| <= OPTION_MAX_SIZE
    ensures ScanOptions(Joined(names) + rest, []) == After(names[..|names| - 1], ScanOptions(rest, names[|names| - 1]))
    decreases |names|
  {
    if |names| == 1 {
      NameAccumulates(names[0], [], rest);
      assert [] + names[0] == names[0];
      assert names[..0] == [];
      assert After([], ScanOptions(rest, names[0])) == ScanOptions(rest, names[0]);
    } else {
      var tail := names[1..];
      Regroup(names[0], ",", Joined(tail), rest);
      NameAccumulates(names[0], [], "," + Joined(tail) + rest);
      assert [] + names[0] == names[0];
      assert ("," + Joined(tail) + rest)[1..] == Joined(tail) + rest;
      JoinedScan(tail, rest);
      assert tail[|tail| - 1] == names[|names| - 1];
      assert [names[0]] + tail[..|tail| - 1] == names[..|names| - 1];
    }
  }

  /** A plain option name within the limit, the names of an option list. */
  predicate OptionNames(names: seq<string>)
  {
    names != [] && forall i :: 0 <= i < |names| ==> PlainName(names[i]) && |names[i]| <= OPTION_MAX_SIZE
  }

  /** The names of an option list after a blank, then `end`. */
  lemma NamesThen(names: seq<string>, end: string)
    requires OptionNames(names)
    ensures ScanOptions(" " + Joined(names) + end, [])
            == After(names[..|names| - 1], ScanOptions(end, names[|names| - 1]))
  {
    var x := " " + Joined(names) + end;
    assert x[1..] == Joined(names) + end;
    JoinedScan(names, end);
  }

  /** Option names after a blank, ended by a newline: each is complete and `rest` is left. */
  lemma ListToNewline(names: seq<string>, rest: string, end: string)
    requires OptionNames(names) && end == "\n" + rest
    ensures var o := ScanOptions(" " + Joined(names) + end, []);
      o.end == AtNewline && o.names + [o.last] == names && o.rest == rest
  {
    NamesThen(names, end);
    var last := names[|names| - 1];
    assert ScanOptions(end, last) == OptionList([], last, AtNewline, rest);
    assert names[..|names| - 1] + [] == names[..|names| - 1];
    assert names[..|names| - 1] + [last] == names;
  }

  /** The record after enabling, in order, the options named (unknown names change nothing). */
  function ApplyOptions(s: AxisState, names: seq<string>): (t: AxisState)
    ensures t == s.(flags := t.flags)
    ensures s.flags <= t.flags <= s.flags + {Direct, RealFuzz, Framed}
    decreases |names|
  {
    if names == [] then s
    else ApplyOptions(EnableOption(s, CStr(names[0])).1, names[1..])
  }

  /** The flags an option list sets are exactly those it names. */
  lemma {:induction false} ApplyOptionsExactly(s: AxisState, names: seq<string>, f: Flag)
    ensures f in ApplyOptions(s, names).flags
        <==> f in s.flags || exists i :: 0 <= i < |names| && OptionFlag(CStr(names[i])) == Some(f)
    decreases |names|
  {
    if names != [] {
      ApplyOptionsExactly(EnableOption(s, CStr(names[0])).1, names[1..], f);
      if exists i :: 0 <= i < |names| && OptionFlag(CStr(names[i])) == Some(f) {
        var i :| 0 <= i < |names| && OptionFlag(CStr(names[i])) == Some(f);
        if i > 0 {
          assert names[1..][i - 1] == names[i];
        }
      }
      if exists i :: 0 <= i < |names| - 1 && OptionFlag(CStr(names[1..][i])) == Some(f) {
        var i :| 0 <= i < |names| - 1 && OptionFlag(CStr(names[1..][i])) == Some(f);
        assert names[i + 1] == names[1..][i];
      }
    }
  }

  /** Enabling options one list after another is enabling the joined list. */
  lemma {:induction false} ApplyOptionsAppend(s: AxisState, a: seq<string>, b: seq<string>)
    ensures ApplyOptions(s, a + b) == ApplyOptions(ApplyOptions(s, a), b)
    decreases |a|
  {
    if a == [] {
      assert a + b == b;
    } else {
      assert (a + b)[0] == a[0] && (a + b)[1..] == a[1..] + b;
      ApplyOptionsAppend(EnableOption(s, CStr(a[0])).1, a[1..], b);
    }
  }

  /** The numeric fields an axis line's `fscanf` stores, in the order min, max, fuzz, flat, resolution. */
  function Store(s: AxisState, values: seq<int>): (t: AxisState)
    requires |values| <= 5
    ensures t == s.(min := t.min, max := t.max, fuzz := t.fuzz, flat := t.flat, resolution := t.resolution)
    ensures |values| == 5 ==> t.min == values[0] && t.max == values[1] && t.fuzz == values[2]
                              && t.flat == values[3] && t.resolution == values[4]
  {
    s.(min := if |values| > 0 then values[0] else s.min,
       max := if |values| > 1 then values[1] else s.max,
       fuzz := if |values| > 2 then values[2] else s.fuzz,
       flat := if |values| > 3 then values[3] else s.flat,
       resolution := if |values| > 4 then values[4] else s.resolution)
  }

  /**
   * `fscanf(f, "%d %d %d %d %d", &(axis->min), ...)`, as every reader calls
   * it: the count it returns (EOF is -1); the fields converted are stored.
   */
  method ScanAxisValues(f: File, axis: Axis) returns (count: int)
    modifies f, axis
    ensures var r := ScanInts(old(f.rest), 5);
      count == ScanCount(r) && f.rest == r.2 && axis.State() == Store(old(axis.State()), r.0)
    ensures f.rangeError == (old(f.rangeError) || RangeError(old(f.rest), 5))
  {
    var values;
    count, values := f.ReadInts(5);
    if |values| > 0 { axis.SetField(Min, values[0]); }
    if |values| > 1 { axis.SetField(Max, values[1]); }
    if |values| > 2 { axis.SetField(Fuzz, values[2]); }
    if |values| > 3 { axis.SetField(Flat, values[3]); }
    if |values| > 4 { axis.SetField(Resolution, values[4]); }
  }
}
