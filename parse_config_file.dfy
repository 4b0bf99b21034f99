/**
 * The configuration-file reader of the parameters
 * (src/config/parameters/parse_config_file.c).
 *
 * Each line starts with a word of at most `width` characters
 * (`RELABSD_CONF_AXIS_CODE_SIZE`, a constant this model takes as a
 * parameter): `#` starts a comment, an axis name starts an axis line, and a
 * word starting with `TO` or `to` a timeout line `TO <milliseconds>`.
 *
 * `relabsd_util_reach_next_line_or_eof` is not part of this model; the
 * comment line is skipped as the older readers' `reach_next_line_or_eof`
 * does.
 */
module ParseConfigFile {
  import opened Wrappers
  import opened Int32
  import opened CText
  import opened StringUtil
  import opened Stdio
  import opened AxisName
  import opened Axis
  import opened AxisOption
  import opened ConfigText
  import opened Parameters

  /** What this reader returns for an option list: 1 at a newline; EOF and an overlong name are fatal. */
  function ListStatus(o: OptionList): int
  {
    if o.end == AtNewline then 1 else -1
  }

  /**
   * The record after this reader's option list: every name is enabled when
   * a newline ends the list; at EOF or on an overlong name, the pending name
   * is not.
   */
  function ListEffect(s: AxisState, o: OptionList): AxisState
  {
    if o.end == AtNewline then ApplyOptions(s, o.names + [o.last]) else ApplyOptions(s, o.names)
  }

  /** `read_axis_options`: reads the option list of an axis line and enables each option named. */
  method ReadAxisOptions(f: File, axisName: string, axis: Axis) returns (r: int)
    modifies f, axis
    ensures var o := ScanOptions(old(f.rest), []);
      r == ListStatus(o) && axis.State() == ListEffect(old(axis.State()), o) && f.rest == o.rest
    ensures f.rangeError == old(f.rangeError)
  {
    ghost var s0 := axis.State();
    ghost var t0 := f.rest;
    ghost var done: seq<string> := [];
    var option: string := [];
    var i := 0;
    while i <= OPTION_MAX_SIZE
      invariant i == |option|
      invariant ScanOptions(t0, []) == After(done, ScanOptions(f.rest, option))
      invariant axis.State() == ApplyOptions(s0, done)
      invariant f.rangeError == old(f.rangeError)
      decreases |f.rest|
    {
      ghost var before := f.rest;
      var c := f.Getc();
      if ReadsAsEof(c) {
        ListEnds(t0, done, before, option);
        return -1;
      }
      if c.value == ' ' || c.value == '\t' {
      } else if c.value == ',' {
        CommaStep(t0, done, before, option);
        EnableNext(option, axisName, axis, s0, done);
        done := done + [option];
        option := [];
        i := 0;
      } else if c.value == '\n' {
        ListEnds(t0, done, before, option);
        EnableNext(option, axisName, axis, s0, done);
        return 1;
      } else {
        option := option + [c.value];
        i := i + 1;
      }
    }
    TooLongEnds(t0, done, f.rest, option);
    return -1;
  }

  /** Enabling one more option from its name extends the options enabled so far. */
  method EnableNext(option: string, axisName: string, axis: Axis, ghost s0: AxisState, ghost done: seq<string>)
    requires axis.State() == ApplyOptions(s0, done)
    modifies axis
    ensures axis.State() == ApplyOptions(s0, done + [option])
  {
    ApplyOptionsAppend(s0, done, [option]);
    var _ := EnableOptionFromName(CStr(option), axisName, axis);
  }

  /** A timeout line after its first word: a `%d` that must convert to a non-negative value. */
  function TimeoutLine(s: ParametersState, t: string): (r: (int, ParametersState, string))
    ensures |r.2| <= |t|
    ensures r.0 == 1 || r.0 == -1
  {
    var sc := ScanInts(t, 1);
    if ScanCount(sc) < 1 || sc.0[0] < 0 then (-1, s, sc.2)
    else (1, s.(timeout := sc.0[0]), sc.2)
  }

  /** `parse_timeout_configuration_line`: `errno` is cleared before the `%d`. */
  method ParseTimeoutLine(f: File, p: Parameters) returns (r: int)
    modifies f, p
    ensures (r, p.State(), f.rest) == TimeoutLine(old(p.State()), old(f.rest))
    ensures f.rangeError == RangeError(old(f.rest), 1)
  {
    f.rangeError := false;
    var count, values := f.ReadInts(1);
    if count == -1 {
      return -1;
    } else if count < 1 {
      return -1;
    } else if values[0] < 0 {
      return -1;
    }
    p.SetTimeout(values[0]);
    return 1;
  }

  /**
   * An axis line after its axis name, on that axis's record: five numbers,
   * then (once all five are read) the axis is enabled and its option list
   * read. Fewer than five numbers is fatal, with the fields read so far
   * stored.
   */
  function AxisRecordLine(a: AxisState, t: string): (r: (int, AxisState, string))
    ensures |r.2| <= |t|
    ensures r.0 == 1 || r.0 == -1
  {
    var sc := ScanInts(t, 5);
    var stored := Store(a, sc.0);
    if ScanCount(sc) < 5 then (-1, stored, sc.2)
    else
      var o := ScanOptions(sc.2, []);
      (ListStatus(o), ListEffect(stored.(isEnabled := true), o), o.rest)
  }

  /**
   * The part of `parse_axis_configuration_line` that works on the axis
   * record: `errno` is cleared before the five `%d`.
   */
  method ParseAxisRecord(f: File, axisName: string, axis: Axis) returns (r: int)
    modifies f, axis
    ensures (r, axis.State(), f.rest) == AxisRecordLine(old(axis.State()), old(f.rest))
    ensures f.rangeError == RangeError(old(f.rest), 5)
  {
    f.rangeError := false;
    var count := ScanAxisValues(f, axis);
    if count == -1 {
      return -1;
    } else if count < 5 {
      return -1;
    }
    axis.Enable();
    r := ReadAxisOptions(f, axisName, axis);
  }

  /** A line of the file, after its first word `word`. */
  function ConfigLine(s: ParametersState, word: string, t: string): (r: (int, ParametersState, string))
    requires |s.axes| == AxesCount
    ensures |r.1.axes| == AxesCount && |r.2| <= |t|
    ensures -1 <= r.0 <= 1
  {
    if IsPrefix("#", word) then
      var (status, rest) := SkipLine(t);
      (status, s, rest)
    else
      var a := ParseName(word);
      if a == Unknown then
        if IsPrefix("TO", word) || IsPrefix("to", word) then TimeoutLine(s, t)
        else (-1, s, t)
      else
        var k := Index(a);
        var (status, x, rest) := AxisRecordLine(s.axes[k], t);
        (status, s.(axes := s.axes[k := x]), rest)
  }

  /**
   * Whether `errno` holds ERANGE after a line whose first word is `word`,
   * given whether it did before: the timeout and axis readers clear it
   * before their `%d` directives, and nothing else on a line changes it.
   */
  predicate LineRangeError(e: bool, word: string, t: string)
  {
    if IsPrefix("#", word) then e
    else
      var a := ParseName(word);
      if a == Unknown then
        if IsPrefix("TO", word) || IsPrefix("to", word) then RangeError(t, 1) else e
      else RangeError(t, 5)
  }

  /** `parse_axis_configuration_line`. */
  method ParseAxisLine(f: File, axisName: string, p: Parameters) returns (r: int)
    requires p.Valid() && !IsPrefix("#", axisName)
    modifies f, p, p.axes
    ensures p.Valid()
    ensures (r, p.State(), f.rest) == ConfigLine(old(p.State()), axisName, old(f.rest))
    ensures f.rangeError == LineRangeError(old(f.rangeError), axisName, old(f.rest))
  {
    var index := ParseName(axisName);
    if index == Unknown {
      if IsPrefix("TO", axisName) || IsPrefix("to", axisName) {
        r := ParseTimeoutLine(f, p);
        return;
      }
      return -1;
    }
    r := ParseAxisLineOf(f, axisName, p, index);
  }

  /** The axis-record part of `parse_axis_configuration_line`, for the record of `name` held by the parameters. */
  method ParseAxisLineOf(f: File, axisName: string, p: Parameters, name: AxisName) returns (r: int)
    requires p.Valid() && name != Unknown
    modifies f, p.axes
    ensures p.Valid()
    ensures var k := Index(name); var (status, x, rest) := AxisRecordLine(old(p.State()).axes[k], old(f.rest));
      r == status && f.rest == rest && p.State() == old(p.State()).(axes := old(p.State()).axes[k := x])
    ensures f.rangeError == RangeError(old(f.rest), 5)
  {
    var k := Index(name);
    var axis := p.GetAxis(name);
    ghost var before := States(p.axes);
    r := ParseAxisRecord(f, axisName, axis);
    StatesOneChanged(p.axes, before, k);
    assert axis.Valid() by {
      ScanIntsInt32(old(f.rest));
    }
  }

  /** The values `fscanf` stores are `int`s, so the record stays valid. */
  lemma ScanIntsInt32(t: string)
    ensures forall a: AxisState :: a.Valid() ==> AxisRecordLine(a, t).1.Valid()
  {
  }

  /** `read_config_line`. */
  method ReadConfigLine(f: File, prefix: string, p: Parameters) returns (r: int)
    requires p.Valid()
    modifies f, p, p.axes
    ensures p.Valid()
    ensures (r, p.State(), f.rest) == ConfigLine(old(p.State()), prefix, old(f.rest))
    ensures f.rangeError == LineRangeError(old(f.rangeError), prefix, old(f.rest))
  {
    if IsPrefix("#", prefix) {
      r := ReachNextLineOrEof(f);
      return;
    }
    r := ParseAxisLine(f, prefix, p);
  }

  /**
   * The whole file from the current position, `e` telling whether `errno`
   * holds ERANGE: -1 on the first fatal line; otherwise, once the file ends
   * or a line ends at EOF, -1 if `errno` then holds ERANGE and 0 if not.
   * Also the parameters afterwards.
   */
  function ConfigFile(s: ParametersState, t: string, width: nat, e: bool): (r: (int, ParametersState))
    requires width > 0 && |s.axes| == AxesCount
    ensures r.0 == 0 || r.0 == -1
    decreases |t|
  {
    var (word, rest) := ScanWord(t, width);
    match word
    case None => (if e then -1 else 0, s)
    case Some(w) =>
      var (status, s', rest') := ConfigLine(s, CStr(w), rest);
      var e' := LineRangeError(e, CStr(w), rest);
      if status == 1 then ConfigFile(s', rest', width, e')
      else if status == 0 then (if e' then -1 else 0, s')
      else (-1, s')
  }

  /**
   * `relabsd_parameters_parse_config_file`: `f` is the file `fopen` opened,
   * null when it could not be opened.
   */
  method ParseConfigFileOf(f: File?, p: Parameters, width: nat) returns (r: int)
    requires p.Valid() && width > 0
    modifies f, p, p.axes
    ensures p.Valid()
    ensures f == null ==> r == -1 && p.State() == old(p.State())
    ensures f != null ==> (r, p.State()) == ConfigFile(old(p.State()), old(f.rest), width, false)
  {
    if f == null {
      return -1;
    }
    ghost var s0 := p.State();
    ghost var t0 := f.rest;
    f.rangeError := false;
    var continueReading := 1;
    while continueReading == 1
      invariant p.Valid()
      invariant continueReading == 0 || continueReading == 1
      invariant continueReading == 1 ==> ConfigFile(s0, t0, width, false) == ConfigFile(p.State(), f.rest, width, f.rangeError)
      invariant continueReading == 0 ==> ConfigFile(s0, t0, width, false) == (if f.rangeError then -1 else 0, p.State())
      decreases |f.rest| + continueReading
    {
      var word := f.ReadWord(width);
      if word.None? {
        break;
      }
      var status := ReadConfigLine(f, CStr(word.value), p);
      if status == 0 {
        continueReading := 0;
      } else if status == -1 {
        return -1;
      }
    }
    if f.rangeError {
      return -1;
    }
    return 0;
  }

  /** A word `fscanf("%<width>s")` reads whole: no white space, no NUL, not wider than the directive. */
  predicate PlainWord(word: string, width: nat)
  {
    word != [] && |word| <= width && NUL !in word && forall i :: 0 <= i < |word| ==> !IsSpace(word[i])
  }

  /**
   * A comment line, one whose first word starts with `#`, changes nothing,
   * and reading goes on after its newline.
   */
  lemma CommentLineSkipped(s: ParametersState, line: string, rest: string, width: nat, e: bool)
    requires width > 0 && |s.axes| == AxesCount
    requires line != [] && line[0] == '#' && PlainLine(line)
    ensures ConfigFile(s, line + "\n" + rest, width, e) == ConfigFile(s, rest, width, e)
  {
    var w, tail := CommentWord(line, rest, width);
    SkipLineExactly(tail, rest);
  }

  /** A first word that is no axis name, no comment and no timeout makes the whole file fatal. */
  lemma UnknownWordFatal(s: ParametersState, word: string, x: string, width: nat, e: bool)
    requires width > 0 && |s.axes| == AxesCount
    requires PlainWord(word, width) && (x == [] || IsSpace(x[0]))
    requires ParseName(word) == Unknown && !IsPrefix("#", word) && !IsPrefix("TO", word) && !IsPrefix("to", word)
    ensures ConfigFile(s, word + x, width, e) == (-1, s)
  {
    ScanWordExact(word, x, width);
    CStrNoNul(word);
  }

  /** The first word of the text and the line it starts decide how the file goes on. */
  lemma ConfigFileStep(s: ParametersState, t: string, width: nat, e: bool, w: string, rest: string)
    requires width > 0 && |s.axes| == AxesCount && ScanWord(t, width) == (Some(w), rest)
    ensures var l := ConfigLine(s, CStr(w), rest);
      var e' := LineRangeError(e, CStr(w), rest);
      ConfigFile(s, t, width, e)
        == if l.0 == 1 then ConfigFile(l.1, l.2, width, e')
           else if l.0 == 0 then (if e' then -1 else 0, l.1)
           else (-1, l.1)
  {
  }

  /** An axis name as the first word: the rest of the line works on that axis's record. */
  lemma AxisLineInFile(s: ParametersState, a: AxisName, t: string, width: nat, e: bool)
    requires width >= 2 && |s.axes| == AxesCount && a != Unknown
    requires t == [] || IsSpace(t[0])
    ensures var k := Index(a);
      var (status, x, rest) := AxisRecordLine(s.axes[k], t);
      var s' := s.(axes := s.axes[k := x]);
      ConfigFile(s, NameToString(a) + t, width, e)
        == if status == 1 then ConfigFile(s', rest, width, RangeError(t, 5)) else (-1, s')
  {
    var word := NameToString(a);
    ScanWordExact(word, t, width);
    CStrNoNul(word);
    AxisWord(s, a, word, t);
    assert LineRangeError(e, CStr(word), t) == RangeError(t, 5);
    var k := Index(a);
    var line := AxisRecordLine(s.axes[k], t);
    assert line.0 == 1 || line.0 == -1;
    ConfigFileStep(s, word + t, width, e, word, t);
  }

  /** The line after the name of an axis. */
  lemma AxisWord(s: ParametersState, a: AxisName, word: string, t: string)
    requires |s.axes| == AxesCount && a != Unknown && word == NameToString(a)
    ensures var k := Index(a);
      var line := AxisRecordLine(s.axes[k], t);
      ConfigLine(s, word, t) == (line.0, s.(axes := s.axes[k := line.1]), line.2)
    ensures forall e :: LineRangeError(e, word, t) == RangeError(t, 5)
  {
    ParseNameRoundTrip(a);
    assert word[0] != '#';
    assert !IsPrefix("#", word);
    var k := Index(a);
    var line := AxisRecordLine(s.axes[k], t);
    assert ConfigLine(s, word, t) == (line.0, s.(axes := s.axes[k := line.1]), line.2);
  }

  /** A word starting with `TO` or `to`: the rest of the line is a timeout. */
  lemma TimeoutLineInFile(s: ParametersState, word: string, t: string, width: nat, e: bool)
    requires width > 0 && |s.axes| == AxesCount
    requires PlainWord(word, width) && (IsPrefix("TO", word) || IsPrefix("to", word))
    requires t == [] || IsSpace(t[0])
    ensures var (status, s', rest) := TimeoutLine(s, t);
      ConfigFile(s, word + t, width, e)
        == if status == 1 then ConfigFile(s', rest, width, RangeError(t, 1)) else (-1, s')
  {
    ScanWordExact(word, t, width);
    CStrNoNul(word);
    TimeoutWord(s, word, t);
    ConfigFileStep(s, word + t, width, e, word, t);
  }

  /** The line after a word starting with `TO` or `to`. */
  lemma TimeoutWord(s: ParametersState, word: string, t: string)
    requires |s.axes| == AxesCount && word != [] && (IsPrefix("TO", word) || IsPrefix("to", word))
    ensures ConfigLine(s, word, t) == TimeoutLine(s, t)
    ensures forall e :: LineRangeError(e, word, t) == RangeError(t, 1)
  {
    assert word[0] == 'T' || word[0] == 't';
    assert ParseName(word) == Unknown;
    assert !IsPrefix("#", word);
  }

  /** A non-negative timeout written in decimal is stored; a negative one is fatal. */
  lemma TimeoutLineSets(s: ParametersState, v: int, rest: string)
    requires IsInt32(v) && (rest == [] || !IsDigit(rest[0]))
    ensures TimeoutLine(s, " " + Decimal(v) + rest) == if v < 0 then (-1, s, rest) else (1, s.(timeout := v), rest)
  {
    var t := " " + Decimal(v) + rest;
    ScanDecimal(v, rest);
    ScanIntsStep(t, 1, 0, v, rest);
  }

  /**
   * A last line `TO -<digits>` whose numeral is below LONG_MIN: the line
   * itself is accepted, with the timeout 0 that the low 32 bits of LONG_MIN
   * give, but `%d` has left ERANGE in `errno`, so the file fails.
   */
  lemma TimeoutOverflowFatal(s: ParametersState, d: string, width: nat)
    requires width >= 2 && |s.axes| == AxesCount
    requires d != [] && forall i :: 0 <= i < |d| ==> IsDigit(d[i])
    requires DigitsValue(d) > -LONG_MIN
    ensures TimeoutLine(s, " -" + d) == (1, s.(timeout := 0), [])
    ensures ConfigFile(s, "TO -" + d, width, false) == (-1, s.(timeout := 0))
  {
    var t := " -" + d;
    StrtolSignedDigitsThen(true, d, []);
    assert t[1..] == ("-" + d) + [];
    assert LeadingSpaces(t) == 1;
    assert Wrap32(LONG_MIN) == 0;
    assert ScanInt(t) == (Converted(0), []);
    assert Conversions([], 0) == ([], false, []);
    assert Conversions(t, 1) == ([0] + [], false, []);
    assert [0] + [] == [0];
    assert ScanInts(t, 1) == ([0], false, []);
    assert RangeError(t, 1);
    assert "TO -" + d == "TO" + t;
    TimeoutLineInFile(s, "TO", t, width, false);
  }

  /** By contrast, a last line `TO <v>` with `v` a non-negative `int` in decimal is stored, and the file succeeds. */
  lemma TimeoutInRangeAccepted(s: ParametersState, v: int, width: nat)
    requires width >= 2 && |s.axes| == AxesCount
    requires 0 <= v <= INT_MAX
    ensures ConfigFile(s, "TO " + Decimal(v), width, false) == (0, s.(timeout := v))
  {
    var t := " " + Decimal(v);
    assert t + [] == t;
    TimeoutLineSets(s, v, []);
    DecimalInRange(v, [], 1);
    assert !RangeError(t, 1);
    assert "TO " + Decimal(v) == "TO" + t;
    TimeoutLineInFile(s, "TO", t, width, false);
  }

  /** A timeout line without a number after the word is fatal. */
  lemma TimeoutMissingFatal(s: ParametersState, y: string)
    requires y == [] || (!IsSpace(y[0]) && !IsDigit(y[0]) && y[0] != '-' && y[0] != '+')
    ensures TimeoutLine(s, " " + y).0 == -1 && TimeoutLine(s, " " + y).1 == s
  {
    ScanIntFailsAfterBlank(y, 1);
  }

  /** The five numbers then an option list, before its end. */
  lemma RecordPrefix(a: AxisState, vals: seq<int>, x: string)
    requires |vals| == 5 && forall i :: 0 <= i < 5 ==> IsInt32(vals[i])
    requires x == [] || !IsDigit(x[0])
    ensures var o := ScanOptions(x, []);
      AxisRecordLine(a, Numbers(vals) + x) == (ListStatus(o), ListEffect(Store(a, vals).(isEnabled := true), o), o.rest)
  {
    ScanNumbers(vals, x, 5, 0);
    assert vals + [] == vals;
  }

  /**
   * An axis line with its five numbers and an option list ended by a
   * newline: the numbers are stored, the axis enabled and every option
   * named enabled, in order; status 1 and the text after the newline.
   */
  lemma AxisRecordRead(a: AxisState, vals: seq<int>, names: seq<string>, rest: string)
    requires |vals| == 5 && forall i :: 0 <= i < 5 ==> IsInt32(vals[i])
    requires OptionNames(names)
    ensures AxisRecordLine(a, Numbers(vals) + " " + Joined(names) + "\n" + rest)
            == (1, ApplyOptions(Store(a, vals).(isEnabled := true), names), rest)
  {
    var end := "\n" + rest;
    var x := " " + Joined(names) + end;
    assert Numbers(vals) + " " + Joined(names) + "\n" + rest == Numbers(vals) + x;
    RecordPrefix(a, vals, x);
    ListToNewline(names, rest, end);
  }

  /**
   * An option list the file ends in: fatal, with the numbers stored, the
   * axis enabled and every name but the last enabled.
   */
  lemma EofInOptionListFatal(a: AxisState, vals: seq<int>, names: seq<string>)
    requires |vals| == 5 && forall i :: 0 <= i < 5 ==> IsInt32(vals[i])
    requires OptionNames(names)
    ensures AxisRecordLine(a, Numbers(vals) + " " + Joined(names))
            == (-1, ApplyOptions(Store(a, vals).(isEnabled := true), names[..|names| - 1]), [])
  {
    var x := " " + Joined(names);
    assert Numbers(vals) + " " + Joined(names) == Numbers(vals) + x;
    RecordPrefix(a, vals, x);
    var end: string := [];
    NamesThen(names, end);
    assert x + end == x;
    var last := names[|names| - 1];
    assert ScanOptions(end, last) == OptionList([], last, AtEof, []);
    assert names[..|names| - 1] + [] == names[..|names| - 1];
  }

  /**
   * An option name of more than 64 characters is fatal; the numbers are
   * stored and the axis enabled.
   */
  lemma LongOptionFatal(a: AxisState, vals: seq<int>, name: string, rest: string)
    requires |vals| == 5 && forall i :: 0 <= i < 5 ==> IsInt32(vals[i])
    requires PlainName(name) && |name| > OPTION_MAX_SIZE
    ensures AxisRecordLine(a, Numbers(vals) + " " + name + rest).0 == -1
    ensures AxisRecordLine(a, Numbers(vals) + " " + name + rest).1 == Store(a, vals).(isEnabled := true)
  {
    var y := name + rest;
    var x := " " + y;
    assert Numbers(vals) + " " + name + rest == Numbers(vals) + x;
    RecordPrefix(a, vals, x);
    assert x[1..] == y;
    LongNameStops(name, rest);
  }

  /**
   * Fewer than five numbers before something that is not a number (or the
   * end of the file) is fatal, with the numbers read so far stored.
   */
  lemma TooFewNumbersFatal(a: AxisState, vals: seq<int>, y: string)
    requires |vals| < 5 && forall i :: 0 <= i < |vals| ==> IsInt32(vals[i])
    requires y == [] || (!IsSpace(y[0]) && !IsDigit(y[0]) && y[0] != '-' && y[0] != '+')
    ensures AxisRecordLine(a, Numbers(vals) + " " + y).0 == -1
    ensures AxisRecordLine(a, Numbers(vals) + " " + y).1 == Store(a, vals)
  {
    var x := " " + y;
    assert Numbers(vals) + " " + y == Numbers(vals) + x;
    var r := 5 - |vals|;
    ScanNumbers(vals, x, 5, r);
    ScanIntFailsAfterBlank(y, r);
    assert vals + [] == vals;
  }
}
