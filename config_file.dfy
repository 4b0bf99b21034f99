/**
 * The intermediate configuration reader (src/config/config_file.c): the
 * command line `relabsd <input_device> <config_file> [<option>+]` with
 * `-n`/`--name` and `-t`/`--timeout`, still accepting the older third word
 * as the device name; axis lines with five numbers and an option list; and
 * the filter that dispatches to the direct or relative-to-absolute filter.
 *
 * `relabsd_axis_from_name` is read as the prefix-matching
 * `relabsd_axis_name_to_enum` of src/axis.c, and `direct_filter` and
 * `rel_to_abs_filter` as those of src/device/axis/axis_filter.c.
 * `RELABSD_CONF_AXIS_CODE_SIZE`, the width of the axis token, is a
 * parameter.
 */
module LegacyConfigFile {
  import opened Wrappers
  import opened Int32
  import opened CText
  import opened StringUtil
  import opened Stdio
  import opened Evdev
  import opened AxisName
  import opened Axis
  import opened AxisOption
  import opened AxisFilter
  import opened ConfigText
  import opened LegacyAxis
  import LegacyConfig

  /** A `struct timeval`: seconds and microseconds. */
  datatype Timeval = Timeval(sec: int, usec: int)

  /** The fields the command line sets: the device name (NULL is None) and the idle timeout. */
  datatype Cli = Cli(deviceName: Option<string>, enableTimeout: bool, timeout: Timeval)

  /** The configuration of this reader. */
  class Config {
    var inputFile: string
    var deviceName: Option<string>
    var enableTimeout: bool
    var timeout: Timeval
    const axes: seq<Axis>

    function CliState(): Cli
      reads this
    {
      Cli(deviceName, enableTimeout, timeout)
    }

    predicate Valid()
      reads this, axes
    {
      |axes| == AxesCount
      && (forall i, j :: 0 <= i < j < |axes| ==> axes[i] != axes[j])
    }

    /** A configuration whose records are the given, distinct, objects. */
    constructor (records: seq<Axis>)
      requires |records| == AxesCount
      requires forall i, j :: 0 <= i < j < |records| ==> records[i] != records[j]
      ensures Valid() && axes == records
    {
      inputFile, deviceName, enableTimeout, timeout := [], None, false, Timeval(0, 0);
      axes := records;
    }
  }

  /**
   * `parse_option`: enables `direct`, `real_fuzz` or `framed`; any other
   * name is refused (-1) and changes nothing. The buffer is cut at its
   * first NUL, as `strcmp` reads it.
   */
  method ParseOption(axis: Axis, name: string) returns (r: int)
    modifies axis
    ensures (r, axis.State()) == EnableOption(old(axis.State()), CStr(name))
  {
    var option := CStr(name);
    if option == "direct" {
      axis.flags := axis.flags + {Direct};
    } else if option == "real_fuzz" {
      axis.flags := axis.flags + {RealFuzz};
    } else if option == "framed" {
      axis.flags := axis.flags + {Framed};
    } else {
      return -1;
    }
    return 0;
  }

  /** What `read_axis_options` returns for an option list: 1 at a newline, 0 at EOF, -1 on an overlong name. */
  function OptionsStatus(o: OptionList): (r: int)
    ensures r == 1 <==> o.end == AtNewline
    ensures r == 0 <==> o.end == AtEof
    ensures r == -1 <==> o.end == TooLong
  {
    match o.end
    case AtNewline => 1
    case AtEof => 0
    case TooLong => -1
  }

  /**
   * The record after `read_axis_options`: every option cleared, then each
   * name enabled in order, the pending one too when a newline or EOF ends
   * the list.
   */
  function OptionsEffect(s: AxisState, o: OptionList): AxisState
  {
    var cleared := s.(flags := {});
    if o.end == TooLong then ApplyOptions(cleared, o.names) else ApplyOptions(cleared, o.names + [o.last])
  }

  /** `read_axis_options`. */
  method ReadAxisOptions(f: File, axis: Axis) returns (r: int)
    modifies f, axis
    ensures var o := ScanOptions(old(f.rest), []);
      r == OptionsStatus(o) && axis.State() == OptionsEffect(old(axis.State()), o) && f.rest == o.rest
  {
    axis.flags := {};
    ghost var s0 := axis.State();
    ghost var t0 := f.rest;
    ghost var done: seq<string> := [];
    var option: string := [];
    var i := 0;
    while i <= OPTION_MAX_SIZE
      invariant i == |option|
      invariant ScanOptions(t0, []) == ConfigText.After(done, ScanOptions(f.rest, option))
      invariant axis.State() == ApplyOptions(s0, done)
      decreases |f.rest|
    {
      ghost var before := f.rest;
      var c := f.Getc();
      if ReadsAsEof(c) {
        ListEnds(t0, done, before, option);
        ParseNext(option, axis, s0, done);
        return 0;
      }
      if c.value == ' ' || c.value == '\t' {
      } else if c.value == ',' {
        CommaStep(t0, done, before, option);
        ParseNext(option, axis, s0, done);
        done := done + [option];
        option := [];
        i := 0;
      } else if c.value == '\n' {
        ListEnds(t0, done, before, option);
        ParseNext(option, axis, s0, done);
        return 1;
      } else {
        option := option + [c.value];
        i := i + 1;
      }
    }
    TooLongEnds(t0, done, f.rest, option);
    return -1;
  }

  /** `parse_option` on the next name, its result ignored: the options enabled so far grow by it. */
  method ParseNext(option: string, axis: Axis, ghost s0: AxisState, ghost done: seq<string>)
    requires axis.State() == ApplyOptions(s0, done)
    modifies axis
    ensures axis.State() == ApplyOptions(s0, done + [option])
  {
    ApplyOptionsAppend(s0, done, [option]);
    var _ := ParseOption(axis, option);
  }

  /** The options of a record after its list are exactly those named there: earlier ones are cleared. */
  lemma OptionsExactlyNamed(s: AxisState, o: OptionList, f: Flag)
    ensures var applied := if o.end == TooLong then o.names else o.names + [o.last];
      f in OptionsEffect(s, o).flags
      <==> exists i :: 0 <= i < |applied| && OptionFlag(CStr(applied[i])) == Some(f)
    ensures OptionsEffect(s, o).flags <= {Direct, RealFuzz, Framed}
  {
    var applied := if o.end == TooLong then o.names else o.names + [o.last];
    ApplyOptionsExactly(s.(flags := {}), applied, f);
  }

  /**
   * An option list the file ends in is complete: status 0 and every name
   * enabled, the last one included.
   */
  lemma EofEndsOptionList(s: AxisState, names: seq<string>)
    requires OptionNames(names)
    ensures var o := ScanOptions(" " + Joined(names), []);
      OptionsStatus(o) == 0 && OptionsEffect(s, o) == ApplyOptions(s.(flags := {}), names) && o.rest == []
  {
    var end: string := [];
    NamesThen(names, end);
    assert " " + Joined(names) + end == " " + Joined(names);
    var last := names[|names| - 1];
    assert ScanOptions(end, last) == OptionList([], last, AtEof, []);
    assert names[..|names| - 1] + [] == names[..|names| - 1];
    assert names[..|names| - 1] + [last] == names;
  }

  /** `atoi`: `strtol` in base 10 truncated to an `int`. */
  function Atoi(s: string): (v: int)
    ensures IsInt32(v)
  {
    Wrap32(Strtol(CStr(s)).0)
  }

  /**
   * The timeout as `parse_timeout_option` writes it: `tv_sec = ms / 1000`
   * but `tv_usec = ms * 1000`, the whole delay again in microseconds.
   */
  function TimevalAsWritten(ms: int): (t: Timeval)
    requires ms > 0
  {
    Timeval(ms / 1000, ms * 1000)
  }

  /** From 1000 ms on, the microseconds field is out of range and the delay it describes is too long. */
  lemma TimevalAsWrittenWrong(ms: int)
    requires ms >= 1000
    ensures TimevalAsWritten(ms).usec >= 1000000
    ensures TimevalAsWritten(ms).sec * 1000000 + TimevalAsWritten(ms).usec > ms * 1000
  {
  }

  /** The input that shows it: 1500 ms gives one second and 1 500 000 microseconds. */
  lemma TimevalAsWrittenExample()
    ensures TimevalAsWritten(1500) == Timeval(1, 1500000)
  {
  }

  /** `ms` milliseconds as a normalised `struct timeval`: `tv_usec = (ms % 1000) * 1000`. */
  function MsToTimeval(ms: int): (t: Timeval)
    requires ms > 0
    ensures 0 <= t.usec < 1000000 && t.sec >= 0
    ensures t.sec * 1000000 + t.usec == ms * 1000
  {
    Timeval(ms / 1000, (ms % 1000) * 1000)
  }

  /**
   * `parse_timeout_option` as written, on the command-line fields: the
   * timeout is enabled first, a value that is not at least 1 ms is refused,
   * and otherwise the delay is stored as `TimevalAsWritten`.
   */
  function TimeoutOptionAsWritten(c: Cli, param: string): (r: (int, Cli))
    ensures r.0 == 0 || r.0 == -1
    ensures r.1.enableTimeout && r.1.deviceName == c.deviceName
    ensures r.0 == 0 <==> Atoi(param) > 0
    ensures r.0 == -1 ==> r.1.timeout == c.timeout
    ensures r.0 == 0 ==> r.1.timeout == Timeval(Atoi(param) / 1000, Atoi(param) * 1000)
  {
    var c' := c.(enableTimeout := true);
    var ms := Atoi(param);
    if ms <= 0 then (-1, c') else (0, c'.(timeout := TimevalAsWritten(ms)))
  }

  /**
   * `parse_timeout_option`, corrected: the same steps as
   * `TimeoutOptionAsWritten`, but the delay is stored as `MsToTimeval`,
   * with the microseconds taken from the remainder only.
   */
  function TimeoutOption(c: Cli, param: string): (r: (int, Cli))
    ensures r.0 == 0 || r.0 == -1
    ensures r.1.enableTimeout && r.1.deviceName == c.deviceName
    ensures r.0 == 0 <==> Atoi(param) > 0
    ensures r.0 == -1 ==> r.1.timeout == c.timeout
    ensures r.0 == 0 ==> r.1.timeout.sec * 1000000 + r.1.timeout.usec == Atoi(param) * 1000
                         && 0 <= r.1.timeout.usec < 1000000
  {
    var c' := c.(enableTimeout := true);
    var ms := Atoi(param);
    if ms <= 0 then (-1, c') else (0, c'.(timeout := MsToTimeval(ms)))
  }

  /** `parse_timeout_option`, corrected as `TimeoutOption` is: the delay is stored as `MsToTimeval`. */
  method ParseTimeoutOption(conf: Config, param: string) returns (r: int)
    modifies conf
    ensures (r, conf.CliState()) == TimeoutOption(old(conf.CliState()), param)
    ensures conf.inputFile == old(conf.inputFile)
  {
    conf.enableTimeout := true;
    var ms := Atoi(param);
    if ms <= 0 {
      return -1;
    }
    conf.timeout := MsToTimeval(ms);
    return 0;
  }

  /**
   * The corrected and the as-written option agree on the status and on
   * every field but the delay; from 1000 ms on, the delays differ.
   */
  lemma TimeoutOptionAsWrittenDiffers(c: Cli, param: string)
    ensures TimeoutOption(c, param).0 == TimeoutOptionAsWritten(c, param).0
    ensures TimeoutOption(c, param).1.(timeout := c.timeout) == TimeoutOptionAsWritten(c, param).1.(timeout := c.timeout)
    ensures Atoi(param) >= 1000 ==>
              TimeoutOption(c, param).1.timeout.usec < 1000000 <= TimeoutOptionAsWritten(c, param).1.timeout.usec
  {
  }

  /** The words naming an option: `-n`, `--name`, `-t` or `--timeout`. */
  predicate IsNameOption(o: string) { o == "-n" || o == "--name" }
  predicate IsTimeoutOption(o: string) { o == "-t" || o == "--timeout" }

  /** The loop of `parse_options` from `argv[i]` on. */
  function OptionsFrom(c: Cli, argv: seq<string>, i: nat): (r: (int, Cli))
    ensures r.0 == 0 || r.0 == -1
    decreases |argv| - i
  {
    if i >= |argv| then (0, c)
    else if IsNameOption(argv[i]) then
      if i + 1 >= |argv| then (-1, c)
      else OptionsFrom(c.(deviceName := Some(argv[i + 1])), argv, i + 2)
    else if IsTimeoutOption(argv[i]) then
      if i + 1 >= |argv| then (-1, c)
      else
        var (status, c') := TimeoutOption(c, argv[i + 1]);
        if status < 0 then (-1, c') else OptionsFrom(c', argv, i + 2)
    else (-1, c)
  }

  /** Whether the command line is the older `<input> <config> <name>` form. */
  predicate OldUsage(argv: seq<string>)
  {
    |argv| == 4 && !IsPrefix("-", argv[3])
  }

  /**
   * `parse_options`: the older form only sets the name (and leaves
   * `enable_timeout` as it was); otherwise the name is cleared, the timeout
   * disabled, and the options from `argv[3]` on are read.
   */
  function Options(c: Cli, argv: seq<string>): (r: (int, Cli))
    ensures r.0 == 0 || r.0 == -1
    ensures OldUsage(argv) ==> r == (0, c.(deviceName := Some(argv[3])))
  {
    if OldUsage(argv) then (0, c.(deviceName := Some(argv[3])))
    else OptionsFrom(c.(deviceName := None, enableTimeout := false), argv, 3)
  }

  /** `parse_options`. */
  method ParseOptions(conf: Config, argv: seq<string>) returns (r: int)
    modifies conf
    ensures (r, conf.CliState()) == Options(old(conf.CliState()), argv)
    ensures conf.inputFile == old(conf.inputFile)
  {
    if |argv| == 4 && !IsPrefix("-", argv[3]) {
      conf.deviceName := Some(argv[3]);
      return 0;
    }
    conf.deviceName := None;
    conf.enableTimeout := false;
    var i := 3;
    while i < |argv|
      invariant i >= 3
      invariant Options(old(conf.CliState()), argv) == OptionsFrom(conf.CliState(), argv, i)
      invariant conf.inputFile == old(conf.inputFile)
      decreases |argv| - i
    {
      if argv[i] == "-n" || argv[i] == "--name" {
        i := i + 1;
        if i >= |argv| {
          return -1;
        }
        conf.deviceName := Some(argv[i]);
      } else if argv[i] == "-t" || argv[i] == "--timeout" {
        i := i + 1;
        if i >= |argv| {
          return -1;
        }
        var status := ParseTimeoutOption(conf, argv[i]);
        if status < 0 {
          return -1;
        }
      } else {
        return -1;
      }
      i := i + 1;
    }
    return 0;
  }

  /** Options accepted from `argv[i]` on come in pairs: an option word and its value. */
  lemma {:induction false} OptionsFromAcceptedPairs(c: Cli, argv: seq<string>, i: nat)
    requires i <= |argv| && OptionsFrom(c, argv, i).0 == 0
    ensures (|argv| - i) % 2 == 0
    decreases |argv| - i
  {
    if i < |argv| {
      var c' := AcceptedStep(c, argv, i);
      OptionsFromAcceptedPairs(c', argv, i + 2);
      assert |argv| - i == (|argv| - (i + 2)) + 2;
    }
  }

  /** In options accepted from `argv[i]` on, every other word, starting at `i`, names an option. */
  lemma {:induction false} OptionsFromAcceptedWords(c: Cli, argv: seq<string>, i: nat)
    requires i <= |argv| && OptionsFrom(c, argv, i).0 == 0
    ensures forall m :: 0 <= m && i + 2 * m < |argv| ==> IsNameOption(argv[i + 2 * m]) || IsTimeoutOption(argv[i + 2 * m])
    decreases |argv| - i
  {
    if i < |argv| {
      var c' := AcceptedStep(c, argv, i);
      OptionsFromAcceptedWords(c', argv, i + 2);
      forall m | 0 <= m && i + 2 * m < |argv|
        ensures IsNameOption(argv[i + 2 * m]) || IsTimeoutOption(argv[i + 2 * m])
      {
        if m > 0 {
          assert i + 2 * m == (i + 2) + 2 * (m - 1);
        }
      }
    }
  }

  /** One accepted option: an option word, its value, and the rest accepted from `c'`. */
  lemma AcceptedStep(c: Cli, argv: seq<string>, i: nat) returns (c': Cli)
    requires i < |argv| && OptionsFrom(c, argv, i).0 == 0
    ensures i + 1 < |argv| && (IsNameOption(argv[i]) || IsTimeoutOption(argv[i]))
    ensures OptionsFrom(c', argv, i + 2).0 == 0
  {
    if IsNameOption(argv[i]) {
      c' := c.(deviceName := Some(argv[i + 1]));
    } else {
      c' := TimeoutOption(c, argv[i + 1]).1;
    }
  }

  /** The timeout ends up enabled only if it was, or a `-t`/`--timeout` word is read. */
  lemma {:induction false} TimeoutOnlyFromOption(c: Cli, argv: seq<string>, i: nat)
    ensures OptionsFrom(c, argv, i).1.enableTimeout
            ==> c.enableTimeout || exists j :: i <= j < |argv| && IsTimeoutOption(argv[j])
    decreases |argv| - i
  {
    if i < |argv| && i + 1 < |argv| {
      if IsNameOption(argv[i]) {
        TimeoutOnlyFromOption(c.(deviceName := Some(argv[i + 1])), argv, i + 2);
      } else if IsTimeoutOption(argv[i]) {
        assert IsTimeoutOption(argv[i]);
      }
    }
  }

  /** So in the newer form, without a timeout word, the timeout is disabled. */
  lemma NewUsageTimeout(c: Cli, argv: seq<string>)
    requires !OldUsage(argv)
    requires forall j :: 3 <= j < |argv| ==> !IsTimeoutOption(argv[j])
    ensures !Options(c, argv).1.enableTimeout
  {
    TimeoutOnlyFromOption(c.(deviceName := None, enableTimeout := false), argv, 3);
  }

  /** `check_usage`: at least three words. */
  function CheckUsage(argc: int): (r: int)
    ensures r == 0 <==> argc >= 3
    ensures r == 0 || r == -1
  {
    if argc < 3 then -1 else 0
  }

  /**
   * An axis line after its axis name, on that axis's record: five numbers,
   * then the axis is enabled, its position reset to 0 and its option list
   * read; the status is that of the list. Fewer than five numbers is fatal.
   */
  function AxisRecordLine(a: AxisState, t: string): (r: (int, AxisState, string))
    ensures -1 <= r.0 <= 1 && |r.2| <= |t|
    ensures ScanCount(ScanInts(t, 5)) < 5 ==> r.0 == -1 && r.1 == Store(a, ScanInts(t, 5).0)
    ensures ScanCount(ScanInts(t, 5)) == 5 ==> r.1.isEnabled && r.1.previousValue == 0
                                               && r.1.flags <= {Direct, RealFuzz, Framed}
  {
    var sc := ScanInts(t, 5);
    var stored := Store(a, sc.0);
    if ScanCount(sc) < 5 then (-1, stored, sc.2)
    else
      var o := ScanOptions(sc.2, []);
      (OptionsStatus(o), OptionsEffect(stored.(isEnabled := true, previousValue := 0), o), o.rest)
  }

  /** The part of `parse_axis_configuration_line` that works on the record of a known axis. */
  method ParseAxisRecord(f: File, axis: Axis) returns (r: int)
    modifies f, axis
    ensures (r, axis.State(), f.rest) == AxisRecordLine(old(axis.State()), old(f.rest))
  {
    var valc := ScanAxisValues(f, axis);
    if valc == -1 {
      return -1;
    } else if valc < 5 {
      return -1;
    }
    axis.Enable();
    axis.previousValue := 0;
    r := ReadAxisOptions(f, axis);
  }

  /**
   * An axis line with its five numbers and an option list ended by a
   * newline: the numbers are stored, the axis enabled at 0, and the
   * options are exactly those named; status 1 and the text after it.
   */
  lemma AxisRecordRead(a: AxisState, vals: seq<int>, names: seq<string>, rest: string)
    requires |vals| == 5 && forall i :: 0 <= i < 5 ==> IsInt32(vals[i])
    requires OptionNames(names)
    ensures AxisRecordLine(a, Numbers(vals) + " " + Joined(names) + "\n" + rest)
            == (1, ApplyOptions(Store(a, vals).(isEnabled := true, previousValue := 0, flags := {}), names), rest)
  {
    var end := "\n" + rest;
    var x := " " + Joined(names) + end;
    assert Numbers(vals) + " " + Joined(names) + "\n" + rest == Numbers(vals) + x;
    RecordPrefix(a, vals, x);
    ListToNewline(names, rest, end);
  }

  /** The five numbers then an option list, before its end. */
  lemma RecordPrefix(a: AxisState, vals: seq<int>, x: string)
    requires |vals| == 5 && forall i :: 0 <= i < 5 ==> IsInt32(vals[i])
    requires x == [] || !IsDigit(x[0])
    ensures var o := ScanOptions(x, []);
      AxisRecordLine(a, Numbers(vals) + x)
      == (OptionsStatus(o), OptionsEffect(Store(a, vals).(isEnabled := true, previousValue := 0), o), o.rest)
  {
    ScanNumbers(vals, x, 5, 0);
    assert vals + [] == vals;
  }

  /**
   * `read_config_line` after the first word `word`: a comment skips its
   * line; otherwise the word must name an axis, and the status is that of
   * its axis line.
   */
  function ConfigLine(axes: seq<AxisState>, word: string, t: string): (r: (int, seq<AxisState>, string))
    requires |axes| == AxesCount
    ensures |r.1| == AxesCount && |r.2| <= |t|
    ensures -1 <= r.0 <= 1
  {
    if IsPrefix("#", word) then
      var (status, rest) := SkipLine(t);
      (status, axes, rest)
    else
      var a := NameToEnum(word);
      if a == Unknown then (-1, axes, t)
      else
        var k := Index(a);
        var (status, x, rest) := AxisRecordLine(axes[k], t);
        (status, axes[k := x], rest)
  }

  /** `parse_axis_configuration_line`. */
  method ParseAxisConfigurationLine(conf: Config, f: File, buffer: string) returns (r: int)
    requires conf.Valid() && !IsPrefix("#", buffer)
    modifies f, conf.axes
    ensures (r, States(conf.axes), f.rest) == ConfigLine(old(States(conf.axes)), buffer, old(f.rest))
  {
    var a := NameToEnum(buffer);
    if a == Unknown {
      return -1;
    }
    var k := Index(a);
    var axis := conf.axes[k];
    ghost var before := States(conf.axes);
    r := ParseAxisRecord(f, axis);
    StatesOneChanged(conf.axes, before, k);
  }

  /** `read_config_line`. */
  method ReadConfigLine(conf: Config, f: File, prefix: string) returns (r: int)
    requires conf.Valid()
    modifies f, conf.axes
    ensures (r, States(conf.axes), f.rest) == ConfigLine(old(States(conf.axes)), prefix, old(f.rest))
  {
    if !IsPrefix("#", prefix) {
      r := ParseAxisConfigurationLine(conf, f, prefix);
      return;
    }
    r := ReachNextLineOrEof(f);
  }

  /**
   * The loop of `read_config_file` from the current position, the axis
   * token at most `width` characters: 0 once the file ends or a line ends
   * at EOF, -1 on the first fatal line; also the records afterwards.
   */
  function ConfigFile(axes: seq<AxisState>, t: string, width: nat): (r: (int, seq<AxisState>))
    requires |axes| == AxesCount && width > 0
    ensures r.0 == 0 || r.0 == -1
    ensures |r.1| == AxesCount
    decreases |t|
  {
    var (word, rest) := ScanWord(t, width);
    match word
    case None => (0, axes)
    case Some(w) =>
      var (status, axes', rest') := ConfigLine(axes, CStr(w), rest);
      if status == 1 then ConfigFile(axes', rest', width)
      else if status == 0 then (0, axes')
      else (-1, axes')
  }

  /** `read_config_file`: `f` is the file `fopen` opened, null when it could not be opened. */
  method ReadConfigFile(conf: Config, f: File?, width: nat) returns (r: int)
    requires conf.Valid() && width > 0
    modifies f, conf.axes
    ensures f == null ==> r == -1 && States(conf.axes) == old(States(conf.axes))
    ensures f != null ==> (r, States(conf.axes)) == ConfigFile(old(States(conf.axes)), old(f.rest), width)
  {
    if f == null {
      return -1;
    }
    ghost var s0 := States(conf.axes);
    ghost var t0 := f.rest;
    var continueReading := 1;
    while continueReading == 1
      invariant continueReading == 0 || continueReading == 1
      invariant continueReading == 1 ==> ConfigFile(s0, t0, width) == ConfigFile(States(conf.axes), f.rest, width)
      invariant continueReading == 0 ==> ConfigFile(s0, t0, width) == (0, States(conf.axes))
      decreases |f.rest| + continueReading
    {
      var buffer := f.ReadWord(width);
      if buffer.None? {
        break;
      }
      var status := ReadConfigLine(conf, f, CStr(buffer.value));
      if status == 0 {
        continueReading := 0;
      } else if status == -1 {
        return -1;
      }
    }
    return 0;
  }

  /** `init_axes_config`: disables the eight axes, from the last down to the first. */
  method InitAxesConfig(conf: Config)
    requires conf.Valid()
    modifies conf.axes
    ensures States(conf.axes) == LegacyConfig.Disabled(old(States(conf.axes)))
  {
    ghost var s0 := States(conf.axes);
    var i := AxesCount;
    while i > 0
      invariant 0 <= i <= AxesCount
      invariant forall j :: 0 <= j < i ==> conf.axes[j].State() == s0[j]
      invariant forall j :: i <= j < AxesCount ==> conf.axes[j].State() == s0[j].(isEnabled := false)
    {
      i := i - 1;
      conf.axes[i].isEnabled := false;
    }
    StatesAre(conf.axes, LegacyConfig.Disabled(s0));
  }

  /**
   * `relabsd_config_parse`: the usage check, the options, the input file,
   * every axis disabled, then the configuration file `argv[2]`; `f` is what
   * opening it gives, null when it cannot be opened.
   */
  method ConfigParse(conf: Config, argv: seq<string>, f: File?, width: nat) returns (r: int)
    requires conf.Valid() && width > 0
    modifies conf, f, conf.axes
    ensures |argv| < 3 ==> r == -1 && conf.CliState() == old(conf.CliState()) && States(conf.axes) == old(States(conf.axes))
    ensures |argv| >= 3 ==>
      var (status, cli) := Options(old(conf.CliState()), argv);
      conf.CliState() == cli
      && (status < 0 ==> r == -1 && States(conf.axes) == old(States(conf.axes)))
      && (status == 0 ==>
            conf.inputFile == argv[1]
            && (f == null ==> r == -1 && States(conf.axes) == LegacyConfig.Disabled(old(States(conf.axes))))
            && (f != null ==> (r, States(conf.axes))
                              == ConfigFile(LegacyConfig.Disabled(old(States(conf.axes))), old(f.rest), width)))
  {
    if CheckUsage(|argv|) < 0 {
      return -1;
    }
    var status := ParseOptions(conf, argv);
    if status < 0 {
      return -1;
    }
    r := ReadInputAndAxes(conf, argv[1], f, width);
  }

  /** The end of `relabsd_config_parse`, once the options are read: the input file, then the axes. */
  method ReadInputAndAxes(conf: Config, inputFile: string, f: File?, width: nat) returns (r: int)
    requires conf.Valid() && width > 0
    modifies conf, f, conf.axes
    ensures conf.CliState() == old(conf.CliState()) && conf.inputFile == inputFile
    ensures f == null ==> r == -1 && States(conf.axes) == LegacyConfig.Disabled(old(States(conf.axes)))
    ensures f != null ==> (r, States(conf.axes))
                          == ConfigFile(LegacyConfig.Disabled(old(States(conf.axes))), old(f.rest), width)
  {
    conf.inputFile := inputFile;
    InitAxesConfig(conf);
    var read := ReadConfigFile(conf, f, width);
    if read < 0 {
      return -1;
    }
    return 0;
  }

  /**
   * `relabsd_config_filter` on an axis's record: a disabled axis passes
   * its value through (0); otherwise the direct filter when `direct` is
   * set, else the relative-to-absolute filter.
   */
  function Dispatch(s: AxisState, v: int): Filtered
    requires s.Valid() && IsInt32(v)
  {
    if !s.isEnabled then Filtered(0, v, s.previousValue)
    else if Direct in s.flags then DirectStep(s, v)
    else RelToAbsStep(s, v)
  }

  /**
   * On every record this reader can produce, none having `invert` or
   * `not_abs`, the filter is the newer `relabsd_axis_filter_new_value`.
   */
  lemma DispatchAgreesWithNewValue(s: AxisState, v: int)
    requires s.Valid() && IsInt32(v)
    requires Invert !in s.flags && NotAbs !in s.flags
    ensures Dispatch(s, v) == NewValueStep(s, v)
  {
  }

  /** `relabsd_config_filter`; `value'` is what `*value` holds afterwards. */
  method ConfigFilter(conf: Config, a: AxisName, value: int) returns (code: int, value': int)
    requires conf.Valid() && IsInt32(value)
    requires a != Unknown ==> conf.axes[Index(a)].Valid()
    modifies conf.axes
    ensures a == Unknown ==> code == 0 && value' == value && States(conf.axes) == old(States(conf.axes))
    ensures a != Unknown ==>
      var k := Index(a);
      var s := old(States(conf.axes))[k];
      Filtered(code, value', conf.axes[k].previousValue) == Dispatch(s, value)
      && States(conf.axes) == old(States(conf.axes))[k := s.(previousValue := conf.axes[k].previousValue)]
  {
    if a == Unknown {
      return 0, value;
    }
    var k := Index(a);
    var axis := conf.axes[k];
    if !axis.isEnabled {
      return 0, value;
    }
    ghost var before := States(conf.axes);
    if Direct in axis.flags {
      code, value' := DirectFilter(axis, value);
    } else {
      code, value' := RelToAbsFilter(axis, value);
    }
    StatesOneChanged(conf.axes, before, k);
  }

  /** `relabsd_config_get_absinfo`: the descriptor of an axis's record. */
  function GetAbsinfo(conf: Config, a: AxisName): (info: AbsInfo)
    requires conf.Valid() && a != Unknown
    reads conf, conf.axes
    ensures info.value == 0
    ensures var s := conf.axes[Index(a)].State();
      info.minimum == s.min && info.maximum == s.max && info.fuzz == s.fuzz
      && info.flat == s.flat && info.resolution == s.resolution
  {
    conf.axes[Index(a)].ToAbsinfo()
  }
}
