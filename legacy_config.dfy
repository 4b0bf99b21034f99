/**
 * The oldest configuration reader (src/config.c): `relabsd <input_device>
 * <config_file> [<device_name>]`, a file of axis lines `<axis> <min> <max>
 * <fuzz> <flat> <resolution>` read with a two-character axis token, and the
 * clamp-only filter.
 *
 * `relabsd_axis_from_name`, declared in src/axis.h, is read as the
 * prefix-matching `relabsd_axis_name_to_enum` of src/axis.c.
 */
module LegacyConfig {
  import opened Wrappers
  import opened Int32
  import opened CText
  import opened StringUtil
  import opened Stdio
  import opened Evdev
  import opened AxisName
  import opened Axis
  import opened ConfigText
  import opened LegacyAxis

  /** `fscanf(f, "%2s", buffer)` with `char buffer[3]`: an axis token is at most two characters. */
  const TOKEN_WIDTH: nat := 2

  /** The name the virtual device gets when the command line gives none. */
  const DEFAULT_DEVICE_NAME: string := "relabsd device"

  /** `struct relabsd_config`: the input device file, the device name and the eight axis records. */
  class Config {
    var inputFile: string
    var deviceName: string
    const axes: seq<Axis>

    predicate Valid()
      reads this, axes
    {
      |axes| == AxesCount
      && (forall i, j :: 0 <= i < j < |axes| ==> axes[i] != axes[j])
    }

    /** A configuration whose records are the given, distinct, objects. */
    constructor (records: seq<Axis>)
      requires |records| == AxesCount
      requires forall i, j :: 0 <= i < j < |records| ==> records[i] != records[j]
      ensures Valid() && axes == records
    {
      inputFile, deviceName := [], [];
      axes := records;
    }
  }

  /**
   * The axis part of `parse_axis_configuration_line`: five numbers are
   * stored as they are converted; fewer than five (EOF included) is fatal,
   * and five enable the axis. Status 0 on success, -1 otherwise.
   */
  function AxisLine(a: AxisState, t: string): (r: (int, AxisState, string))
    ensures r.0 == 0 || r.0 == -1
    ensures r.0 == 0 <==> ScanCount(ScanInts(t, 5)) == 5
    ensures r.1 == Store(a, ScanInts(t, 5).0).(isEnabled := r.0 == 0 || a.isEnabled)
    ensures |r.2| <= |t|
  {
    var sc := ScanInts(t, 5);
    var stored := Store(a, sc.0);
    if ScanCount(sc) < 5 then (-1, stored, sc.2)
    else (0, stored.(isEnabled := true), sc.2)
  }

  /**
   * `read_config_line` after the first word `word`: a comment or an axis
   * line read without error skips what is left of the line (1 at a newline,
   * 0 at EOF); an unknown axis or too few numbers is fatal (-1).
   */
  function ConfigLine(axes: seq<AxisState>, word: string, t: string): (r: (int, seq<AxisState>, string))
    requires |axes| == AxesCount
    ensures |r.1| == AxesCount && |r.2| <= |t|
    ensures -1 <= r.0 <= 1
  {
    if IsPrefix("#", word) then
      var (status, rest) := SkipLine(t);
      (status, axes, rest)
    else
      var a := NameToEnum(word);
      if a == Unknown then (-1, axes, t)
      else
        var k := Index(a);
        var (status, x, rest) := AxisLine(axes[k], t);
        if status < 0 then (-1, axes[k := x], rest)
        else
          var (status', rest') := SkipLine(rest);
          (status', axes[k := x], rest')
  }

  /**
   * The loop of `read_config_file` from the current position: 0 once the
   * file ends or a line ends at EOF, -1 on the first fatal line; also the
   * records afterwards.
   */
  function ConfigFile(axes: seq<AxisState>, t: string): (r: (int, seq<AxisState>))
    requires |axes| == AxesCount
    ensures r.0 == 0 || r.0 == -1
    ensures |r.1| == AxesCount
    decreases |t|
  {
    var (word, rest) := ScanWord(t, TOKEN_WIDTH);
    match word
    case None => (0, axes)
    case Some(w) =>
      var (status, axes', rest') := ConfigLine(axes, CStr(w), rest);
      if status == 1 then ConfigFile(axes', rest')
      else if status == 0 then (0, axes')
      else (-1, axes')
  }

  /** `parse_axis_configuration_line`. */
  method ParseAxisConfigurationLine(conf: Config, f: File, buffer: string) returns (r: int)
    requires conf.Valid()
    modifies f, conf.axes
    ensures var a := NameToEnum(buffer);
      if a == Unknown then r == -1 && f.rest == old(f.rest) && States(conf.axes) == old(States(conf.axes))
      else var k := Index(a); var (status, x, rest) := AxisLine(old(States(conf.axes))[k], old(f.rest));
        r == status && f.rest == rest && States(conf.axes) == old(States(conf.axes))[k := x]
  {
    var a := NameToEnum(buffer);
    if a == Unknown {
      return -1;
    }
    var k := Index(a);
    var axis := conf.axes[k];
    ghost var before := States(conf.axes);
    var valc := ScanAxisValues(f, axis);
    if valc < 5 {
      r := -1;
    } else {
      axis.Enable();
      r := 0;
    }
    StatesOneChanged(conf.axes, before, k);
  }

  /** `read_config_line`. */
  method ReadConfigLine(conf: Config, f: File, prefix: string) returns (r: int)
    requires conf.Valid()
    modifies f, conf.axes
    ensures (r, States(conf.axes), f.rest) == ConfigLine(old(States(conf.axes)), prefix, old(f.rest))
  {
    if !IsPrefix("#", prefix) {
      var status := ParseAxisConfigurationLine(conf, f, prefix);
      if status < 0 {
        return -1;
      }
    }
    ghost var s1 := States(conf.axes);
    r := ReachNextLineOrEof(f);
    assert States(conf.axes) == s1;
  }

  /** `read_config_file`: `f` is the file `fopen` opened, null when it could not be opened. */
  method ReadConfigFile(conf: Config, f: File?) returns (r: int)
    requires conf.Valid()
    modifies f, conf.axes
    ensures f == null ==> r == -1 && States(conf.axes) == old(States(conf.axes))
    ensures f != null ==> (r, States(conf.axes)) == ConfigFile(old(States(conf.axes)), old(f.rest))
  {
    if f == null {
      return -1;
    }
    ghost var s0 := States(conf.axes);
    ghost var t0 := f.rest;
    var continueReading := 1;
    while continueReading == 1
      invariant continueReading == 0 || continueReading == 1
      invariant continueReading == 1 ==> ConfigFile(s0, t0) == ConfigFile(States(conf.axes), f.rest)
      invariant continueReading == 0 ==> ConfigFile(s0, t0) == (0, States(conf.axes))
      decreases |f.rest| + continueReading
    {
      var buffer := f.ReadWord(TOKEN_WIDTH);
      if buffer.None? {
        break;
      }
      var status := ReadConfigLine(conf, f, CStr(buffer.value));
      if status == 0 {
        continueReading := 0;
      } else if status == -1 {
        return -1;
      }
    }
    return 0;
  }

  /** `check_usage`: -1 unless the command line has three or four words. */
  function CheckUsage(argc: int): (r: int)
    ensures r == 0 || r == -1
  {
    if argc < 3 || argc > 4 then -1 else 0
  }

  /** Every record with its axis disabled and every other field kept. */
  function Disabled(xs: seq<AxisState>): (r: seq<AxisState>)
    ensures |r| == |xs|
    ensures forall i :: 0 <= i < |xs| ==> !r[i].isEnabled && r[i] == xs[i].(isEnabled := false)
  {
    seq(|xs|, i requires 0 <= i < |xs| => xs[i].(isEnabled := false))
  }

  /** `init_axes_config`: disables the eight axes, from the last down to the first. */
  method InitAxesConfig(conf: Config)
    requires conf.Valid()
    modifies conf.axes
    ensures States(conf.axes) == Disabled(old(States(conf.axes)))
  {
    ghost var s0 := States(conf.axes);
    var i := AxesCount;
    while i > 0
      invariant 0 <= i <= AxesCount
      invariant forall j :: 0 <= j < i ==> conf.axes[j].State() == s0[j]
      invariant forall j :: i <= j < AxesCount ==> conf.axes[j].State() == s0[j].(isEnabled := false)
    {
      i := i - 1;
      conf.axes[i].isEnabled := false;
    }
    StatesAre(conf.axes, Disabled(s0));
  }

  /**
   * `relabsd_config_parse`: the usage check, the device name, the input
   * file, every axis disabled, then the configuration file `argv[2]`;
   * `f` is what opening it gives, null when it cannot be opened.
   */
  method ConfigParse(conf: Config, argv: seq<string>, f: File?) returns (r: int)
    requires conf.Valid()
    modifies conf, f, conf.axes
    ensures CheckUsage(|argv|) < 0 ==> r == -1 && States(conf.axes) == old(States(conf.axes))
    ensures CheckUsage(|argv|) == 0 ==>
      conf.deviceName == (if |argv| == 3 then DEFAULT_DEVICE_NAME else argv[3])
      && conf.inputFile == argv[1]
      && (f == null ==> r == -1 && States(conf.axes) == Disabled(old(States(conf.axes))))
      && (f != null ==> (r, States(conf.axes)) == ConfigFile(Disabled(old(States(conf.axes))), old(f.rest)))
  {
    if CheckUsage(|argv|) < 0 {
      return -1;
    }
    if |argv| == 3 {
      conf.deviceName := DEFAULT_DEVICE_NAME;
    } else {
      conf.deviceName := argv[3];
    }
    conf.inputFile := argv[1];
    InitAxesConfig(conf);
    var status := ReadConfigFile(conf, f);
    if status < 0 {
      return -1;
    }
    return 0;
  }

  /** The usage check accepts exactly three or four words. */
  lemma UsageAccepts(argc: int)
    ensures CheckUsage(argc) == 0 <==> argc == 3 || argc == 4
  {
  }

  /** The clamp of `relabsd_config_filter`: the minimum is tested first, then the maximum. */
  function Clamp(min: int, max: int, v: int): (w: int)
    ensures w == v || w == min || w == max
  {
    if v < min then min
    else if v > max then max
    else v
  }

  /** With `min <= max` the clamped value lies in the range, and in-range values are kept. */
  lemma ClampInRange(min: int, max: int, v: int)
    requires min <= max
    ensures min <= Clamp(min, max, v) <= max
    ensures min <= v <= max <==> Clamp(min, max, v) == v
  {
  }

  /** Clamping twice is clamping once when `min <= max`. */
  lemma ClampIdempotent(min: int, max: int, v: int)
    requires min <= max
    ensures Clamp(min, max, Clamp(min, max, v)) == Clamp(min, max, v)
  {
    ClampInRange(min, max, v);
  }

  /**
   * With `min > max` the minimum wins below it and the maximum everywhere
   * else, so the clamp is not idempotent: a second clamp swaps the two.
   */
  lemma ClampInverted(min: int, max: int, v: int)
    requires min > max
    ensures Clamp(min, max, v) == if v < min then min else max
    ensures Clamp(min, max, Clamp(min, max, v)) == if v < min then max else min
  {
  }

  /**
   * `relabsd_config_filter` on the records: 0 and the value untouched for
   * UNKNOWN or a disabled axis, else 1 and the clamped value.
   */
  function Filter(axes: seq<AxisState>, a: AxisName, v: int): (r: (int, int))
    requires |axes| == AxesCount
    ensures r.0 == 0 || r.0 == 1
    ensures r.0 == 0 <==> a == Unknown || !axes[Index(a)].isEnabled
    ensures r.0 == 0 ==> r.1 == v
    ensures r.0 == 1 && axes[Index(a)].min <= axes[Index(a)].max
            ==> axes[Index(a)].min <= r.1 <= axes[Index(a)].max
    ensures r.0 == 1 && axes[Index(a)].min <= v <= axes[Index(a)].max ==> r.1 == v
  {
    if a == Unknown || !axes[Index(a)].isEnabled then (0, v)
    else
      var s := axes[Index(a)];
      (1, Clamp(s.min, s.max, v))
  }

  /** `relabsd_config_filter`; `value'` is what `*value` holds afterwards. */
  method ConfigFilter(conf: Config, a: AxisName, value: int) returns (r: int, value': int)
    requires conf.Valid()
    ensures (r, value') == Filter(States(conf.axes), a, value)
  {
    value' := value;
    if a == Unknown || !conf.axes[Index(a)].isEnabled {
      return 0, value';
    }
    var axis := conf.axes[Index(a)];
    if value' < axis.min {
      value' := axis.min;
    } else if value' > axis.max {
      value' := axis.max;
    }
    return 1, value';
  }

  /** Filtering a value the filter let through changes it no more, when `min <= max`. */
  lemma FilterIdempotent(axes: seq<AxisState>, a: AxisName, v: int)
    requires |axes| == AxesCount && a != Unknown && axes[Index(a)].min <= axes[Index(a)].max
    ensures Filter(axes, a, Filter(axes, a, v).1) == Filter(axes, a, v)
  {
    var s := axes[Index(a)];
    if s.isEnabled {
      ClampIdempotent(s.min, s.max, v);
    }
  }

  /** `relabsd_config_get_absinfo`: the descriptor of an axis's record. */
  function GetAbsinfo(conf: Config, a: AxisName): (info: AbsInfo)
    requires conf.Valid() && a != Unknown
    reads conf, conf.axes
    ensures info.value == 0
    ensures var s := conf.axes[Index(a)].State();
      info.minimum == s.min && info.maximum == s.max && info.fuzz == s.fuzz
      && info.flat == s.flat && info.resolution == s.resolution
  {
    conf.axes[Index(a)].ToAbsinfo()
  }

  /**
   * A line naming a known axis and its five numbers: whatever follows on
   * the line, option names included, is skipped, and reading goes on after
   * the newline with the axis enabled and its numbers stored.
   */
  lemma AxisLineSkipsRest(axes: seq<AxisState>, a: AxisName, vals: seq<int>, tail: string, rest: string)
    requires |axes| == AxesCount && IsLegacyAxis(a) && |vals| == 5
    requires forall i :: 0 <= i < 5 ==> IsInt32(vals[i])
    requires PlainLine(tail) && (tail == [] || !IsDigit(tail[0]))
    ensures var k := Index(a);
      ConfigFile(axes, EnumToName(a) + Numbers(vals) + tail + "\n" + rest)
      == ConfigFile(axes[k := Store(axes[k], vals).(isEnabled := true)], rest)
  {
    var word := EnumToName(a);
    var t := Numbers(vals) + tail + "\n" + rest;
    Regroup5(word, Numbers(vals), tail, "\n", rest);
    assert t[0] == ' ';
    WordThen(axes, word, t);
    AxisLineThenNext(axes, a, vals, tail, rest);
  }

  /** The axis line itself, once its word is read: status 1, and reading goes on after the newline. */
  lemma AxisLineThenNext(axes: seq<AxisState>, a: AxisName, vals: seq<int>, tail: string, rest: string)
    requires |axes| == AxesCount && IsLegacyAxis(a) && |vals| == 5
    requires forall i :: 0 <= i < 5 ==> IsInt32(vals[i])
    requires PlainLine(tail) && (tail == [] || !IsDigit(tail[0]))
    ensures var k := Index(a);
      ConfigLine(axes, EnumToName(a), Numbers(vals) + tail + "\n" + rest)
      == (1, axes[k := Store(axes[k], vals).(isEnabled := true)], rest)
  {
    var x := tail + "\n" + rest;
    Regroup(Numbers(vals), tail, "\n", rest);
    AxisNumbers(axes, a, EnumToName(a), vals, x);
    SkipLineExactly(tail, rest);
  }

  /** A whole word of at most two characters is the axis token, and the line goes on after it. */
  lemma WordThen(axes: seq<AxisState>, word: string, t: string)
    requires |axes| == AxesCount
    requires word != [] && |word| <= TOKEN_WIDTH && NUL !in word
    requires forall i :: 0 <= i < |word| ==> !IsSpace(word[i])
    requires t == [] || IsSpace(t[0])
    ensures ConfigFile(axes, word + t) == AfterWord(axes, word, t)
  {
    ScanWordExact(word, t, TOKEN_WIDTH);
    CStrNoNul(word);
  }

  /** The numbers after an axis word: the line is read on that axis's record. */
  lemma AxisNumbers(axes: seq<AxisState>, a: AxisName, word: string, vals: seq<int>, x: string)
    requires |axes| == AxesCount && IsLegacyAxis(a) && word == EnumToName(a) && |vals| == 5
    requires forall i :: 0 <= i < 5 ==> IsInt32(vals[i])
    requires x == [] || !IsDigit(x[0])
    ensures var k := Index(a);
      ConfigLine(axes, word, Numbers(vals) + x)
      == (var (s, rest) := SkipLine(x); (s, axes[k := Store(axes[k], vals).(isEnabled := true)], rest))
  {
    NameRoundTrip(a);
    assert word[0] != '#';
    var k := Index(a);
    AxisLineReadsFive(axes[k], vals, x);
  }

  /** Five numbers written in decimal: they are stored, the axis is enabled, and the text after them is left. */
  lemma AxisLineReadsFive(s: AxisState, vals: seq<int>, x: string)
    requires |vals| == 5 && forall i :: 0 <= i < 5 ==> IsInt32(vals[i])
    requires x == [] || !IsDigit(x[0])
    ensures AxisLine(s, Numbers(vals) + x) == (0, Store(s, vals).(isEnabled := true), x)
  {
    ScanNumbers(vals, x, 5, 0);
    assert vals + [] == vals;
  }

  /** A comment line changes nothing, and reading goes on after its newline. */
  lemma CommentLineSkipped(axes: seq<AxisState>, line: string, rest: string)
    requires |axes| == AxesCount
    requires line != [] && line[0] == '#' && PlainLine(line)
    ensures ConfigFile(axes, line + "\n" + rest) == ConfigFile(axes, rest)
  {
    var w, tail := CommentWord(line, rest, TOKEN_WIDTH);
    SkipLineExactly(tail, rest);
  }

  /** What reading does after the word `word` with `rest` left. */
  function AfterWord(axes: seq<AxisState>, word: string, rest: string): (int, seq<AxisState>)
    requires |axes| == AxesCount
  {
    var (status, axes', rest') := ConfigLine(axes, word, rest);
    if status == 1 then ConfigFile(axes', rest')
    else if status == 0 then (0, axes')
    else (-1, axes')
  }

  /**
   * A word wider than two characters is cut: its first two characters are
   * the axis token and the rest of it is read as the start of the line.
   */
  lemma TokenCut(axes: seq<AxisState>, w: string, x: string)
    requires |axes| == AxesCount
    requires |w| > TOKEN_WIDTH && NUL !in w && forall i :: 0 <= i < |w| ==> !IsSpace(w[i])
    ensures ConfigFile(axes, w + x) == AfterWord(axes, w[..TOKEN_WIDTH], w[TOKEN_WIDTH..] + x)
  {
    ScanWordCut(w, x, TOKEN_WIDTH);
    assert NUL !in w[..TOKEN_WIDTH] by {
      assert w[..TOKEN_WIDTH] == [w[0], w[1]];
    }
    CStrNoNul(w[..TOKEN_WIDTH]);
  }

  /**
   * So an axis name glued to a word, such as `RXY 1 2 3 4 5`, is fatal:
   * the numbers are read from the third character on, which is no number.
   */
  lemma GluedAxisNameFatal(axes: seq<AxisState>, w: string, x: string)
    requires |axes| == AxesCount
    requires |w| > TOKEN_WIDTH && NUL !in w && forall i :: 0 <= i < |w| ==> !IsSpace(w[i])
    requires NameToEnum(w[..TOKEN_WIDTH]) != Unknown
    requires !IsDigit(w[TOKEN_WIDTH]) && w[TOKEN_WIDTH] != '-' && w[TOKEN_WIDTH] != '+'
    ensures ConfigFile(axes, w + x) == (-1, axes)
  {
    TokenCut(axes, w, x);
    var y := w[TOKEN_WIDTH..] + x;
    assert y[0] == w[TOKEN_WIDTH];
    ScanIntFails(y, 5);
    var word := w[..TOKEN_WIDTH];
    NamedByLetter(word);
    var k := Index(NameToEnum(word));
    assert Store(axes[k], []) == axes[k];
    assert axes[k := axes[k]] == axes;
  }
}
