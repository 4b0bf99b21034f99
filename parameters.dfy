/**
 * Command-line parsing of the parameters (src/config/parameters/parameters.c):
 * the execution mode, the options that follow it, one axis definition, and
 * the number of values each option takes.
 */
module ParametersCli {
  import opened Wrappers
  import opened Int32
  import opened CText
  import opened StringUtil
  import opened AxisName
  import opened Axis
  import opened Parameters

  /** `argv[i]` for `i <= argc`: `argv[argc]` is the null pointer that ends the vector. */
  function Arg(argv: seq<string>, i: nat): (r: Option<string>)
    ensures r.Some? <==> i < |argv|
    ensures i < |argv| ==> r.value == argv[i]
  {
    if i < |argv| then Some(argv[i]) else None
  }

  /**
   * One `relabsd_util_parse_int(text, INT_MIN, INT_MAX, &(axis->f))` of
   * `parse_axis`, once every earlier one succeeded: a text that is not a
   * full-range int stops the parse, and the attributes written before it
   * stay written.
   */
  function FieldStep(r: (bool, AxisState), text: string, f: Field): (t: (bool, AxisState))
    ensures t.0 ==> r.0 && ParseInt(text, INT_MIN, INT_MAX) == Parsed(Get(t.1, f))
    ensures t.1 == r.1 || t.1 == With(r.1, f, Get(t.1, f))
    ensures r.1.Valid() ==> t.1.Valid()
  {
    if !r.0 then r
    else
      match ParseInt(text, INT_MIN, INT_MAX)
      case Parsed(v) => (true, With(r.1, f, v))
      case _ => (false, r.1)
  }

  /** The five attribute parses of `parse_axis` on the record it selected. */
  function AxisAttributes(s: AxisState, args: seq<string>): (r: (bool, AxisState))
    requires |args| >= 6
  {
    FieldStep(FieldStep(FieldStep(FieldStep(FieldStep(
      (true, s), args[1], Min), args[2], Max), args[3], Fuzz), args[4], Flat), args[5], Resolution)
  }

  /**
   * `parse_axis(argc, argv, axes)` on a snapshot of the eight axes: the
   * status and the new axes. `args[0]` names the axis, `args[1..6]` are its
   * five attributes; `args[6]`, the option list, is not read. The
   * undeclared `axis_index` of the source is read as a local holding the
   * axis that the exact parser `relabsd_axis_parse_name` gives.
   */
  function AxisDefinition(axes: seq<AxisState>, args: seq<string>): (r: (int, seq<AxisState>))
    requires |axes| == AxesCount
    ensures |r.1| == AxesCount
    ensures r.0 == 0 || r.0 == -1
    ensures |args| < 7 || ParseName(args[0]) == Unknown ==> r == (-1, axes)
    ensures forall i :: 0 <= i < AxesCount && (|args| < 7 || i != Index(ParseName(args[0]))) ==> r.1[i] == axes[i]
    ensures (forall i :: 0 <= i < AxesCount ==> axes[i].Valid()) ==> forall i :: 0 <= i < AxesCount ==> r.1[i].Valid()
  {
    if |args| < 7 then (-1, axes)
    else
      var a := ParseName(args[0]);
      if a == Unknown then (-1, axes)
      else
        var k := Index(a);
        var (ok, t) := AxisAttributes(axes[k], args);
        (if ok then 0 else -1, axes[k := t])
  }

  /** The attribute parses of `parse_axis`, writing into the selected record. */
  method ParseAttributes(args: seq<string>, axis: Axis) returns (ok: bool)
    requires |args| >= 6
    modifies axis
    ensures (ok, axis.State()) == AxisAttributes(old(axis.State()), args)
  {
    var value1 := ParseInt(args[1], INT_MIN, INT_MAX);
    if !value1.Parsed? {
      return false;
    }
    axis.SetField(Min, value1.value);
    var value2 := ParseInt(args[2], INT_MIN, INT_MAX);
    if !value2.Parsed? {
      return false;
    }
    axis.SetField(Max, value2.value);
    var value3 := ParseInt(args[3], INT_MIN, INT_MAX);
    if !value3.Parsed? {
      return false;
    }
    axis.SetField(Fuzz, value3.value);
    var value4 := ParseInt(args[4], INT_MIN, INT_MAX);
    if !value4.Parsed? {
      return false;
    }
    axis.SetField(Flat, value4.value);
    var value5 := ParseInt(args[5], INT_MIN, INT_MAX);
    if !value5.Parsed? {
      return false;
    }
    axis.SetField(Resolution, value5.value);
    return true;
  }

  /** `parse_axis`: writes the attributes of one axis record in place. */
  method ParseAxis(args: seq<string>, axes: seq<Axis>) returns (r: int)
    requires |axes| == AxesCount
    requires forall i, j :: 0 <= i < j < |axes| ==> axes[i] != axes[j]
    modifies axes
    ensures (r, States(axes)) == AxisDefinition(old(States(axes)), args)
  {
    if |args| < 7 {
      return -1;
    }
    var a := ParseName(args[0]);
    if a == Unknown {
      return -1;
    }
    var k := Index(a);
    var axis := axes[k];
    ghost var before := States(axes);
    var ok := ParseAttributes(args, axis);
    StatesOneChanged(axes, before, k);
    r := if ok then 0 else -1;
  }

  /** The mode selectors `relabsd_parameters_parse_execution_mode` knows. */
  const ModeSelectors: set<string> :=
    {"-?", "--compatibility", "-c", "--client", "-s", "--server", "-1", "--self"}

  /**
   * `relabsd_parameters_parse_execution_mode(argc, argv, parameters)`: the
   * status and the new record. `-s` reads `argv[3]`, which is the null
   * pointer when `argc` is 3.
   */
  function ExecutionMode(s: ParametersState, argv: seq<string>): (r: (int, ParametersState))
    ensures r.0 == 0 || r.0 == -1
    ensures r.0 == -1 <==> |argv| < 3 || argv[1] !in ModeSelectors
    ensures r.0 == -1 ==> r.1 == s
    ensures r.1.axes == s.axes && r.1.timeout == s.timeout && r.1.runAsDaemon == s.runAsDaemon
    ensures r.1.deviceName == s.deviceName && r.1.configurationFile == s.configurationFile
  {
    if |argv| < 3 then (-1, s)
    else if argv[1] == "-?" || argv[1] == "--compatibility" then
      (0, s.(mode := CompatibilityTestMode, physicalDeviceFileName := Some(argv[2]), readArgc := 2))
    else if argv[1] == "-c" || argv[1] == "--client" then
      (0, s.(mode := ClientMode, communicationNodeName := Some(argv[2]), physicalDeviceFileName := None,
             readArgc := 2))
    else if argv[1] == "-s" || argv[1] == "--server" then
      (0, s.(mode := ServerMode, communicationNodeName := Some(argv[2]),
             physicalDeviceFileName := Arg(argv, 3), readArgc := 3))
    else if argv[1] == "-1" || argv[1] == "--self" then
      (0, s.(mode := ServerMode, communicationNodeName := None, physicalDeviceFileName := Some(argv[2]),
             readArgc := 2))
    else (-1, s)
  }

  /** `relabsd_parameters_parse_execution_mode`. */
  method ParseExecutionMode(argv: seq<string>, p: Parameters) returns (r: int)
    modifies p
    ensures (r, p.State()) == ExecutionMode(old(p.State()), argv)
  {
    if |argv| < 3 {
      return -1;
    }
    if argv[1] == "-?" || argv[1] == "--compatibility" {
      p.mode := CompatibilityTestMode;
      p.physicalDeviceFileName := Some(argv[2]);
      p.readArgc := 2;
    } else if argv[1] == "-c" || argv[1] == "--client" {
      p.mode := ClientMode;
      p.communicationNodeName := Some(argv[2]);
      p.physicalDeviceFileName := None;
      p.readArgc := 2;
    } else if argv[1] == "-s" || argv[1] == "--server" {
      p.mode := ServerMode;
      p.communicationNodeName := Some(argv[2]);
      p.physicalDeviceFileName := Arg(argv, 3);
      p.readArgc := 3;
    } else if argv[1] == "-1" || argv[1] == "--self" {
      p.mode := ServerMode;
      p.communicationNodeName := None;
      p.physicalDeviceFileName := Some(argv[2]);
      p.readArgc := 2;
    } else {
      return -1;
    }
    return 0;
  }

  /**
   * The mode table: which selector gives which mode, how many arguments it
   * reads, and that a server or client mode names its node from `argv[2]`.
   */
  lemma ModeTable(s: ParametersState, argv: seq<string>)
    requires ExecutionMode(s, argv).0 == 0
    ensures var t := ExecutionMode(s, argv).1;
      && (t.mode == CompatibilityTestMode <==> argv[1] in {"-?", "--compatibility"})
      && (t.mode == ClientMode <==> argv[1] in {"-c", "--client"})
      && (t.mode == ServerMode <==> argv[1] in {"-s", "--server", "-1", "--self"})
      && (t.readArgc == 3 <==> argv[1] in {"-s", "--server"})
      && (t.readArgc == 2 <==> argv[1] !in {"-s", "--server"})
      && (argv[1] in {"-c", "--client", "-s", "--server"} ==> t.communicationNodeName == Some(argv[2]))
      && (argv[1] in {"-1", "--self"} ==> t.communicationNodeName == None)
      && (argv[1] !in {"-s", "--server", "-c", "--client"} ==> t.physicalDeviceFileName == Some(argv[2]))
  {
  }

  /** What one option of `relabsd_parameters_parse_options` does: go on at `next`, or stop. */
  datatype Step = Next(s: ParametersState, next: nat) | Stop(status: int, s: ParametersState)

  /** The options the parser knows, and the `-m` of `relabsd_parameters_argument_count_for`. */
  datatype OptionKind = DaemonOption | NameOption | TimeoutOption | AxisOption | ConfigOption
                      | ModAxisOption | NoOption

  /** Which option `o` is, by the short and long spellings, as the parser's `RELABSD_STRING_EQUALS` tests. */
  function OptionKindOf(o: string): OptionKind
  {
    if o == "-d" || o == "--daemon" then DaemonOption
    else if o == "-n" || o == "--name" then NameOption
    else if o == "-t" || o == "--timeout" then TimeoutOption
    else if o == "-a" || o == "--axis" then AxisOption
    else if o == "-f" || o == "--config" then ConfigOption
    else if o == "-m" || o == "--mod-axis" then ModAxisOption
    else NoOption
  }

  predicate IsDaemonOption(o: string) { OptionKindOf(o) == DaemonOption }
  predicate IsNameOption(o: string) { OptionKindOf(o) == NameOption }
  predicate IsTimeoutOption(o: string) { OptionKindOf(o) == TimeoutOption }
  predicate IsAxisOption(o: string) { OptionKindOf(o) == AxisOption }
  predicate IsConfigOption(o: string) { OptionKindOf(o) == ConfigOption }
  predicate IsModAxisOption(o: string) { OptionKindOf(o) == ModAxisOption }

  /** Each kind is exactly its two spellings: no spelling is shadowed by an earlier test. */
  lemma OptionKindSpellings(o: string)
    ensures IsDaemonOption(o) <==> o == "-d" || o == "--daemon"
    ensures IsNameOption(o) <==> o == "-n" || o == "--name"
    ensures IsTimeoutOption(o) <==> o == "-t" || o == "--timeout"
    ensures IsAxisOption(o) <==> o == "-a" || o == "--axis"
    ensures IsConfigOption(o) <==> o == "-f" || o == "--config"
    ensures IsModAxisOption(o) <==> o == "-m" || o == "--mod-axis"
  {
    if |o| == 2 {
      assert o[1] != 'd' ==> o != "-d";
    } else if |o| >= 3 {
      assert o[2] != 'd' ==> o != "--daemon";
      assert o[2] != 'n' ==> o != "--name";
      assert o[2] != 't' ==> o != "--timeout";
      assert o[2] != 'a' ==> o != "--axis";
      assert o[2] != 'c' ==> o != "--config";
    }
  }

  /** The options that are followed by a value. */
  predicate TakesValue(o: string)
  {
    IsNameOption(o) || IsTimeoutOption(o) || IsAxisOption(o) || IsConfigOption(o)
  }

  /**
   * The option at `argv[i]`, with the two corrections to
   * src/config/parameters/parameters.c: an option whose value is missing
   * fails (the source's `argc == i` tests never hold), and `-a` skips the
   * seven values it consumed.
   */
  function OptionStep(s: ParametersState, argv: seq<string>, i: nat): (r: Step)
    requires i < |argv| && |s.axes| == AxesCount
    ensures r.Next? ==> i < r.next <= |argv|
    ensures r.Stop? ==> r.status == -1
    ensures r.s.communicationNodeName == s.communicationNodeName
    ensures r.s.physicalDeviceFileName == s.physicalDeviceFileName
    ensures r.s.mode == s.mode && r.s.readArgc == s.readArgc && |r.s.axes| == AxesCount
    ensures s.Valid() ==> r.s.Valid()
    ensures r.s.timeout != s.timeout ==> 0 <= r.s.timeout <= INT_MAX
  {
    var o := argv[i];
    if IsDaemonOption(o) then Next(s.(runAsDaemon := true), i + 1)
    else if IsNameOption(o) then
      if i + 1 >= |argv| then Stop(-1, s)
      else Next(s.(deviceName := Some(argv[i + 1])), i + 2)
    else if IsTimeoutOption(o) then
      if i + 1 >= |argv| then Stop(-1, s)
      else
        match ParseInt(argv[i + 1], 0, INT_MAX)
        case Parsed(v) => Next(s.(timeout := v), i + 2)
        case _ => Stop(-1, s)
    else if IsAxisOption(o) then
      if i + 1 >= |argv| then Stop(-1, s)
      else
        var d := AxisDefinition(s.axes, argv[i + 1..]);
        if d.0 < 0 then Stop(-1, s.(axes := d.1))
        else Next(s.(axes := d.1), i + 8)
    else if IsConfigOption(o) then
      if i + 1 >= |argv| then Stop(-1, s)
      else Next(s.(configurationFile := Some(argv[i + 1])), i + 2)
    else Stop(-1, s)
  }

  /** The options from `argv[i]` on: the status and the final record. */
  function OptionsFrom(s: ParametersState, argv: seq<string>, i: nat): (r: (int, ParametersState))
    requires |s.axes| == AxesCount
    ensures r.1.communicationNodeName == s.communicationNodeName
    ensures r.1.physicalDeviceFileName == s.physicalDeviceFileName && r.1.mode == s.mode
    decreases |argv| - i
  {
    if i >= |argv| then (0, s)
    else
      match OptionStep(s, argv, i)
      case Next(t, j) => OptionsFrom(t, argv, j)
      case Stop(c, t) => (c, t)
  }

  /**
   * `relabsd_parameters_parse_options`: the options are cleared, then read
   * from `argv[read_argc + 1]` on.
   */
  function Options(s: ParametersState, argv: seq<string>): (r: (int, ParametersState))
    requires |s.axes| == AxesCount && s.readArgc >= 0
  {
    OptionsFrom(InitialOptions(s), argv, s.readArgc + 1)
  }

  /** One pass of the option loop of `relabsd_parameters_parse_options`. */
  method ParseOption(argv: seq<string>, i: nat, p: Parameters) returns (status: int, next: nat)
    requires i < |argv| && p.Valid()
    modifies p, p.axes
    ensures OptionStep(old(p.State()), argv, i)
         == if status == 0 then Next(p.State(), next) else Stop(status, p.State())
  {
    var o := argv[i];
    if IsDaemonOption(o) {
      p.runAsDaemon := true;
      return 0, i + 1;
    } else if IsNameOption(o) {
      if i + 1 >= |argv| {
        return -1, i;
      }
      p.deviceName := Some(argv[i + 1]);
      return 0, i + 2;
    } else if IsTimeoutOption(o) {
      status, next := ParseTimeoutOption(argv, i, p);
      return;
    } else if IsAxisOption(o) {
      status, next := ParseAxisOption(argv, i, p);
      return;
    } else if IsConfigOption(o) {
      if i + 1 >= |argv| {
        return -1, i;
      }
      p.configurationFile := Some(argv[i + 1]);
      return 0, i + 2;
    }
    return -1, i;
  }

  /** The `-t`/`--timeout` branch of the option loop: the value must be in [0, INT_MAX]. */
  method ParseTimeoutOption(argv: seq<string>, i: nat, p: Parameters) returns (status: int, next: nat)
    requires i < |argv| && p.Valid() && IsTimeoutOption(argv[i])
    modifies p
    ensures OptionStep(old(p.State()), argv, i)
         == if status == 0 then Next(p.State(), next) else Stop(status, p.State())
  {
    if i + 1 >= |argv| {
      return -1, i;
    }
    var value := ParseInt(argv[i + 1], 0, INT_MAX);
    if !value.Parsed? {
      return -1, i;
    }
    p.timeout := value.value;
    return 0, i + 2;
  }

  /** The `-a`/`--axis` branch of the option loop: an axis definition of seven words. */
  method ParseAxisOption(argv: seq<string>, i: nat, p: Parameters) returns (status: int, next: nat)
    requires i < |argv| && p.Valid() && IsAxisOption(argv[i])
    modifies p.axes
    ensures OptionStep(old(p.State()), argv, i)
         == if status == 0 then Next(p.State(), next) else Stop(status, p.State())
  {
    if i + 1 >= |argv| {
      return -1, i;
    }
    ghost var s0 := p.State();
    var result := ParseAxis(argv[i + 1..], p.axes);
    assert p.State() == s0.(axes := States(p.axes));
    if result < 0 {
      return -1, i;
    }
    return 0, i + 8;
  }

  /** `relabsd_parameters_parse_options`, corrected as `OptionStep` says. */
  method ParseOptions(argv: seq<string>, p: Parameters) returns (r: int)
    requires p.Valid() && p.readArgc >= 0
    modifies p, p.axes
    ensures p.Valid()
    ensures (r, p.State()) == Options(old(p.State()), argv)
  {
    p.InitializeOptions();
    var i: nat := p.readArgc + 1;
    while i < |argv|
      invariant p.Valid()
      invariant OptionsFrom(p.State(), argv, i) == Options(old(p.State()), argv)
      decreases |argv| - i
    {
      var status, next := ParseOption(argv, i, p);
      if status < 0 {
        return -1;
      }
      i := next;
    }
    return 0;
  }

  /** A timeout the options set is in [0, INT_MAX], and a valid record stays valid. */
  lemma {:induction false} OptionsKeepValid(s: ParametersState, argv: seq<string>, i: nat)
    requires |s.axes| == AxesCount
    ensures var t := OptionsFrom(s, argv, i).1;
      && (0 <= s.timeout <= INT_MAX ==> 0 <= t.timeout <= INT_MAX)
      && (s.Valid() ==> t.Valid())
    decreases |argv| - i
  {
    if i < |argv| {
      match OptionStep(s, argv, i)
      case Next(t, j) => OptionsKeepValid(t, argv, j);
      case Stop(_, _) =>
    }
  }

  /**
   * `relabsd_parameters_parse_options` begins with
   * `relabsd_parameters_initialize_options`, so whatever
   * `relabsd_parameters_parse_execution_mode` stored as node name and device
   * file is null afterwards.
   */
  lemma ParseOptionsForgetsModeArguments(s: ParametersState, argv: seq<string>)
    requires |s.axes| == AxesCount && s.readArgc >= 0
    ensures Options(s, argv).1.communicationNodeName == None
    ensures Options(s, argv).1.physicalDeviceFileName == None
    ensures Options(s, argv).1.mode == s.mode
  {
  }

  /** An option that is not one of `-d -n -t -a -f` and their long forms stops the parse with -1. */
  lemma UnknownOptionRejected(s: ParametersState, argv: seq<string>, i: nat)
    requires i < |argv| && |s.axes| == AxesCount
    requires !IsDaemonOption(argv[i]) && !IsNameOption(argv[i]) && !IsTimeoutOption(argv[i])
    requires !IsAxisOption(argv[i]) && !IsConfigOption(argv[i])
    ensures OptionsFrom(s, argv, i) == (-1, s)
  {
  }

  /**
   * A successful axis definition stores the five parsed values into the
   * named axis and nothing else: the axis is not enabled, and its flags,
   * `previous_value` and the other axes keep their values.
   */
  lemma AxisDefinitionStoresValues(axes: seq<AxisState>, args: seq<string>)
    requires |axes| == AxesCount
    requires AxisDefinition(axes, args).0 == 0
    ensures |args| >= 7 && ParseName(args[0]) != Unknown
    ensures var k := Index(ParseName(args[0]));
      var t := AxisDefinition(axes, args).1[k];
      && ParseInt(args[1], INT_MIN, INT_MAX) == Parsed(t.min)
      && ParseInt(args[2], INT_MIN, INT_MAX) == Parsed(t.max)
      && ParseInt(args[3], INT_MIN, INT_MAX) == Parsed(t.fuzz)
      && ParseInt(args[4], INT_MIN, INT_MAX) == Parsed(t.flat)
      && ParseInt(args[5], INT_MIN, INT_MAX) == Parsed(t.resolution)
      && t.isEnabled == axes[k].isEnabled && t.flags == axes[k].flags
      && t.previousValue == axes[k].previousValue
  {
    var k := Index(ParseName(args[0]));
    var r1 := FieldStep((true, axes[k]), args[1], Min);
    var r2 := FieldStep(r1, args[2], Max);
    var r3 := FieldStep(r2, args[3], Fuzz);
    var r4 := FieldStep(r3, args[4], Flat);
    var r5 := FieldStep(r4, args[5], Resolution);
    assert r5.0 && r4.0 && r3.0 && r2.0 && r1.0;
  }

  /** The seventh value of an axis definition, its option list, is never read. */
  lemma AxisOptionListIgnored(axes: seq<AxisState>, args: seq<string>, other: string)
    requires |axes| == AxesCount && |args| >= 7
    ensures AxisDefinition(axes, args) == AxisDefinition(axes, args[6 := other])
  {
    assert args[6 := other][1..6] == args[1..6];
  }

  /**
   * The option step exactly as src/config/parameters/parameters.c writes
   * it: the `argc == i` tests never hold, so an option at the end of `argv`
   * reads the null pointer `argv[argc]`; `None` is the undefined behaviour of
   * handing that pointer to `relabsd_util_parse_int`. After `-a`, the loop
   * goes on with the first value of the axis definition.
   */
  function OptionStepAsWritten(s: ParametersState, argv: seq<string>, i: nat): (r: Option<Step>)
    requires i < |argv| && |s.axes| == AxesCount
    ensures r.Some? && r.value.Next? ==> i < r.value.next && |r.value.s.axes| == AxesCount
    ensures r.Some? ==> r.value.s.physicalDeviceFileName == s.physicalDeviceFileName
  {
    var o := argv[i];
    if IsDaemonOption(o) then Some(Next(s.(runAsDaemon := true), i + 1))
    else if IsNameOption(o) then Some(Next(s.(deviceName := Arg(argv, i + 1)), i + 2))
    else if IsTimeoutOption(o) then
      if i + 1 == |argv| then None
      else
        match ParseInt(argv[i + 1], 0, INT_MAX)
        case Parsed(v) => Some(Next(s.(timeout := v), i + 2))
        case _ => Some(Stop(-1, s))
    else if IsAxisOption(o) then
      var d := AxisDefinition(s.axes, argv[i + 1..]);
      if d.0 < 0 then Some(Stop(-1, s.(axes := d.1)))
      else Some(Next(s.(axes := d.1), i + 2))
    else if IsConfigOption(o) then Some(Next(s.(configurationFile := Arg(argv, i + 1)), i + 2))
    else Some(Stop(-1, s))
  }

  /** The option loop as written; `None` when it reaches undefined behaviour. */
  function OptionsFromAsWritten(s: ParametersState, argv: seq<string>, i: nat): Option<(int, ParametersState)>
    requires |s.axes| == AxesCount
    decreases |argv| - i
  {
    if i >= |argv| then Some((0, s))
    else
      match OptionStepAsWritten(s, argv, i)
      case None => None
      case Some(Next(t, j)) => OptionsFromAsWritten(t, argv, j)
      case Some(Stop(c, t)) => Some((c, t))
  }

  /** As written, the option loop, wherever it is defined, leaves the device file name alone. */
  lemma {:induction false} AsWrittenKeepsDeviceFile(s: ParametersState, argv: seq<string>, i: nat)
    requires |s.axes| == AxesCount
    ensures var r := OptionsFromAsWritten(s, argv, i);
      r.Some? ==> r.value.1.physicalDeviceFileName == s.physicalDeviceFileName
    decreases |argv| - i
  {
    if i < |argv| {
      match OptionStepAsWritten(s, argv, i)
      case None =>
      case Some(Next(t, j)) => AsWrittenKeepsDeviceFile(t, argv, j);
      case Some(Stop(c, t)) =>
    }
  }

  /**
   * As written, a well-formed axis definition whose `<min>` starts with a
   * digit always fails: the loop reads `<min>` as the next option.
   */
  lemma AxisValuesReadAsOptions(s: ParametersState, argv: seq<string>, i: nat)
    requires i < |argv| && |s.axes| == AxesCount && IsAxisOption(argv[i])
    requires AxisDefinition(s.axes, argv[i + 1..]).0 == 0
    requires i + 2 < |argv| && argv[i + 2] != [] && IsDigit(argv[i + 2][0])
    ensures OptionsFromAsWritten(s, argv, i) == Some((-1, s.(axes := AxisDefinition(s.axes, argv[i + 1..]).1)))
  {
    var d := AxisDefinition(s.axes, argv[i + 1..]);
    var t := s.(axes := d.1);
    var a := argv[i];
    AxisOptionIsNoOther(a);
    assert OptionStepAsWritten(s, argv, i) == Some(Next(t, i + 2));
    var o := argv[i + 2];
    DigitIsNoOption(o);
    assert OptionStepAsWritten(t, argv, i + 2) == Some(Stop(-1, t));
  }

  lemma AxisOptionIsNoOther(o: string)
    requires IsAxisOption(o)
    ensures !IsDaemonOption(o) && !IsNameOption(o) && !IsTimeoutOption(o)
  {
  }

  lemma DigitIsNoOption(o: string)
    requires o != [] && IsDigit(o[0])
    ensures !IsDaemonOption(o) && !IsNameOption(o) && !IsTimeoutOption(o) && !IsAxisOption(o) && !IsConfigOption(o)
  {
    assert o[0] != '-';
  }

  /** Corrected, the same definition is followed by the option after its seven values. */
  lemma AxisValuesSkipped(s: ParametersState, argv: seq<string>, i: nat)
    requires i < |argv| && |s.axes| == AxesCount && IsAxisOption(argv[i])
    requires AxisDefinition(s.axes, argv[i + 1..]).0 == 0
    ensures i + 8 <= |argv|
    ensures OptionsFrom(s, argv, i) == OptionsFrom(s.(axes := AxisDefinition(s.axes, argv[i + 1..]).1), argv, i + 8)
  {
    var d := AxisDefinition(s.axes, argv[i + 1..]);
    assert |argv[i + 1..]| >= 7;
    var a := argv[i];
    AxisOptionIsNoOther(a);
    assert OptionStep(s, argv, i) == Next(s.(axes := d.1), i + 8);
  }

  /**
   * As written, `-n` or `-f` as the last argument is accepted and stores the
   * null pointer, and `-t` as the last argument is undefined behaviour.
   */
  lemma MissingValueAsWritten(s: ParametersState, argv: seq<string>)
    requires |argv| > 0 && |s.axes| == AxesCount
    ensures IsNameOption(argv[|argv| - 1])
      ==> OptionsFromAsWritten(s, argv, |argv| - 1) == Some((0, s.(deviceName := None)))
    ensures IsConfigOption(argv[|argv| - 1])
      ==> OptionsFromAsWritten(s, argv, |argv| - 1) == Some((0, s.(configurationFile := None)))
    ensures IsTimeoutOption(argv[|argv| - 1]) ==> OptionsFromAsWritten(s, argv, |argv| - 1) == None
  {
  }

  /** Corrected, an option whose value is missing fails and changes nothing. */
  lemma MissingValueRejected(s: ParametersState, argv: seq<string>, i: nat)
    requires i + 1 == |argv| && |s.axes| == AxesCount && TakesValue(argv[i])
    ensures OptionsFrom(s, argv, i) == (-1, s)
  {
    MissingValueStops(s, argv, i);
    OptionsFromStop(s, argv, i);
  }

  /** A step that stops ends the option loop with its status. */
  lemma OptionsFromStop(s: ParametersState, argv: seq<string>, i: nat)
    requires i < |argv| && |s.axes| == AxesCount && OptionStep(s, argv, i).Stop?
    ensures OptionsFrom(s, argv, i) == (OptionStep(s, argv, i).status, OptionStep(s, argv, i).s)
  {
  }

  /** An option that takes a value, given as the last argument, stops the loop. */
  lemma MissingValueStops(s: ParametersState, argv: seq<string>, i: nat)
    requires i + 1 == |argv| && |s.axes| == AxesCount && TakesValue(argv[i])
    ensures OptionStep(s, argv, i) == Stop(-1, s)
  {
  }

  /**
   * `relabsd_parameters_argument_count_for` as written: `-n` is tested
   * twice, and the first test gives 0. `None` is the -1 status that leaves
   * `*result` untouched.
   */
  function ArgumentCountForAsWritten(option: string): (r: Option<nat>)
    ensures IsNameOption(option) ==> r == Some(0)
    ensures IsDaemonOption(option) ==> r == None
  {
    match OptionKindOf(option)
    case NameOption => Some(0)
    case TimeoutOption => Some(1)
    case AxisOption => Some(7)
    case ModAxisOption => Some(7)
    case ConfigOption => Some(1)
    case _ => None
  }

  /** As written, the count for `-n` disagrees with the one value the option parser reads for it. */
  lemma NameCountAsWritten(s: ParametersState, argv: seq<string>, i: nat)
    requires i + 1 < |argv| && |s.axes| == AxesCount && IsNameOption(argv[i])
    ensures OptionStep(s, argv, i).Next?
    ensures OptionStep(s, argv, i).next != i + 1 + ArgumentCountForAsWritten(argv[i]).value
  {
  }

  /** `relabsd_parameters_argument_count_for` with the unreachable `-n` count of 1 in effect. */
  function ArgumentCount(option: string): (r: Option<nat>)
    ensures r.Some? <==> TakesValue(option) || IsModAxisOption(option)
  {
    match OptionKindOf(option)
    case NameOption => Some(1)
    case TimeoutOption => Some(1)
    case AxisOption => Some(7)
    case ModAxisOption => Some(7)
    case ConfigOption => Some(1)
    case _ => None
  }

  /**
   * Corrected, every option that takes values is followed by exactly as
   * many values as `ArgumentCount` announces: the parser goes on right
   * after them.
   */
  lemma OptionConsumesItsArguments(s: ParametersState, argv: seq<string>, i: nat)
    requires i < |argv| && |s.axes| == AxesCount && !IsDaemonOption(argv[i])
    requires OptionStep(s, argv, i).Next?
    ensures ArgumentCount(argv[i]).Some?
    ensures OptionStep(s, argv, i).next == i + 1 + ArgumentCount(argv[i]).value
  {
  }
}
