/**
 * The live-reconfiguration interpreter
 * (src/config/parameters/handle_remote_client_commands.c): a client sends
 * commands, one per line, that change the timeout, the device name and the
 * eight axes of the parameters while the server runs.
 *
 * The socket is the sequence of results `getline` still has to return, each
 * with its line terminator; the line buffer is the argument returned by
 * `GetNextArgument`.
 */
module RemoteClient {
  import opened Wrappers
  import opened Int32
  import opened CText
  import opened StringUtil
  import opened AxisName
  import opened Axis
  import opened AxisOption
  import opened Parameters
  import opened Interruption

  /**
   * One `get_next_argument`: the text before the last byte of the next line,
   * or `None` when the socket has no line left or gives an empty one; and the
   * lines left afterwards.
   */
  function Read(lines: seq<string>): (r: (Option<string>, seq<string>))
    ensures |r.1| < |lines| || lines == []
    ensures lines == [] ==> r == (None, [])
    ensures r.0.Some? <==> lines != [] && |lines[0]| >= 1
    ensures r.0.Some? ==> lines[0] == r.0.value + [lines[0][|lines[0]| - 1]] && r.1 == lines[1..]
  {
    if lines == [] then (None, [])
    else if |lines[0]| < 1 then (None, lines[1..])
    else (Some(lines[0][..|lines[0]| - 1]), lines[1..])
  }

  /** The socket of one client, as `struct relabsd_parameters_client_input` reads it. */
  class ClientInput {
    var lines: seq<string>

    constructor (lines: seq<string>)
      ensures this.lines == lines
    {
      this.lines := lines;
    }

    /**
     * `get_next_argument`: reads a line and drops its last byte (the line
     * terminator). Returns 0 and the argument, or -1.
     */
    method GetNextArgument() returns (r: int, argument: string)
      modifies this
      ensures r == 0 || r == -1
      ensures (if r == 0 then Some(argument) else None, lines) == Read(old(lines))
    {
      if lines == [] {
        return -1, [];
      }
      var line := lines[0];
      lines := lines[1..];
      if |line| < 1 {
        return -1, [];
      }
      return 0, line[..|line| - 1];
    }
  }

  /** The text after the operator of a value argument (`input->buffer + 1`). */
  function ValueText(argument: string): (t: string)
    ensures NUL !in t
  {
    if argument == [] then [] else CStr(argument[1..])
  }

  /** The operator of a value argument (`input->buffer[0]`). */
  function OpChar(argument: string): char
  {
    if argument == [] then NUL else argument[0]
  }

  /** The attribute a `--mod-axis` parameter name designates. */
  function FieldNamed(name: string): (f: Option<Field>)
    ensures f.Some? <==> name in {"min", "max", "fuzz", "flat", "resolution"}
  {
    if name == "min" then Some(Min)
    else if name == "max" then Some(Max)
    else if name == "fuzz" then Some(Fuzz)
    else if name == "flat" then Some(Flat)
    else if name == "resolution" then Some(Resolution)
    else None
  }

  /** The parameter name of an attribute, as a client writes it. */
  function FieldText(f: Field): (t: string)
    ensures FieldNamed(t) == Some(f)
    ensures NUL !in t
  {
    match f
    case Min => "min"
    case Max => "max"
    case Fuzz => "fuzz"
    case Flat => "flat"
    case Resolution => "resolution"
  }

  /** The least value a client may give for an attribute: `min` and `max` may be negative. */
  function MinValue(f: Field): (m: int)
    ensures m == INT_MIN || m == 0
  {
    if f == Min || f == Max then INT_MIN else 0
  }

  /**
   * `field + d`, clamped to [minValue, INT_MAX] by the overflow tests of
   * `handle_axis_mod`, which never overflow themselves.
   */
  function Add(field: int, d: int, minValue: int): (r: int)
    requires IsInt32(field) && IsInt32(d) && (minValue == INT_MIN || minValue == 0)
    requires minValue == 0 ==> d != INT_MIN
    ensures IsInt32(r)
    ensures minValue <= field ==> r == Saturate(field + d, minValue, INT_MAX)
  {
    if (d > 0 && field > INT_MAX - d) || (d < 0 && field < minValue - d) then
      (if d < 0 then minValue else INT_MAX)
    else field + d
  }

  /**
   * The new value of an attribute for the operator `op` and the parsed value
   * `v`: `=` stores it, `+` adds it and `-` subtracts it, both saturating;
   * any other operator leaves the attribute alone.
   */
  function ApplyOp(op: char, field: int, v: int, minValue: int): (r: int)
    requires IsInt32(field) && (minValue == INT_MIN || minValue == 0) && minValue <= v <= INT_MAX
    ensures IsInt32(r)
    ensures op == '=' ==> r == v
    ensures op == '+' && minValue <= field ==> r == Saturate(field + v, minValue, INT_MAX)
    ensures op == '-' && minValue <= field
      ==> r == Saturate(field + (if v == INT_MIN then INT_MAX else -v), minValue, INT_MAX)
    ensures op !in {'=', '+', '-'} ==> r == field
  {
    if op == '=' then v
    else if op == '-' then Add(field, if v == INT_MIN then INT_MAX else -v, minValue)
    else if op == '+' then Add(field, v, minValue)
    else field
  }

  /** The result of a command handler: its status, the parameters and the lines left. */
  datatype Handled = Handled(status: int, params: ParametersState, lines: seq<string>)

  /** `handle_timeout_change`. */
  function TimeoutChange(p: ParametersState, lines: seq<string>): (r: Handled)
    ensures |r.lines| <= |lines|
    ensures r.status == 0 || r.status == -1
    ensures r.status == 0 ==> r.params == p.(timeout := r.params.timeout) && 0 <= r.params.timeout <= INT_MAX
    ensures r.status == -1 ==> r.params == p
  {
    var (a, rest) := Read(lines);
    if a.None? then Handled(-1, p, rest)
    else
      match ParseInt(a.value, 0, INT_MAX)
      case Parsed(v) => Handled(0, p.(timeout := v), rest)
      case _ => Handled(-1, p, rest)
  }

  /** `handle_name_change`: the new name is the argument as a C string. */
  function NameChange(p: ParametersState, lines: seq<string>): (r: Handled)
    ensures |r.lines| <= |lines|
    ensures r.status == 0 || r.status == -1
    ensures r.status == 0 <==> Read(lines).0.Some?
    ensures r.status == 0 ==> r.params == p.(deviceName := Some(CStr(Read(lines).0.value)), deviceNameWasModified := true)
    ensures r.status == -1 ==> r.params == p
  {
    var (a, rest) := Read(lines);
    if a.None? then Handled(-1, p, rest)
    else Handled(0, p.(deviceName := Some(CStr(a.value)), deviceNameWasModified := true), rest)
  }

  /** An axis after a successful `--mod-axis` of attribute `f` to `v`. */
  function Modified(s: AxisState, f: Field, v: int): AxisState
  {
    With(s, f, v).(previousValue := 0, attributesWereModified := 1)
  }

  /** The last part of `handle_axis_mod`: reads the operator and value for attribute `f` of axis `k`. */
  function AxisModValue(p: ParametersState, k: nat, f: Field, lines: seq<string>): (r: Handled)
    requires p.Valid() && k < AxesCount
    ensures |r.lines| <= |lines|
    ensures r.status == 0 || r.status == -1
    ensures r.status == -1 ==> r.params == p
    ensures var a := Read(lines).0;
      r.status == 0 <==> a.Some? && ParseInt(ValueText(a.value), MinValue(f), INT_MAX).Parsed?
    ensures var a := Read(lines).0;
      r.status == 0 ==>
        var v := ParseInt(ValueText(a.value), MinValue(f), INT_MAX).value;
        r.params == p.(axes := p.axes[k := Modified(p.axes[k], f, ApplyOp(OpChar(a.value), Get(p.axes[k], f), v, MinValue(f)))])
    ensures r.params.Valid()
  {
    var (a, rest) := Read(lines);
    if a.None? then Handled(-1, p, rest)
    else
      match ParseInt(ValueText(a.value), MinValue(f), INT_MAX)
      case Parsed(v) =>
        var s := p.axes[k];
        Handled(0, p.(axes := p.axes[k := Modified(s, f, ApplyOp(OpChar(a.value), Get(s, f), v, MinValue(f)))]), rest)
      case _ => Handled(-1, p, rest)
  }

  /** The middle part of `handle_axis_mod`: reads the attribute name for axis `k`. */
  function AxisModField(p: ParametersState, k: nat, lines: seq<string>): (r: Handled)
    requires p.Valid() && k < AxesCount
    ensures |r.lines| <= |lines|
    ensures r.status == 0 || r.status == -1
    ensures r.status == -1 ==> r.params == p
    ensures var a := Read(lines).0;
      a.None? || FieldNamed(CStr(a.value)).None? ==> r == Handled(-1, p, Read(lines).1)
    ensures var a := Read(lines).0;
      r.status == 0 ==>
        a.Some? && FieldNamed(CStr(a.value)).Some?
        && exists v :: r.params == p.(axes := p.axes[k := Modified(p.axes[k], FieldNamed(CStr(a.value)).value, v)])
    ensures r.params.Valid()
  {
    var (a, rest) := Read(lines);
    if a.None? then Handled(-1, p, rest)
    else
      match FieldNamed(CStr(a.value))
      case Some(f) => AxisModValue(p, k, f, rest)
      case None => Handled(-1, p, rest)
  }

  /**
   * `handle_axis_mod`: reads an axis name, an attribute name and an operator
   * with a value. It fails without any change, or changes that one attribute
   * of that one axis, resets `previous_value` and marks the axis dirty.
   */
  function AxisMod(p: ParametersState, lines: seq<string>): (r: Handled)
    requires p.Valid()
    ensures |r.lines| <= |lines|
    ensures r.status == 0 || r.status == -1
    ensures r.status == -1 ==> r.params == p
    ensures var a := Read(lines).0;
      a.None? || ParseName(CStr(a.value)) == Unknown ==> r == Handled(-1, p, Read(lines).1)
    ensures var a := Read(lines).0;
      r.status == 0 ==>
        a.Some? && ParseName(CStr(a.value)) != Unknown
        && var k := Index(ParseName(CStr(a.value)));
           exists f, v :: r.params == p.(axes := p.axes[k := Modified(p.axes[k], f, v)])
    ensures r.params.Valid()
  {
    var (a, rest) := Read(lines);
    if a.None? then Handled(-1, p, rest)
    else
      var name := ParseName(CStr(a.value));
      if name == Unknown then Handled(-1, p, rest)
      else AxisModField(p, Index(name), rest)
  }

  /** The flag set with one flag switched (`flags[f] ^= 1`). */
  function Flip(flags: set<Flag>, f: Flag): (r: set<Flag>)
    ensures f in r <==> f !in flags
    ensures forall g :: g != f ==> (g in r <==> g in flags)
  {
    if f in flags then flags - {f} else flags + {f}
  }

  /** The option names `--toggle-option` switches. */
  const ToggleNames: set<string> := {"framed", "direct", "real_fuzz", "invert", "not_abs", "enable"}

  /** The axis after `--toggle-option` with the given option, or `None` for an unknown option. */
  function ToggleOption(s: AxisState, option: string): (r: Option<AxisState>)
    ensures r.Some? <==> option in ToggleNames || IsPrefix("convert_to=", option)
    ensures r.Some? ==> r.value.previousValue == 0
    ensures r.Some? ==> r.value == s.(flags := r.value.flags, isEnabled := r.value.isEnabled, previousValue := 0)
  {
    if option == "framed" then Some(s.(flags := Flip(s.flags, Framed), previousValue := 0))
    else if option == "direct" then Some(s.(flags := Flip(s.flags, Direct), previousValue := 0))
    else if option == "real_fuzz" then Some(s.(flags := Flip(s.flags, RealFuzz), previousValue := 0))
    else if option == "invert" then Some(s.(flags := Flip(s.flags, Invert), previousValue := 0))
    else if option == "not_abs" then Some(s.(flags := Flip(s.flags, NotAbs), previousValue := 0))
    else if option == "enable" then Some(s.(isEnabled := !s.isEnabled, previousValue := 0))
    else if IsPrefix("convert_to=", option) then Some(EnableOption(s, option).1.(previousValue := 0))
    else None
  }

  /** The second part of `handle_option_toggle`: reads the option name for axis `k`. */
  function OptionToggleNamed(p: ParametersState, k: nat, lines: seq<string>): (r: Handled)
    requires p.Valid() && k < AxesCount
    ensures |r.lines| <= |lines|
    ensures r.status == 0 || r.status == -1
    ensures r.status == -1 ==> r.params == p
    ensures var a := Read(lines).0;
      r.status == 0 <==> a.Some? && ToggleOption(p.axes[k], CStr(a.value)).Some?
    ensures var a := Read(lines).0;
      r.status == 0 ==> r.params == p.(axes := p.axes[k := ToggleOption(p.axes[k], CStr(a.value)).value])
    ensures r.params.Valid()
  {
    var (a, rest) := Read(lines);
    if a.None? then Handled(-1, p, rest)
    else
      match ToggleOption(p.axes[k], CStr(a.value))
      case Some(t) => Handled(0, p.(axes := p.axes[k := t]), rest)
      case None => Handled(-1, p, rest)
  }

  /** `handle_option_toggle`: reads an axis name and an option name. */
  function OptionToggle(p: ParametersState, lines: seq<string>): (r: Handled)
    requires p.Valid()
    ensures |r.lines| <= |lines|
    ensures r.status == 0 || r.status == -1
    ensures r.status == -1 ==> r.params == p
    ensures var (a, rest) := Read(lines); var b := Read(rest).0;
      r.status == 0 <==>
        a.Some? && ParseName(CStr(a.value)) != Unknown && b.Some?
        && ToggleOption(p.axes[Index(ParseName(CStr(a.value)))], CStr(b.value)).Some?
    ensures var (a, rest) := Read(lines); var b := Read(rest).0;
      r.status == 0 ==>
        var k := Index(ParseName(CStr(a.value)));
        r.params == p.(axes := p.axes[k := ToggleOption(p.axes[k], CStr(b.value)).value])
    ensures r.params.Valid()
  {
    var (a, rest) := Read(lines);
    if a.None? then Handled(-1, p, rest)
    else
      var name := ParseName(CStr(a.value));
      if name == Unknown then Handled(-1, p, rest)
      else OptionToggleNamed(p, Index(name), rest)
  }

  /** The state of a session: the parameters, the server's run flag and the lines left. */
  datatype Session = Session(status: int, params: ParametersState, running: bool, lines: seq<string>)

  /** The four commands that edit the parameters. */
  const EditCommands: set<string> := {"-t", "--timeout", "-n", "--name", "-m", "--mod-axis", "-o", "--toggle-option"}

  /**
   * The handler `handle_inputs` runs for a command other than `--quit`: one
   * of the four editing handlers, or a failure for an unknown command.
   */
  function Handler(p: ParametersState, command: string, lines: seq<string>): (r: Handled)
    requires p.Valid()
    ensures r.status == 0 || r.status == -1
    ensures r.params.Valid()
    ensures |r.lines| <= |lines|
    ensures r.status == -1 ==> r.params == p
    ensures command !in EditCommands ==> r == Handled(-1, p, lines)
  {
    if command == "-t" || command == "--timeout" then TimeoutChange(p, lines)
    else if command == "-n" || command == "--name" then NameChange(p, lines)
    else if command == "-m" || command == "--mod-axis" then AxisMod(p, lines)
    else if command == "-o" || command == "--toggle-option" then OptionToggle(p, lines)
    else Handled(-1, p, lines)
  }

  /**
   * One command of `handle_inputs` other than the empty one: `--quit` clears
   * the running flag, the four editing commands run their handler, anything
   * else fails.
   */
  function Command(p: ParametersState, running: bool, command: string, lines: seq<string>): (r: Session)
    requires p.Valid()
    ensures r.status == 0 || r.status == -1
    ensures r.params.Valid()
    ensures |r.lines| <= |lines|
    ensures r.running == (running && command != "-q" && command != "--quit")
  {
    if command == "-q" || command == "--quit" then Session(0, p, false, lines)
    else
      var h := Handler(p, command, lines);
      Session(h.status, h.params, running, h.lines)
  }

  /**
   * `handle_inputs`: commands until an empty command (status 0), or until a
   * read, a handler or an unknown command fails (status -1).
   */
  function Inputs(p: ParametersState, running: bool, lines: seq<string>): (r: Session)
    requires p.Valid()
    ensures r.status == 0 || r.status == -1
    ensures r.params.Valid()
    ensures !running ==> !r.running
    decreases |lines|
  {
    var (a, rest) := Read(lines);
    if a.None? then Session(-1, p, running, rest)
    else
      var c := a.value;
      if (c != [] && c[0] == '\n') || CStr(c) == [] then Session(0, p, running, rest)
      else
        var s := Command(p, running, CStr(c), rest);
        if s.status < 0 then s else Inputs(s.params, s.running, s.lines)
  }

  /** `handle_timeout_change`. */
  method HandleTimeoutChange(input: ClientInput, p: Parameters) returns (r: int)
    modifies input, p
    ensures Handled(r, p.State(), input.lines) == TimeoutChange(old(p.State()), old(input.lines))
  {
    var status, argument := input.GetNextArgument();
    if status < 0 {
      return -1;
    }
    var value := ParseInt(argument, 0, INT_MAX);
    if !value.Parsed? {
      return -1;
    }
    p.SetTimeout(value.value);
    return 0;
  }

  /** `handle_name_change`; the copy of the name is a plain string value here. */
  method HandleNameChange(input: ClientInput, p: Parameters) returns (r: int)
    modifies input, p
    ensures Handled(r, p.State(), input.lines) == NameChange(old(p.State()), old(input.lines))
  {
    var status, argument := input.GetNextArgument();
    if status < 0 {
      return -1;
    }
    p.deviceName := Some(CStr(argument));
    p.deviceNameWasModified := true;
    return 0;
  }

  /** The write of `handle_axis_mod` into the attribute `f` of the selected record. */
  method ModifyAttribute(axis: Axis, f: Field, op: char, value: int)
    requires IsInt32(Get(axis.State(), f)) && MinValue(f) <= value <= INT_MAX
    modifies axis
    ensures axis.State() == Modified(old(axis.State()), f, ApplyOp(op, Get(old(axis.State()), f), value, MinValue(f)))
  {
    var minValue := MinValue(f);
    var inputValue := value;
    if op == '=' {
      axis.SetField(f, inputValue);
    } else if op == '-' || op == '+' {
      if op == '-' {
        inputValue := if inputValue == INT_MIN then INT_MAX else -inputValue;
      }
      var current := Get(axis.State(), f);
      if (inputValue > 0 && current > INT_MAX - inputValue) || (inputValue < 0 && current < minValue - inputValue) {
        axis.SetField(f, if inputValue < 0 then minValue else INT_MAX);
      } else {
        axis.SetField(f, current + inputValue);
      }
    }
    axis.previousValue := 0;
    axis.attributesWereModified := 1;
  }

  /** The write of `handle_axis_mod` into the record of axis `name` held by the parameters. */
  method ModifyAxisOf(p: Parameters, name: AxisName, f: Field, op: char, value: int)
    requires p.Valid() && name != Unknown && MinValue(f) <= value <= INT_MAX
    modifies p.axes
    ensures var s := old(p.State()); var k := Index(name);
      p.State() == s.(axes := s.axes[k := Modified(s.axes[k], f, ApplyOp(op, Get(s.axes[k], f), value, MinValue(f)))])
  {
    var k := Index(name);
    var axis := p.axes[k];
    ghost var before := States(p.axes);
    ModifyAttribute(axis, f, op, value);
    StatesOneChanged(p.axes, before, k);
  }

  /** The last part of `handle_axis_mod`: the operator and value for attribute `f` of axis `name`. */
  method HandleAxisModValue(input: ClientInput, p: Parameters, name: AxisName, f: Field) returns (r: int)
    requires p.Valid() && name != Unknown
    modifies input, p.axes
    ensures Handled(r, p.State(), input.lines) == AxisModValue(old(p.State()), Index(name), f, old(input.lines))
  {
    var status, argument := input.GetNextArgument();
    if status < 0 {
      return -1;
    }
    var parsed := ParseInt(ValueText(argument), MinValue(f), INT_MAX);
    if !parsed.Parsed? {
      return -1;
    }
    ModifyAxisOf(p, name, f, OpChar(argument), parsed.value);
    return 0;
  }

  /** The middle part of `handle_axis_mod`: the attribute name for axis `name`. */
  method HandleAxisModField(input: ClientInput, p: Parameters, name: AxisName) returns (r: int)
    requires p.Valid() && name != Unknown
    modifies input, p.axes
    ensures Handled(r, p.State(), input.lines) == AxisModField(old(p.State()), Index(name), old(input.lines))
  {
    var status, argument := input.GetNextArgument();
    if status < 0 {
      return -1;
    }
    var field := FieldNamed(CStr(argument));
    if field.None? {
      return -1;
    }
    r := HandleAxisModValue(input, p, name, field.value);
  }

  /** `handle_axis_mod`: writes the chosen attribute of one axis record in place. */
  method HandleAxisMod(input: ClientInput, p: Parameters) returns (r: int)
    requires p.Valid()
    modifies input, p.axes
    ensures Handled(r, p.State(), input.lines) == AxisMod(old(p.State()), old(input.lines))
  {
    var status, argument := input.GetNextArgument();
    if status < 0 {
      return -1;
    }
    var name := ParseName(CStr(argument));
    if name == Unknown {
      return -1;
    }
    r := HandleAxisModField(input, p, name);
  }

  /** The switch of `handle_option_toggle` on the selected record; false for an unknown option. */
  method ToggleAxisOption(axis: Axis, axisName: AxisName, option: string) returns (known: bool)
    modifies axis
    ensures ToggleOption(old(axis.State()), option) == if known then Some(axis.State()) else None
    ensures !known ==> axis.State() == old(axis.State())
  {
    if option == "framed" {
      axis.flags := Flip(axis.flags, Framed);
    } else if option == "direct" {
      axis.flags := Flip(axis.flags, Direct);
    } else if option == "real_fuzz" {
      axis.flags := Flip(axis.flags, RealFuzz);
    } else if option == "invert" {
      axis.flags := Flip(axis.flags, Invert);
    } else if option == "not_abs" {
      axis.flags := Flip(axis.flags, NotAbs);
    } else if option == "enable" {
      axis.isEnabled := !axis.isEnabled;
    } else if IsPrefix("convert_to=", option) {
      var ignored := EnableOptionFromName(option, NameToString(axisName), axis);
    } else {
      return false;
    }
    axis.previousValue := 0;
    return true;
  }

  /** The switch of `handle_option_toggle` on the record of axis `name` held by the parameters. */
  method ToggleOptionOf(p: Parameters, name: AxisName, option: string) returns (known: bool)
    requires p.Valid() && name != Unknown
    modifies p.axes
    ensures ToggleOption(old(p.axes[Index(name)].State()), option)
         == if known then Some(p.axes[Index(name)].State()) else None
    ensures p.State() == old(p.State()).(axes := old(p.State()).axes[Index(name) := p.axes[Index(name)].State()])
    ensures !known ==> p.State() == old(p.State())
  {
    var k := Index(name);
    var axis := p.axes[k];
    ghost var before := States(p.axes);
    known := ToggleAxisOption(axis, name, option);
    StatesOneChanged(p.axes, before, k);
    if !known {
      assert before[k := axis.State()] == before;
    }
  }

  /** The second part of `handle_option_toggle`: the option name for axis `name`. */
  method HandleOptionToggleNamed(input: ClientInput, p: Parameters, name: AxisName) returns (r: int)
    requires p.Valid() && name != Unknown
    modifies input, p.axes
    ensures Handled(r, p.State(), input.lines) == OptionToggleNamed(old(p.State()), Index(name), old(input.lines))
  {
    ghost var s := p.State();
    ghost var k := Index(name);
    var status, argument := input.GetNextArgument();
    if status < 0 {
      return -1;
    }
    ghost var t := ToggleOption(s.axes[k], CStr(argument));
    var known := ToggleOptionOf(p, name, CStr(argument));
    if !known {
      assert t.None?;
      return -1;
    }
    assert t == Some(p.axes[k].State());
    return 0;
  }

  /** `handle_option_toggle`: switches one option of one axis record in place. */
  method HandleOptionToggle(input: ClientInput, p: Parameters) returns (r: int)
    requires p.Valid()
    modifies input, p.axes
    ensures Handled(r, p.State(), input.lines) == OptionToggle(old(p.State()), old(input.lines))
  {
    var status, argument := input.GetNextArgument();
    if status < 0 {
      return -1;
    }
    var name := ParseName(CStr(argument));
    if name == Unknown {
      return -1;
    }
    r := HandleOptionToggleNamed(input, p, name);
  }

  /** The dispatch of `handle_inputs` on one non-empty command. */
  method HandleCommand(input: ClientInput, p: Parameters, run: RunFlag, command: string) returns (r: int)
    requires p.Valid()
    modifies input, p, p.axes, run
    ensures p.Valid()
    ensures Session(r, p.State(), run.running, input.lines)
         == Command(old(p.State()), old(run.running), command, old(input.lines))
  {
    if command == "-q" || command == "--quit" {
      run.Interrupt();
      return 0;
    } else if command == "-t" || command == "--timeout" {
      r := HandleTimeoutChange(input, p);
    } else if command == "-n" || command == "--name" {
      r := HandleNameChange(input, p);
    } else if command == "-m" || command == "--mod-axis" {
      r := HandleAxisMod(input, p);
    } else if command == "-o" || command == "--toggle-option" {
      r := HandleOptionToggle(input, p);
    } else {
      return -1;
    }
  }

  /** `handle_inputs`: the command loop of one client session. */
  method HandleInputs(input: ClientInput, p: Parameters, run: RunFlag) returns (r: int)
    requires p.Valid()
    modifies input, p, p.axes, run
    ensures Session(r, p.State(), run.running, input.lines)
         == Inputs(old(p.State()), old(run.running), old(input.lines))
  {
    while true
      invariant p.Valid()
      invariant Inputs(p.State(), run.running, input.lines)
             == Inputs(old(p.State()), old(run.running), old(input.lines))
      decreases |input.lines|
    {
      ghost var lines := input.lines;
      var status, command := input.GetNextArgument();
      if status < 0 {
        return -1;
      }
      if (command != [] && command[0] == '\n') || CStr(command) == [] {
        return 0;
      }
      status := HandleCommand(input, p, run, CStr(command));
      if status < 0 {
        return -1;
      }
    }
  }

  /**
   * `relabsd_parameters_handle_remote_client`: runs one session and returns
   * 0 whatever its outcome.
   */
  method HandleRemoteClient(lines: seq<string>, p: Parameters, run: RunFlag) returns (r: int)
    requires p.Valid()
    modifies p, p.axes, run
    ensures r == 0
    ensures var s := Inputs(old(p.State()), old(run.running), lines);
      p.State() == s.params && run.running == s.running
  {
    var input := new ClientInput(lines);
    var ignored := HandleInputs(input, p, run);
    return 0;
  }

  /** A line with its terminator reads as the text before the terminator. */
  lemma ReadLine(x: string, rest: seq<string>)
    ensures Read([x + "\n"] + rest) == (Some(x), rest)
  {
    var lines := [x + "\n"] + rest;
    assert lines[0] == x + "\n" && lines[1..] == rest;
    assert lines[0][..|lines[0]| - 1] == x;
  }

  /** Toggling the same option twice gives the axis back, with `previous_value` reset. */
  lemma ToggleTwice(s: AxisState, option: string)
    requires option in ToggleNames
    ensures ToggleOption(s, option).Some?
    ensures ToggleOption(ToggleOption(s, option).value, option) == Some(s.(previousValue := 0))
  {
    var t := ToggleOption(s, option).value;
    if option == "enable" {
      assert t.isEnabled == !s.isEnabled && t.flags == s.flags;
    } else {
      var f := if option == "framed" then Framed else if option == "direct" then Direct
               else if option == "real_fuzz" then RealFuzz else if option == "invert" then Invert else NotAbs;
      assert t == s.(flags := Flip(s.flags, f), previousValue := 0);
      assert Flip(Flip(s.flags, f), f) == s.flags;
    }
  }

  /**
   * A `convert_to=` option reaches `relabsd_axis_enable_option_from_name`,
   * which rejects it; the toggle still succeeds and only resets
   * `previous_value`.
   */
  lemma ConvertToOnlyResets(s: AxisState, target: string)
    ensures ToggleOption(s, "convert_to=" + target) == Some(s.(previousValue := 0))
  {
    OtherOptionsRejected(s, target);
    assert IsPrefix("convert_to=", "convert_to=" + target);
  }

  /** A line holding only its terminator ends the session normally, with nothing changed. */
  lemma EmptyLineEndsSession(p: ParametersState, running: bool, rest: seq<string>)
    requires p.Valid()
    ensures Inputs(p, running, ["\n"] + rest) == Session(0, p, running, rest)
  {
    ReadLine([], rest);
  }

  /** An unknown command abandons the session and the lines after it. */
  lemma UnknownCommandAbandons(p: ParametersState, running: bool, c: string, rest: seq<string>)
    requires p.Valid() && c != [] && c[0] != '\n' && NUL !in c
    requires c !in {"-q", "--quit", "-t", "--timeout", "-n", "--name", "-m", "--mod-axis", "-o", "--toggle-option"}
    ensures Inputs(p, running, [c + "\n"] + rest) == Session(-1, p, running, rest)
  {
    ReadLine(c, rest);
    CStrNoNul(c);
  }

  /** `--quit` clears the run flag and the session goes on with the next line. */
  lemma QuitGoesOn(p: ParametersState, running: bool, rest: seq<string>)
    requires p.Valid()
    ensures Inputs(p, running, ["--quit\n"] + rest) == Inputs(p, false, rest)
    ensures !Inputs(p, running, ["--quit\n"] + rest).running
  {
    ReadLine("--quit", rest);
    CStrNoNul("--quit");
  }

  /** `--timeout` with the decimal text of a value in [0, INT_MAX] installs that value. */
  lemma TimeoutRoundTrip(p: ParametersState, ms: int, rest: seq<string>)
    requires 0 <= ms <= INT_MAX
    ensures TimeoutChange(p, [Decimal(ms) + "\n"] + rest) == Handled(0, p.(timeout := ms), rest)
  {
    ReadLine(Decimal(ms), rest);
    DecimalRoundTrip(ms, 0, INT_MAX);
  }

  /** `--mod-axis` on a name that is not an axis fails and changes nothing. */
  lemma AxisModUnknownAxis(p: ParametersState, name: string, rest: seq<string>)
    requires p.Valid() && ParseName(CStr(name)) == Unknown
    ensures AxisMod(p, [name + "\n"] + rest) == Handled(-1, p, rest)
  {
    ReadLine(name, rest);
  }

  /** `--mod-axis` on an attribute other than the five fails and changes nothing. */
  lemma AxisModUnknownField(p: ParametersState, a: AxisName, field: string, rest: seq<string>)
    requires p.Valid() && a != Unknown && FieldNamed(CStr(field)).None?
    ensures AxisMod(p, [NameToString(a) + "\n", field + "\n"] + rest) == Handled(-1, p, rest)
  {
    var l1 := [field + "\n"] + rest;
    assert [NameToString(a) + "\n", field + "\n"] + rest == [NameToString(a) + "\n"] + l1;
    ReadLine(NameToString(a), l1);
    ReadLine(field, rest);
    assert NUL !in NameToString(a);
    CStrNoNul(NameToString(a));
    ParseNameRoundTrip(a);
    assert AxisMod(p, [NameToString(a) + "\n"] + l1) == AxisModField(p, Index(a), l1);
  }

  /** The value argument `=<v>` of `--mod-axis` stores `v` in attribute `f` of axis `k`. */
  lemma AxisModValueAssign(p: ParametersState, k: nat, f: Field, v: int, rest: seq<string>)
    requires p.Valid() && k < AxesCount && MinValue(f) <= v <= INT_MAX
    ensures AxisModValue(p, k, f, ["=" + Decimal(v) + "\n"] + rest)
         == Handled(0, p.(axes := p.axes[k := Modified(p.axes[k], f, v)]), rest)
  {
    ReadLine("=" + Decimal(v), rest);
    assert ValueText("=" + Decimal(v)) == Decimal(v) by {
      assert ("=" + Decimal(v))[1..] == Decimal(v);
      CStrNoNul(Decimal(v));
    }
    DecimalRoundTrip(v, MinValue(f), INT_MAX);
    assert OpChar("=" + Decimal(v)) == '=';
  }

  /**
   * `--mod-axis <axis> <attribute> =<v>` with `v` in the attribute's range
   * stores `v` in that attribute of that axis only, resets `previous_value`
   * and marks the axis dirty.
   */
  lemma AxisModAssign(p: ParametersState, a: AxisName, f: Field, v: int, rest: seq<string>)
    requires p.Valid() && a != Unknown && MinValue(f) <= v <= INT_MAX
    ensures var k := Index(a);
      AxisMod(p, [NameToString(a) + "\n", FieldText(f) + "\n", "=" + Decimal(v) + "\n"] + rest)
      == Handled(0, p.(axes := p.axes[k := Modified(p.axes[k], f, v)]), rest)
  {
    assert "=" == ['='];
    AxisModOp(p, a, f, '=', v, rest);
  }

  /** The value argument `<op><v>` of `--mod-axis` applies the operator to attribute `f` of axis `k`. */
  lemma AxisModValueOp(p: ParametersState, k: nat, f: Field, op: char, v: int, rest: seq<string>)
    requires p.Valid() && k < AxesCount && MinValue(f) <= v <= INT_MAX
    ensures AxisModValue(p, k, f, [[op] + Decimal(v) + "\n"] + rest)
         == Handled(0, p.(axes := p.axes[k := Modified(p.axes[k], f, ApplyOp(op, Get(p.axes[k], f), v, MinValue(f)))]), rest)
  {
    ReadLine([op] + Decimal(v), rest);
    assert ValueText([op] + Decimal(v)) == Decimal(v) by {
      assert ([op] + Decimal(v))[1..] == Decimal(v);
      CStrNoNul(Decimal(v));
    }
    DecimalRoundTrip(v, MinValue(f), INT_MAX);
    assert OpChar([op] + Decimal(v)) == op;
  }

  /**
   * `--mod-axis <axis> <attribute> <op><v>` applies the operator to that
   * attribute of that axis only, resets its previous value and marks it
   * dirty.
   */
  lemma AxisModOp(p: ParametersState, a: AxisName, f: Field, op: char, v: int, rest: seq<string>)
    requires p.Valid() && a != Unknown && MinValue(f) <= v <= INT_MAX
    ensures var k := Index(a);
      AxisMod(p, [NameToString(a) + "\n", FieldText(f) + "\n", [op] + Decimal(v) + "\n"] + rest)
      == Handled(0, p.(axes := p.axes[k := Modified(p.axes[k], f, ApplyOp(op, Get(p.axes[k], f), v, MinValue(f)))]), rest)
  {
    var l2 := [[op] + Decimal(v) + "\n"] + rest;
    var l1 := [FieldText(f) + "\n"] + l2;
    assert [NameToString(a) + "\n", FieldText(f) + "\n", [op] + Decimal(v) + "\n"] + rest == [NameToString(a) + "\n"] + l1;
    AxisModNamed(p, a, l1);
    AxisModFieldNamed(p, Index(a), f, l2);
    AxisModValueOp(p, Index(a), f, op, v, rest);
  }

  /** The first line of `--mod-axis` naming axis `a` selects its record. */
  lemma AxisModNamed(p: ParametersState, a: AxisName, l1: seq<string>)
    requires p.Valid() && a != Unknown
    ensures AxisMod(p, [NameToString(a) + "\n"] + l1) == AxisModField(p, Index(a), l1)
  {
    ReadLine(NameToString(a), l1);
    assert NUL !in NameToString(a);
    CStrNoNul(NameToString(a));
    ParseNameRoundTrip(a);
  }

  /** The second line of `--mod-axis` naming attribute `f` selects it. */
  lemma AxisModFieldNamed(p: ParametersState, k: nat, f: Field, l2: seq<string>)
    requires p.Valid() && k < AxesCount
    ensures AxisModField(p, k, [FieldText(f) + "\n"] + l2) == AxisModValue(p, k, f, l2)
  {
    ReadLine(FieldText(f), l2);
    CStrNoNul(FieldText(f));
  }

  /**
   * `--mod-axis <axis> <attribute> +<v>` adds `v` to that attribute of that
   * axis only; the sum saturates at the attribute's least value and at
   * INT_MAX.
   */
  lemma AxisModAdd(p: ParametersState, a: AxisName, f: Field, v: int, rest: seq<string>)
    requires p.Valid() && a != Unknown && MinValue(f) <= v <= INT_MAX
    requires MinValue(f) <= Get(p.axes[Index(a)], f)
    ensures var k := Index(a);
      AxisMod(p, [NameToString(a) + "\n", FieldText(f) + "\n", "+" + Decimal(v) + "\n"] + rest)
      == Handled(0, p.(axes := p.axes[k := Modified(p.axes[k], f, Saturate(Get(p.axes[k], f) + v, MinValue(f), INT_MAX))]), rest)
  {
    var k := Index(a);
    var m := ApplyOp('+', Get(p.axes[k], f), v, MinValue(f));
    AddSaturates(Get(p.axes[k], f), v, f);
    assert m == Saturate(Get(p.axes[k], f) + v, MinValue(f), INT_MAX);
    assert "+" == ['+'];
    AxisModOp(p, a, f, '+', v, rest);
    assert AxisMod(p, [NameToString(a) + "\n", FieldText(f) + "\n", "+" + Decimal(v) + "\n"] + rest)
        == Handled(0, p.(axes := p.axes[k := Modified(p.axes[k], f, m)]), rest);
  }

  /**
   * `--mod-axis <axis> <attribute> -<v>` subtracts `v` from that attribute
   * of that axis only (-INT_MIN read as INT_MAX); the difference saturates
   * at the attribute's least value and at INT_MAX.
   */
  lemma AxisModSub(p: ParametersState, a: AxisName, f: Field, v: int, rest: seq<string>)
    requires p.Valid() && a != Unknown && MinValue(f) <= v <= INT_MAX
    requires MinValue(f) <= Get(p.axes[Index(a)], f)
    ensures var k := Index(a);
      AxisMod(p, [NameToString(a) + "\n", FieldText(f) + "\n", "-" + Decimal(v) + "\n"] + rest)
      == Handled(0, p.(axes := p.axes[k := Modified(p.axes[k], f, Saturate(Get(p.axes[k], f) + Negated(v), MinValue(f), INT_MAX))]), rest)
  {
    var k := Index(a);
    var m := ApplyOp('-', Get(p.axes[k], f), v, MinValue(f));
    SubSaturates(Get(p.axes[k], f), v, f);
    assert m == Saturate(Get(p.axes[k], f) + Negated(v), MinValue(f), INT_MAX);
    assert "-" == ['-'];
    AxisModOp(p, a, f, '-', v, rest);
    assert AxisMod(p, [NameToString(a) + "\n", FieldText(f) + "\n", "-" + Decimal(v) + "\n"] + rest)
        == Handled(0, p.(axes := p.axes[k := Modified(p.axes[k], f, m)]), rest);
  }

  /** The value `-<v>` adds: the negation of `v`, with -INT_MIN read as INT_MAX. */
  function Negated(v: int): int
  {
    if v == INT_MIN then INT_MAX else -v
  }

  lemma AddSaturates(x: int, v: int, f: Field)
    requires IsInt32(x) && MinValue(f) <= v <= INT_MAX && MinValue(f) <= x
    ensures ApplyOp('+', x, v, MinValue(f)) == Saturate(x + v, MinValue(f), INT_MAX)
  {
  }

  lemma SubSaturates(x: int, v: int, f: Field)
    requires IsInt32(x) && MinValue(f) <= v <= INT_MAX && MinValue(f) <= x
    ensures ApplyOp('-', x, v, MinValue(f)) == Saturate(x + Negated(v), MinValue(f), INT_MAX)
  {
  }

  /** `--toggle-option` on a name that is not an axis fails and changes nothing. */
  lemma OptionToggleUnknownAxis(p: ParametersState, name: string, rest: seq<string>)
    requires p.Valid() && ParseName(CStr(name)) == Unknown
    ensures OptionToggle(p, [name + "\n"] + rest) == Handled(-1, p, rest)
  {
    ReadLine(name, rest);
  }

  /** `--toggle-option <axis> <option>` with an option it does not know fails and changes nothing. */
  lemma OptionToggleUnknownOption(p: ParametersState, a: AxisName, option: string, rest: seq<string>)
    requires p.Valid() && a != Unknown && NUL !in option
    requires option !in ToggleNames && !IsPrefix("convert_to=", option)
    ensures OptionToggle(p, [NameToString(a) + "\n", option + "\n"] + rest) == Handled(-1, p, rest)
  {
    var l1 := [option + "\n"] + rest;
    assert [NameToString(a) + "\n", option + "\n"] + rest == [NameToString(a) + "\n"] + l1;
    OptionToggleAxisNamed(p, a, l1);
    OptionToggleNamedLine(p, Index(a), option, rest);
  }

  /** The first line of `--toggle-option` naming axis `a` selects its record. */
  lemma OptionToggleAxisNamed(p: ParametersState, a: AxisName, l1: seq<string>)
    requires p.Valid() && a != Unknown
    ensures OptionToggle(p, [NameToString(a) + "\n"] + l1) == OptionToggleNamed(p, Index(a), l1)
  {
    ReadLine(NameToString(a), l1);
    assert NUL !in NameToString(a);
    CStrNoNul(NameToString(a));
    ParseNameRoundTrip(a);
  }

  /**
   * `--toggle-option <axis> <option>` with one of the six option names
   * switches that option of that axis only and resets its previous value.
   */
  lemma OptionToggleKnown(p: ParametersState, a: AxisName, option: string, rest: seq<string>)
    requires p.Valid() && a != Unknown && option in ToggleNames
    ensures var k := Index(a);
      OptionToggle(p, [NameToString(a) + "\n", option + "\n"] + rest)
      == Handled(0, p.(axes := p.axes[k := ToggleOption(p.axes[k], option).value]), rest)
  {
    var l1 := [option + "\n"] + rest;
    assert [NameToString(a) + "\n", option + "\n"] + rest == [NameToString(a) + "\n"] + l1;
    OptionToggleAxisNamed(p, a, l1);
    ToggleNamesHaveNoNul(option);
    OptionToggleNamedLine(p, Index(a), option, rest);
  }

  lemma ToggleNamesHaveNoNul(option: string)
    requires option in ToggleNames
    ensures NUL !in option
  {
  }

  /** The second line of `--toggle-option` is the option name, toggled on axis `k` when it is known. */
  lemma OptionToggleNamedLine(p: ParametersState, k: nat, option: string, rest: seq<string>)
    requires p.Valid() && k < AxesCount && NUL !in option
    ensures OptionToggleNamed(p, k, [option + "\n"] + rest)
         == match ToggleOption(p.axes[k], option)
            case Some(t) => Handled(0, p.(axes := p.axes[k := t]), rest)
            case None => Handled(-1, p, rest)
  {
    ReadLine(option, rest);
    CStrNoNul(option);
  }

  /**
   * An editing command whose handler fails ends the session: the status is
   * -1, the parameters are those before the command, and the lines after
   * the ones the handler read are never processed.
   */
  lemma HandlerFailureEndsSession(p: ParametersState, running: bool, c: string, rest: seq<string>)
    requires p.Valid() && c in EditCommands && Handler(p, c, rest).status == -1
    ensures Inputs(p, running, [c + "\n"] + rest) == Session(-1, p, running, Handler(p, c, rest).lines)
  {
    ReadLine(c, rest);
    assert c != [] && c[0] != '\n' && NUL !in c;
    CStrNoNul(c);
    assert c != "-q" && c != "--quit";
    var h := Handler(p, c, rest);
    assert Command(p, running, c, rest) == Session(-1, p, running, h.lines);
  }
}
