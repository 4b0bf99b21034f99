/** Per-axis options given by name (src/device/axis/axis_option.c). */
module AxisOption {
  import opened Wrappers
  import opened Axis

  /** The flag an option name enables; only three options can be named here. */
  function OptionFlag(name: string): (f: Option<Flag>)
    ensures f.Some? <==> name == "direct" || name == "real_fuzz" || name == "framed"
    ensures f.Some? ==> f.value in {Direct, RealFuzz, Framed}
  {
    if name == "direct" then Some(Direct)
    else if name == "real_fuzz" then Some(RealFuzz)
    else if name == "framed" then Some(Framed)
    else None
  }

  /**
   * The effect of `relabsd_axis_enable_option_from_name` on a record: the
   * status it returns and the record afterwards.
   */
  function EnableOption(s: AxisState, name: string): (r: (int, AxisState))
    ensures r.0 == 0 || r.0 == -1
    ensures r.0 == 0 <==> OptionFlag(name).Some?
    ensures r.0 == 0 ==> r.1.flags == s.flags + {OptionFlag(name).value}
    ensures r.1 == s.(flags := r.1.flags)
    ensures r.0 == -1 ==> r.1 == s
  {
    match OptionFlag(name)
    case Some(f) => (0, s.(flags := s.flags + {f}))
    case None => (-1, s)
  }

  /**
   * `relabsd_axis_enable_option_from_name`. Setting `direct` while `framed`
   * is set (or the converse) only logs a warning, which is not modelled.
   */
  method EnableOptionFromName(optionName: string, axisName: string, axis: Axis) returns (r: int)
    modifies axis
    ensures (r, axis.State()) == EnableOption(old(axis.State()), optionName)
  {
    if optionName == "direct" {
      axis.flags := axis.flags + {Direct};
    } else if optionName == "real_fuzz" {
      axis.flags := axis.flags + {RealFuzz};
    } else if optionName == "framed" {
      axis.flags := axis.flags + {Framed};
    } else {
      return -1;
    }
    return 0;
  }

  /** Naming the same option twice has the effect of naming it once. */
  lemma EnableOptionIdempotent(s: AxisState, name: string)
    ensures EnableOption(EnableOption(s, name).1, name) == (EnableOption(s, name).0, EnableOption(s, name).1)
  {
  }

  /** `direct` and `framed` may both be set: neither refuses the other. */
  lemma DirectAndFramedBothAccepted(s: AxisState)
    ensures EnableOption(EnableOption(s, "direct").1, "framed").0 == 0
    ensures EnableOption(EnableOption(s, "direct").1, "framed").1.flags == s.flags + {Direct, Framed}
  {
  }

  /** `invert`, `not_abs` and `convert_to=...` cannot be given here. */
  lemma OtherOptionsRejected(s: AxisState, target: string)
    ensures EnableOption(s, "invert") == (-1, s)
    ensures EnableOption(s, "not_abs") == (-1, s)
    ensures EnableOption(s, "convert_to=" + target) == (-1, s)
  {
    assert ("convert_to=" + target)[..3] == "con";
  }
}
