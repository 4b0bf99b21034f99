/**
 * The eight configurable axes, their configuration-file names and their
 * EV_REL / EV_ABS event codes (src/device/axis/axis_name.c).
 */
module AxisName {
  import opened Evdev

  /** `enum relabsd_axis_name`; the enumerators are numbered 0 to 8 in this order. */
  datatype AxisName = X | Y | Z | RX | RY | RZ | Wheel | Misc | Unknown

  const AxesCount: nat := 8

  /** The enumerator's value, which is also the axis's slot in an axes array. */
  function Index(a: AxisName): (i: nat)
    ensures i <= AxesCount
    ensures i == AxesCount <==> a == Unknown
  {
    match a
    case X => 0
    case Y => 1
    case Z => 2
    case RX => 3
    case RY => 4
    case RZ => 5
    case Wheel => 6
    case Misc => 7
    case Unknown => 8
  }

  /** The cast `(enum relabsd_axis_name) i`. */
  function FromIndex(i: nat): (a: AxisName)
    requires i < AxesCount
    ensures a != Unknown && Index(a) == i
  {
    [X, Y, Z, RX, RY, RZ, Wheel, Misc][i]
  }

  /** `relabsd_axis_parse_name`: exact comparison with the eight names. */
  function ParseName(name: string): (a: AxisName)
    ensures a != Unknown ==> NameToString(a) == name
    ensures name == "??" ==> a == Unknown
  {
    if name == "X" then X
    else if name == "Y" then Y
    else if name == "Z" then Z
    else if name == "RX" then RX
    else if name == "RY" then RY
    else if name == "RZ" then RZ
    else if name == "WL" then Wheel
    else if name == "MC" then Misc
    else Unknown
  }

  /** `relabsd_axis_name_to_string`. */
  function NameToString(a: AxisName): (s: string)
    ensures (s == "??") <==> (a == Unknown)
    ensures 1 <= |s| <= 2
  {
    match a
    case X => "X"
    case Y => "Y"
    case Z => "Z"
    case RX => "RX"
    case RY => "RY"
    case RZ => "RZ"
    case Wheel => "WL"
    case Misc => "MC"
    case Unknown => "??"
  }

  /** `relabsd_axis_name_to_evdev_rel`; UNKNOWN is a programming error answered with REL_MAX. */
  function ToEvdevRel(a: AxisName): (code: nat)
    ensures a == Unknown <==> code == REL_MAX
  {
    match a
    case X => REL_X
    case Y => REL_Y
    case Z => REL_Z
    case RX => REL_RX
    case RY => REL_RY
    case RZ => REL_RZ
    case Wheel => REL_WHEEL
    case Misc => REL_MISC
    case Unknown => REL_MAX
  }

  /** `relabsd_axis_name_to_evdev_abs`; UNKNOWN is a programming error answered with ABS_MAX. */
  function ToEvdevAbs(a: AxisName): (code: nat)
    ensures a == Unknown <==> code == ABS_MAX
  {
    match a
    case X => ABS_X
    case Y => ABS_Y
    case Z => ABS_Z
    case RX => ABS_RX
    case RY => ABS_RY
    case RZ => ABS_RZ
    case Wheel => ABS_WHEEL
    case Misc => ABS_MISC
    case Unknown => ABS_MAX
  }

  /** `relabsd_axis_name_from_evdev_rel`. */
  function FromEvdevRel(rel: nat): (a: AxisName)
    ensures a != Unknown ==> ToEvdevRel(a) == rel
  {
    if rel == REL_X then X
    else if rel == REL_Y then Y
    else if rel == REL_Z then Z
    else if rel == REL_RX then RX
    else if rel == REL_RY then RY
    else if rel == REL_RZ then RZ
    else if rel == REL_WHEEL then Wheel
    else if rel == REL_MISC then Misc
    else Unknown
  }

  /** `relabsd_axis_name_from_evdev_abs`. */
  function FromEvdevAbs(abs: nat): (a: AxisName)
    ensures a != Unknown ==> ToEvdevAbs(a) == abs
  {
    if abs == ABS_X then X
    else if abs == ABS_Y then Y
    else if abs == ABS_Z then Z
    else if abs == ABS_RX then RX
    else if abs == ABS_RY then RY
    else if abs == ABS_RZ then RZ
    else if abs == ABS_WHEEL then Wheel
    else if abs == ABS_MISC then Misc
    else Unknown
  }

  /**
   * `relabsd_axis_name_and_evdev_abs_from_evdev_rel`: the axis of a REL code
   * and, through the out-parameter (here the second component, given its
   * prior value `absCode`), the ABS code of that axis.
   */
  function NameAndEvdevAbsFromEvdevRel(relCode: nat, absCode: nat): (r: (AxisName, nat))
    ensures r.0 == FromEvdevRel(relCode)
    ensures r.0 != Unknown ==> r.1 == ToEvdevAbs(r.0)
    ensures r.0 == Unknown ==> r.1 == absCode
  {
    if relCode == REL_X then (X, ABS_X)
    else if relCode == REL_Y then (Y, ABS_Y)
    else if relCode == REL_Z then (Z, ABS_Z)
    else if relCode == REL_RX then (RX, ABS_RX)
    else if relCode == REL_RY then (RY, ABS_RY)
    else if relCode == REL_RZ then (RZ, ABS_RZ)
    else if relCode == REL_WHEEL then (Wheel, ABS_WHEEL)
    else if relCode == REL_MISC then (Misc, ABS_MISC)
    else (Unknown, absCode)
  }

  /** Parsing is exactly the inverse of printing on the eight names. */
  lemma ParseNameIffName(name: string)
    ensures ParseName(name) != Unknown <==> exists i :: 0 <= i < AxesCount && NameToString(FromIndex(i)) == name
  {
    if ParseName(name) != Unknown {
      var i := Index(ParseName(name));
      assert FromIndex(i) == ParseName(name);
    }
  }

  lemma ParseNameRoundTrip(a: AxisName)
    requires a != Unknown
    ensures ParseName(NameToString(a)) == a
  {
  }

  lemma EvdevRelRoundTrip(a: AxisName)
    requires a != Unknown
    ensures FromEvdevRel(ToEvdevRel(a)) == a
  {
  }

  lemma EvdevAbsRoundTrip(a: AxisName)
    requires a != Unknown
    ensures FromEvdevAbs(ToEvdevAbs(a)) == a
  {
  }

  /** Distinct axes have distinct REL codes and distinct ABS codes. */
  lemma EvdevCodesInjective(a: AxisName, b: AxisName)
    requires a != b
    ensures ToEvdevRel(a) != ToEvdevRel(b)
    ensures ToEvdevAbs(a) != ToEvdevAbs(b)
  {
  }
}
