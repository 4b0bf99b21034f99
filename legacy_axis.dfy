/**
 * The older axis tables (src/axis.c): axis names matched by prefix, and the
 * EV_REL to EV_ABS conversion of the six motion axes. The enumeration of
 * src/axis.h has the same enumerators in the same order as `AxisName`.
 *
 * `_IS_PREFIX` is read as `RELABSD_IS_PREFIX` of src/pervasive.h: the C
 * string given first starts the second.
 */
module LegacyAxis {
  import opened Evdev
  import opened CText
  import opened AxisName

  /** The order in which `relabsd_axis_name_to_enum` tries the names. */
  const PrefixOrder: seq<AxisName> := [X, Y, Z, RX, RY, RZ]

  /** An axis the older tables know: the six motion axes. */
  predicate IsLegacyAxis(a: AxisName)
  {
    a in PrefixOrder
  }

  /**
   * `relabsd_axis_name_to_enum`: the first axis, in the order X, Y, Z, RX,
   * RY, RZ, whose name starts `name`. WL and MC are unknown here.
   */
  function NameToEnum(name: string): (a: AxisName)
    ensures a == Unknown || IsLegacyAxis(a)
  {
    if IsPrefix("X", name) then X
    else if IsPrefix("Y", name) then Y
    else if IsPrefix("Z", name) then Z
    else if IsPrefix("RX", name) then RX
    else if IsPrefix("RY", name) then RY
    else if IsPrefix("RZ", name) then RZ
    else Unknown
  }

  /** A recognised name starts with one of the letters of the axis names, never with `#`. */
  lemma NamedByLetter(name: string)
    requires NameToEnum(name) != Unknown
    ensures |name| > 0 && name[0] in "XYZR"
    ensures !IsPrefix("#", name)
  {
    assert name[..1][0] == name[0];
  }

  /**
   * `relabsd_axis_enum_to_name`. The switch has no case for WHEEL or MISC,
   * so control would reach the end of the function: those are excluded.
   */
  function EnumToName(a: AxisName): (s: string)
    requires a == Unknown || IsLegacyAxis(a)
    ensures s == NameToString(a)
  {
    match a
    case X => "X"
    case Y => "Y"
    case Z => "Z"
    case RX => "RX"
    case RY => "RY"
    case RZ => "RZ"
    case Unknown => "??"
  }

  /**
   * `relabsd_axis_convert_evdev_rel`: the axis of a relative code and its
   * absolute twin; for any other code UNKNOWN and `absCode` untouched.
   */
  function ConvertEvdevRel(relCode: nat, absCode: nat): (r: (AxisName, nat))
    ensures r.0 == Unknown || IsLegacyAxis(r.0)
  {
    if relCode == REL_X then (X, ABS_X)
    else if relCode == REL_Y then (Y, ABS_Y)
    else if relCode == REL_Z then (Z, ABS_Z)
    else if relCode == REL_RX then (RX, ABS_RX)
    else if relCode == REL_RY then (RY, ABS_RY)
    else if relCode == REL_RZ then (RZ, ABS_RZ)
    else (Unknown, absCode)
  }

  /**
   * The name matching is first-match by prefix: `name` maps to the axis at
   * position `i` of the order exactly when that axis's name starts `name`
   * and no earlier name does.
   */
  lemma {:induction false} NameToEnumFirstPrefix(name: string, i: nat)
    requires i < |PrefixOrder|
    ensures NameToEnum(name) == PrefixOrder[i]
        <==> IsPrefix(EnumToName(PrefixOrder[i]), name)
             && forall j :: 0 <= j < i ==> !IsPrefix(EnumToName(PrefixOrder[j]), name)
  {
    var order := PrefixOrder;
    assert order[0] == X && order[1] == Y && order[2] == Z;
    assert order[3] == RX && order[4] == RY && order[5] == RZ;
    if i > 0 && NameToEnum(name) != PrefixOrder[i] && IsPrefix(EnumToName(PrefixOrder[i]), name) {
      var k := if IsPrefix("X", name) then 0 else if IsPrefix("Y", name) then 1
               else if IsPrefix("Z", name) then 2 else if IsPrefix("RX", name) then 3
               else if IsPrefix("RY", name) then 4 else 5;
      assert k < i && IsPrefix(EnumToName(PrefixOrder[k]), name);
    }
  }

  /** UNKNOWN exactly when none of the six names starts `name`. */
  lemma NameToEnumUnknown(name: string)
    ensures NameToEnum(name) == Unknown
        <==> forall j :: 0 <= j < |PrefixOrder| ==> !IsPrefix(EnumToName(PrefixOrder[j]), name)
  {
    if NameToEnum(name) != Unknown {
      var k := if IsPrefix("X", name) then 0 else if IsPrefix("Y", name) then 1
               else if IsPrefix("Z", name) then 2 else if IsPrefix("RX", name) then 3
               else if IsPrefix("RY", name) then 4 else 5;
      assert IsPrefix(EnumToName(PrefixOrder[k]), name);
    }
  }

  /** Any name that starts with one of the six names, whatever follows, maps to an axis. */
  lemma NameToEnumIgnoresSuffix(a: AxisName, suffix: string)
    requires IsLegacyAxis(a)
    ensures NameToEnum(EnumToName(a) + suffix) == a
  {
    var n := EnumToName(a);
    var s := n + suffix;
    assert s[..|n|] == n;
    assert s[..1] == n[..1];
    if |n| == 2 {
      assert s[..1] == ['R'];
      assert s[..2] == n;
    } else {
      assert s[..1] == n;
    }
  }

  /** Round trip: the name of each of the six axes maps back to it. */
  lemma NameRoundTrip(a: AxisName)
    requires IsLegacyAxis(a)
    ensures NameToEnum(EnumToName(a)) == a
  {
    NameToEnumIgnoresSuffix(a, []);
    assert EnumToName(a) + [] == EnumToName(a);
  }

  /**
   * The conversion agrees with the newer table of src/device/axis/axis_name.c
   * on every code but REL_WHEEL and REL_MISC, which it does not know.
   */
  lemma ConvertAgreesWithNewerTable(relCode: nat, absCode: nat)
    ensures relCode != REL_WHEEL && relCode != REL_MISC
        ==> ConvertEvdevRel(relCode, absCode) == NameAndEvdevAbsFromEvdevRel(relCode, absCode)
    ensures relCode == REL_WHEEL || relCode == REL_MISC ==> ConvertEvdevRel(relCode, absCode) == (Unknown, absCode)
  {
  }

  /** Each of the six axes is found back from its relative code, with its absolute code. */
  lemma ConvertRoundTrip(a: AxisName, absCode: nat)
    requires IsLegacyAxis(a)
    ensures ConvertEvdevRel(ToEvdevRel(a), absCode) == (a, ToEvdevAbs(a))
  {
  }
}
