/**
 * The per-axis record `struct relabsd_axis` and its accessors
 * (src/device/axis/axis.c).
 */
module Axis {
  import opened Int32
  import opened Evdev
  import opened AxisName

  /**
   * The per-axis options. The C enumeration lists four flags, but the filter
   * and the command interpreter also use an `invert` flag; it is the fifth.
   */
  datatype Flag = Direct | RealFuzz | Framed | Invert | NotAbs

  /** A snapshot of every field of an axis record. */
  datatype AxisState = AxisState(
    min: int, max: int, fuzz: int, flat: int, resolution: int,
    isEnabled: bool,
    previousValue: int,
    flags: set<Flag>,
    attributesWereModified: int,
    convertTo: AxisName)
  {
    /** Every integer field fits a C `int`. */
    predicate Valid()
    {
      IsInt32(min) && IsInt32(max) && IsInt32(fuzz) && IsInt32(flat) && IsInt32(resolution)
      && IsInt32(previousValue) && IsInt32(attributesWereModified)
    }

    /** The absolute-axis descriptor advertised for an axis in this state. */
    function Absinfo(): AbsInfo
    {
      AbsInfo(0, min, max, fuzz, flat, resolution)
    }
  }

  /** The five numeric attributes an axis advertises. */
  datatype Field = Min | Max | Fuzz | Flat | Resolution

  /** The value of one numeric attribute of an axis snapshot. */
  function Get(s: AxisState, f: Field): int
  {
    match f
    case Min => s.min
    case Max => s.max
    case Fuzz => s.fuzz
    case Flat => s.flat
    case Resolution => s.resolution
  }

  /** The snapshot with one numeric attribute replaced. */
  function With(s: AxisState, f: Field, v: int): (t: AxisState)
    ensures Get(t, f) == v
    ensures forall g :: g != f ==> Get(t, g) == Get(s, g)
    ensures t.isEnabled == s.isEnabled && t.previousValue == s.previousValue && t.flags == s.flags
    ensures t.attributesWereModified == s.attributesWereModified && t.convertTo == s.convertTo
  {
    match f
    case Min => s.(min := v)
    case Max => s.(max := v)
    case Fuzz => s.(fuzz := v)
    case Flat => s.(flat := v)
    case Resolution => s.(resolution := v)
  }

  /** The snapshots of a sequence of axis records, in order. */
  function States(xs: seq<Axis>): (r: seq<AxisState>)
    reads xs
    ensures |r| == |xs|
    ensures forall i :: 0 <= i < |xs| ==> r[i] == xs[i].State()
  {
    if xs == [] then [] else [xs[0].State()] + States(xs[1..])
  }

  /** The snapshots, given record by record. */
  lemma StatesAre(xs: seq<Axis>, r: seq<AxisState>)
    requires |r| == |xs| && forall i :: 0 <= i < |xs| ==> xs[i].State() == r[i]
    ensures States(xs) == r
  {
  }

  /** The snapshots after a change to the record at `k` alone. */
  lemma StatesOneChanged(xs: seq<Axis>, before: seq<AxisState>, k: nat)
    requires |before| == |xs| && k < |xs|
    requires forall i :: 0 <= i < |xs| && i != k ==> xs[i].State() == before[i]
    ensures States(xs) == before[k := xs[k].State()]
  {
  }

  /** The record as `memset(axis, 0, ...)` leaves it: the enumerator 0 is X. */
  const Zeroed: AxisState := AxisState(0, 0, 0, 0, 0, false, 0, {}, 0, X)

  class Axis {
    var min: int
    var max: int
    var fuzz: int
    var flat: int
    var resolution: int
    var isEnabled: bool
    var previousValue: int
    var flags: set<Flag>
    var attributesWereModified: int
    var convertTo: AxisName

    function State(): AxisState
      reads this
    {
      AxisState(min, max, fuzz, flat, resolution, isEnabled, previousValue, flags,
                attributesWereModified, convertTo)
    }

    predicate Valid()
      reads this
    {
      State().Valid()
    }

    /** A record in the state `relabsd_axis_initialize` gives it. */
    constructor ()
      ensures State() == Zeroed
    {
      min, max, fuzz, flat, resolution := 0, 0, 0, 0, 0;
      isEnabled, previousValue, flags := false, 0, {};
      attributesWereModified, convertTo := 0, X;
    }

    /** Overwrites every field of the record with the given snapshot. */
    method Load(s: AxisState)
      modifies this
      ensures State() == s
    {
      min, max, fuzz, flat, resolution := s.min, s.max, s.fuzz, s.flat, s.resolution;
      isEnabled, previousValue, flags := s.isEnabled, s.previousValue, s.flags;
      attributesWereModified, convertTo := s.attributesWereModified, s.convertTo;
    }

    /** `relabsd_axis_initialize`: every field zero, so disabled, no option, X. */
    method Initialize()
      modifies this
      ensures State() == Zeroed
      ensures Valid() && !isEnabled && flags == {} && previousValue == 0
      ensures attributesWereModified == 0 && convertTo == X
    {
      min, max, fuzz, flat, resolution := 0, 0, 0, 0, 0;
      isEnabled, previousValue, flags := false, 0, {};
      attributesWereModified, convertTo := 0, X;
    }

    /** `relabsd_axis_to_absinfo`: the descriptor advertised for this axis. */
    function ToAbsinfo(): (info: AbsInfo)
      reads this
      ensures info.value == 0
      ensures info.minimum == min && info.maximum == max
      ensures info.fuzz == fuzz && info.flat == flat && info.resolution == resolution
      ensures info == State().Absinfo()
    {
      AbsInfo(0, min, max, fuzz, flat, resolution)
    }

    /** Writes one numeric attribute, as the parsers do through `&(axis->min)` and the like. */
    method SetField(f: Field, v: int)
      modifies this
      ensures State() == With(old(State()), f, v)
    {
      match f
      case Min => min := v;
      case Max => max := v;
      case Fuzz => fuzz := v;
      case Flat => flat := v;
      case Resolution => resolution := v;
    }

    /** `relabsd_axis_enable`. */
    method Enable()
      modifies this
      ensures State() == old(State()).(isEnabled := true)
      ensures IsEnabled()
    {
      isEnabled := true;
    }

    /** `relabsd_axis_is_enabled`. */
    predicate IsEnabled(): (r: bool)
      reads this
      ensures r == State().isEnabled
    {
      isEnabled
    }

    /** `relabsd_axis_attributes_are_dirty`. */
    function AttributesAreDirty(): (r: int)
      reads this
      ensures r == State().attributesWereModified
    {
      attributesWereModified
    }

    /** `relabsd_axis_set_attributes_are_dirty`. */
    method SetAttributesAreDirty(v: int)
      modifies this
      ensures State() == old(State()).(attributesWereModified := v)
      ensures AttributesAreDirty() == v
    {
      attributesWereModified := v;
    }
  }
}
