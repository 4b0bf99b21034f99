/**
 * The per-axis signal conditioning (src/device/axis/axis_filter.c).
 *
 * A filter call takes an axis record and a raw value, may rewrite the value
 * and the record's `previousValue`, and answers
 *   -1: drop the event,
 *    0: retransmit the event with its original type and code,
 *    1: emit the (possibly rewritten) value on the axis's ABS code.
 * The overwritten value on an answer of 0 is what the caller retransmits.
 *
 * `abs(*value - previous_value)` overflows in C when the two values are far
 * apart; the model wraps the difference to 32 bits and applies `CAbs`, so an
 * overflowing difference reads as a small or negative distance, as it does on
 * two's-complement hardware. `-(*value)` on INT_MIN wraps to INT_MIN.
 */
module AxisFilter {
  import opened Int32
  import opened Axis

  /** What one filter call produces: its answer, the value and the record's new `previousValue`. */
  datatype Filtered = Filtered(code: int, value: int, previousValue: int)

  /** The clamp and dead zone of the direct filter, applied when the value is outside the fuzz. */
  function Condition(s: AxisState, v: int): (w: int)
    requires s.Valid() && IsInt32(v)
    ensures IsInt32(w)
    ensures v < s.min ==> w == s.min
    ensures s.min <= v && v > s.max ==> w == s.max
    ensures s.min <= v <= s.max && CAbs(v) <= s.flat ==> w == 0
    ensures s.min <= v <= s.max && CAbs(v) > s.flat ==> w == v
  {
    if v < s.min then s.min
    else if v > s.max then s.max
    else if CAbs(v) <= s.flat then 0
    else v
  }

  /** `direct_filter`: the value is already an absolute position. */
  function DirectStep(s: AxisState, v: int): (r: Filtered)
    requires s.Valid() && IsInt32(v)
    ensures IsInt32(r.value) && IsInt32(r.previousValue)
    ensures r.code == -1 || r.code == 1
    ensures CAbs(Wrap32(v - s.previousValue)) <= s.fuzz ==>
      r.code == -1 && r.value == v
      && r.previousValue == (if RealFuzz in s.flags then v else s.previousValue)
    ensures CAbs(Wrap32(v - s.previousValue)) > s.fuzz ==>
      r.value == Condition(s, v)
      && (r.code == 1 <==> r.value != s.previousValue)
      && r.previousValue == r.value
  {
    if CAbs(Wrap32(v - s.previousValue)) <= s.fuzz then
      Filtered(-1, v, if RealFuzz in s.flags then v else s.previousValue)
    else
      var w := Condition(s, v);
      if w == s.previousValue then Filtered(-1, w, s.previousValue)
      else Filtered(1, w, w)
  }

  /** `rel_to_abs_filter`: the value is a delta added to the accumulated position. */
  function RelToAbsStep(s: AxisState, v: int): (r: Filtered)
    requires s.Valid() && IsInt32(v)
    ensures IsInt32(r.value) && IsInt32(r.previousValue)
    ensures r.code == 0 || r.code == 1
    ensures Framed in s.flags && s.min <= s.max ==>
      r.value == Saturate(Saturate(s.previousValue + v, INT_MIN, INT_MAX), s.min, s.max)
    ensures Framed in s.flags ==>
      (r.code == 1 <==> r.value != s.previousValue) && r.previousValue == r.value
    ensures Framed !in s.flags ==>
      r.value == Saturate(s.previousValue + v, INT_MIN, INT_MAX) && r.previousValue == r.value
      && (r.code == 1 <==> r.value != s.previousValue && s.min <= r.value <= s.max)
  {
    var sum := Saturate(s.previousValue + v, INT_MIN, INT_MAX);
    if Framed in s.flags then
      var w := if sum < s.min then s.min else if sum > s.max then s.max else sum;
      if w == s.previousValue then Filtered(0, w, s.previousValue)
      else Filtered(1, w, w)
    else
      if sum == s.previousValue then Filtered(0, sum, s.previousValue)
      else if sum < s.min || sum > s.max then Filtered(0, sum, sum)
      else Filtered(1, sum, sum)
  }

  /** `relabsd_axis_filter_new_value`: the entry point used for every axis event. */
  function NewValueStep(s: AxisState, v: int): (r: Filtered)
    requires s.Valid() && IsInt32(v)
    ensures IsInt32(r.value) && IsInt32(r.previousValue)
    ensures !s.isEnabled ==> r == Filtered(0, v, s.previousValue)
    ensures s.isEnabled && NotAbs in s.flags ==>
      r == Filtered(1, if Invert in s.flags then Negate(v) else v, s.previousValue)
  {
    if !s.isEnabled then Filtered(0, v, s.previousValue)
    else
      var v' := if Invert in s.flags then Negate(v) else v;
      if NotAbs in s.flags then Filtered(1, v', s.previousValue)
      else if Direct in s.flags then DirectStep(s, v')
      else RelToAbsStep(s, v')
  }

  /** `direct_filter`, updating the record in place. */
  method DirectFilter(axis: Axis, value: int) returns (code: int, value': int)
    requires axis.Valid() && IsInt32(value)
    modifies axis
    ensures Filtered(code, value', axis.previousValue) == DirectStep(old(axis.State()), value)
    ensures axis.State() == old(axis.State()).(previousValue := axis.previousValue)
  {
    value' := value;
    if CAbs(Wrap32(value' - axis.previousValue)) <= axis.fuzz {
      if RealFuzz in axis.flags {
        axis.previousValue := value';
      }
      return -1, value';
    }
    if value' < axis.min {
      value' := axis.min;
    } else if value' > axis.max {
      value' := axis.max;
    } else if CAbs(value') <= axis.flat {
      value' := 0;
    }
    if value' == axis.previousValue {
      return -1, value';
    }
    axis.previousValue := value';
    return 1, value';
  }

  /** `rel_to_abs_filter`, updating the record in place. */
  method RelToAbsFilter(axis: Axis, value: int) returns (code: int, value': int)
    requires axis.Valid() && IsInt32(value)
    modifies axis
    ensures Filtered(code, value', axis.previousValue) == RelToAbsStep(old(axis.State()), value)
    ensures axis.State() == old(axis.State()).(previousValue := axis.previousValue)
  {
    var guard := axis.previousValue + value;
    if guard < INT_MIN {
      guard := INT_MIN;
    } else if guard > INT_MAX {
      guard := INT_MAX;
    }
    value' := guard;
    if Framed in axis.flags {
      if value' < axis.min {
        value' := axis.min;
      } else if value' > axis.max {
        value' := axis.max;
      }
      if value' == axis.previousValue {
        return 0, value';
      }
      axis.previousValue := value';
      return 1, value';
    } else {
      if value' == axis.previousValue {
        return 0, value';
      }
      axis.previousValue := value';
      if value' < axis.min || value' > axis.max {
        return 0, value';
      } else {
        return 1, value';
      }
    }
  }

  /** `relabsd_axis_filter_new_value`, updating the record in place. */
  method FilterNewValue(axis: Axis, value: int) returns (code: int, value': int)
    requires axis.Valid() && IsInt32(value)
    modifies axis
    ensures Filtered(code, value', axis.previousValue) == NewValueStep(old(axis.State()), value)
    ensures axis.State() == old(axis.State()).(previousValue := axis.previousValue)
  {
    value' := value;
    if !axis.isEnabled {
      return 0, value';
    }
    if Invert in axis.flags {
      value' := Negate(value');
    }
    if NotAbs in axis.flags {
      return 1, value';
    }
    if Direct in axis.flags {
      code, value' := DirectFilter(axis, value');
    } else {
      code, value' := RelToAbsFilter(axis, value');
    }
  }

  /** The record after one filter call. */
  function After(s: AxisState, r: Filtered): AxisState
  {
    s.(previousValue := r.previousValue)
  }

  /** The record after feeding a sequence of deltas to the rel-to-abs filter. */
  function RelToAbsRun(s: AxisState, vs: seq<int>): (t: AxisState)
    requires s.Valid() && forall i :: 0 <= i < |vs| ==> IsInt32(vs[i])
    ensures t.Valid() && t == s.(previousValue := t.previousValue)
    decreases |vs|
  {
    if vs == [] then s
    else RelToAbsRun(After(s, RelToAbsStep(s, vs[0])), vs[1..])
  }

  /**
   * With `framed`, a position that starts inside [min, max] stays inside it
   * whatever deltas arrive, so every emitted value lies in the range the
   * virtual device advertises for the axis.
   */
  lemma {:induction false} FramedRunStaysInFrame(s: AxisState, vs: seq<int>)
    requires s.Valid() && forall i :: 0 <= i < |vs| ==> IsInt32(vs[i])
    requires Framed in s.flags && s.min <= s.previousValue <= s.max
    ensures s.min <= RelToAbsRun(s, vs).previousValue <= s.max
    decreases |vs|
  {
    if vs != [] {
      var r := RelToAbsStep(s, vs[0]);
      assert s.min <= r.previousValue <= s.max;
      FramedRunStaysInFrame(After(s, r), vs[1..]);
    }
  }

  /** A framed emission always lies within [min, max] when that range is not empty. */
  lemma FramedEmissionInRange(s: AxisState, v: int)
    requires s.Valid() && IsInt32(v) && Framed in s.flags && s.min <= s.max
    ensures s.min <= RelToAbsStep(s, v).value <= s.max
  {
  }

  /**
   * Without `framed`, the accumulator moves even while it is out of range,
   * so as soon as a delta brings it back into [min, max] the value is
   * emitted again: the axis never stays stuck.
   */
  lemma UnframedCatchesUp(s: AxisState, v: int)
    requires s.Valid() && IsInt32(v) && Framed !in s.flags
    requires s.previousValue < s.min || s.previousValue > s.max
    requires s.min <= s.previousValue + v <= s.max
    ensures RelToAbsStep(s, v) == Filtered(1, s.previousValue + v, s.previousValue + v)
  {
  }

  /**
   * In direct mode, after a value inside [min, max] and outside the dead zone
   * has been emitted, a next raw value within `fuzz` of it is dropped: two
   * readings closer than the noise threshold give at most one emission.
   */
  lemma DirectFuzzAtMostOneEmission(s: AxisState, v1: int, v2: int)
    requires s.Valid() && IsInt32(v1) && IsInt32(v2) && s.fuzz >= 0
    requires s.min <= v1 <= s.max && CAbs(v1) > s.flat
    requires DirectStep(s, v1).code == 1
    requires -s.fuzz <= v2 - v1 <= s.fuzz
    ensures DirectStep(After(s, DirectStep(s, v1)), v2).code == -1
  {
    var t := After(s, DirectStep(s, v1));
    assert t.previousValue == v1;
    assert Wrap32(v2 - t.previousValue) == v2 - v1;
  }

  /** In direct mode, an in-range value inside the dead zone is emitted as exactly 0, if at all. */
  lemma DirectFlatGivesZero(s: AxisState, v: int)
    requires s.Valid() && IsInt32(v) && v != INT_MIN
    requires s.min <= v <= s.max && -s.flat <= v <= s.flat
    requires DirectStep(s, v).code == 1
    ensures DirectStep(s, v).value == 0
  {
  }
}
