/**
 * `relabsd_parameters_are_compatible_with`
 * (src/config/parameters/compatibility.c): a device suits the parameters
 * when it has the relative axis of every enabled axis.
 */
module Compatibility {
  import opened Evdev
  import opened AxisName
  import opened Axis
  import opened Parameters

  /** The EV_REL codes a profile reports (`libevdev_has_event_code(dev, EV_REL, c)`). */
  function RelCodes(dev: Libevdev): (r: set<nat>)
    reads dev
    ensures forall c :: c in r <==> dev.HasEventCode(EV_REL, c)
  {
    if EV_REL in dev.eventTypes then set k | k in dev.codes.Keys && k.0 == EV_REL :: k.1 else {}
  }

  /** Whether the axis in slot `i` asks for a relative axis the device lacks. */
  predicate IsMissing(axes: seq<AxisState>, rel: set<nat>, i: nat)
    requires i < |axes| && i < AxesCount
  {
    axes[i].isEnabled && ToEvdevRel(FromIndex(i)) !in rel
  }

  /** The axes among the first `n` slots that the device lacks, in slot order: the error reports. */
  function Missing(axes: seq<AxisState>, rel: set<nat>, n: nat): (r: seq<AxisName>)
    requires n <= |axes| && n <= AxesCount
    ensures |r| <= n
  {
    if n == 0 then []
    else Missing(axes, rel, n - 1) + (if IsMissing(axes, rel, n - 1) then [FromIndex(n - 1)] else [])
  }

  /** The reports name exactly the enabled axes whose relative code the device lacks. */
  lemma {:induction false} MissingExactly(axes: seq<AxisState>, rel: set<nat>, n: nat, a: AxisName)
    requires n <= |axes| && n <= AxesCount
    ensures a in Missing(axes, rel, n) <==> a != Unknown && Index(a) < n && IsMissing(axes, rel, Index(a))
  {
    if n > 0 {
      MissingExactly(axes, rel, n - 1, a);
      if a != Unknown && Index(a) == n - 1 {
        assert FromIndex(n - 1) == a by { FromIndexInjective(a, FromIndex(n - 1)); }
      }
    }
  }

  /** Two axis names with the same slot are the same axis. */
  lemma FromIndexInjective(a: AxisName, b: AxisName)
    requires a != Unknown && b != Unknown && Index(a) == Index(b)
    ensures a == b
  {
  }

  /** No report at all exactly when every enabled axis has its relative code. */
  lemma CompatibleIff(axes: seq<AxisState>, rel: set<nat>)
    requires |axes| == AxesCount
    ensures Missing(axes, rel, AxesCount) == []
        <==> forall i :: 0 <= i < AxesCount ==> axes[i].isEnabled ==> ToEvdevRel(FromIndex(i)) in rel
  {
    if Missing(axes, rel, AxesCount) == [] {
      forall i | 0 <= i < AxesCount && axes[i].isEnabled
        ensures ToEvdevRel(FromIndex(i)) in rel
      {
        MissingExactly(axes, rel, AxesCount, FromIndex(i));
      }
    } else {
      var a := Missing(axes, rel, AxesCount)[0];
      MissingExactly(axes, rel, AxesCount, a);
      assert FromIndex(Index(a)) == a by { FromIndexInjective(a, FromIndex(Index(a))); }
    }
  }

  /** The reports depend on which axes are enabled and nothing else about them. */
  lemma {:induction false} DisabledAxesIgnored(axes: seq<AxisState>, other: seq<AxisState>, rel: set<nat>, n: nat)
    requires n <= |axes| == |other| && n <= AxesCount
    requires forall i :: 0 <= i < |axes| ==> axes[i].isEnabled == other[i].isEnabled
    ensures Missing(axes, rel, n) == Missing(other, rel, n)
  {
    if n > 0 {
      DisabledAxesIgnored(axes, other, rel, n - 1);
    }
  }

  /** With no axis enabled every device is compatible. */
  lemma {:induction false} NothingEnabledCompatible(axes: seq<AxisState>, rel: set<nat>, n: nat)
    requires n <= |axes| && n <= AxesCount
    requires forall i :: 0 <= i < |axes| ==> !axes[i].isEnabled
    ensures Missing(axes, rel, n) == []
  {
    if n > 0 {
      NothingEnabledCompatible(axes, rel, n - 1);
    }
  }

  /**
   * `relabsd_parameters_are_compatible_with`: visits all eight axes, reports
   * each missing one and returns 1 when none is missing, 0 otherwise.
   */
  method AreCompatibleWith(dev: Libevdev, p: Parameters) returns (valid: int, reported: seq<AxisName>)
    requires p.Valid()
    ensures reported == Missing(p.State().axes, RelCodes(dev), AxesCount)
    ensures valid == if reported == [] then 1 else 0
  {
    ghost var axes := p.State().axes;
    ghost var rel := RelCodes(dev);
    valid := 1;
    reported := [];
    var i := 0;
    while i < AxesCount
      invariant 0 <= i <= AxesCount
      invariant reported == Missing(axes, rel, i)
      invariant valid == if reported == [] then 1 else 0
    {
      if p.axes[i].IsEnabled() {
        var relCode := ToEvdevRel(FromIndex(i));
        if !dev.HasEventCode(EV_REL, relCode) {
          reported := reported + [FromIndex(i)];
          valid := 0;
        }
      }
      i := i + 1;
    }
  }
}
