/**
 * The virtual device (src/device/virtual/virtual_device.c): a copy of the
 * physical device's profile in which every enabled relative axis is replaced
 * by its absolute twin, exposed through uinput.
 *
 * The build-time name prefix `RELABSD_DEVICE_PREFIX` is a parameter; the
 * outcomes of `open`, `libevdev_new_from_fd`, `calloc` and
 * `libevdev_uinput_create_from_device` are parameters too.
 */
module VirtualDevice {
  import opened Wrappers
  import opened CText
  import opened Evdev
  import opened AxisName
  import opened Axis
  import opened Parameters

  /** What `libevdev_has_event_code` would report for a key of a code table. */
  function Lookup(codes: map<(nat, nat), Option<AbsInfo>>, key: (nat, nat)): Option<Option<AbsInfo>>
  {
    if key in codes then Some(codes[key]) else None
  }

  /** The code table after `replace_rel_axes` has visited one axis. */
  function ReplaceAxis(codes: map<(nat, nat), Option<AbsInfo>>, s: AxisState, a: AxisName): map<(nat, nat), Option<AbsInfo>>
  {
    if s.isEnabled then (codes - {(EV_REL, ToEvdevRel(a))})[(EV_ABS, ToEvdevAbs(a)) := Some(s.Absinfo())]
    else codes
  }

  /** The code table after `replace_rel_axes` has visited the first `n` axes. */
  function Replaced(axes: seq<AxisState>, codes: map<(nat, nat), Option<AbsInfo>>, n: nat): map<(nat, nat), Option<AbsInfo>>
    requires n <= |axes| && n <= AxesCount
  {
    if n == 0 then codes else ReplaceAxis(Replaced(axes, codes, n - 1), axes[n - 1], FromIndex(n - 1))
  }

  /** Whether one of the first `n` axes is enabled. */
  predicate SomeEnabled(axes: seq<AxisState>, n: nat)
    requires n <= |axes|
  {
    exists i :: 0 <= i < n && axes[i].isEnabled
  }

  /**
   * Every enabled axis loses its relative code and gains its absolute code
   * with its own descriptor; both codes of a disabled axis are left as they
   * were; a key that is no axis's code is left as it was.
   */
  lemma {:induction false} ReplacedExactly(axes: seq<AxisState>, codes: map<(nat, nat), Option<AbsInfo>>, n: nat, i: nat)
    requires i < n <= |axes| && n <= AxesCount
    ensures var r := Replaced(axes, codes, n); var a := FromIndex(i);
      if axes[i].isEnabled then
        Lookup(r, (EV_REL, ToEvdevRel(a))) == None && Lookup(r, (EV_ABS, ToEvdevAbs(a))) == Some(Some(axes[i].Absinfo()))
      else
        Lookup(r, (EV_REL, ToEvdevRel(a))) == Lookup(codes, (EV_REL, ToEvdevRel(a)))
        && Lookup(r, (EV_ABS, ToEvdevAbs(a))) == Lookup(codes, (EV_ABS, ToEvdevAbs(a)))
  {
    var a := FromIndex(i);
    if i < n - 1 {
      ReplacedExactly(axes, codes, n - 1, i);
      var b := FromIndex(n - 1);
      EvdevCodesInjective(a, b);
    } else if !axes[i].isEnabled {
      UntouchedBefore(axes, codes, n - 1, (EV_REL, ToEvdevRel(a)), i);
      UntouchedBefore(axes, codes, n - 1, (EV_ABS, ToEvdevAbs(a)), i);
    }
  }

  /** The two codes of the axis in slot `i` are left alone by the visits of the slots below `n <= i`. */
  lemma {:induction false} UntouchedBefore(axes: seq<AxisState>, codes: map<(nat, nat), Option<AbsInfo>>, n: nat,
                                           key: (nat, nat), i: nat)
    requires n <= i < |axes| && i < AxesCount
    requires key == (EV_REL, ToEvdevRel(FromIndex(i))) || key == (EV_ABS, ToEvdevAbs(FromIndex(i)))
    ensures Lookup(Replaced(axes, codes, n), key) == Lookup(codes, key)
  {
    if n > 0 {
      UntouchedBefore(axes, codes, n - 1, key, i);
      EvdevCodesInjective(FromIndex(i), FromIndex(n - 1));
    }
  }

  /** A key that is no axis's relative or absolute code keeps its entry. */
  lemma {:induction false} OtherCodesKept(axes: seq<AxisState>, codes: map<(nat, nat), Option<AbsInfo>>, n: nat, key: (nat, nat))
    requires n <= |axes| && n <= AxesCount
    requires forall j :: 0 <= j < AxesCount ==> key != (EV_REL, ToEvdevRel(FromIndex(j))) && key != (EV_ABS, ToEvdevAbs(FromIndex(j)))
    ensures Lookup(Replaced(axes, codes, n), key) == Lookup(codes, key)
  {
    if n > 0 {
      OtherCodesKept(axes, codes, n - 1, key);
    }
  }

  /** The zero burst of `set_axes_to_zero` over the first `n` axes: one EV_ABS 0 per enabled axis. */
  function ZeroEvents(axes: seq<AxisState>, n: nat): (r: seq<Event>)
    requires n <= |axes| && n <= AxesCount
    ensures |r| <= n
    ensures forall k :: 0 <= k < |r| ==> r[k].evType == EV_ABS && r[k].value == 0
  {
    if n == 0 then [] else ZeroEvents(axes, n - 1) + AxisZero(axes, n - 1)
  }

  /** The write `set_axes_to_zero` makes for slot `i`: EV_ABS 0 on its absolute code if the axis is enabled, else nothing. */
  function AxisZero(axes: seq<AxisState>, i: nat): (r: seq<Event>)
    requires i < |axes| && i < AxesCount
    ensures r == [] <==> !axes[i].isEnabled
    ensures r != [] ==> r == [Event(EV_ABS, ToEvdevAbs(FromIndex(i)), 0)]
  {
    if axes[i].isEnabled then [Event(EV_ABS, ToEvdevAbs(FromIndex(i)), 0)] else []
  }

  /** The burst holds the absolute code of exactly the enabled axes. */
  lemma {:induction false} ZeroEventsExactly(axes: seq<AxisState>, n: nat, i: nat)
    requires n <= |axes| && n <= AxesCount && i < AxesCount
    ensures Event(EV_ABS, ToEvdevAbs(FromIndex(i)), 0) in ZeroEvents(axes, n) <==> i < n && axes[i].isEnabled
  {
    if n > 0 {
      ZeroEventsExactly(axes, n - 1, i);
      if i != n - 1 {
        EvdevCodesInjective(FromIndex(i), FromIndex(n - 1));
      }
    }
  }

  /** The burst lists the axes in slot order: a lower slot's event comes first. */
  lemma {:induction false} ZeroEventsOrdered(axes: seq<AxisState>, n: nat, i: nat, j: nat)
    requires n <= |axes| && n <= AxesCount && i < j < n
    requires axes[i].isEnabled && axes[j].isEnabled
    ensures exists k, l :: (0 <= k < l < |ZeroEvents(axes, n)|
                           && ZeroEvents(axes, n)[k] == Event(EV_ABS, ToEvdevAbs(FromIndex(i)), 0)
                           && ZeroEvents(axes, n)[l] == Event(EV_ABS, ToEvdevAbs(FromIndex(j)), 0))
  {
    if j < n - 1 {
      ZeroEventsOrdered(axes, n - 1, i, j);
      var k, l :| 0 <= k < l < |ZeroEvents(axes, n - 1)|
        && ZeroEvents(axes, n - 1)[k] == Event(EV_ABS, ToEvdevAbs(FromIndex(i)), 0)
        && ZeroEvents(axes, n - 1)[l] == Event(EV_ABS, ToEvdevAbs(FromIndex(j)), 0);
      assert ZeroEvents(axes, n)[k] == ZeroEvents(axes, n - 1)[k];
      assert ZeroEvents(axes, n)[l] == ZeroEvents(axes, n - 1)[l];
    } else {
      ZeroEventsExactly(axes, n - 1, i);
      var prefix := ZeroEvents(axes, n - 1);
      var k :| 0 <= k < |prefix| && prefix[k] == Event(EV_ABS, ToEvdevAbs(FromIndex(i)), 0);
      assert ZeroEvents(axes, n)[k] == prefix[k];
      assert ZeroEvents(axes, n)[|prefix|] == Event(EV_ABS, ToEvdevAbs(FromIndex(j)), 0);
    }
  }

  /**
   * The name `rename_device` gives: the prefix, a space and the chosen name,
   * as C strings. Its length is `new_name_size - 1`, so the `snprintf` check
   * of the source always passes.
   */
  function NewName(prefix: string, deviceName: Option<string>, currentName: string): (r: string)
    ensures NUL !in r
    ensures |r| == |CStr(prefix)| + 1 + |CStr(if deviceName.Some? then deviceName.value else currentName)|
  {
    var realName := if deviceName.Some? then deviceName.value else currentName;
    CStr(prefix) + " " + CStr(realName)
  }

  /** `struct relabsd_virtual_device`: the rewritten profile and the uinput device made from it. */
  class VirtualDevice {
    var libevdev: Libevdev
    var uinput: UInput

    constructor (libevdev: Libevdev, uinput: UInput)
      ensures this.libevdev == libevdev && this.uinput == uinput
    {
      this.libevdev := libevdev;
      this.uinput := uinput;
    }

    /**
     * `relabsd_virtual_device_write_evdev_event`: one write, with no SYN
     * added; -1 exactly when uinput refuses it.
     */
    method WriteEvdevEvent(t: nat, c: nat, v: int) returns (r: int)
      modifies uinput
      ensures r == 0 || r == -1
      ensures r == -1 <==> old(uinput.NextFails())
      ensures uinput.attempts == old(uinput.attempts) + [Event(t, c, v)]
      ensures uinput.log == if r == 0 then old(uinput.log) + [Event(t, c, v)] else old(uinput.log)
      ensures uinput.faults == if old(uinput.faults) == [] then [] else old(uinput.faults)[1..]
      ensures uinput.log == old(uinput.log) + Delivered([Event(t, c, v)], old(uinput.faults))
    {
      var err := uinput.WriteEvent(t, c, v);
      if err != 0 {
        return -1;
      }
      return 0;
    }

    /**
     * `relabsd_virtual_device_set_axes_to_zero`: one EV_ABS 0 per enabled
     * axis, in slot order, then one SYN_REPORT whatever became of them.
     */
    method SetAxesToZero(p: Parameters)
      requires p.Valid()
      modifies uinput
      ensures var zeros := ZeroEvents(old(p.State()).axes, AxesCount);
        var burst := zeros + [Event(EV_SYN, SYN_REPORT, 0)];
        uinput.attempts == old(uinput.attempts) + zeros + [Event(EV_SYN, SYN_REPORT, 0)]
        && uinput.log == old(uinput.log) + Delivered(burst, old(uinput.faults))
        && uinput.faults == Remaining(old(uinput.faults), |burst|)
    {
      ZeroAxes(p);
      ghost var zeros := ZeroEvents(p.State().axes, AxesCount);
      var err := uinput.WriteEvent(EV_SYN, SYN_REPORT, 0);
      DeliveredExtends(old(uinput.log), zeros, [Event(EV_SYN, SYN_REPORT, 0)], old(uinput.faults));
    }

    /** The loop of `relabsd_virtual_device_set_axes_to_zero`: the EV_ABS 0 burst, write by write. */
    method ZeroAxes(p: Parameters)
      requires p.Valid()
      modifies uinput
      ensures var zeros := ZeroEvents(p.State().axes, AxesCount);
        uinput.attempts == old(uinput.attempts) + zeros
        && uinput.log == old(uinput.log) + Delivered(zeros, old(uinput.faults))
        && uinput.faults == Remaining(old(uinput.faults), |zeros|)
      ensures p.State() == old(p.State())
    {
      ghost var axes := p.State().axes;
      ghost var sent: seq<Event> := [];
      var i := 0;
      while i < AxesCount
        invariant 0 <= i <= AxesCount
        invariant p.Valid() && p.State().axes == axes && p.State() == old(p.State())
        invariant sent == ZeroEvents(axes, i)
        invariant uinput.attempts == old(uinput.attempts) + sent
        invariant uinput.log == old(uinput.log) + Delivered(sent, old(uinput.faults))
        invariant uinput.faults == Remaining(old(uinput.faults), |sent|)
      {
        ghost var next := AxisZero(axes, i);
        ZeroAxis(p, i);
        DeliveredExtends(old(uinput.log), sent, next, old(uinput.faults));
        Regrouped(old(uinput.attempts), sent, next);
        sent := sent + next;
        i := i + 1;
      }
    }

    /** One pass of the loop of `relabsd_virtual_device_set_axes_to_zero`. */
    method ZeroAxis(p: Parameters, i: nat)
      requires p.Valid() && i < AxesCount
      modifies uinput
      ensures var zero := AxisZero(p.State().axes, i);
        uinput.attempts == old(uinput.attempts) + zero
        && uinput.log == old(uinput.log) + Delivered(zero, old(uinput.faults))
        && uinput.faults == Remaining(old(uinput.faults), |zero|)
      ensures p.Valid() && p.State() == old(p.State())
    {
      if p.GetAxis(FromIndex(i)).IsEnabled() {
        var ignored := WriteEvdevEvent(EV_ABS, ToEvdevAbs(FromIndex(i)), 0);
      } else {
        assert Remaining(old(uinput.faults), 0) == old(uinput.faults);
      }
    }
  }

  /**
   * `replace_rel_axes`: for each enabled axis, drops its relative code and
   * installs its absolute code with the axis's descriptor.
   */
  method ReplaceRelAxes(p: Parameters, dev: Libevdev)
    requires p.Valid()
    modifies dev
    ensures dev.codes == Replaced(p.State().axes, old(dev.codes), AxesCount)
    ensures dev.eventTypes == old(dev.eventTypes) + (if SomeEnabled(p.State().axes, AxesCount) then {EV_ABS} else {})
    ensures dev.name == old(dev.name)
  {
    ghost var axes := p.State().axes;
    var i := 0;
    while i < AxesCount
      invariant 0 <= i <= AxesCount
      invariant dev.codes == Replaced(axes, old(dev.codes), i)
      invariant dev.eventTypes == old(dev.eventTypes) + (if SomeEnabled(axes, i) then {EV_ABS} else {})
      invariant dev.name == old(dev.name)
    {
      var axisName := FromIndex(i);
      var axis := p.GetAxis(axisName);
      if axis.IsEnabled() {
        var absinfo := axis.ToAbsinfo();
        dev.DisableEventCode(EV_REL, ToEvdevRel(axisName));
        dev.EnableEventCode(EV_ABS, ToEvdevAbs(axisName), Some(absinfo));
      }
      assert SomeEnabled(axes, i + 1) <==> SomeEnabled(axes, i) || axes[i].isEnabled;
      i := i + 1;
    }
  }

  /**
   * `rename_device`: names the profile after the prefix and the parameters'
   * device name, or the profile's own name when there is none. When the
   * buffer cannot be allocated the name becomes the prefix alone and the
   * result is -1.
   */
  method RenameDevice(p: Parameters, dev: Libevdev, prefix: string, allocationFails: bool) returns (r: int)
    modifies dev
    ensures r == 0 || r == -1
    ensures r == -1 <==> allocationFails
    ensures dev.name == if allocationFails then prefix else NewName(prefix, p.deviceName, old(dev.name))
    ensures dev.eventTypes == old(dev.eventTypes) && dev.codes == old(dev.codes)
  {
    var realName := p.GetDeviceName();
    var name := if realName.Some? then realName.value else dev.name;
    if allocationFails {
      dev.SetName(prefix);
      return -1;
    }
    dev.SetName(CStr(prefix) + " " + CStr(name));
    return 0;
  }

  /** The libevdev calls `relabsd_virtual_device_create_from` makes, in order. */
  datatype CreateStep = OpenFile | NewFromFd | Rename | EnableAbs | ReplaceAxes | CreateUinput | CloseFile

  /**
   * The calls `relabsd_virtual_device_create_from` makes: it stops after a
   * failed `open` or `libevdev_new_from_fd`, and closes the file after the
   * uinput device is created or refused.
   */
  function CreateSteps(fileOpens: bool, newErr: int): seq<CreateStep>
  {
    if !fileOpens then [OpenFile]
    else if newErr != 0 then [OpenFile, NewFromFd, CloseFile]
    else [OpenFile, NewFromFd, Rename, EnableAbs, ReplaceAxes, CreateUinput, CloseFile]
  }

  /** A file that was opened is closed last; nothing is built from a file that could not be read. */
  lemma OpenedFileClosed(fileOpens: bool, newErr: int)
    ensures var s := CreateSteps(fileOpens, newErr);
      s != [] && s[0] == OpenFile && (fileOpens <==> s[|s| - 1] == CloseFile)
    ensures (fileOpens && newErr == 0) <==> CreateUinput in CreateSteps(fileOpens, newErr)
  {
  }

  /** EV_ABS is switched on before any axis is replaced, whatever the axes. */
  lemma AbsEnabledBeforeReplacement(newErr: int)
    requires newErr == 0
    ensures var s := CreateSteps(true, newErr);
      exists i, j :: 0 <= i < j < |s| && s[i] == EnableAbs && s[j] == ReplaceAxes
  {
    var s := CreateSteps(true, newErr);
    assert s[3] == EnableAbs && s[4] == ReplaceAxes;
  }

  /** The steps of `relabsd_virtual_device_create_from` that rewrite the profile before uinput sees it. */
  method PrepareProfile(p: Parameters, profile: Libevdev, prefix: string, allocationFails: bool)
    requires p.Valid()
    modifies profile
    ensures profile.name == (if allocationFails then prefix else NewName(prefix, p.deviceName, old(profile.name)))
    ensures profile.eventTypes == old(profile.eventTypes) + {EV_ABS}
    ensures profile.codes == Replaced(p.State().axes, old(profile.codes), AxesCount)
  {
    var ignored := RenameDevice(p, profile, prefix, allocationFails);
    profile.EnableEventType(EV_ABS);
    ReplaceRelAxes(p, profile);
  }

  /**
   * `relabsd_virtual_device_create_from` on the profile `profile` read from
   * the physical device: the profile is renamed, gets EV_ABS and has its
   * enabled relative axes replaced; the uinput device is created from it.
   * Returns -1 when the file cannot be opened or read, or uinput refuses the
   * profile.
   */
  method CreateFrom(p: Parameters, profile: Libevdev, prefix: string,
                    fileOpens: bool, newErr: int, allocationFails: bool, uinputErr: int, faults: seq<bool>)
    returns (r: int, device: VirtualDevice?, steps: seq<CreateStep>)
    requires p.Valid()
    modifies profile
    ensures steps == CreateSteps(fileOpens, newErr)
    ensures r == 0 || r == -1
    ensures r == 0 <==> fileOpens && newErr == 0 && uinputErr == 0
    ensures !(fileOpens && newErr == 0) ==>
              (profile.name == old(profile.name)
               && profile.eventTypes == old(profile.eventTypes) && profile.codes == old(profile.codes))
    ensures fileOpens && newErr == 0 ==>
              (profile.name == (if allocationFails then prefix else NewName(prefix, p.deviceName, old(profile.name)))
               && profile.eventTypes == old(profile.eventTypes) + {EV_ABS}
               && profile.codes == Replaced(p.State().axes, old(profile.codes), AxesCount))
    ensures r == 0 ==>
              (device != null && fresh(device) && fresh(device.uinput)
               && device.libevdev == profile && device.uinput.attempts == [] && device.uinput.faults == faults)
  {
    steps := [OpenFile];
    if !fileOpens {
      return -1, null, steps;
    }
    steps := steps + [NewFromFd];
    if newErr != 0 {
      steps := steps + [CloseFile];
      return -1, null, steps;
    }
    PrepareProfile(p, profile, prefix, allocationFails);
    steps := steps + [Rename, EnableAbs, ReplaceAxes, CreateUinput];
    if uinputErr != 0 {
      steps := steps + [CloseFile];
      return -1, null, steps;
    }
    var uinput := new UInput(faults);
    device := new VirtualDevice(profile, uinput);
    steps := steps + [CloseFile];
    return 0, device, steps;
  }
}
