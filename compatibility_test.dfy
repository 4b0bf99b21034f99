/**
 * The compatibility-test mode (src/compatibility_test.c): lists the
 * relative axes a device has and says whether it suits the parameters.
 *
 * The outcomes of `open` and `libevdev_new_from_fd` are parameters; `open`
 * on a null file name fails.
 */
module CompatibilityTest {
  import opened Wrappers
  import opened Evdev
  import opened AxisName
  import opened Axis
  import opened Parameters
  import opened ParametersCli
  import opened Compatibility
  import opened PhysicalDevice

  /** The axes among the first `n` slots whose relative code the device has: the lines printed. */
  function RelAxes(rel: set<nat>, n: nat): (r: seq<AxisName>)
    requires n <= AxesCount
    ensures |r| <= n
  {
    if n == 0 then []
    else RelAxes(rel, n - 1) + (if ToEvdevRel(FromIndex(n - 1)) in rel then [FromIndex(n - 1)] else [])
  }

  /** Something is printed exactly when the device has the relative code of one of the slots. */
  lemma {:induction false} RelAxesNonEmptyIff(rel: set<nat>, n: nat)
    requires n <= AxesCount
    ensures RelAxes(rel, n) != [] <==> exists i :: 0 <= i < n && ToEvdevRel(FromIndex(i)) in rel
  {
    if n > 0 {
      RelAxesNonEmptyIff(rel, n - 1);
      if ToEvdevRel(FromIndex(n - 1)) in rel {
        assert RelAxes(rel, n) != [];
      }
    }
  }

  /**
   * `test_for_axis_and_print_info`: prints the name of each relative axis
   * the device has and returns 1 when there is at least one.
   */
  method TestForAxisAndPrintInfo(dev: Libevdev) returns (hasRel: int, printed: seq<AxisName>)
    ensures printed == RelAxes(RelCodes(dev), AxesCount)
    ensures hasRel == if printed == [] then 0 else 1
  {
    ghost var rel := RelCodes(dev);
    hasRel := 0;
    printed := [];
    var i := 0;
    while i < AxesCount
      invariant 0 <= i <= AxesCount
      invariant printed == RelAxes(rel, i)
      invariant hasRel == if printed == [] then 0 else 1
    {
      var relCode := ToEvdevRel(FromIndex(i));
      if dev.HasEventCode(EV_REL, relCode) {
        printed := printed + [FromIndex(i)];
        hasRel := 1;
      }
      i := i + 1;
    }
  }

  /**
   * The result of `relabsd_compatibility_test_main` once the options are
   * parsed and the device is open: 0 without any relative axis, 2 when the
   * parameters are compatible, 1 when they are not.
   */
  function Verdict(rel: set<nat>, axes: seq<AxisState>): int
    requires |axes| == AxesCount
  {
    if RelAxes(rel, AxesCount) == [] then 0
    else if Missing(axes, rel, AxesCount) == [] then 2
    else 1
  }

  /** 2 exactly when the device has some relative axis and that of every enabled axis. */
  lemma VerdictIff(rel: set<nat>, axes: seq<AxisState>)
    requires |axes| == AxesCount
    ensures Verdict(rel, axes) == 2
        <==> (exists i :: 0 <= i < AxesCount && ToEvdevRel(FromIndex(i)) in rel)
             && forall i :: 0 <= i < AxesCount ==> axes[i].isEnabled ==> ToEvdevRel(FromIndex(i)) in rel
    ensures Verdict(rel, axes) == 0 <==> forall i :: 0 <= i < AxesCount ==> ToEvdevRel(FromIndex(i)) !in rel
  {
    RelAxesNonEmptyIff(rel, AxesCount);
    CompatibleIff(axes, rel);
  }

  /**
   * The part of `relabsd_compatibility_test_main` after the options: opens
   * the device named by the parameters and tests it.
   */
  method OpenAndTest(p: Parameters, device: PhysicalDevice, fd: int, newErr: int, profile: Libevdev) returns (r: int)
    requires p.Valid()
    modifies device
    ensures r == if p.physicalDeviceFileName == None || fd == -1 || newErr != 0 then -1
                 else Verdict(RelCodes(profile), p.State().axes)
  {
    var name := p.GetPhysicalDeviceFileName();
    var openStatus := device.Open(if name == None then -1 else fd, newErr, profile);
    if openStatus < 0 {
      return -1;
    }
    var libevdev := device.libevdev;
    var isCompatible, printed := TestForAxisAndPrintInfo(libevdev);
    if isCompatible == 0 {
      return 0;
    }
    var compatible, reported := AreCompatibleWith(libevdev, p);
    if compatible != 0 {
      return 2;
    }
    return 1;
  }

  /**
   * `relabsd_compatibility_test_main`: `fd` is what `open` returns for a
   * non-null file name and `newErr` what `libevdev_new_from_fd` returns.
   * The options are read into the parameters; the device is then opened by
   * a file name the option parser has always cleared, so the test ends in
   * -1 whatever the device and the command line.
   */
  method CompatibilityTestMain(argv: seq<string>, p: Parameters, device: PhysicalDevice,
                               fd: int, newErr: int, profile: Libevdev) returns (r: int)
    requires p.Valid() && p.readArgc >= 0
    modifies p, p.axes, device
    ensures p.State() == Options(old(p.State()), argv).1
    ensures r == -1
  {
    var status := ParseOptions(argv, p);
    if status < 0 {
      return -1;
    }
    r := OpenAndTest(p, device, fd, newErr, profile);
  }

  /**
   * The test mode as evidently intended: the device file that
   * `relabsd_parameters_parse_execution_mode` stored survives the options,
   * so the device is opened and tested.
   */
  method CompatibilityTestMainKeepingDevice(argv: seq<string>, p: Parameters, device: PhysicalDevice,
                                            fd: int, newErr: int, profile: Libevdev) returns (r: int)
    requires p.Valid() && p.readArgc >= 0
    modifies p, p.axes, device
    ensures var (status, t) := Options(old(p.State()), argv);
      (status < 0 ==> r == -1 && p.State() == t)
      && (status >= 0 ==>
            p.State() == t.(physicalDeviceFileName := old(p.physicalDeviceFileName))
            && r == if old(p.physicalDeviceFileName) == None || fd == -1 || newErr != 0 then -1
                    else Verdict(RelCodes(profile), t.axes))
  {
    var name := p.GetPhysicalDeviceFileName();
    var status := ParseOptions(argv, p);
    if status < 0 {
      return -1;
    }
    p.physicalDeviceFileName := name;
    r := OpenAndTest(p, device, fd, newErr, profile);
  }

  /**
   * `relabsd_parameters_parse_options` starts with
   * `relabsd_parameters_initialize_options`, which clears the file name
   * `relabsd_parameters_parse_execution_mode` stored, so the test mode can
   * only end in -1.
   */
  lemma MainNeverOpens(s: ParametersState, argv: seq<string>)
    requires |s.axes| == AxesCount && s.readArgc >= 0
    ensures Options(s, argv).1.physicalDeviceFileName == None
  {
    ParseOptionsForgetsModeArguments(s, argv);
  }

  /**
   * The option loop as the program runs it (which stops at the first value
   * of an axis definition) clears the device file name just the same, so
   * the test mode ends in -1 with that loop too.
   */
  lemma MainNeverOpensAsWritten(s: ParametersState, argv: seq<string>)
    requires |s.axes| == AxesCount && s.readArgc >= 0
    ensures var r := OptionsFromAsWritten(InitialOptions(s), argv, s.readArgc + 1);
      r.Some? ==> r.value.1.physicalDeviceFileName == None
  {
    AsWrittenKeepsDeviceFile(InitialOptions(s), argv, s.readArgc + 1);
  }
}
