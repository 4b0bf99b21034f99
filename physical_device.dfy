/**
 * The physical device (src/device/physical/physical_device.c): the input
 * device relabsd reads from, through libevdev.
 *
 * `libevdev_next_event` is a finite stream of read statuses; once it is
 * exhausted every read reports -EAGAIN (no event pending). The outcomes of
 * `open` and `libevdev_new_from_fd` are parameters.
 */
module PhysicalDevice {
  import opened Wrappers
  import opened Evdev
  import opened AxisName
  import opened Axis
  import opened Parameters
  import opened Interruption
  import opened Compatibility

  /** What one `libevdev_next_event` call reports. */
  datatype ReadStatus =
    | Success(event: Event)   // LIBEVDEV_READ_STATUS_SUCCESS, with the event read
    | Sync                    // LIBEVDEV_READ_STATUS_SYNC: events were dropped
    | Again                   // -EAGAIN: no event pending
    | Failure(errno: int)     // any other negative errno

  /** The read flag passed to `libevdev_next_event` (always with BLOCKING). */
  datatype ReadMode = NormalMode | SyncMode

  /** The status of the next read: an exhausted stream reports -EAGAIN. */
  function NextStatus(stream: seq<ReadStatus>): (st: ReadStatus)
    ensures stream == [] ==> st == Again
    ensures stream != [] ==> st == stream[0]
  {
    if stream == [] then Again else stream[0]
  }

  /** The statuses left after one read. */
  function Rest(stream: seq<ReadStatus>): (r: seq<ReadStatus>)
    ensures stream != [] ==> |r| < |stream|
  {
    if stream == [] then [] else stream[1..]
  }

  /**
   * The outcome of `relabsd_physical_device_read`: its result, the event
   * copied out, the new `is_late`, the modes of the reads made, the statuses
   * left and whether the server was interrupted.
   */
  datatype ReadOutcome = ReadOutcome(
    status: int, event: Option<Event>, isLate: bool, modes: seq<ReadMode>, rest: seq<ReadStatus>, interrupted: bool)

  /**
   * `relabsd_physical_device_read` from lateness `isLate`: reads in SYNC mode
   * when late; a SYNC status makes the device late and reads again.
   */
  function ReadSpec(isLate: bool, stream: seq<ReadStatus>): (r: ReadOutcome)
    ensures r.status == 0 || r.status == -1
    ensures r.status == 0 <==> r.event.Some?
    ensures r.modes != [] && r.modes[0] == (if isLate then SyncMode else NormalMode)
    ensures |r.rest| < |stream| || stream == []
    decreases |stream|
  {
    var mode := if isLate then SyncMode else NormalMode;
    match NextStatus(stream)
    case Success(e) => ReadOutcome(0, Some(e), isLate, [mode], Rest(stream), false)
    case Sync =>
      var o := ReadSpec(true, Rest(stream));
      o.(modes := [mode] + o.modes)
    case Again => ReadOutcome(-1, None, false, [mode], Rest(stream), false)
    case Failure(_) => ReadOutcome(-1, None, isLate, [mode], Rest(stream), true)
  }

  /** A successful read hands over the event and leaves the lateness as it was. */
  lemma SuccessCopiesEvent(isLate: bool, e: Event, rest: seq<ReadStatus>)
    ensures ReadSpec(isLate, [Success(e)] + rest) == ReadOutcome(0, Some(e), isLate, [if isLate then SyncMode else NormalMode], rest, false)
  {
    assert ([Success(e)] + rest)[1..] == rest;
  }

  /** -EAGAIN clears the lateness and fails without interrupting the server. */
  lemma AgainClearsLateness(isLate: bool, rest: seq<ReadStatus>)
    ensures var o := ReadSpec(isLate, [Again] + rest);
      o.status == -1 && !o.isLate && !o.interrupted && o.rest == rest
  {
    assert ([Again] + rest)[1..] == rest;
  }

  /** Any other error fails, keeps the lateness and interrupts the server. */
  lemma FailureInterrupts(isLate: bool, errno: int, rest: seq<ReadStatus>)
    ensures var o := ReadSpec(isLate, [Failure(errno)] + rest);
      o.status == -1 && o.isLate == isLate && o.interrupted && o.rest == rest
  {
    assert ([Failure(errno)] + rest)[1..] == rest;
  }

  /** A SYNC status is followed by a read in SYNC mode, and the reads stay in SYNC mode. */
  lemma SyncThenReadsLate(isLate: bool, rest: seq<ReadStatus>)
    ensures var o := ReadSpec(isLate, [Sync] + rest);
      o.modes == [if isLate then SyncMode else NormalMode] + ReadSpec(true, rest).modes
      && forall k :: 1 <= k < |o.modes| ==> o.modes[k] == SyncMode
  {
    assert ([Sync] + rest)[1..] == rest;
    LateReadsInSyncMode(rest);
  }

  /** Once late, every read of one call is made in SYNC mode. */
  lemma {:induction false} LateReadsInSyncMode(stream: seq<ReadStatus>)
    ensures forall k :: 0 <= k < |ReadSpec(true, stream).modes| ==> ReadSpec(true, stream).modes[k] == SyncMode
    decreases |stream|
  {
    if NextStatus(stream) == Sync {
      LateReadsInSyncMode(Rest(stream));
    }
  }

  /**
   * A call reads at most once per status it consumes, plus one -EAGAIN read
   * once the stream is exhausted, so it ends on every finite stream.
   */
  lemma {:induction false} ReadsBounded(isLate: bool, stream: seq<ReadStatus>)
    ensures var o := ReadSpec(isLate, stream);
      |o.modes| <= |stream| - |o.rest| + 1 && |o.rest| <= |stream|
    decreases |stream|
  {
    if NextStatus(stream) == Sync {
      ReadsBounded(true, Rest(stream));
    }
  }

  /** `struct relabsd_physical_device`, with the pending statuses of its libevdev handle. */
  class PhysicalDevice {
    var file: int
    var libevdev: Libevdev?
    var isLate: bool
    /** The statuses `libevdev_next_event` still has to report. */
    var stream: seq<ReadStatus>
    /** The mode of every read made so far. */
    var modes: seq<ReadMode>

    constructor (stream: seq<ReadStatus>)
      ensures this.stream == stream && modes == [] && libevdev == null && file == -1
    {
      this.stream := stream;
      modes := [];
      libevdev := null;
      file := -1;
      isLate := false;
    }

    /**
     * `relabsd_physical_device_open`: `fd` is what `open` returns (-1 on
     * failure) and `newErr` what `libevdev_new_from_fd` returns; `profile` is
     * the handle it creates. The device is never late afterwards.
     */
    method Open(fd: int, newErr: int, profile: Libevdev) returns (r: int)
      modifies this
      ensures !isLate
      ensures file == fd
      ensures r == 0 || r == -1
      ensures r == 0 <==> fd != -1 && newErr == 0
      ensures r == 0 ==> libevdev == profile
      ensures r != 0 ==> libevdev == old(libevdev)
      ensures stream == old(stream) && modes == old(modes)
    {
      file := fd;
      isLate := false;
      if file == -1 {
        return -1;
      }
      if newErr != 0 {
        return -1;
      }
      libevdev := profile;
      return 0;
    }

    /**
     * `relabsd_physical_device_is_late`: whether the last read reported
     * that events were dropped and no read since has drained the backlog.
     */
    function IsLate(): (r: bool)
      reads this
      ensures r == isLate
    {
      isLate
    }

    /**
     * `relabsd_physical_device_read`: the out-parameters `t`, `c` and `v`
     * start as `t0`, `c0` and `v0` and receive the event on success only.
     */
    method Read(run: RunFlag, t0: nat, c0: nat, v0: int) returns (r: int, t: nat, c: nat, v: int)
      modifies this, run
      ensures var o := ReadSpec(old(isLate), old(stream));
        r == o.status && isLate == o.isLate && stream == o.rest && modes == old(modes) + o.modes
        && (if o.event.Some? then Event(t, c, v) == o.event.value else (t, c, v) == (t0, c0, v0))
        && run.running == (old(run.running) && !o.interrupted)
      ensures file == old(file) && libevdev == old(libevdev)
      decreases |stream|
    {
      var mode := if isLate then SyncMode else NormalMode;
      modes := modes + [mode];
      var status := NextStatus(stream);
      stream := Rest(stream);
      match status
      case Success(e) =>
        return 0, e.evType, e.code, e.value;
      case Sync =>
        isLate := true;
        ghost var before := modes;
        r, t, c, v := Read(run, t0, c0, v0);
        assert modes == old(modes) + ([mode] + (modes[|before|..]));
      case Again =>
        isLate := false;
        return -1, t0, c0, v0;
      case Failure(_) =>
        run.Interrupt();
        return -1, t0, c0, v0;
    }
  }

  /**
   * `relabsd_physical_device_compatibility_test` as written: -1 without any
   * relative axis, -2 when parameters are given and ARE compatible, else 0.
   */
  function TestVerdictAsWritten(hasRel: bool, axes: Option<seq<AxisState>>, rel: set<nat>): int
    requires axes.Some? ==> |axes.value| == AxesCount
  {
    if !hasRel then -1
    else if axes.Some? && Missing(axes.value, rel, AxesCount) == [] then -2
    else 0
  }

  /** The evident intent: -2 when parameters are given and are NOT compatible. */
  function TestVerdict(hasRel: bool, axes: Option<seq<AxisState>>, rel: set<nat>): (r: int)
    requires axes.Some? ==> |axes.value| == AxesCount
  {
    if !hasRel then -1
    else if axes.Some? && Missing(axes.value, rel, AxesCount) != [] then -2
    else 0
  }

  /** With parameters whose axes are all disabled, the test as written rejects every device with relative axes. */
  lemma InvertedTestRejectsCompatible(axes: seq<AxisState>, rel: set<nat>)
    requires |axes| == AxesCount && forall i :: 0 <= i < AxesCount ==> !axes[i].isEnabled
    ensures TestVerdictAsWritten(true, Some(axes), rel) == -2
    ensures TestVerdict(true, Some(axes), rel) == 0
  {
    NothingEnabledCompatible(axes, rel, AxesCount);
  }

  /**
   * The corrected test passes (0) exactly when the device has relative axes
   * and, if parameters are given, the relative axis of every enabled axis.
   */
  lemma TestVerdictIff(hasRel: bool, axes: Option<seq<AxisState>>, rel: set<nat>)
    requires axes.Some? ==> |axes.value| == AxesCount
    ensures TestVerdict(hasRel, axes, rel) == 0
        <==> hasRel && (axes.Some? ==> forall i :: 0 <= i < AxesCount ==> axes.value[i].isEnabled ==> ToEvdevRel(FromIndex(i)) in rel)
  {
    if axes.Some? {
      CompatibleIff(axes.value, rel);
    }
  }

  /** The parameters' axes, or none for a null pointer. */
  function AxesOf(p: Parameters?): (r: Option<seq<AxisState>>)
    reads if p == null then {} else {p}, if p == null then [] else p.axes
    requires p != null ==> p.Valid()
    ensures r.Some? ==> |r.value| == AxesCount
  {
    if p == null then None else Some(p.State().axes)
  }

  /** `relabsd_physical_device_compatibility_test`, as written. */
  method CompatibilityTestAsWritten(device: PhysicalDevice, p: Parameters?) returns (r: int)
    requires device.libevdev != null && (p != null ==> p.Valid())
    ensures r == TestVerdictAsWritten(device.libevdev.HasEventType(EV_REL), AxesOf(p), RelCodes(device.libevdev))
  {
    if !device.libevdev.HasEventType(EV_REL) {
      return -1;
    }
    if p != null {
      var compatible, reported := AreCompatibleWith(device.libevdev, p);
      if compatible != 0 {
        return -2;
      }
    }
    return 0;
  }

  /** `relabsd_physical_device_compatibility_test`, failing on incompatible parameters. */
  method CompatibilityTest(device: PhysicalDevice, p: Parameters?) returns (r: int)
    requires device.libevdev != null && (p != null ==> p.Valid())
    ensures r == TestVerdict(device.libevdev.HasEventType(EV_REL), AxesOf(p), RelCodes(device.libevdev))
  {
    if !device.libevdev.HasEventType(EV_REL) {
      return -1;
    }
    if p != null {
      var compatible, reported := AreCompatibleWith(device.libevdev, p);
      if compatible == 0 {
        return -2;
      }
    }
    return 0;
  }
}
