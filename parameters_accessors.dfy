/**
 * `struct relabsd_parameters` and its accessors
 * (src/config/parameters/parameters_accessors.c). The record also carries the
 * timeout and the `device_name_was_modified` flag the command interpreter
 * writes.
 */
module Parameters {
  import opened Wrappers
  import opened AxisName
  import opened Axis

  datatype RunMode = ClientMode | ServerMode | CompatibilityTestMode

  /** A snapshot of every field of the parameters record; null pointers are `None`. */
  datatype ParametersState = ParametersState(
    readArgc: int,
    mode: RunMode,
    runAsDaemon: bool,
    communicationNodeName: Option<string>,
    deviceName: Option<string>,
    physicalDeviceFileName: Option<string>,
    configurationFile: Option<string>,
    timeout: int,
    deviceNameWasModified: bool,
    axes: seq<AxisState>)
  {
    predicate Valid()
    {
      |axes| == AxesCount && forall i :: 0 <= i < |axes| ==> axes[i].Valid()
    }
  }

  /** Every option field as `relabsd_parameters_initialize_options` leaves it. */
  function InitialOptions(s: ParametersState): (t: ParametersState)
    ensures !t.runAsDaemon
    ensures t.communicationNodeName == None && t.deviceName == None
    ensures t.physicalDeviceFileName == None && t.configurationFile == None
    ensures t.mode == s.mode && t.readArgc == s.readArgc && t.axes == s.axes
    ensures t.timeout == s.timeout && t.deviceNameWasModified == s.deviceNameWasModified
  {
    s.(runAsDaemon := false, communicationNodeName := None, deviceName := None,
       physicalDeviceFileName := None, configurationFile := None)
  }

  class Parameters {
    var readArgc: int
    var mode: RunMode
    var runAsDaemon: bool
    var communicationNodeName: Option<string>
    var deviceName: Option<string>
    var physicalDeviceFileName: Option<string>
    var configurationFile: Option<string>
    var timeout: int
    var deviceNameWasModified: bool
    /** The eight axis records, indexed by `AxisName.Index`. */
    const axes: seq<Axis>

    /** Eight distinct axis records, each with int-sized fields. */
    predicate Valid()
      reads this, axes
    {
      |axes| == AxesCount
      && (forall i, j :: 0 <= i < j < |axes| ==> axes[i] != axes[j])
      && forall i :: 0 <= i < |axes| ==> axes[i].Valid()
    }

    function State(): (s: ParametersState)
      reads this, axes
      ensures Valid() ==> s.Valid()
    {
      ParametersState(readArgc, mode, runAsDaemon, communicationNodeName, deviceName,
                      physicalDeviceFileName, configurationFile, timeout,
                      deviceNameWasModified, States(axes))
    }

    /** A record over the given axis records, with every other field zero or null. */
    constructor (axes: seq<Axis>)
      requires |axes| == AxesCount
      requires forall i, j :: 0 <= i < j < |axes| ==> axes[i] != axes[j]
      requires forall i :: 0 <= i < |axes| ==> axes[i].Valid()
      ensures this.axes == axes && Valid()
      ensures State() == ParametersState(0, ClientMode, false, None, None, None, None, 0, false, States(axes))
    {
      this.axes := axes;
      readArgc, mode, runAsDaemon := 0, ClientMode, false;
      communicationNodeName, deviceName := None, None;
      physicalDeviceFileName, configurationFile := None, None;
      timeout, deviceNameWasModified := 0, false;
    }

    /** `relabsd_parameters_initialize_options`. */
    method InitializeOptions()
      modifies this
      ensures State() == InitialOptions(old(State()))
    {
      runAsDaemon := false;
      communicationNodeName := None;
      deviceName := None;
      physicalDeviceFileName := None;
      configurationFile := None;
    }

    /** `relabsd_parameters_get_run_as_daemon`. */
    function GetRunAsDaemon(): (r: bool)
      reads this, axes
      ensures r == State().runAsDaemon
    {
      runAsDaemon
    }

    /** `relabsd_parameters_get_communication_node_name`. */
    function GetCommunicationNodeName(): (r: Option<string>)
      reads this, axes
      ensures r == State().communicationNodeName
    {
      communicationNodeName
    }

    /** `relabsd_parameters_get_device_name`. */
    function GetDeviceName(): (r: Option<string>)
      reads this, axes
      ensures r == State().deviceName
    {
      deviceName
    }

    /** `relabsd_parameters_get_physical_device_file_name`. */
    function GetPhysicalDeviceFileName(): (r: Option<string>)
      reads this, axes
      ensures r == State().physicalDeviceFileName
    {
      physicalDeviceFileName
    }

    /** `relabsd_parameters_get_execution_mode`. */
    function GetExecutionMode(): (r: RunMode)
      reads this, axes
      ensures r == State().mode
    {
      mode
    }

    /** `relabsd_parameters_get_axis`: the record of a valid axis. */
    function GetAxis(a: AxisName): (axis: Axis)
      requires a != Unknown && |axes| == AxesCount
      reads this
      ensures axis == axes[Index(a)]
    {
      axes[Index(a)]
    }

    /** `relabsd_parameters_set_timeout`: a plain assignment of the milliseconds. */
    method SetTimeout(ms: int)
      modifies this
      ensures State() == old(State()).(timeout := ms)
    {
      timeout := ms;
    }
  }
}
