# relabsd, modelled in Dafny

relabsd turns a device with relative motion axes (a 3D mouse or a space
navigator) into a virtual joystick with absolute axes. It reads a
configuration, which comes from a file, from the command line, or from a
client talking over a socket. It checks that the physical device is
compatible, builds a virtual uinput device with one absolute axis per
configured relative one, and then converts every relative motion event into
an absolute position. The conversion goes through a per-axis filter and
optional options such as `direct`, `real_fuzz`, `framed`, `convert` and
`invert`.

This project models that core in Dafny 4.11, one module per source file:

- `StringUtil` (src/util/string.c)
- `AxisName`, `Axis`, `AxisOption` and `AxisFilter` (src/device/axis/)
- `Parameters`, `ParametersCli`, `ParseConfigFile`, `Compatibility` and
  `RemoteClient` (src/config/parameters/)
- `PhysicalDevice` and `VirtualDevice` (src/device/)
- `ConversionMainLoop` (src/server/conversion_main_loop.c)
- `CompatibilityTest` (src/compatibility_test.c)
- the older reader and filters: `LegacyConfigFile` (src/config/config_file.c),
  `LegacyConfig` (src/config.c) and `LegacyAxis` (src/axis.c)

Small shared modules hold what the C program takes from its headers and
libraries:

- `Wrappers`: the Option type.
- `Int32`: 32-bit bounds, wrap-around, and C's `abs` and negation.
- `CText`: C strings and `isspace`.
- `Stdio`: a `FILE` as the text still to be read, with `getc` and the
  `fscanf` directives the readers use.
- `Evdev`: event codes, `input_absinfo`, a libevdev profile and a uinput
  device.
- `ConfigText`: the pieces of configuration-file syntax the three readers
  share.
- `Interruption`: the server's run flag (src/server/interruption.c).

Where the C code updates a structure in place, the model is a class. Its
methods are proved against a pure function of the old state:
`(r, p.State()) == Spec(old(p.State()), ...)`. The properties the program
promises are proved as lemmas about those functions.

What the C program gets from its environment becomes a parameter:

- the libevdev profile of the device: a class holding its relative and
  absolute codes;
- the virtual device: an append-only log of written events;
- a configuration file: the text still to be read;
- the client socket: a sequence of lines;
- the outcomes of `open`, `libevdev_new_from_fd`, `calloc` and uinput
  creation;
- for the conversion loop, one round per pass, each holding what the wait
  and the event read give.

The configuration readers store the result of `getc` in a `char`. The
model takes `char` to be signed, as on x86, so a 0xFF byte compares equal
to `EOF` and ends the reading. Where `char` is unsigned, that comparison
never holds and the readers would not stop at the end of the file; the
model does not cover that case.

Integers are unbounded. The model writes out 32-bit `int` arithmetic
explicitly: wrap-around on subtraction and two's-complement `abs` and
negation. For `fscanf("%d")` it follows glibc: saturation to `long`, then
truncation to `int`. A numeral beyond the range of `long` also sets `errno`
to ERANGE. That is the one `errno` value the model tracks: `Stdio.File`
keeps it as a flag that `%d` sets and never clears. The configuration
reader of src/config/parameters/parse_config_file.c clears it before each
timeout or axis line and fails with -1 when it is set after the last line.

Some of the source does not compile as written. The model reads it as
follows:

- `INVERT` is a fifth axis flag: `axis_option.c` uses it, but the flag
  enumeration lacks it.
- The parameters hold the `timeout` and `device_name_was_modified` fields
  their accessors and the client handler use.
- In `parameters.c`, `params` is read as `parameters`.
- `relabsd_parameters_parse_execution_mode` writes
  `physical_device_name`, which is read as the `physical_device_file_name`
  field.
- The filters that `config_file.c` calls are bound to those of
  `axis_filter.c`.
- `relabsd_axis_from_name` in `config.c` is bound to the name parser of
  `src/axis.c`.
- `parse_config_file.c` (line 292) skips a comment line with
  `relabsd_util_reach_next_line_or_eof`, which no file of the source
  defines. It is bound to `reach_next_line_or_eof` of `config_file.c`
  (`ConfigText.ReachNextLineOrEof`). That binding is what
  `ParseConfigFile.CommentLineSkipped` is proved against.
- In `config_file.c`, `relabsd_axis_from_name` is bound to the same
  prefix-matching parser of `src/axis.c` (`LegacyAxis.NameToEnum`).
- In `parse_axis` of `parameters.c` (line 34), `axis_index` is not
  declared and `relabsd_axis_from_name` belongs to the older axis type.
  The model reads `axis_index` as a local holding the axis that the exact
  name parser of `axis_name.c`, `relabsd_axis_parse_name`, gives
  (`AxisName.ParseName`).

## Model

| member | source | states |
|---|---|---|
| Int32.Wrap32 | src/config/parameters/parse_config_file.c:226-235 | the result is a 32-bit int, and a value already in range is kept |
| Int32.Wrap32Congruent | src/config/parameters/parse_config_file.c:226-235 | the truncation keeps the value modulo 2^32 |
| Int32.CAbs | src/device/axis/axis_filter.c:17 | for every int but INT_MIN, a non-negative result equal to the value or its opposite; INT_MIN stays negative |
| Int32.Negate | src/device/axis/axis_filter.c:114-143 | the opposite of the value, with INT_MIN wrapping to itself |
| Int32.Saturate | src/util/string.c:22 | the result is in [lo, hi], equals the value in range, and is the nearer bound outside it |
| CText.CStr | src/config/config_file.c:437-442 | the C string is the prefix of the buffer before its first NUL, contains no NUL and stops at one |
| Stdio.ScanInt | src/config/parameters/parse_config_file.c:138 | a converted value is a 32-bit int and consumes at least one character |
| Stdio.ScanIntInputFailure | src/config/parameters/parse_config_file.c:138 | `%d` fails with EOF exactly when only white space is left |
| Stdio.ScanInts | src/config/parameters/parse_config_file.c:226-235 | at most `n` values, every one a 32-bit int; EOF only with no value converted |
| Stdio.WordLength | src/config/parameters/parse_config_file.c:331-337 | a word never exceeds the width, holds no white space, and is not empty when text other than white space is left |
| Stdio.ScanWord | src/config/parameters/parse_config_file.c:331-337 | a word read is non-empty, at most the width and consumes text; EOF leaves nothing |
| Stdio.StrtolSignedDigitsThen | src/util/string.c:22 | `strtol` reads an optional minus sign and a digit run up to the first non-digit, saturating to the `long` range |
| Stdio.StrtolDecimalPrefix | src/util/string.c:22 | `strtol` reads the decimal text of an int back exactly, up to the first non-digit after it |
| Stdio.ScanDecimal | src/config/parameters/parse_config_file.c:138 | `%d` reads a number written after a blank back, leaving what follows its digits |
| Stdio.ScanNumbers | src/config/parameters/parse_config_file.c:226-235 | numbers written in decimal are read back in order, then the remaining directives go on from what follows them |
| Stdio.ScanIntFails | src/config/parameters/parse_config_file.c:226-235 | text that cannot start a number converts nothing, and EOF is returned exactly at the end of the text |
| Stdio.ScanIntFailsAfterBlank | src/config/parameters/parse_config_file.c:226-235 | the same after a blank, which `%d` skips |
| Stdio.ScanWordExact | src/config/parameters/parse_config_file.c:331-337 | a word followed by white space is read whole by a wide enough `%Ns` |
| Stdio.ScanWordCut | src/config/parameters/parse_config_file.c:331-337 | a longer word is cut after `N` characters and the rest of it stays in the file |
| Stdio.File.Getc | src/config/parameters/parse_config_file.c:52 | the next character (none at the end) and the text after it |
| Stdio.File.ReadInts | src/config/parameters/parse_config_file.c:226-235 | values, return value and text left are those `ScanInts` gives; ERANGE is set exactly when it was already set or a converted numeral lies beyond `long` (`RangeError`) |
| Stdio.DecimalInRange | src/config/parameters/parse_config_file.c:136-142 | a number written in decimal after a blank never sets ERANGE, so only the directives after it can |
| Stdio.DecimalNumeralInRange | src/util/string.c:22 | the decimal text of an `int`, whatever non-digit follows, is within the range of `long` |
| Stdio.NumeralAfterBlank | src/config/parameters/parse_config_file.c:136-142 | a first directive that converts a numeral within `long` after a blank leaves ERANGE to the directives after it |
| Stdio.File.ReadWord | src/config/parameters/parse_config_file.c:331-337 | word and text left are those `ScanWord` gives |
| StringUtil.ParseInt | src/util/string.c:11-36 | -1 (`Invalid`) exactly when the C string is empty or `strtol` leaves a character unread; -2 exactly when it is a numeral outside [min, max]; otherwise the value `strtol` read, within [min, max] |
| StringUtil.Strtol | src/util/string.c:22 | the end index never passes the text, and the value is within the range of `long` (saturated) |
| StringUtil.Numeral | src/util/string.c:22 | the numeral `strtol` reads before saturation ends within the text, and is 0 when no digit is read |
| StringUtil.LeadingSpaces | src/util/string.c:22 | the white space `strtol` skips fits in the text |
| StringUtil.LeadingSpacesSpan | src/util/string.c:22 | every skipped character is white space and the first one kept is not |
| StringUtil.DigitRun | src/util/string.c:22 | the digit run `strtol` reads fits in the text and holds only decimal digits |
| StringUtil.DigitRunStop | src/util/string.c:22 | the character after the digit run is no digit |
| StringUtil.StrtolSignedDigits | src/util/string.c:22 | an optional minus sign followed by digits is read completely, to the saturated value of those digits |
| StringUtil.DecimalStrtol | src/util/string.c:22 | `strtol` reads the decimal rendering of any 32-bit value back completely, to that value |
| StringUtil.ParseIntWhole | src/util/string.c:24-35 | a non-empty text without NUL read completely to a value in [min, max] gives status 0 and that value |
| StringUtil.DecimalRoundTrip | src/util/string.c:11-36 | round trip: the decimal rendering of any 32-bit n in [min, max] parses back to n |
| StringUtil.StrtolStopsAfterNumeral | src/util/string.c:22 | `strtol` stops at the first non-digit after a numeral |
| StringUtil.TrailingCharacterRejected | src/util/string.c:24-27 | a numeral followed by any character that is no digit (and no NUL) is rejected with -1 |
| AxisName.Index | include/relabsd/device/axis_types.h:12-23 | the enumerator's value is at most 8, and 8 exactly for UNKNOWN |
| AxisName.FromIndex | include/relabsd/device/axis_types.h:12-23 | every slot below 8 is a known axis whose value is that slot |
| AxisName.ParseName | src/device/axis/axis_name.c:18-57 | a known result prints back to the parsed name; "??" is not a name |
| AxisName.NameToString | src/device/axis/axis_name.c:59-97 | "??" exactly for UNKNOWN; every name has one or two characters |
| AxisName.ToEvdevRel | src/device/axis/axis_name.c:144-189 | REL_MAX exactly for UNKNOWN |
| AxisName.ToEvdevAbs | src/device/axis/axis_name.c:191-233 | ABS_MAX exactly for UNKNOWN |
| AxisName.FromEvdevRel | src/device/axis/axis_name.c:238-269 | a known result maps back to the given REL code |
| AxisName.FromEvdevAbs | src/device/axis/axis_name.c:271-302 | a known result maps back to the given ABS code |
| AxisName.NameAndEvdevAbsFromEvdevRel | src/device/axis/axis_name.c:99-142 | the axis is that of the REL code; for a known axis the out-parameter becomes its ABS code, otherwise it keeps its value |
| AxisName.ParseNameIffName | src/device/axis/axis_name.c:18-97 | a name parses to a known axis if and only if it is the printed name of one of the eight axes |
| AxisName.ParseNameRoundTrip | src/device/axis/axis_name.c:18-97 | parsing the printed name of a known axis gives that axis |
| AxisName.EvdevRelRoundTrip | src/device/axis/axis_name.c:144-269 | the REL code of a known axis maps back to it |
| AxisName.EvdevAbsRoundTrip | src/device/axis/axis_name.c:191-302 | the ABS code of a known axis maps back to it |
| AxisName.EvdevCodesInjective | src/device/axis/axis_name.c:144-233 | distinct axes have distinct REL codes and distinct ABS codes |
| Axis.Axis.constructor | src/device/axis/axis.c:17-23 | a new record is in the zeroed state |
| Axis.Axis.Initialize | src/device/axis/axis.c:17-23 | every field becomes zero: disabled, no option, previous value 0, not dirty, converted to X |
| Axis.Axis.ToAbsinfo | src/device/axis/axis.c:25-37 | the descriptor has value 0 and the record's min, max, fuzz, flat and resolution |
| Axis.Axis.Enable | src/device/axis/axis.c:39-45 | the record is enabled and nothing else changes |
| Axis.Axis.IsEnabled | src/device/axis/axis.c:47-53 | the record's enabled bit, as its snapshot holds it; `Enable` makes it true and `Initialize` false |
| Axis.Axis.AttributesAreDirty | src/device/axis/axis.c:55-61 | the record's dirty mark, as its snapshot holds it; `SetAttributesAreDirty` sets it |
| Axis.Axis.SetAttributesAreDirty | src/device/axis/axis.c:63-70 | the dirty mark becomes the given value, read back by `relabsd_axis_attributes_are_dirty`, and nothing else changes |
| AxisOption.OptionFlag | src/device/axis/axis_option.c:28-68 | a flag is found exactly for "direct", "real_fuzz" and "framed", and it is one of those three flags |
| AxisOption.EnableOption | src/device/axis/axis_option.c:20-71 | status 0 exactly for the three known names, and then the named flag is added to the flags; -1 leaves the record unchanged; nothing but the flags ever changes |
| AxisOption.EnableOptionFromName | src/device/axis/axis_option.c:20-71 | the status and the record afterwards are those `EnableOption` gives |
| AxisOption.EnableOptionIdempotent | src/device/axis/axis_option.c:20-71 | naming the same option twice has the effect of naming it once |
| AxisOption.DirectAndFramedBothAccepted | src/device/axis/axis_option.c:28-57 | `direct` then `framed` both succeed and both flags end up set (the conflict only warns) |
| AxisOption.OtherOptionsRejected | src/device/axis/axis_option.c:58-68 | `invert`, `not_abs` and `convert_to=...` are rejected with -1 and change nothing |
| AxisFilter.Condition | src/device/axis/axis_filter.c:27-38 | a value below min becomes min, above max becomes max, within the dead zone `flat` becomes 0, otherwise it is kept |
| AxisFilter.DirectStep | src/device/axis/axis_filter.c:11-48 | within `fuzz` of the previous value: dropped, with the previous value moved only under `real_fuzz`; otherwise the conditioned value, emitted exactly when it differs from the previous value, which it becomes |
| AxisFilter.RelToAbsStep | src/device/axis/axis_filter.c:50-109 | the delta is added to the position, saturated to `int`; `framed` clamps it to [min, max] and emits exactly on a change; without `framed` the position moves and is emitted exactly when it changed and lies in [min, max] |
| AxisFilter.NewValueStep | src/device/axis/axis_filter.c:114-143 | a disabled axis retransmits the value unchanged; `not_abs` emits the (possibly negated) value without touching the record |
| AxisFilter.DirectFilter | src/device/axis/axis_filter.c:11-48 | answer, value and new previous value are those of `DirectStep`; no other field changes |
| AxisFilter.RelToAbsFilter | src/device/axis/axis_filter.c:50-109 | answer, value and new previous value are those of `RelToAbsStep`; no other field changes |
| AxisFilter.FilterNewValue | src/device/axis/axis_filter.c:114-143 | answer, value and new previous value are those of `NewValueStep`; no other field changes |
| AxisFilter.RelToAbsRun | src/device/axis/axis_filter.c:50-109 | a run of deltas only ever changes the previous value and keeps the record valid |
| AxisFilter.FramedRunStaysInFrame | src/device/axis/axis_filter.c:71-90 | with `framed`, a position starting in [min, max] stays there whatever deltas arrive |
| AxisFilter.FramedEmissionInRange | src/device/axis/axis_filter.c:71-90 | a framed value always lies in a non-empty [min, max] |
| AxisFilter.UnframedCatchesUp | src/device/axis/axis_filter.c:91-108 | without `framed`, an out-of-range position that a delta brings back into [min, max] is emitted at once |
| AxisFilter.DirectFuzzAtMostOneEmission | src/device/axis/axis_filter.c:17-25 | after an in-range emission, a next reading within `fuzz` of it is dropped |
| AxisFilter.DirectFlatGivesZero | src/device/axis/axis_filter.c:35-38 | an in-range value inside the dead zone is emitted as exactly 0, if at all |
| Interruption.RunFlag.constructor | src/server/interruption.c:14 | the flag starts set |
| Interruption.RunFlag.Interrupt | src/server/interruption.c:16-18 | the flag is cleared |
| Parameters.InitialOptions | src/config/parameters/parameters_accessors.c:10-20 | the daemon flag is cleared and the four name fields become null; mode, argument count, axes, timeout and rename flag are kept |
| Parameters.Parameters.InitializeOptions | src/config/parameters/parameters_accessors.c:10-20 | the record afterwards is `InitialOptions` of the record before |
| Parameters.Parameters.constructor | include/relabsd/config/parameters_types.h:12-22 | a record over eight distinct axis records, every other field zero or null, is valid |
| Parameters.Parameters.GetRunAsDaemon | src/config/parameters/parameters_accessors.c:22-28 | the daemon flag of the record's snapshot |
| Parameters.Parameters.GetCommunicationNodeName | src/config/parameters/parameters_accessors.c:30-36 | the node name of the record's snapshot, `None` when none is set |
| Parameters.Parameters.GetDeviceName | src/config/parameters/parameters_accessors.c:38-44 | the device name of the record's snapshot, `None` when none is set |
| Parameters.Parameters.GetPhysicalDeviceFileName | src/config/parameters/parameters_accessors.c:46-52 | the device file name of the record's snapshot, `None` when none is set |
| Parameters.Parameters.GetExecutionMode | src/config/parameters/parameters_accessors.c:54-60 | the run mode of the record's snapshot |
| Parameters.Parameters.GetAxis | include/relabsd/config/parameters.h:75-79 | the record of axis `a` is the one in slot `Index(a)` |
| Parameters.Parameters.SetTimeout | include/relabsd/config/parameters.h:81-85 | only the timeout changes, to the given milliseconds |
| ParametersCli.Arg | src/config/parameters/parameters.c:135 | `argv[i]` is a string exactly below `argc`; `argv[argc]` is the null pointer |
| ParametersCli.FieldStep | src/config/parameters/parameters.c:45-82 | a step succeeds only after a success and when the text parses as a full-range int, which is stored in that attribute; otherwise the record is unchanged; validity is kept |
| ParametersCli.AxisDefinition | src/config/parameters/parameters.c:17-85 | -1 with nothing changed for fewer than seven arguments or an unknown axis name; only the named axis's record may change; the status is 0 or -1 |
| ParametersCli.ParseAttributes | src/config/parameters/parameters.c:45-84 | success and the record afterwards are those of the five attribute parses, stopping at the first failure |
| ParametersCli.ParseAxis | src/config/parameters/parameters.c:17-85 | the status and the eight records afterwards are those `AxisDefinition` gives |
| ParametersCli.ExecutionMode | src/config/parameters/parameters.c:90-159 | -1 exactly when fewer than three arguments are given or the selector is unknown, and then nothing changes; axes, timeout, daemon flag, device name and configuration file are never touched |
| ParametersCli.ParseExecutionMode | src/config/parameters/parameters.c:90-159 | status and record afterwards are those `ExecutionMode` gives |
| ParametersCli.ModeTable | src/config/parameters/parameters.c:106-148 | each selector's mode, the arguments it reads (3 for `-s`, 2 otherwise), and which of node name and device file it sets from `argv[2]` |
| ParametersCli.OptionKindSpellings | src/config/parameters/parameters.c:181-287 | each option kind is recognised by exactly its short and long spellings |
| ParametersCli.OptionStep | src/config/parameters/parameters.c:181-294 | corrected: one option: the loop goes on past the option and its values or stops with -1; the node name, device file, mode and argument count are never touched; a changed timeout is in [0, INT_MAX]; validity is kept |
| ParametersCli.OptionsFrom | src/config/parameters/parameters.c:179-299 | corrected: the option loop never changes the node name, the device file or the mode |
| ParametersCli.ParseOption | src/config/parameters/parameters.c:181-294 | corrected: one pass of the loop goes on at `next` or stops exactly as `OptionStep` says |
| ParametersCli.ParseTimeoutOption | src/config/parameters/parameters.c:213-247 | corrected: the timeout branch behaves as `OptionStep` says |
| ParametersCli.ParseAxisOption | src/config/parameters/parameters.c:248-270 | corrected: the axis branch behaves as `OptionStep` says |
| ParametersCli.ParseOptions | src/config/parameters/parameters.c:161-300 | corrected: the options are cleared and then read from `argv[read_argc + 1]` on: status and record are those `Options` gives, and the record stays valid |
| ParametersCli.OptionsKeepValid | src/config/parameters/parameters.c:179-295 | a timeout in [0, INT_MAX] stays in that range, and a valid record stays valid, through the whole loop |
| ParametersCli.ParseOptionsForgetsModeArguments | src/config/parameters/parameters.c:172 | after the options, the node name and device file set by the mode parser are null and the mode is kept |
| ParametersCli.UnknownOptionRejected | src/config/parameters/parameters.c:288-294 | an unknown option ends the parse with -1 and no change |
| ParametersCli.AxisDefinitionStoresValues | src/config/parameters/parameters.c:17-85 | a successful definition names a known axis and stores exactly the five parsed values; it does not enable the axis and keeps its flags and previous value |
| ParametersCli.AxisOptionListIgnored | src/config/parameters/parameters.c:17-85 | the seventh value, the option list, has no effect |
| ParametersCli.OptionStepAsWritten | src/config/parameters/parameters.c:179-295 | the loop as written moves forward after each option (`-a` by two), keeps eight axes and never touches the device file name |
| ParametersCli.AsWrittenKeepsDeviceFile | src/config/parameters/parameters.c:197-287 | the option loop as written never changes the device file name |
| ParametersCli.AxisValuesReadAsOptions | src/config/parameters/parameters.c:248-270 | as written, a valid axis definition whose `<min>` starts with a digit ends the parse with -1 |
| ParametersCli.AxisValuesSkipped | src/config/parameters/parameters.c:248-270 | corrected, a valid axis definition is followed by the option after its seven values |
| ParametersCli.MissingValueAsWritten | src/config/parameters/parameters.c:203-211 | as written, `-n` or `-f` last stores a null pointer with status 0, and `-t` last is undefined behaviour |
| ParametersCli.MissingValueRejected | src/config/parameters/parameters.c:203-287 | corrected, an option whose value is missing ends the parse with -1 and no change |
| ParametersCli.MissingValueStops | src/config/parameters/parameters.c:203-287 | corrected, the step for an option given last without its value stops with -1 |
| ParametersCli.OptionsFromStop | src/config/parameters/parameters.c:179-295 | a step that stops ends the loop with its status and record |
| ParametersCli.ArgumentCountForAsWritten | src/config/parameters/parameters.c:302-362 | as written, `-n` counts 0 values, and `-d` is no option here |
| ParametersCli.NameCountAsWritten | src/config/parameters/parameters.c:302-323 | as written, the count for `-n` disagrees with the one value the option loop reads for it |
| ParametersCli.ArgumentCount | src/config/parameters/parameters.c:302-362 | corrected, a count exists exactly for the options that take values and for `-m` |
| ParametersCli.OptionConsumesItsArguments | src/config/parameters/parameters.c:197-287 | corrected, every option the loop accepts, other than `-d`, is followed by exactly `ArgumentCount` values |
| ParseConfigFile.ReadAxisOptions | src/config/parameters/parse_config_file.c:35-125 | status 1 when a newline ends the option list and -1 at EOF or on a name longer than 64 characters; each completed name is enabled in order (the pending one only at a newline); the file is left where `ScanOptions` says |
| ParseConfigFile.EnableNext | src/config/parameters/parse_config_file.c:84-97 | enabling one more option extends the options enabled so far by that name |
| ParseConfigFile.TimeoutLine | src/config/parameters/parse_config_file.c:127-186 | status 1 or -1; the reading position only moves forward |
| ParseConfigFile.ParseTimeoutLine | src/config/parameters/parse_config_file.c:127-186 | status, parameters and file position are those `TimeoutLine` gives: -1 on EOF, no number or a negative one, otherwise the timeout is stored and 1 returned; `errno` is cleared first, so ERANGE afterwards is exactly that of this line's `%d` |
| ParseConfigFile.AxisRecordLine | src/config/parameters/parse_config_file.c:222-275 | status 1 or -1; the reading position only moves forward |
| ParseConfigFile.ParseAxisRecord | src/config/parameters/parse_config_file.c:222-275 | status, record and position are those `AxisRecordLine` gives: five numbers stored as read, fatal below five, otherwise the axis enabled and its option list read; ERANGE afterwards is exactly that of this line's five `%d` |
| ParseConfigFile.ConfigLine | src/config/parameters/parse_config_file.c:192-296 | a line after its first word keeps eight axes, only moves forward and returns -1, 0 or 1 |
| ParseConfigFile.ParseAxisLine | src/config/parameters/parse_config_file.c:192-276 | status, parameters and position are those `ConfigLine` gives for a word that is not a comment, and ERANGE is what `LineRangeError` says; the parameters stay valid |
| ParseConfigFile.ParseAxisLineOf | src/config/parameters/parse_config_file.c:222-275 | only the named axis's record changes, as `AxisRecordLine` says, and ERANGE is that of the line's numbers; the parameters stay valid |
| ParseConfigFile.ScanIntsInt32 | src/config/parameters/parse_config_file.c:226-236 | the values `fscanf` stores keep every record's fields within `int` |
| ParseConfigFile.ReadConfigLine | src/config/parameters/parse_config_file.c:283-296 | status, parameters and position are those `ConfigLine` gives, and ERANGE is what `LineRangeError` says: kept by a comment, that of the line's `%d` otherwise; the parameters stay valid |
| ParseConfigFile.ConfigFile | src/config/parameters/parse_config_file.c:323-376 | the loop over lines returns 0 or -1 |
| ParseConfigFile.ParseConfigFileOf | src/config/parameters/parse_config_file.c:301-377 | a file that could not be opened gives -1 and no change; otherwise status and parameters are those `ConfigFile` gives from a clear `errno`, and the parameters stay valid |
| ParseConfigFile.CommentLineSkipped | src/config/parameters/parse_config_file.c:290-293 | a comment line changes nothing, not even ERANGE, and reading goes on after its newline |
| ParseConfigFile.UnknownWordFatal | src/config/parameters/parse_config_file.c:203-218 | a first word that is no axis name, no comment and no timeout makes the whole file fail with -1 and no change, whatever `errno` holds |
| ParseConfigFile.ConfigFileStep | src/config/parameters/parse_config_file.c:326-370 | the first word and the line it starts decide how the file goes on: 1 continues with the ERANGE the line left, -1 ends with failure, and 0 (the file ending in the line) ends with -1 exactly when ERANGE is set |
| ParseConfigFile.AxisLineInFile | src/config/parameters/parse_config_file.c:203-275 | an axis name as first word: the rest of the line works on that axis's record, and the file goes on exactly when the line returned 1, with the ERANGE of its five numbers |
| ParseConfigFile.AxisWord | src/config/parameters/parse_config_file.c:203-275 | the line after an axis name works on that axis's record only, and only its five `%d` decide ERANGE |
| ParseConfigFile.TimeoutLineInFile | src/config/parameters/parse_config_file.c:205-214 | a first word starting with `TO` or `to` makes the line a timeout line, and the file goes on exactly when it returned 1, with the ERANGE of its number |
| ParseConfigFile.TimeoutWord | src/config/parameters/parse_config_file.c:205-214 | the line after a word starting with `TO` or `to` is read as a timeout, and only its `%d` decides ERANGE |
| ParseConfigFile.TimeoutLineSets | src/config/parameters/parse_config_file.c:138-185 | a non-negative decimal timeout is stored with status 1; a negative one is fatal and changes nothing |
| ParseConfigFile.TimeoutOverflowFatal | src/config/parameters/parse_config_file.c:323-376 | a timeout below the range of `long` is stored as 0 (saturated, then truncated) with status 1 by the timeout reader (lines 136-186), but the ERANGE it set makes the whole file fail with -1 |
| ParseConfigFile.TimeoutInRangeAccepted | src/config/parameters/parse_config_file.c:323-376 | a file holding only `TO` and a timeout in [0, INT_MAX] succeeds with exactly that timeout |
| ParseConfigFile.TimeoutMissingFatal | src/config/parameters/parse_config_file.c:138-171 | a timeout line with no number is fatal and changes nothing |
| ParseConfigFile.RecordPrefix | src/config/parameters/parse_config_file.c:226-275 | five numbers are stored, the axis enabled, and the option list read from what follows |
| ParseConfigFile.AxisRecordRead | src/config/parameters/parse_config_file.c:222-275 | five numbers and an option list ended by a newline: numbers stored, axis enabled, every named option enabled in order, status 1 and the text after the newline |
| ParseConfigFile.EofInOptionListFatal | src/config/parameters/parse_config_file.c:54-76 | an option list the file ends in is fatal; every name but the last is enabled |
| ParseConfigFile.LongOptionFatal | src/config/parameters/parse_config_file.c:50-124 | an option name longer than 64 characters is fatal; the numbers are stored and the axis enabled |
| ParseConfigFile.TooFewNumbersFatal | src/config/parameters/parse_config_file.c:262-271 | fewer than five numbers is fatal, with the numbers read so far stored |
| ConfigText.SkipLine | src/config/config_file.c:27-60 | 1 once a newline is consumed, 0 when the text ends or a 0xFF byte (read as EOF) comes first; the text left is shorter unless it was empty |
| ConfigText.SkipLineExactly | src/config/config_file.c:27-60 | a plain line and its newline are skipped with 1 and the text after it left; a plain last line gives 0 |
| ConfigText.CommentWord | src/config/config_file.c:389-394 | the first word of a line starting with `#` is a comment marker, and what follows it on the line is plain |
| ConfigText.ReachNextLineOrEof | src/config/config_file.c:27-60 | status and file position are those `SkipLine` gives |
| ConfigText.ScanOptions | src/config/config_file.c:173-235 | the option-list scan only moves forward in the text |
| ConfigText.NameAccumulates | src/config/config_file.c:219-223 | a plain piece of a name is appended to the name being read while it fits |
| ConfigText.LastName | src/config/config_file.c:207-211 | a name then a newline: the list holds that name alone, pending, and the text after the newline is left |
| ConfigText.NameThenComma | src/config/config_file.c:199-205 | a name then a comma: that name is complete and the scan goes on after the comma |
| ConfigText.LongNameStops | src/config/config_file.c:175-235 | a name of 65 characters or more stops the reader before any further name is completed |
| ConfigText.CommaStep | src/config/config_file.c:199-205 | a comma completes the name being read |
| ConfigText.ListEnds | src/config/config_file.c:207-217 | at EOF or a newline the list holds the names completed so far and the pending name |
| ConfigText.TooLongEnds | src/config/config_file.c:227-235 | a name that no longer fits ends the list as too long |
| ConfigText.JoinedScan | src/config/config_file.c:175-225 | names joined by commas are each completed in order, the last one pending |
| ConfigText.NamesThen | src/config/config_file.c:175-225 | after a blank, names joined by commas are each completed in order, the last one pending |
| ConfigText.ListToNewline | src/config/config_file.c:175-211 | names after a blank, ended by a newline, are read back exactly, and the text after the newline is left |
| ConfigText.ApplyOptions | src/device/axis/axis_option.c:20-71 | enabling a list of options only adds flags, and only `direct`, `real_fuzz` and `framed` |
| ConfigText.ApplyOptionsExactly | src/device/axis/axis_option.c:20-71 | a flag is set after the list exactly when it was set before or some name in the list names it |
| ConfigText.ApplyOptionsAppend | src/device/axis/axis_option.c:20-71 | enabling one list after another is enabling the joined list |
| ConfigText.Store | src/config/config_file.c:308-318 | the fields `fscanf` converted are stored in the order min, max, fuzz, flat, resolution, nothing else changes |
| ConfigText.ScanAxisValues | src/config/config_file.c:308-318 | the count, the file position and the stored fields are those `ScanInts` gives for five numbers |
| LegacyConfigFile.Config.constructor | src/config/config_file.c:532-540 | a configuration over eight distinct axis records |
| LegacyConfigFile.ParseOption | src/config/config_file.c:71-147 | status and record are those `EnableOption` gives for the name cut at its first NUL: `direct`, `real_fuzz` or `framed` set their flag with 0, anything else is refused with -1 and no change |
| LegacyConfigFile.OptionsStatus | src/config/config_file.c:207-235 | 1 exactly at a newline, 0 exactly at EOF, -1 exactly on an overlong name |
| LegacyConfigFile.ReadAxisOptions | src/config/config_file.c:154-236 | every option is cleared, then each name enabled in order (the pending one too at a newline or EOF); status and file position as `ScanOptions` says |
| LegacyConfigFile.ParseNext | src/config/config_file.c:199-214 | `parse_option` on the next name, result ignored: the options enabled so far grow by that name |
| LegacyConfigFile.OptionsExactlyNamed | src/config/config_file.c:171-224 | after an option list, a flag is set exactly when some name of the list names it; only `direct`, `real_fuzz` and `framed` can be set |
| LegacyConfigFile.EofEndsOptionList | src/config/config_file.c:213-217 | an option list the file ends in is complete: status 0 and every name enabled, the last one included |
| LegacyConfigFile.Atoi | src/config/config_file.c:251 | `atoi` gives a 32-bit value |
| LegacyConfigFile.TimevalAsWrittenWrong | src/config/config_file.c:267-273 | as written, from 1000 ms on the microseconds field is out of range and the delay described is longer than asked |
| LegacyConfigFile.TimevalAsWrittenExample | src/config/config_file.c:267-273 | as written, 1500 ms gives one second and 1 500 000 microseconds |
| LegacyConfigFile.MsToTimeval | src/config/config_file.c:265-273 | corrected: microseconds below one million, and seconds and microseconds together describe exactly the milliseconds asked |
| LegacyConfigFile.TimeoutOptionAsWritten | src/config/config_file.c:238-276 | as written: the timeout is enabled whatever happens; status 0 exactly when `atoi` gives at least 1, and then the seconds are the milliseconds divided by 1000 and the microseconds all the milliseconds times 1000; -1 keeps the old delay |
| LegacyConfigFile.TimeoutOption | src/config/config_file.c:238-276 | corrected: the timeout is enabled whatever happens; status 0 exactly when `atoi` gives at least 1, and then the delay is exactly that many milliseconds, with microseconds below one million; -1 keeps the old delay |
| LegacyConfigFile.TimeoutOptionAsWrittenDiffers | src/config/config_file.c:238-276 | the corrected and the as-written option give the same status and fields but the delay; from 1000 ms on, only the corrected microseconds are below one million |
| LegacyConfigFile.ParseTimeoutOption | src/config/config_file.c:238-276 | corrected: status and command-line fields are those `TimeoutOption` gives; the input file is untouched |
| LegacyConfigFile.OptionsFrom | src/config/config_file.c:572-635 | the option loop returns 0 or -1 |
| LegacyConfigFile.Options | src/config/config_file.c:542-636 | the older four-word form sets only the device name, with 0 |
| LegacyConfigFile.ParseOptions | src/config/config_file.c:542-636 | status and command-line fields are those `Options` gives; the input file is untouched |
| LegacyConfigFile.OptionsFromAcceptedPairs | src/config/config_file.c:572-635 | accepted options come in pairs of an option word and its value |
| LegacyConfigFile.OptionsFromAcceptedWords | src/config/config_file.c:572-635 | in accepted options, every other word from the first is `-n`, `--name`, `-t` or `--timeout` |
| LegacyConfigFile.AcceptedStep | src/config/config_file.c:574-620 | an accepted option is an option word followed by its value, and the rest is accepted too |
| LegacyConfigFile.TimeoutOnlyFromOption | src/config/config_file.c:570-620 | the timeout ends up enabled only if it was, or a `-t`/`--timeout` word is read |
| LegacyConfigFile.NewUsageTimeout | src/config/config_file.c:569-570 | in the newer form without a timeout word, the timeout is disabled |
| LegacyConfigFile.CheckUsage | src/config/config_file.c:516-530 | 0 exactly for at least three words, -1 otherwise |
| LegacyConfigFile.AxisRecordLine | src/config/config_file.c:305-374 | fewer than five numbers is fatal with the numbers read so far stored; with five, the axis is enabled, its position reset to 0 and only the three nameable options can be set |
| LegacyConfigFile.ParseAxisRecord | src/config/config_file.c:305-374 | status, record and position are those `AxisRecordLine` gives |
| LegacyConfigFile.AxisRecordRead | src/config/config_file.c:305-374 | five numbers and an option list ended by a newline: numbers stored, axis enabled at 0, options exactly those named, status 1 and the text after the newline |
| LegacyConfigFile.RecordPrefix | src/config/config_file.c:305-374 | five numbers are stored, the axis enabled at 0, and the option list read from what follows |
| LegacyConfigFile.ConfigLine | src/config/config_file.c:282-395 | a line after its first word keeps eight axes, only moves forward and returns -1, 0 or 1 |
| LegacyConfigFile.ParseAxisConfigurationLine | src/config/config_file.c:282-375 | status, records and position are those `ConfigLine` gives for a word that is no comment |
| LegacyConfigFile.ReadConfigLine | src/config/config_file.c:382-395 | status, records and position are those `ConfigLine` gives |
| LegacyConfigFile.ConfigFile | src/config/config_file.c:430-465 | the loop over lines returns 0 or -1 and keeps eight axes |
| LegacyConfigFile.ReadConfigFile | src/config/config_file.c:401-489 | a file that could not be opened gives -1 and no change; otherwise status and records are those `ConfigFile` gives |
| LegacyConfigFile.InitAxesConfig | src/config/config_file.c:532-540 | every axis is disabled and nothing else changes |
| LegacyConfigFile.ConfigParse | src/config/config_file.c:638-674 | fewer than three words: -1 and no change; otherwise the command-line fields are those `Options` gives, and on success the input file is `argv[1]` and the axes are those `ConfigFile` gives on the disabled axes (-1 if the file cannot be opened) |
| LegacyConfigFile.ReadInputAndAxes | src/config/config_file.c:657-673 | the input file is set, the axes disabled and the configuration file read as `ConfigFile` says; the command-line fields are untouched |
| LegacyConfigFile.DispatchAgreesWithNewValue | src/config/config_file.c:676-698 | on records without `invert` or `not_abs`, this filter is the newer `relabsd_axis_filter_new_value` |
| LegacyConfigFile.ConfigFilter | src/config/config_file.c:676-698 | an unknown axis passes the value through with 0 and no change; otherwise answer, value and previous value are those of the dispatch, and only that axis's previous value changes |
| LegacyConfigFile.GetAbsinfo | src/config/config_file.c:703-716 | the descriptor has value 0 and the axis's min, max, fuzz, flat and resolution |
| LegacyAxis.NameToEnum | src/axis.c:12-40 | the result is UNKNOWN or one of the six motion axes |
| LegacyAxis.EnumToName | src/axis.c:42-67 | each of the seven handled values has the name the newer table gives it |
| LegacyAxis.ConvertEvdevRel | src/axis.c:69-104 | the result is UNKNOWN or one of the six motion axes |
| LegacyAxis.NameToEnumFirstPrefix | src/axis.c:7-40 | a name maps to the axis at a position of the order X, Y, Z, RX, RY, RZ exactly when that axis's name starts it and no earlier one does |
| LegacyAxis.NameToEnumUnknown | src/axis.c:12-40 | UNKNOWN exactly when none of the six names starts the name |
| LegacyAxis.NameToEnumIgnoresSuffix | src/axis.c:7-40 | whatever follows an axis name, the name maps to that axis |
| LegacyAxis.NameRoundTrip | src/axis.c:12-67 | the name of each of the six axes maps back to it |
| LegacyAxis.ConvertAgreesWithNewerTable | src/axis.c:69-104 | the conversion is that of the newer table, except that REL_WHEEL and REL_MISC give UNKNOWN with the absolute code untouched |
| LegacyAxis.ConvertRoundTrip | src/axis.c:69-104 | each of the six axes is found back from its relative code, with its absolute code |
| LegacyConfig.Config.constructor | src/config.h:23-28 | a configuration over eight distinct axis records |
| LegacyConfig.AxisLine | src/config.c:84-140 | status 0 exactly when five numbers are read, else -1; the numbers read are stored either way and the axis is enabled only on success |
| LegacyConfig.ConfigLine | src/config.c:148-165 | eight axes kept, the position only moves forward, and the status is -1, 0 or 1 |
| LegacyConfig.ConfigFile | src/config.c:196-245 | the loop over lines returns 0 or -1 and keeps eight axes |
| LegacyConfig.ParseAxisConfigurationLine | src/config.c:61-141 | an unknown axis is -1 with nothing read or changed; otherwise only that axis's record changes, as `AxisLine` says |
| LegacyConfig.ReadConfigLine | src/config.c:148-165 | status, records and position are those `ConfigLine` gives |
| LegacyConfig.ReadConfigFile | src/config.c:171-246 | a file that could not be opened gives -1 and no change; otherwise status and records are those `ConfigFile` gives |
| LegacyConfig.CheckUsage | src/config.c:252-270 | the result is 0 or -1 |
| LegacyConfig.UsageAccepts | src/config.c:252-270 | usage is accepted exactly for three or four words |
| LegacyConfig.Disabled | src/config.c:272-280 | each record with its axis disabled and every other field kept |
| LegacyConfig.InitAxesConfig | src/config.c:272-280 | every axis is disabled and nothing else in the records changes |
| LegacyConfig.ConfigParse | src/config.c:282-313 | a bad usage is -1 with no change; otherwise the device name is `relabsd device` or `argv[3]`, the input file `argv[1]`, and the records those `ConfigFile` gives on the disabled records (-1 when the file cannot be opened) |
| LegacyConfig.Clamp | src/config.c:327-334 | the result is the value, the minimum or the maximum |
| LegacyConfig.ClampInRange | src/config.c:327-334 | with min <= max the result lies in the range, and it equals the value exactly when the value does |
| LegacyConfig.ClampIdempotent | src/config.c:327-334 | with min <= max, clamping twice is clamping once |
| LegacyConfig.ClampInverted | src/config.c:327-334 | with min > max the minimum wins below it and the maximum elsewhere, and a second clamp swaps them |
| LegacyConfig.Filter | src/config.c:315-339 | 0 with the value untouched exactly for UNKNOWN or a disabled axis; otherwise 1 and a value in range that in-range values keep |
| LegacyConfig.ConfigFilter | src/config.c:315-339 | answer and value are those `Filter` gives on the records |
| LegacyConfig.FilterIdempotent | src/config.c:315-339 | filtering the filtered value changes nothing more, when min <= max |
| LegacyConfig.GetAbsinfo | src/config.c:341-354 | value 0 and the axis's min, max, fuzz, flat and resolution |
| LegacyConfig.AxisLineSkipsRest | src/config.c:61-165 | an axis name, five numbers and anything else on the line: numbers stored, axis enabled, the rest of the line skipped and reading goes on after the newline |
| LegacyConfig.AxisLineThenNext | src/config.c:148-165 | after its word, an axis line of five numbers gives 1, the updated record and the text after the newline |
| LegacyConfig.WordThen | src/config.c:201-203 | a word of at most two characters is the whole axis token |
| LegacyConfig.AxisNumbers | src/config.c:61-165 | after an axis word, five numbers are stored on that axis's record, enabled, and the line skipped |
| LegacyConfig.AxisLineReadsFive | src/config.c:87-140 | five decimal numbers: status 0, numbers stored, axis enabled, the text after them left |
| LegacyConfig.CommentLineSkipped | src/config.c:155-164 | a comment line changes nothing and reading goes on after its newline |
| LegacyConfig.TokenCut | src/config.c:178-203 | a word wider than two characters is cut: its first two are the token and the rest starts the line |
| LegacyConfig.GluedAxisNameFatal | src/config.c:61-141 | an axis name glued to more characters, such as `RXY 1 2 3 4 5`, makes the file fatal with nothing changed |
| Compatibility.RelCodes | src/config/parameters/compatibility.c:35 | a code is in the set exactly when the profile has it as an EV_REL code |
| Compatibility.Missing | src/config/parameters/compatibility.c:29-47 | at most one report per slot visited |
| Compatibility.MissingExactly | src/config/parameters/compatibility.c:29-47 | an axis is reported exactly when it is enabled and the device lacks its relative code |
| Compatibility.FromIndexInjective | src/config/parameters/compatibility.c:33 | two axes with the same slot are the same axis, so each slot is reported under its own name |
| Compatibility.CompatibleIff | src/config/parameters/compatibility.c:18-50 | nothing is reported exactly when every enabled axis has its relative code on the device |
| Compatibility.DisabledAxesIgnored | src/config/parameters/compatibility.c:31 | the reports depend only on which axes are enabled |
| Compatibility.NothingEnabledCompatible | src/config/parameters/compatibility.c:31 | with no axis enabled nothing is reported |
| Compatibility.AreCompatibleWith | src/config/parameters/compatibility.c:18-50 | the errors reported are `Missing` over the eight axes, and the result is 1 exactly when there is none, else 0 |
| CompatibilityTest.RelAxes | src/compatibility_test.c:28-42 | at most one line per slot visited |
| CompatibilityTest.RelAxesNonEmptyIff | src/compatibility_test.c:28-44 | something is printed exactly when the device has the relative code of one of the eight axes |
| CompatibilityTest.TestForAxisAndPrintInfo | src/compatibility_test.c:18-45 | the lines printed are `RelAxes` over the eight axes, and the result is 1 exactly when there is one |
| CompatibilityTest.VerdictIff | src/compatibility_test.c:79-92 | 2 exactly when the device has some relative axis and that of every enabled axis; 0 exactly when it has none |
| CompatibilityTest.OpenAndTest | src/compatibility_test.c:66-92 | -1 when there is no file name or the device cannot be opened; otherwise 0, 1 or 2 as `Verdict` says |
| CompatibilityTest.CompatibilityTestMain | src/compatibility_test.c:50-93 | the result is -1 whatever the device, as written; the parameters left are those of the corrected option loop (see Left out) |
| CompatibilityTest.CompatibilityTestMainKeepingDevice | src/compatibility_test.c:50-93 | corrected: the device file stored by the mode survives the options, and the result is the verdict on the opened device |
| CompatibilityTest.MainNeverOpens | src/config/parameters/parameters_accessors.c:10-20 | after the options the device file name is always null |
| CompatibilityTest.MainNeverOpensAsWritten | src/compatibility_test.c:50-93 | with the option loop as written too, the device file name is null after the options, wherever that loop is defined |
| PhysicalDevice.NextStatus | src/device/physical/physical_device.c:139-160 | the next status of the stream, -EAGAIN once it is exhausted |
| PhysicalDevice.ReadSpec | src/device/physical/physical_device.c:128-217 | 0 exactly when an event is handed over, else -1; the first read is in SYNC mode exactly when the device was late; each read consumes a status |
| PhysicalDevice.SuccessCopiesEvent | src/device/physical/physical_device.c:165-179 | a success hands over its event with 0 and keeps the lateness |
| PhysicalDevice.AgainClearsLateness | src/device/physical/physical_device.c:201-204 | -EAGAIN gives -1, clears the lateness and does not interrupt the server |
| PhysicalDevice.FailureInterrupts | src/device/physical/physical_device.c:206-215 | any other error gives -1, keeps the lateness and interrupts the server |
| PhysicalDevice.SyncThenReadsLate | src/device/physical/physical_device.c:182-198 | after a SYNC status the device reads again, and every later read of the call is in SYNC mode |
| PhysicalDevice.LateReadsInSyncMode | src/device/physical/physical_device.c:143-157 | once late, every read of a call is in SYNC mode |
| PhysicalDevice.ReadsBounded | src/device/physical/physical_device.c:182-198 | a call makes at most one read per status consumed, plus one, so the recursion ends on every finite stream |
| PhysicalDevice.PhysicalDevice.constructor | src/device/physical/physical_device.c:57-62 | a device with no handle yet and the given statuses to report |
| PhysicalDevice.PhysicalDevice.Open | src/device/physical/physical_device.c:57-105 | the device is never late afterwards; 0 exactly when `open` and `libevdev_new_from_fd` both succeed, and only then is the handle set |
| PhysicalDevice.PhysicalDevice.Read | src/device/physical/physical_device.c:128-217 | result, lateness, statuses left, reads made, event copied out and run flag are those `ReadSpec` gives; the outputs are untouched on failure; the file descriptor and libevdev handle are kept |
| PhysicalDevice.PhysicalDevice.IsLate | src/device/physical/physical_device.c:219-225 | the lateness flag: cleared by `Open`, and after a read the one `ReadSpec` gives |
| PhysicalDevice.InvertedTestRejectsCompatible | src/device/physical/physical_device.c:39-52 | as written, parameters with every axis disabled make every device with relative axes fail with -2, where the intended test gives 0 |
| PhysicalDevice.TestVerdictIff | src/device/physical/physical_device.c:26-55 | corrected: 0 exactly when the device has relative axes and, if parameters are given, the relative axis of every enabled axis |
| PhysicalDevice.AxesOf | src/device/physical/physical_device.c:29 | the axes of parameters given, none for a null pointer |
| PhysicalDevice.CompatibilityTestAsWritten | src/device/physical/physical_device.c:26-55 | as written: the result is `TestVerdictAsWritten` on the device's profile |
| PhysicalDevice.CompatibilityTest | src/device/physical/physical_device.c:26-55 | corrected: the result is `TestVerdict` on the device's profile |
| Evdev.Remaining | src/device/virtual/virtual_device.c:284 | after `n` writes, the faults left are those past the first `n` |
| Evdev.Accepted | src/device/virtual/virtual_device.c:284-298 | one write is delivered exactly when the next fault is not set |
| Evdev.Delivered | src/device/virtual/virtual_device.c:284-298 | a sequence of writes delivers at most what was written |
| Evdev.DeliveredWithoutFaults | src/device/virtual/virtual_device.c:284-298 | with no fault pending, every event written is delivered, in order |
| Evdev.DeliveredAppend | src/device/virtual/virtual_device.c:317-361 | writing two runs of events delivers what the first delivers, then what the second delivers against the faults the first left |
| Evdev.DeliveredExtends | src/device/virtual/virtual_device.c:325-348 | a log that received one run and then another is the log of writing both at once, and the faults left agree |
| Evdev.UInput.WriteEvent | src/device/virtual/virtual_device.c:284 | the write is attempted; 0 exactly when no fault is pending, and only then is the event delivered; one fault is used up |
| VirtualDevice.ReplacedExactly | src/device/virtual/virtual_device.c:25-64 | every enabled axis loses its relative code and gains its absolute code with its own descriptor; both codes of a disabled axis are left as they were |
| VirtualDevice.UntouchedBefore | src/device/virtual/virtual_device.c:32-62 | the codes of an axis are untouched by the visits of the axes before it |
| VirtualDevice.OtherCodesKept | src/device/virtual/virtual_device.c:25-64 | a code that belongs to no axis keeps its entry |
| VirtualDevice.ZeroEvents | src/device/virtual/virtual_device.c:325-343 | at most one event per axis visited, each an EV_ABS event of value 0 |
| VirtualDevice.ZeroEventsExactly | src/device/virtual/virtual_device.c:325-343 | the burst holds the absolute code of an axis exactly when that axis is enabled |
| VirtualDevice.ZeroEventsOrdered | src/device/virtual/virtual_device.c:325-343 | the burst lists the axes in slot order |
| VirtualDevice.NewName | src/device/virtual/virtual_device.c:66-147 | the new name holds no NUL and is exactly `new_name_size - 1` long, the prefix, one space and the chosen name, so the `snprintf` check always passes |
| VirtualDevice.VirtualDevice.constructor | src/device/virtual/virtual_device.c:200-216 | a device over the rewritten profile and its uinput device |
| VirtualDevice.VirtualDevice.WriteEvdevEvent | src/device/virtual/virtual_device.c:258-315 | exactly one write, with no SYN added; -1 exactly when uinput refuses it, 0 otherwise; the device receives what `Delivered` says and one fault is used up |
| VirtualDevice.VirtualDevice.SetAxesToZero | src/device/virtual/virtual_device.c:317-361 | the writes are `ZeroEvents` over the eight axes, then one SYN_REPORT whatever became of them; the device receives the writes uinput accepts (`Delivered`), and one fault is used up per write |
| VirtualDevice.VirtualDevice.ZeroAxes | src/device/virtual/virtual_device.c:325-343 | the loop writes `ZeroEvents` over the eight axes; the device receives those uinput accepts and one fault is used up per write; the parameters are unchanged |
| VirtualDevice.VirtualDevice.ZeroAxis | src/device/virtual/virtual_device.c:327-342 | one EV_ABS 0 write for an enabled axis, none otherwise, delivered unless uinput refuses it; the parameters are unchanged |
| VirtualDevice.AxisZero | src/device/virtual/virtual_device.c:327-342 | no write for a disabled axis, and for an enabled one exactly EV_ABS 0 on its absolute code |
| VirtualDevice.ReplaceRelAxes | src/device/virtual/virtual_device.c:25-64 | the code table becomes `Replaced` over the eight axes, EV_ABS is added when an axis is enabled, and the name is kept |
| VirtualDevice.RenameDevice | src/device/virtual/virtual_device.c:66-147 | -1 exactly when the allocation fails, and then the name is the prefix alone; otherwise the name is `NewName` with the device name or, without one, the profile's own; the codes are kept |
| VirtualDevice.OpenedFileClosed | src/device/virtual/virtual_device.c:164-243 | the file is opened first and closed last exactly when it could be opened; uinput is asked only when the profile could be read |
| VirtualDevice.AbsEnabledBeforeReplacement | src/device/virtual/virtual_device.c:205-207 | EV_ABS is switched on before any axis is replaced |
| VirtualDevice.PrepareProfile | src/device/virtual/virtual_device.c:200-207 | the profile is renamed, gets EV_ABS and has its enabled relative axes replaced |
| VirtualDevice.CreateFrom | src/device/virtual/virtual_device.c:152-243 | the calls made are `CreateSteps`; 0 exactly when the file opens, libevdev reads it and uinput accepts the profile; the profile is untouched when it could not be read and rewritten otherwise; on success a fresh device over it |
| ConversionMainLoop.Sink.constructor | src/server/conversion_main_loop.c:49 | a virtual device nothing was written to yet |
| ConversionMainLoop.Sink.WriteEvdevEvent | src/server/conversion_main_loop.c:35 | the event is appended to what the device received |
| ConversionMainLoop.Sink.SetAxesToZero | src/server/conversion_main_loop.c:70 | one zeroing of the axes is appended to what the device received |
| ConversionMainLoop.WaitResult | src/server/conversion_main_loop.c:111-192 | 0 exactly when nothing arrives and a timeout is armed (the flag is clear), -1 exactly on failure, 1 otherwise |
| ConversionMainLoop.RelEvent | src/server/conversion_main_loop.c:13-43 | eight records kept, each still holding ints |
| ConversionMainLoop.RelEventWrites | src/server/conversion_main_loop.c:13-43 | an unknown code is retransmitted as it is; otherwise only that axis's record changes, and the event is dropped (-1), retransmitted with the filtered value (0) or sent as the axis's EV_ABS event (1) |
| ConversionMainLoop.DisabledAxisPassesThrough | src/server/conversion_main_loop.c:27-36 | a disabled axis's event is retransmitted as it is and its record is untouched |
| ConversionMainLoop.HandleRelativeAxisEvent | src/server/conversion_main_loop.c:13-43 | what is written and the records afterwards are those `RelEvent` gives |
| ConversionMainLoop.ReadStep | src/server/conversion_main_loop.c:79-98 | eight records kept, each still holding ints |
| ConversionMainLoop.ReadStepWrites | src/server/conversion_main_loop.c:79-98 | a read writes at most one event and never zeroes the axes; a failed read writes nothing; an event other than EV_REL is retransmitted as it is |
| ConversionMainLoop.RoundStep | src/server/conversion_main_loop.c:59-99 | eight records kept, each still holding ints |
| ConversionMainLoop.RoundStepBursts | src/server/conversion_main_loop.c:61-77 | a pass zeroes the axes exactly when timeouts are enabled and the wait returns 0; a failed wait writes nothing; the flag is set exactly after a 0 and otherwise unchanged or cleared as the wait says |
| ConversionMainLoop.Run | src/server/conversion_main_loop.c:45-100 | one output list per pass, eight records kept |
| ConversionMainLoop.FlattenAppend | src/server/conversion_main_loop.c:59-99 | the outputs of one more pass come after those of the earlier passes |
| ConversionMainLoop.HandleRead | src/server/conversion_main_loop.c:79-98 | what is written and the records afterwards are those `ReadStep` gives |
| ConversionMainLoop.ConvertRound | src/server/conversion_main_loop.c:59-99 | what is written, the records and the flag afterwards are those `RoundStep` gives |
| ConversionMainLoop.ConvertInput | src/server/conversion_main_loop.c:45-100 | the flag starts set, and the device receives the outputs of `Run`, in order, and the records end as `Run` says |
| ConversionMainLoop.RunUnfold | src/server/conversion_main_loop.c:59-99 | a run is one pass followed by the run of the remaining passes |
| ConversionMainLoop.Waits | src/server/conversion_main_loop.c:63 | the wait of each pass, in order |
| ConversionMainLoop.Results | src/server/conversion_main_loop.c:63-76 | one wait result per pass |
| ConversionMainLoop.RunBursts | src/server/conversion_main_loop.c:61-77 | over a whole run, a pass zeroes the axes exactly when timeouts are enabled and its wait returns 0, and a pass whose wait fails writes nothing |
| ConversionMainLoop.ZeroAfterData | src/server/conversion_main_loop.c:57-72 | the axes are never zeroed before a first wait has reported data |
| ConversionMainLoop.ResultsAfterZero | src/server/conversion_main_loop.c:69-72 | after a wait that returns 0 the flag is set again, so no timeout is armed |
| ConversionMainLoop.ZeroesSeparatedByData | src/server/conversion_main_loop.c:61-77 | between two zeroings of the axes a wait has reported data |
| ConversionMainLoop.NoBurstWithoutTimeout | src/server/conversion_main_loop.c:61 | with timeouts disabled the axes are never zeroed |
| RemoteClient.Read | src/config/parameters/handle_remote_client_commands.c:36-68 | an argument exactly when a non-empty line is left, and then it is the line without its last byte; one line is consumed |
| RemoteClient.ClientInput.constructor | src/config/parameters/handle_remote_client_commands.c:70-80 | a session over the lines the socket will give |
| RemoteClient.ClientInput.GetNextArgument | src/config/parameters/handle_remote_client_commands.c:36-68 | 0 and the argument, or -1, and the lines left, as `Read` says |
| RemoteClient.ValueText | src/config/parameters/handle_remote_client_commands.c:253-255 | the value text after the operator is a C string |
| RemoteClient.FieldNamed | src/config/parameters/handle_remote_client_commands.c:205-239 | an attribute exactly for `min`, `max`, `fuzz`, `flat` and `resolution` |
| RemoteClient.FieldText | src/config/parameters/handle_remote_client_commands.c:205-239 | each attribute's name selects that attribute back |
| RemoteClient.MinValue | src/config/parameters/handle_remote_client_commands.c:205-229 | INT_MIN for `min` and `max`, 0 for the others |
| RemoteClient.Add | src/config/parameters/handle_remote_client_commands.c:288-313 | the sum stays an int and is the exact sum saturated to [least value, INT_MAX] |
| RemoteClient.ApplyOp | src/config/parameters/handle_remote_client_commands.c:272-314 | `=` stores the value, `+` adds it and `-` subtracts it (INT_MIN read as INT_MAX), both saturating; any other operator leaves the attribute alone |
| RemoteClient.TimeoutChange | src/config/parameters/handle_remote_client_commands.c:93-118 | on success only the timeout changes, to a value in [0, INT_MAX]; on failure nothing changes |
| RemoteClient.NameChange | src/config/parameters/handle_remote_client_commands.c:120-165 | 0 exactly when an argument is read, and then the device name is that argument and is marked as modified; otherwise nothing changes |
| RemoteClient.AxisModValue | src/config/parameters/handle_remote_client_commands.c:241-319 | status 0 exactly when a value argument is read and the number after its operator parses within [least value, INT_MAX]; then the attribute becomes `ApplyOp` of the operator, its old value and that number, the previous value is reset and the axis marked dirty; on failure nothing changes |
| RemoteClient.AxisModField | src/config/parameters/handle_remote_client_commands.c:198-319 | no argument or an attribute name other than the five fails with no change; on success the attribute changed is the one named on the line, of axis `k` only |
| RemoteClient.AxisMod | src/config/parameters/handle_remote_client_commands.c:167-319 | no argument or a name that is no axis fails with no change; on success only the axis named on the first line changes, in one attribute, with its previous value reset and the axis marked dirty |
| RemoteClient.Flip | src/config/parameters/handle_remote_client_commands.c:357-376 | exactly the one flag switches |
| RemoteClient.ToggleOption | src/config/parameters/handle_remote_client_commands.c:357-401 | accepted exactly for the six option names and `convert_to=…`; only the flags and the enabled bit may change, and the previous value is reset |
| RemoteClient.OptionToggleNamed | src/config/parameters/handle_remote_client_commands.c:350-403 | status 0 exactly when an option argument is read and `ToggleOption` knows it; then axis `k` becomes the toggled record and nothing else changes; an unknown option gives -1 with no change |
| RemoteClient.OptionToggle | src/config/parameters/handle_remote_client_commands.c:322-403 | status 0 exactly when the first line names an axis and the second an option `ToggleOption` knows; then that axis becomes the toggled record and nothing else changes; any failure changes nothing |
| RemoteClient.Handler | src/config/parameters/handle_remote_client_commands.c:433-481 | an unknown command fails with no change; any handler that fails leaves the parameters as they were |
| RemoteClient.Command | src/config/parameters/handle_remote_client_commands.c:425-482 | the run flag is cleared exactly by `-q`/`--quit`; the result is 0 or -1 |
| RemoteClient.Inputs | src/config/parameters/handle_remote_client_commands.c:406-484 | 0 or -1, and a cleared run flag stays cleared |
| RemoteClient.HandleTimeoutChange | src/config/parameters/handle_remote_client_commands.c:93-118 | status, parameters and lines left are those `TimeoutChange` gives |
| RemoteClient.HandleNameChange | src/config/parameters/handle_remote_client_commands.c:120-165 | status, parameters and lines left are those `NameChange` gives |
| RemoteClient.ModifyAttribute | src/config/parameters/handle_remote_client_commands.c:272-317 | the record becomes `Modified` with the value `ApplyOp` gives |
| RemoteClient.ModifyAxisOf | src/config/parameters/handle_remote_client_commands.c:272-317 | only that axis's record changes, as `ModifyAttribute` says |
| RemoteClient.HandleAxisModValue | src/config/parameters/handle_remote_client_commands.c:241-320 | status, parameters and lines left are those `AxisModValue` gives |
| RemoteClient.HandleAxisModField | src/config/parameters/handle_remote_client_commands.c:198-320 | status, parameters and lines left are those `AxisModField` gives |
| RemoteClient.HandleAxisMod | src/config/parameters/handle_remote_client_commands.c:167-320 | status, parameters and lines left are those `AxisMod` gives |
| RemoteClient.ToggleAxisOption | src/config/parameters/handle_remote_client_commands.c:357-401 | the record becomes what `ToggleOption` gives, and an unknown option changes nothing |
| RemoteClient.ToggleOptionOf | src/config/parameters/handle_remote_client_commands.c:357-401 | only that axis's record changes, as `ToggleOption` says |
| RemoteClient.HandleOptionToggleNamed | src/config/parameters/handle_remote_client_commands.c:350-404 | status, parameters and lines left are those `OptionToggleNamed` gives |
| RemoteClient.HandleOptionToggle | src/config/parameters/handle_remote_client_commands.c:322-404 | status, parameters and lines left are those `OptionToggle` gives |
| RemoteClient.HandleCommand | src/config/parameters/handle_remote_client_commands.c:425-482 | status, parameters, run flag and lines left are those `Command` gives |
| RemoteClient.HandleInputs | src/config/parameters/handle_remote_client_commands.c:406-484 | status, parameters, run flag and lines left are those `Inputs` gives |
| RemoteClient.HandleRemoteClient | src/config/parameters/handle_remote_client_commands.c:489-504 | 0 whatever the session's outcome, with the parameters and run flag `Inputs` gives |
| RemoteClient.ReadLine | src/config/parameters/handle_remote_client_commands.c:61-65 | a line with its terminator reads as the text before it |
| RemoteClient.ToggleTwice | src/config/parameters/handle_remote_client_commands.c:357-401 | toggling the same option twice gives the axis back, with its previous value reset |
| RemoteClient.ConvertToOnlyResets | src/config/parameters/handle_remote_client_commands.c:381-389 | a `convert_to=` option is rejected by the option parser, yet the toggle succeeds and only resets the previous value |
| RemoteClient.EmptyLineEndsSession | src/config/parameters/handle_remote_client_commands.c:421-424 | a line holding only its terminator ends the session with 0 and nothing changed |
| RemoteClient.UnknownCommandAbandons | src/config/parameters/handle_remote_client_commands.c:477-482 | an unknown command ends the session with -1 and nothing changed |
| RemoteClient.QuitGoesOn | src/config/parameters/handle_remote_client_commands.c:425-432 | `--quit` clears the run flag and the session goes on with the next line |
| RemoteClient.TimeoutRoundTrip | src/config/parameters/handle_remote_client_commands.c:93-118 | `--timeout` with the decimal text of a value in [0, INT_MAX] installs exactly that value |
| RemoteClient.AxisModUnknownAxis | src/config/parameters/handle_remote_client_commands.c:185-196 | a name that is no axis fails with nothing changed |
| RemoteClient.AxisModUnknownField | src/config/parameters/handle_remote_client_commands.c:205-239 | an attribute other than the five fails with nothing changed |
| RemoteClient.AxisModValueAssign | src/config/parameters/handle_remote_client_commands.c:253-276 | `=v` with `v` in the attribute's range stores exactly `v` |
| RemoteClient.AxisModAssign | src/config/parameters/handle_remote_client_commands.c:167-320 | `--mod-axis <axis> <attribute> =<v>` stores `v` in that attribute of that axis only, resets its previous value and marks it dirty |
| RemoteClient.AxisModValueOp | src/config/parameters/handle_remote_client_commands.c:241-319 | a value argument `<op><v>` with `v` in range sets the attribute to `ApplyOp` of that operator, its old value and `v` |
| RemoteClient.AxisModOp | src/config/parameters/handle_remote_client_commands.c:167-319 | `--mod-axis <axis> <attribute> <op><v>` applies the operator to that attribute of that axis only, resets its previous value and marks it dirty |
| RemoteClient.AxisModAdd | src/config/parameters/handle_remote_client_commands.c:288-313 | `+v` adds `v` to the named attribute of the named axis only, saturating at the attribute's least value and at INT_MAX |
| RemoteClient.AxisModSub | src/config/parameters/handle_remote_client_commands.c:278-313 | `-v` subtracts `v` (-INT_MIN read as INT_MAX) from the named attribute of the named axis only, with the same saturation |
| RemoteClient.AxisModNamed | src/config/parameters/handle_remote_client_commands.c:178-196 | a first line holding an axis name selects that axis's record |
| RemoteClient.AxisModFieldNamed | src/config/parameters/handle_remote_client_commands.c:198-239 | a second line holding an attribute name selects that attribute |
| RemoteClient.OptionToggleUnknownAxis | src/config/parameters/handle_remote_client_commands.c:330-347 | a name that is no axis fails with nothing changed |
| RemoteClient.OptionToggleUnknownOption | src/config/parameters/handle_remote_client_commands.c:357-398 | an option other than the six names and `convert_to=` gives -1 with nothing changed |
| RemoteClient.OptionToggleKnown | src/config/parameters/handle_remote_client_commands.c:322-403 | each of the six option names toggles that option of the named axis only, with its previous value reset |
| RemoteClient.OptionToggleAxisNamed | src/config/parameters/handle_remote_client_commands.c:330-347 | a first line holding an axis name selects that axis's record |
| RemoteClient.OptionToggleNamedLine | src/config/parameters/handle_remote_client_commands.c:350-403 | the second line's option is toggled on that axis when `ToggleOption` knows it; otherwise -1 with no change |
| RemoteClient.HandlerFailureEndsSession | src/config/parameters/handle_remote_client_commands.c:433-475 | an editing command whose handler fails ends the session with -1, the parameters unchanged, and no later line read |

## Left out

- Threads, locks and sockets are left out because they are concurrency and I/O:
  - src/server/server.c: its mutex, and the start-up and shut-down around the conversion loop;
  - src/server/communication_thread.c;
  - src/server/communication_node.c;
  - the `fdopen` and the mutex in src/server/handle_client.c (the client handler is modelled as a sequential function of the lines it reads);
  - src/client.c.
- Process control and signals are left out:
  - src/server/daemon.c (`fork`, `setsid`);
  - src/main.c;
  - the copy of the conversion loop in src/server/main_loop.c;
  - the SIGINT handler and pipe of src/server/interruption.c. Only the run flag these set is modelled.
- src/config/parameters.c is an older copy of the mode and option parsing in src/config/parameters/parameters.c. That logic is modelled once.
- src/device/physical_device.c, src/input.c and src/relabsd_device.c are thin wrappers around libevdev, uinput and `select`, and are not part of this model.
- The wait with `select` before each read in src/server/conversion_main_loop.c is modelled only by its outcome: data, timeout or failure.
- Logging (the `RELABSD_*` macros, src/config/debug.c) has no effect in the model.
- Read errors that `ferror` would report, and any `errno` value but the ERANGE of `%d`, are not modelled. A file ends where its text ends.
- These accessors and clean-up functions change nothing the model tracks:
  - `relabsd_physical_device_close` and `relabsd_virtual_device_destroy`;
  - the file-descriptor and libevdev accessors;
  - the stub `relabsd_server_conversion_loop`, which returns 0.
- Memory management is not modelled: `getline` buffers, `calloc`, `free` and ownership become plain string values.
- RemoteClient.NameChange: the stored name is the argument as a C string. The source copies `size - 1` bytes into a buffer of that size, which leaves no room for the terminating NUL; that is not modelled. The failure of that `calloc` is not modelled either.
- VirtualDevice.RenameDevice: the branch taken when `snprintf` writes a different number of characters is not modelled, because `VirtualDevice.NewName` shows the count always matches.
- The comment on `relabsd_config_filter` (src/config.h:56-58) says a result of 0 leaves the value unaltered. `LegacyConfigFile.ConfigFilter` models the code of src/config/config_file.c instead. There, the `rel_to_abs` filter can return 0 after adding to the value or clamping it.
- Rebuilding the virtual device when the client marks the attributes dirty is left out, because no code in the program does it. Only the flag is set.
- `RELABSD_DEVICE_PREFIX` and `RELABSD_CONF_AXIS_CODE_SIZE` are defined in a build file that is not part of this model. They are parameters (`prefix`, `width`).
- CompatibilityTest.CompatibilityTestMain: runs the corrected option loop. Its result, -1, is the program's, and `MainNeverOpensAsWritten` shows the loop as written gives -1 too. The parameters it leaves are those of the corrected loop, though; the loop as written stops earlier after an axis definition and reads past the arguments for a trailing option.
- LegacyConfigFile.TimeoutOption: stores the corrected delay, `MsToTimeval`, where src/config/config_file.c:267-273 stores all the milliseconds as microseconds. `TimeoutOptionAsWritten` states what the program stores, and `TimeoutOptionAsWrittenDiffers` shows the two differ only there.
- LegacyConfigFile.ParseTimeoutOption: stores the corrected delay, as `TimeoutOption` does. The delay that `OptionsFrom`, `Options`, `ParseOptions`, `AcceptedStep` and `ConfigParse` leave after a timeout option is therefore the corrected one; every other field and every status are the program's.
- ConversionMainLoop.ConvertInput: the number of passes is bounded by the rounds given. The loop in the source runs until the run flag is cleared; a failed wait or a failed read only moves on to the next pass (src/server/conversion_main_loop.c:59-87).

## Findings

| source | as written | input that shows it | evidently intended | confidence | as-written member | corrected member |
|---|---|---|---|---|---|---|
| src/config/parameters/parameters.c:248-270 | after `-a` and its axis definition, `i` moves past the axis name only, so `<min>` and the other values are read as options | `-a X 0 10 0 0 0 direct` | skip the seven values of the axis definition | high, not executed | ParametersCli.AxisValuesReadAsOptions | ParametersCli.AxisValuesSkipped |
| src/config/parameters/parameters.c:203-287 | the `argc == i` guards test `i` before it is advanced to the value, so they never fire; a trailing `-n` or `-f` stores `argv[argc]` (null), and a trailing `-t` passes null to `strtol` | `-n` given last | an option missing its value is rejected | high, not executed | ParametersCli.MissingValueAsWritten | ParametersCli.MissingValueRejected |
| src/config/parameters/parameters.c:302-362 | `argument_count_for` tests `-n` twice, so the first test gives it 0 values | `-n` | 1, the one value the option loop reads | high, not executed | ParametersCli.NameCountAsWritten | ParametersCli.OptionConsumesItsArguments |
| src/config/config_file.c:267-273 | `tv_usec` is set to all the milliseconds times 1000, not to the remainder | 1500 ms gives 1 s and 1 500 000 µs | 1 s and 500 000 µs | high, not executed | LegacyConfigFile.TimevalAsWrittenExample | LegacyConfigFile.MsToTimeval |
| src/device/physical/physical_device.c:39-52 | fails with -2 when the device IS compatible with the parameters | parameters with every axis disabled, and a device with relative axes | -2 when it is not compatible | high, not executed | PhysicalDevice.InvertedTestRejectsCompatible | PhysicalDevice.TestVerdictIff |
| src/compatibility_test.c:50-93 | the device file name stored by the mode is cleared when `parse_options` initialises the options, so the open always fails and the result is -1 | `--compatibility /dev/input/event0` | the named device is opened and tested | high, not executed | CompatibilityTest.MainNeverOpens | CompatibilityTest.CompatibilityTestMainKeepingDevice |
