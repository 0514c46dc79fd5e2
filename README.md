# PowerTOP power meters and USB / runtime-PM tunables

This is a Dafny model of two parts of PowerTOP.

The first part is the **power-meter registry** (`measurement/measurement.cpp`):
- the process-wide list of meters;
- the start/end broadcast to every meter;
- the summed energy (`global_joules_consumed`) and the low-water mark
  `min_power` it maintains;
- the summed remaining battery time (`global_time_left`, built on
  `power_meter::time_left`);
- the discovery of meters from `/sys/class/power_supply` or, failing that,
  `/proc/acpi/battery`, and the explicitly named Extech meter.

The second part is the **USB autosuspend and runtime-PM tunables**
(`src/tuning/tuningusb.cpp`, `src/tuning/runtime.cpp`):
- the description each tunable is built with, including the relabelling
  of PCI devices through their hexadecimal vendor and device IDs;
- the two shell scripts (`toggle_good`, `toggle_bad`) built from the
  device's sysfs path;
- the good/bad probe of `power/control`;
- the toggle and the toggle script;
- the two discovery callbacks that file a new tunable into
  `all_tunables` or `all_untunables`.

Modules:
- `Wrappers` (`wrappers.dfy`): `Option`, which stands for a C pointer
  that may be NULL.
- `Text` (`text.dfy`): the C library behaviour the code relies on, on
  Dafny strings:
  - `strstr` (`Contains`);
  - `sprintf` with `%s` conversions (`Format`, and the lemmas
    `Format1`/`Format2`/`Format3` that evaluate it on a template);
  - `stoul(s, NULL, 16)` (`HexValue`, `StoulAccepts`);
  - printf's `%x` (`HexOf`), used to state the round trip between
    them.
- `Measurement` (`measurement.dfy`): meters as values, and what they
  report at each aggregation call as an input to that call. The class
  `Registry` holds `power_meters`, `min_power` and the log of
  start/end calls. Its methods are the source's loops, each proved
  against a specification function (`SumJoules`, `SumTimeLeft`,
  `Broadcast`, `SupplyMeters`, …).
- `Tunables` (`tunable.dfy`): what both tunable kinds share:
  - the udev `Device`, whose sysfs attributes can be written;
  - the `Tunable` object, whose description and scripts are fixed at
    construction;
  - the `Catalogs` (`all_tunables`, `all_untunables`);
  - the probe, the toggle, and a reading of a script back into the
    sysfs write it stands for.
- `TuningUsb` (`tuningusb.dfy`) and `RuntimeTuning` (`runtime.dfy`):
  the description each constructor writes, and the discovery callback.

`usb_tunable` and `runtime_tunable` are modelled as one `Tunable` class.
Their `good_bad`, `toggle` and `toggle_script` are identical line for line
(`tuningusb.cpp:62-77` and `runtime.cpp:73-88`), and so are their script
formats. What differs is the description: each callback builds it with
its own file's function.

Where documented behaviour and the code differ, the model follows the
code:
- `power_supply_callback` tests for the substring `POWER_SUPPLY_STATUS`
  twice (`measurement.cpp:132`) and never looks at the status value. So
  every supply whose uevent file has a status line becomes a meter, a
  charging battery included. It is not only the discharging ones
  (`AnyStatusIsRegistered`).
- The runtime constructor reads the PCI IDs with `std::stoul`. It throws
  when no number can be read or the value does not fit an unsigned
  long; it does not yield 0. The model makes ID text that starts with a
  hex digit and fits a precondition (`StoulAccepts`, `Describable`),
  which is what sysfs writes (`SysfsIdReadBack`).
- A PCI device whose vendor or device ID is zero keeps its sysname as
  its label (`runtime.cpp:51-54`); it is not shown by raw numeric IDs
  (`DeviceLabel`, `PciNameOnlyForNonZeroIds`).

## Model

| member | source | states |
|---|---|---|
| Measurement.TimeLeft | measurement/measurement.cpp:54-68 | below a capacity of 0.001 the remaining time is 0; otherwise the result times the rate equals the capacity |
| Measurement.SumJoulesAppend | measurement/measurement.cpp:88-91 | the summed energy of a registry split in two parts is the sum of the parts' energies |
| Measurement.SumJoulesNonNegative | measurement/measurement.cpp:88-91 | when every meter reports a non-negative energy, the total is non-negative |
| Measurement.SumTimeLeftAppend | measurement/measurement.cpp:101-104 | summed remaining times add up over the parts of a registry |
| Measurement.NextMinPower | measurement/measurement.cpp:94-95 | min_power never rises; it moves only to a total above 0.01; a total at or below 0.01 leaves it alone; a total above 0.01 and below it becomes the new value |
| Measurement.MinPowerIsLowWaterMark | measurement/measurement.cpp:94-95 | over any series of aggregations, min_power is at most its start and at most every total above the noise floor, and it is either its start or one of those totals |
| Measurement.NoiseLeavesMinPower | measurement/measurement.cpp:94-95 | totals at or below 0.01 never change min_power |
| Measurement.Broadcast | measurement/measurement.cpp:73-84 | exactly one call per meter, the i-th call to meter i, in registration order |
| Measurement.Registry.constructor | measurement/measurement.cpp:37-71 | the registry starts with no meters, min_power at 50000.0 and no calls issued |
| Measurement.Registry.StartPowerMeasurement | measurement/measurement.cpp:73-78 | start_measurement is issued once to every meter in order; the meter list is unchanged |
| Measurement.Registry.EndPowerMeasurement | measurement/measurement.cpp:79-84 | end_measurement is issued once to every meter in order; the meter list is unchanged |
| Measurement.Registry.GlobalJoulesConsumed | measurement/measurement.cpp:86-97 | the result is the sum of what every meter reports now (0 for no meters); min_power is updated as NextMinPower says and stays within (0.01, 50000] |
| Measurement.Registry.GlobalTimeLeft | measurement/measurement.cpp:99-107 | the result is the sum of every meter's current remaining time; nothing changes |
| Measurement.ScanUevent | measurement/measurement.cpp:129-134 | the flag is set exactly when some uevent line contains POWER_SUPPLY_STATUS |
| Measurement.SupplyMeter | measurement/measurement.cpp:117-144 | one power_supply meter named after the entry exactly when its uevent file opens, has a status line and the allocation succeeds; otherwise none |
| Measurement.BatteryMeter | measurement/measurement.cpp:109-115 | one ACPI meter named after the entry exactly when the allocation succeeds |
| Measurement.Registry.PowerSupplyCallback | measurement/measurement.cpp:117-144 | the meter list grows by exactly what SupplyMeter admits for the entry |
| Measurement.Registry.PowerMetersCallback | measurement/measurement.cpp:109-115 | the meter list grows by exactly what BatteryMeter admits for the entry |
| Measurement.Registry.DetectPowerMeters | measurement/measurement.cpp:146-152 | the meter list grows by the power_supply scan when that directory is readable, else by the ACPI scan when that one is, else not at all |
| Measurement.SupplyMetersFromAdmittedEntries | measurement/measurement.cpp:146-149 | the power_supply scan adds at most one meter per entry, each a power_supply meter for an entry with a status line whose allocation succeeded |
| Measurement.AdmittedEntriesBecomeMeters | measurement/measurement.cpp:146-149 | every entry with a status line whose allocation succeeds does become a meter |
| Measurement.BatteryMetersFromAllocatedEntries | measurement/measurement.cpp:150-151 | the ACPI scan adds at most one meter per entry, each an ACPI meter named after an entry whose allocation succeeded |
| Measurement.AllocatedEntriesBecomeMeters | measurement/measurement.cpp:150-151 | every ACPI entry whose allocation succeeds does become a meter |
| Measurement.ScansOneTree | measurement/measurement.cpp:146-152 | discovery never mixes the two trees, and adds nothing when neither directory is readable |
| Measurement.StatusAssignmentIsStatusLine | measurement/measurement.cpp:132 | a "POWER_SUPPLY_STATUS=<value>" line passes the status test whatever the value |
| Measurement.AnyStatusIsRegistered | measurement/measurement.cpp:129-143 | a supply whose uevent file reports any status value, Charging included, is registered once its allocation succeeds |
| Measurement.Registry.ExtechPowerMeter | measurement/measurement.cpp:154-161 | the named Extech meter is always appended |
| Tunables.Attr | src/tuning/tuningusb.cpp:37-38 | a present attribute yields its text; a missing one yields NULL |
| Tunables.Device.constructor | src/tuning/tuningusb.cpp:82 | the opened device has the given sysname, subsystem, syspath and attributes |
| Tunables.Probe | src/tuning/tuningusb.cpp:62-66 | good exactly when power/control reads "auto"; the unknown state is never reported |
| Tunables.ToggleValue | src/tuning/tuningusb.cpp:68-72 | the value written flips the probe: "on" out of the good state, "auto" into it |
| Tunables.GoodFormatPrints | src/tuning/tuningusb.cpp:53 | sprintf of the "auto" format has one conversion and prints the path between the echo head and "/power/control';" |
| Tunables.BadFormatPrints | src/tuning/tuningusb.cpp:54 | sprintf of the "on" format has one conversion and prints the path between the echo head and "/power/control';" |
| Tunables.GoodScript | src/tuning/tuningusb.cpp:53 | toggle_good is the "auto" echo into the device's power/control |
| Tunables.BadScript | src/tuning/tuningusb.cpp:54 | toggle_bad is the "on" echo into the device's power/control |
| Tunables.GoodScriptWrites | src/tuning/tuningusb.cpp:53 | toggle_good, read back by ScriptWrite, writes "auto" to exactly the device path it was built from |
| Tunables.BadScriptWrites | src/tuning/tuningusb.cpp:54 | toggle_bad, read back by ScriptWrite, writes "on" to exactly the device path it was built from |
| Tunables.ScriptsDistinguishDevices | src/tuning/tuningusb.cpp:52-54 | the two scripts always differ, and equal scripts come from equal paths |
| Tunables.Tunable.constructor | src/tuning/tuningusb.cpp:52-54 | a new tunable holds its description and device, and its two scripts address that device's own path |
| Tunables.Catalogs.constructor | src/tuning/tuningusb.cpp:90 | the catalogs that `all_tunables.push_back` and `all_untunables.push_back` extend start empty |
| Tunables.Tunable.GoodBad | src/tuning/tuningusb.cpp:62-66 | good exactly when power/control reads "auto", never unknown (runtime.cpp:73-77 is identical) |
| Tunables.Tunable.Toggle | src/tuning/tuningusb.cpp:68-72 | only power/control changes, to "on" from the good state and to "auto" otherwise, so the probe flips (runtime.cpp:79-83 is identical) |
| Tunables.Tunable.ToggleScript | src/tuning/tuningusb.cpp:74-77 | the stored script for the opposite state, which ScriptWrite reads back as the write toggle makes (runtime.cpp:85-88 is identical) |
| TuningUsb.Shown | src/tuning/tuningusb.cpp:47-49 | a present attribute prints as its text, a missing one as "(null)" |
| TuningUsb.KnownFormatPrints | src/tuning/tuningusb.cpp:41-45 | sprintf of "Autosuspend for USB device %s [%s]" prints the name, then the tag in brackets |
| TuningUsb.UnknownFormatPrints | src/tuning/tuningusb.cpp:49 | sprintf of "Autosuspend for unknown USB device %s (%s:%s)" prints the sysname, then vendor:product in parentheses |
| TuningUsb.KnownDescription | src/tuning/tuningusb.cpp:41-45 | the known-device description, which starts with the known head |
| TuningUsb.UnknownDescription | src/tuning/tuningusb.cpp:46-50 | the unknown-device description, which starts with the unknown head |
| TuningUsb.UsbDescription | src/tuning/tuningusb.cpp:36-50 | product tagged with a Linux manufacturer; else product tagged with the sysname; else a Linux manufacturer tagged with the sysname; else the unknown form with the two IDs |
| TuningUsb.UnknownExactlyWithoutIdentity | src/tuning/tuningusb.cpp:40-50 | the unknown form is used exactly when there is no product and no Linux manufacturer, and the known form exactly otherwise |
| TuningUsb.MarkerAtStartIsLinuxVendor | src/tuning/tuningusb.cpp:40 | a manufacturer starting with "Linux " passes the strstr test |
| TuningUsb.RootHubTaggedWithKernel | src/tuning/tuningusb.cpp:40-45 | a root hub is tagged with its kernel manufacturer string if it has a product, and named by it otherwise |
| TuningUsb.AddUsbCallback | src/tuning/tuningusb.cpp:79-95 | for a subtree that includes the device (udev's parent match): when no device in it lacks autosuspend support, exactly one fresh tunable for the device, with its USB description, is appended to all_tunables; otherwise, and in particular when the device itself lacks it, nothing changes; all_untunables never changes |
| RuntimeTuning.LowBits16 | src/tuning/runtime.cpp:48-49 | the uint16_t conversion keeps the value modulo 65536 |
| RuntimeTuning.PciId | src/tuning/runtime.cpp:48-49 | a parsed PCI ID is below 65536 |
| RuntimeTuning.BusLabel | src/tuning/runtime.cpp:41-50 | the pci subsystem is printed as "PCI"; any other bus by its own name |
| RuntimeTuning.DeviceLabel | src/tuning/runtime.cpp:42-55 | a PCI device with both IDs non-zero is named by the ID database; every other device by its sysname |
| RuntimeTuning.NoRuntimePmFormatPrints | src/tuning/runtime.cpp:58 | sprintf of "%s device %s has no runtime power management" prints the bus, then the device |
| RuntimeTuning.RuntimePmFormatPrints | src/tuning/runtime.cpp:60 | sprintf of "Runtime PM for %s device %s" prints the bus, then the device |
| RuntimeTuning.RuntimeDescription | src/tuning/runtime.cpp:57-60 | the "has no runtime power management" sentence without runtime PM, and the "Runtime PM for" sentence with it, both over the bus and device labels |
| RuntimeTuning.PciIdOfSysfsText | src/tuning/runtime.cpp:48-49 | an ID that sysfs printed as "0x%0*x" is accepted by stoul and read back modulo 65536 |
| RuntimeTuning.SysfsIdWidth | src/tuning/runtime.cpp:48-49 | sysfs writes a 16-bit ID as six characters, "0x" and four digits |
| RuntimeTuning.SysfsIdReadBack | src/tuning/runtime.cpp:48-49 | a 16-bit ID that sysfs printed as "0x%04x" is accepted by stoul and read back unchanged |
| RuntimeTuning.FourDigitIdsUnpadded | src/tuning/runtime.cpp:46-49 | an ID of four significant hex digits (0x1000 to 0xffff, e.g. 0x8086) appears in sysfs as "0x" and its %x digits, without padding |
| RuntimeTuning.PciNameOnlyForNonZeroIds | src/tuning/runtime.cpp:45-55 | for IDs as sysfs prints them, the database names the device exactly when both IDs are non-zero |
| RuntimeTuning.AddRuntimeCallback | src/tuning/runtime.cpp:90-102 | exactly one fresh tunable with the runtime description is appended: to all_untunables without runtime PM, to all_tunables with it; the other catalog is untouched |
| Text.Format1 | src/tuning/tuningusb.cpp:53-54 | sprintf of a one-conversion template prints the argument between the two literal pieces |
| Text.Format2 | src/tuning/tuningusb.cpp:41 | sprintf of a two-conversion template prints the arguments in order between the literal pieces |
| Text.Format3 | src/tuning/tuningusb.cpp:49 | sprintf of a three-conversion template prints the arguments in order between the literal pieces |
| Text.HexRun | src/tuning/runtime.cpp:48-49 | strtoul reads the longest run of hex digits at the front and stops at the first non-digit |
| Text.DigitsValueOfHexOf | src/tuning/runtime.cpp:48-49 | the digits printf's %x writes have the printed value |
| Text.DigitsValueLeadingZeros | src/tuning/runtime.cpp:48-49 | zero padding does not change the value read |
| Text.Hex04 | src/tuning/runtime.cpp:48-49 | "%04x" output is the "%x" digits after some number of zeros |
| Text.HexOf | src/tuning/runtime.cpp:48-49 | printf's "%x": a non-empty run of hex digits (its value is n by DigitsValueOfHexOf) |
| Text.HexOfAtLeast | src/tuning/runtime.cpp:48-49 | a number of at least 16^(k-1) has at least k hex digits |
| Text.HexOfLength | src/tuning/runtime.cpp:48-49 | a number below 16^k has at most k hex digits |
| Text.Hex04Width | src/tuning/runtime.cpp:48-49 | a 16-bit number prints under "%04x" as exactly four digits |
| Text.Hex04RoundTrip | src/tuning/runtime.cpp:48-49 | stoul in base 16 reads back any number printed as "0x%04x", and accepts it when it fits an unsigned long |
| Text.HexRoundTrip | src/tuning/runtime.cpp:48-49 | stoul in base 16 reads back any number printed as "0x" + zero padding + %x, and accepts it when it fits an unsigned long |

## Left out

- udev itself: reference counting, `udev_device_new_from_syspath` (a
  `Device` is given), and the enumeration in `add_usb_callback` (the
  attributes of the visited devices are given as `subtree`).
- `process_directory` and `process_subsystem`: the power-meter directory
  entries are given to `DetectPowerMeters` as sequences; each tunable
  callback (`AddUsbCallback`, `AddRuntimeCallback`) is given the one
  device it is called for, and the walk over the devices with a
  `power/control` attribute that calls it is not modelled.
- File system access: the `access()` checks are boolean inputs; the
  uevent file is given as its lines (None when it cannot be opened);
  `getline`'s extra empty read at end of file adds no status line and is
  not modelled.
- Allocation: `new(std::nothrow)` failure is a boolean input per entry;
  plain `new` is taken to succeed.
- The meter backends (ACPI, power_supply, Extech): what `joules_consumed`
  and `dev_capacity` report at the moment of an aggregation call is
  given to that call as one `Reading` per meter; what
  `start_measurement`/`end_measurement` do inside a backend is left to
  it, and the model records the calls issued.
- `pci_id_to_name` is the function parameter `pciName`, and
  `udevice_has_runtime_pm` the boolean `hasRuntimePm`.
- gettext `_()`: the English format strings are modelled.
- The tunable base class (`tunable.h`) is not part of this model: its
  weights (0.9, 0.4), its Good/Bad/Unknown labels and the fixed size of
  `desc`, `toggle_good` and `toggle_bad`, whose overflow by a long
  description or path is undefined behaviour.
- `add_usb_tunables` and `add_runtime_tunables` only call
  `process_subsystem` and are not modelled.
- Measurement.TimeLeft: IEEE double arithmetic is modelled on exact
  reals; a capacity of at least 0.001 with a rate of 0 (a division by
  zero in the source) is excluded by `HasRate`.
- Measurement.Registry.GlobalJoulesConsumed: the copy of the total into
  `all_results.power` is not modelled.
- Measurement.Registry.PowerSupplyCallback: requires that the uevent
  path and lines fit their 4096-byte buffers (`FitsBuffers`). A longer
  path overflows `sprintf`. A line of 4096 or more characters is cut at
  4095 characters and sets the stream's fail state, which ends the scan,
  so the lines after it are not examined.
- RuntimeTuning.PciId: requires text that starts with a hex digit and
  fits an unsigned long (`StoulAccepts`). This excludes the exception
  `stoul` throws otherwise. It also excludes leading blanks and a `+` or
  `-` sign, which `stoul` would accept ("-1" gives 0xffff after the cut
  to 16 bits) but sysfs never writes. A NULL vendor or device attribute
  ends the program and is excluded by `Describable` too.
- Tunables.ScriptWrite: reads the path back as the text between the
  quotes; the shell's quoting rules are not modelled, so a path holding a
  single quote is read back whole even though a shell would split it.
- RuntimeTuning.DeviceLabel: `pci_id_to_name` writes the name into
  `filename`, a buffer declared inside the `if (vendor && device)`
  block (`runtime.cpp:51-54`), and `sprintf` reads it after that block
  has ended (`runtime.cpp:58`, `60`). The model takes the name to be
  still readable there, although the buffer's lifetime is over and the
  read is undefined behaviour.
- Tunables.Tunable.GoodBad: requires `power/control` to be present;
  `strcmp` on the NULL that udev returns otherwise is undefined.
- Tunables.Tunable.Toggle: the write to `power/control` is taken to
  succeed; a failing `udev_device_set_sysattr_value` is not modelled.
- TuningUsb.Shown: printing a NULL `%s` as "(null)" is glibc's behaviour;
  the C standard leaves it undefined.
