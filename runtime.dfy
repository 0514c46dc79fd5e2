/**
 * Runtime power-management tunables (src/tuning/runtime.cpp): the
 * description, with PCI devices relabelled and named through the PCI
 * ID database, and the discovery callback that files each device as
 * tunable or untunable.
 */
module RuntimeTuning {
  import opened Wrappers
  import opened Text
  import opened Tunables

  const DeviceInfix: string := " device "
  const NoRuntimePmTail: string := " has no runtime power management"
  const RuntimePmHead: string := "Runtime PM for "

  // The format strings are spelled as their literal pieces around each
  // "%s", nested to the right, the shape the sprintf lemmas of Text take;
  // an empty piece before the first or after the last "%s" is written "".

  /** "%s device %s has no runtime power management" */
  const NoRuntimePmFormat: string := "" + ("%s" + (DeviceInfix + ("%s" + NoRuntimePmTail)))
  /** "Runtime PM for %s device %s" */
  const RuntimePmFormat: string := RuntimePmHead + ("%s" + (DeviceInfix + ("%s" + "")))

  /** The conversion of an unsigned long to uint16_t: the low 16 bits. */
  function LowBits16(v: nat): (r: nat)
    ensures r < 0x1_0000
    ensures exists q: nat :: v == q * 0x1_0000 + r
  {
    assert v == (v / 0x1_0000) * 0x1_0000 + v % 0x1_0000;
    v % 0x1_0000
  }

  /** `uint16_t id = stoul(s, NULL, 16)`. */
  function PciId(s: string): (id: nat)
    requires StoulAccepts(s)
    ensures id < 0x1_0000
  {
    LowBits16(HexValue(s))
  }

  /**
   * The constructor can build the description: a PCI device has vendor
   * and device attributes that stoul accepts (otherwise std::string of a
   * NULL pointer or stoul's exception ends the program).
   */
  predicate Describable(subsystem: string, attrs: map<string, string>) {
    subsystem == "pci" ==>
      && "vendor" in attrs && StoulAccepts(attrs["vendor"])
      && "device" in attrs && StoulAccepts(attrs["device"])
  }

  /** The bus name printed in the description: "PCI" for the pci subsystem. */
  function BusLabel(subsystem: string): (bus: string)
    ensures subsystem == "pci" ==> bus == "PCI"
    ensures subsystem != "pci" ==> bus == subsystem
  {
    if subsystem == "pci" then "PCI" else subsystem
  }

  /**
   * The device name printed in the description: for a PCI device whose
   * vendor and device IDs are both non-zero, what the PCI ID database
   * (`pciName`, pci_id_to_name) gives for them; otherwise the sysname.
   */
  function DeviceLabel(subsystem: string, sysname: string, attrs: map<string, string>,
                       pciName: (nat, nat) -> string): (dev: string)
    requires Describable(subsystem, attrs)
    ensures subsystem == "pci" && PciId(attrs["vendor"]) != 0 && PciId(attrs["device"]) != 0
            ==> dev == pciName(PciId(attrs["vendor"]), PciId(attrs["device"]))
    ensures !(subsystem == "pci" && PciId(attrs["vendor"]) != 0 && PciId(attrs["device"]) != 0)
            ==> dev == sysname
  {
    if subsystem == "pci" then
      var vendor := PciId(attrs["vendor"]);
      var device := PciId(attrs["device"]);
      if vendor != 0 && device != 0 then pciName(vendor, device) else sysname
    else sysname
  }

  /** sprintf with "%s device %s has no runtime power management" writes the bus, then the device. */
  lemma NoRuntimePmFormatPrints(bus: string, dev: string)
    ensures Holes(NoRuntimePmFormat) == 2
    ensures Format(NoRuntimePmFormat, [bus, dev]) == bus + DeviceInfix + dev + NoRuntimePmTail
  {
    Format2("", bus, DeviceInfix, dev, NoRuntimePmTail);
  }

  /** sprintf with "Runtime PM for %s device %s" writes the bus, then the device. */
  lemma RuntimePmFormatPrints(bus: string, dev: string)
    ensures Holes(RuntimePmFormat) == 2
    ensures Format(RuntimePmFormat, [bus, dev]) == RuntimePmHead + bus + DeviceInfix + dev
  {
    Format2(RuntimePmHead, bus, DeviceInfix, dev, "");
  }

  /**
   * The runtime_tunable description: "<bus> device <dev> has no runtime
   * power management" without runtime PM, "Runtime PM for <bus> device
   * <dev>" with it.
   */
  function RuntimeDescription(subsystem: string, sysname: string, attrs: map<string, string>,
                              hasRuntimePm: bool, pciName: (nat, nat) -> string): (desc: string)
    requires Describable(subsystem, attrs)
    ensures var bus, dev := BusLabel(subsystem), DeviceLabel(subsystem, sysname, attrs, pciName);
      && (!hasRuntimePm ==> desc == bus + DeviceInfix + dev + NoRuntimePmTail)
      && (hasRuntimePm ==> desc == RuntimePmHead + bus + DeviceInfix + dev)
  {
    var bus := BusLabel(subsystem);
    var dev := DeviceLabel(subsystem, sysname, attrs, pciName);
    if !hasRuntimePm then
      NoRuntimePmFormatPrints(bus, dev);
      Format(NoRuntimePmFormat, [bus, dev])
    else
      RuntimePmFormatPrints(bus, dev);
      Format(RuntimePmFormat, [bus, dev])
  }

  /**
   * The IDs the constructor reads from sysfs's "0x%04x" attributes are the
   * numbers sysfs printed, cut to 16 bits.
   */
  lemma PciIdOfSysfsText(n: nat, k: nat)
    requires n < UlongLimit
    ensures StoulAccepts("0x" + Zeros(k) + HexOf(n))
    ensures PciId("0x" + Zeros(k) + HexOf(n)) == n % 0x1_0000
  {
    HexRoundTrip(n, k);
  }

  /** The text sysfs writes for a PCI vendor or device ID: "0x%04x". */
  function SysfsIdText(id: nat): string {
    "0x" + Hex04(id)
  }

  /** A 16-bit ID is printed by sysfs as six characters. */
  lemma SysfsIdWidth(id: nat)
    requires id < 0x1_0000
    ensures |SysfsIdText(id)| == 6
  {
    Hex04Width(id);
  }

  /** A 16-bit ID that sysfs printed is read back unchanged. */
  lemma SysfsIdReadBack(id: nat)
    requires id < 0x1_0000
    ensures StoulAccepts(SysfsIdText(id)) && PciId(SysfsIdText(id)) == id
  {
    var text := SysfsIdText(id);
    Hex04RoundTrip(id);
    assert HexValue(text) == id;
    assert LowBits16(id) == id;
  }

  /**
   * An ID of four significant hex digits, such as Intel's vendor ID
   * 0x8086, appears in sysfs without padding.
   */
  lemma FourDigitIdsUnpadded(id: nat)
    requires 0x1000 <= id < 0x1_0000
    ensures SysfsIdText(id) == "0x" + HexOf(id)
  {
    assert Pow16(3) == 0x1000;
    HexOfAtLeast(id, 4);
    Hex04Width(id);
  }

  /**
   * A PCI device whose IDs sysfs printed is named by the database when
   * both are non-zero, and keeps its sysname when either is zero.
   */
  lemma PciNameOnlyForNonZeroIds(sysname: string, attrs: map<string, string>, vendor: nat, device: nat,
                                 pciName: (nat, nat) -> string)
    requires vendor < 0x1_0000 && device < 0x1_0000
    requires "vendor" in attrs && attrs["vendor"] == SysfsIdText(vendor)
    requires "device" in attrs && attrs["device"] == SysfsIdText(device)
    ensures Describable("pci", attrs)
    ensures DeviceLabel("pci", sysname, attrs, pciName)
         == (if vendor != 0 && device != 0 then pciName(vendor, device) else sysname)
  {
    SysfsIdReadBack(vendor);
    SysfsIdReadBack(device);
  }

  /**
   * add_runtime_callback for the device opened from the callback's path:
   * the new tunable goes to all_untunables when the device has no runtime
   * PM and to all_tunables otherwise; the other catalog is untouched.
   * `hasRuntimePm` is udevice_has_runtime_pm for the device, and
   * `pciName` the PCI ID database.
   */
  method AddRuntimeCallback(cat: Catalogs, dev: Device, hasRuntimePm: bool, pciName: (nat, nat) -> string)
    requires Describable(dev.subsystem, dev.attrs)
    modifies cat
    ensures hasRuntimePm ==> cat.untunables == old(cat.untunables)
    ensures !hasRuntimePm ==> cat.tunables == old(cat.tunables)
    ensures var grown, before := if hasRuntimePm then cat.tunables else cat.untunables,
                                 if hasRuntimePm then old(cat.tunables) else old(cat.untunables);
      && |grown| == |before| + 1
      && grown[..|before|] == before
      && var t := grown[|before|];
         && fresh(t) && t.dev == dev && t.Valid()
         && t.desc == RuntimeDescription(dev.subsystem, dev.sysname, dev.attrs, hasRuntimePm, pciName)
  {
    var t := new Tunable(RuntimeDescription(dev.subsystem, dev.sysname, dev.attrs, hasRuntimePm, pciName), dev);
    if !hasRuntimePm {
      cat.untunables := cat.untunables + [t];
    } else {
      cat.tunables := cat.tunables + [t];
    }
  }
}
