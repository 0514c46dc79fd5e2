/**
 * The power-meter registry of measurement/measurement.cpp: the
 * process-wide list of meters, the broadcast of start/end, the summed
 * energy with its low-water mark `min_power`, the summed remaining time,
 * and the discovery of meters from the power_supply and ACPI battery
 * directories.
 */
module Measurement {
  import opened Wrappers
  import opened Text

  /** The backend a meter was built by. */
  datatype MeterKind = AcpiBattery | PowerSupply | Extech

  /** A registered meter: its backend and the name it was created from. */
  datatype Meter = Meter(kind: MeterKind, name: string)

  /**
   * What a meter's backend answers when it is asked, for the measurement
   * window that ended last: joules_consumed() and dev_capacity(). The
   * answers change from one window to the next, so the aggregations take
   * the current reading of every meter as an input.
   */
  datatype Reading = Reading(joules: real, capacity: real)

  /** The initial value of `min_power`, a sentinel above any real total. */
  const InitialMinPower: real := 50000.0

  /** Totals at or below this are noise and never become `min_power`. */
  const NoiseFloor: real := 0.01

  /** Below this capacity the remaining time is reported as 0. */
  const CapacityFloor: real := 0.001

  /** The key a uevent line must contain for the supply to become a meter. */
  const StatusMarker: string := "POWER_SUPPLY_STATUS"

  // ---------------------------------------------------------------------
  // One meter
  // ---------------------------------------------------------------------

  /**
   * time_left divides by the rate when the capacity is not negligible;
   * the source does not guard that division, so a zero rate there is
   * outside the model.
   */
  predicate HasRate(r: Reading) {
    r.capacity < CapacityFloor || r.joules != 0.0
  }

  /** power_meter::time_left: capacity over rate, or 0 for a near-empty capacity. */
  function TimeLeft(r: Reading): (left: real)
    requires HasRate(r)
    ensures r.capacity < CapacityFloor ==> left == 0.0
    ensures r.capacity >= CapacityFloor ==> left * r.joules == r.capacity
  {
    if r.capacity < CapacityFloor then 0.0 else r.capacity / r.joules
  }

  // ---------------------------------------------------------------------
  // Sums over the registry, in registration order
  // ---------------------------------------------------------------------

  /** The sum of joules_consumed() over the readings `rs`, added left to right. */
  function SumJoules(rs: seq<Reading>): real {
    if |rs| == 0 then 0.0 else SumJoules(rs[..|rs| - 1]) + rs[|rs| - 1].joules
  }

  predicate AllHaveRate(rs: seq<Reading>) {
    forall i :: 0 <= i < |rs| ==> HasRate(rs[i])
  }

  /** The sum of time_left() over the readings `rs`, added left to right. */
  function SumTimeLeft(rs: seq<Reading>): real
    requires AllHaveRate(rs)
  {
    if |rs| == 0 then 0.0 else SumTimeLeft(rs[..|rs| - 1]) + TimeLeft(rs[|rs| - 1])
  }

  /** The energy of a registry made of two parts is the sum of the parts' energies. */
  lemma {:induction false} SumJoulesAppend(a: seq<Reading>, b: seq<Reading>)
    ensures SumJoules(a + b) == SumJoules(a) + SumJoules(b)
    decreases |b|
  {
    if b == [] {
      assert a + b == a;
    } else {
      var ab := a + b;
      assert ab[..|ab| - 1] == a + b[..|b| - 1];
      SumJoulesAppend(a, b[..|b| - 1]);
    }
  }

  /** When every backend reports a non-negative energy, so does the total. */
  lemma {:induction false} SumJoulesNonNegative(rs: seq<Reading>)
    requires forall i :: 0 <= i < |rs| ==> rs[i].joules >= 0.0
    ensures SumJoules(rs) >= 0.0
  {
    if rs != [] {
      SumJoulesNonNegative(rs[..|rs| - 1]);
    }
  }

  /** Remaining times add up over the parts of a registry. */
  lemma {:induction false} SumTimeLeftAppend(a: seq<Reading>, b: seq<Reading>)
    requires AllHaveRate(a) && AllHaveRate(b)
    ensures AllHaveRate(a + b)
    ensures SumTimeLeft(a + b) == SumTimeLeft(a) + SumTimeLeft(b)
    decreases |b|
  {
    if b == [] {
      assert a + b == a;
    } else {
      var ab := a + b;
      assert ab[..|ab| - 1] == a + b[..|b| - 1];
      SumTimeLeftAppend(a, b[..|b| - 1]);
    }
  }

  // ---------------------------------------------------------------------
  // The min_power low-water mark
  // ---------------------------------------------------------------------

  /** The value of `min_power` after global_joules_consumed has observed `total`. */
  function NextMinPower(minPower: real, total: real): (next: real)
    ensures next <= minPower
    ensures next == minPower || (next == total && NoiseFloor < total)
    ensures total <= NoiseFloor ==> next == minPower
    ensures NoiseFloor < total < minPower ==> next == total
  {
    if total < minPower && total > NoiseFloor then total else minPower
  }

  /** `min_power` after a series of aggregation calls observed `totals`, in order. */
  function MinPowerAfter(minPower: real, totals: seq<real>): real
    decreases |totals|
  {
    if |totals| == 0 then minPower else MinPowerAfter(NextMinPower(minPower, totals[0]), totals[1..])
  }

  /**
   * Over any series of aggregation calls, `min_power` is the smallest
   * total above the noise floor, or its starting value when none was
   * smaller: it never increases, it is below every counted total, and it
   * is one of them unless it kept its starting value.
   */
  lemma {:induction false} MinPowerIsLowWaterMark(minPower: real, totals: seq<real>)
    ensures MinPowerAfter(minPower, totals) <= minPower
    ensures forall i :: 0 <= i < |totals| && NoiseFloor < totals[i] ==> MinPowerAfter(minPower, totals) <= totals[i]
    ensures MinPowerAfter(minPower, totals) == minPower
         || exists i :: 0 <= i < |totals| && NoiseFloor < totals[i] && MinPowerAfter(minPower, totals) == totals[i]
    decreases |totals|
  {
    if totals != [] {
      var next := NextMinPower(minPower, totals[0]);
      var rest := totals[1..];
      MinPowerIsLowWaterMark(next, rest);
      var r := MinPowerAfter(minPower, totals);
      assert r == MinPowerAfter(next, rest);
      forall i | 0 <= i < |totals| && NoiseFloor < totals[i]
        ensures r <= totals[i]
      {
        if i > 0 {
          assert totals[i] == rest[i - 1];
        }
      }
      if r != minPower {
        if r == next {
          assert NoiseFloor < totals[0] && r == totals[0];
        } else {
          var j :| 0 <= j < |rest| && NoiseFloor < rest[j] && r == rest[j];
          assert totals[j + 1] == rest[j];
        }
      }
    }
  }

  /** Totals at or below the noise floor never move `min_power`. */
  lemma {:induction false} NoiseLeavesMinPower(minPower: real, totals: seq<real>)
    requires forall i :: 0 <= i < |totals| ==> totals[i] <= NoiseFloor
    ensures MinPowerAfter(minPower, totals) == minPower
    decreases |totals|
  {
    if totals != [] {
      NoiseLeavesMinPower(minPower, totals[1..]);
    }
  }

  // ---------------------------------------------------------------------
  // start / end broadcast
  // ---------------------------------------------------------------------

  datatype Phase = Start | End

  /** A call of start_measurement or end_measurement on the meter at index `meter`. */
  datatype MeterCall = MeterCall(phase: Phase, meter: nat)

  /** One call of `phase` on each of `n` meters, in registration order. */
  function Broadcast(phase: Phase, n: nat): (calls: seq<MeterCall>)
    ensures |calls| == n
    ensures forall i :: 0 <= i < n ==> calls[i] == MeterCall(phase, i)
  {
    if n == 0 then [] else Broadcast(phase, n - 1) + [MeterCall(phase, n - 1)]
  }

  // ---------------------------------------------------------------------
  // Discovery inputs
  // ---------------------------------------------------------------------

  /** The lines of a text file. */
  type Lines = seq<string>

  /**
   * An entry of /sys/class/power_supply: its name, the lines of its
   * uevent file (None when the file cannot be opened), whether the
   * nothrow allocation of the meter succeeds.
   */
  datatype SupplyEntry = SupplyEntry(name: string, uevent: Option<Lines>, allocOk: bool)

  /** An entry of /proc/acpi/battery, and whether the nothrow allocation of its meter succeeds. */
  datatype BatteryEntry = BatteryEntry(name: string, allocOk: bool)

  /** The length of "/sys/class/power_supply/%s/uevent" without its "%s". */
  const UeventPathOverhead: nat := 31

  /**
   * The path fits the 4096-byte `filename` buffer, and every uevent line
   * fits the 4096-byte `line` buffer with its terminator.
   */
  predicate FitsBuffers(e: SupplyEntry) {
    && |e.name| + UeventPathOverhead < 4096
    && (e.uevent.Some? ==> forall i :: 0 <= i < |e.uevent.value| ==> |e.uevent.value[i]| < 4096)
  }

  /**
   * A uevent line that marks the supply as a meter. The source tests the
   * same substring twice, so the status value after the marker is never
   * looked at.
   */
  predicate StatusLine(line: string) {
    Contains(line, StatusMarker)
  }

  predicate HasStatusLine(lines: seq<string>) {
    exists i :: 0 <= i < |lines| && StatusLine(lines[i])
  }

  /** The uevent scan loop: sets `discharging` when some line carries the marker. */
  method ScanUevent(lines: seq<string>) returns (discharging: bool)
    ensures discharging <==> HasStatusLine(lines)
  {
    discharging := false;
    var i := 0;
    while i < |lines|
      invariant 0 <= i <= |lines|
      invariant discharging <==> exists j :: 0 <= j < i && StatusLine(lines[j])
    {
      if StatusLine(lines[i]) {
        discharging := true;
      }
      i := i + 1;
    }
  }

  /** The meters power_supply_callback adds for one entry: none or one. */
  function SupplyMeter(e: SupplyEntry): (added: seq<Meter>)
    ensures |added| <= 1
    ensures |added| == 1 <==> e.uevent.Some? && HasStatusLine(e.uevent.value) && e.allocOk
    ensures forall i :: 0 <= i < |added| ==> added[i] == Meter(PowerSupply, e.name)
  {
    match e.uevent
    case None => []
    case Some(lines) =>
      if HasStatusLine(lines) && e.allocOk then [Meter(PowerSupply, e.name)] else []
  }

  /** The meters power_meters_callback adds for one entry: none or one. */
  function BatteryMeter(e: BatteryEntry): (added: seq<Meter>)
    ensures |added| == (if e.allocOk then 1 else 0)
    ensures forall i :: 0 <= i < |added| ==> added[i] == Meter(AcpiBattery, e.name)
  {
    if e.allocOk then [Meter(AcpiBattery, e.name)] else []
  }

  /** What a scan of the power_supply directory appends, entry by entry. */
  function SupplyMeters(es: seq<SupplyEntry>): seq<Meter> {
    if |es| == 0 then [] else SupplyMeters(es[..|es| - 1]) + SupplyMeter(es[|es| - 1])
  }

  /** What a scan of the ACPI battery directory appends, entry by entry. */
  function BatteryMeters(es: seq<BatteryEntry>): seq<Meter> {
    if |es| == 0 then [] else BatteryMeters(es[..|es| - 1]) + BatteryMeter(es[|es| - 1])
  }

  /** What detect_power_meters appends: one tree or the other, never both. */
  function DetectedMeters(supplyReadable: bool, batteryReadable: bool,
                          supplies: seq<SupplyEntry>, batteries: seq<BatteryEntry>): seq<Meter>
  {
    if supplyReadable then SupplyMeters(supplies)
    else if batteryReadable then BatteryMeters(batteries)
    else []
  }

  /**
   * The power_supply scan adds only power_supply meters, at most one per
   * entry, each named after an entry that has a status line and whose
   * allocation succeeded.
   */
  lemma {:induction false} SupplyMetersFromAdmittedEntries(es: seq<SupplyEntry>)
    ensures |SupplyMeters(es)| <= |es|
    ensures forall m :: m in SupplyMeters(es) ==>
      m.kind == PowerSupply &&
      exists e :: e in es && m == Meter(PowerSupply, e.name)
                && e.uevent.Some? && HasStatusLine(e.uevent.value) && e.allocOk
  {
    if es != [] {
      var init := es[..|es| - 1];
      var last := es[|es| - 1];
      SupplyMetersFromAdmittedEntries(init);
      forall m | m in SupplyMeters(es)
        ensures m.kind == PowerSupply &&
          exists e :: e in es && m == Meter(PowerSupply, e.name)
                    && e.uevent.Some? && HasStatusLine(e.uevent.value) && e.allocOk
      {
        if m in SupplyMeters(init) {
          var e :| e in init && m == Meter(PowerSupply, e.name)
                   && e.uevent.Some? && HasStatusLine(e.uevent.value) && e.allocOk;
          assert e in es;
        } else {
          assert m in SupplyMeter(last);
          assert last in es;
        }
      }
    }
  }

  /** Every entry with a status line and a successful allocation does become a meter. */
  lemma {:induction false} AdmittedEntriesBecomeMeters(es: seq<SupplyEntry>, k: nat)
    requires k < |es|
    requires es[k].uevent.Some? && HasStatusLine(es[k].uevent.value) && es[k].allocOk
    ensures Meter(PowerSupply, es[k].name) in SupplyMeters(es)
  {
    var init := es[..|es| - 1];
    if k == |es| - 1 {
      assert SupplyMeter(es[k]) == [Meter(PowerSupply, es[k].name)];
    } else {
      assert init[k] == es[k];
      AdmittedEntriesBecomeMeters(init, k);
    }
  }

  /**
   * The ACPI battery scan adds only ACPI meters, at most one per entry,
   * each named after an entry whose allocation succeeded.
   */
  lemma {:induction false} BatteryMetersFromAllocatedEntries(es: seq<BatteryEntry>)
    ensures |BatteryMeters(es)| <= |es|
    ensures forall m :: m in BatteryMeters(es) ==>
      m.kind == AcpiBattery && exists e :: e in es && m == Meter(AcpiBattery, e.name) && e.allocOk
  {
    if es != [] {
      var init := es[..|es| - 1];
      var last := es[|es| - 1];
      BatteryMetersFromAllocatedEntries(init);
      forall m | m in BatteryMeters(es)
        ensures m.kind == AcpiBattery && exists e :: e in es && m == Meter(AcpiBattery, e.name) && e.allocOk
      {
        if m in BatteryMeters(init) {
          var e :| e in init && m == Meter(AcpiBattery, e.name) && e.allocOk;
          assert e in es;
        } else {
          assert m in BatteryMeter(last);
          assert last in es;
        }
      }
    }
  }

  /** Every ACPI entry whose allocation succeeds does become a meter. */
  lemma {:induction false} AllocatedEntriesBecomeMeters(es: seq<BatteryEntry>, k: nat)
    requires k < |es| && es[k].allocOk
    ensures Meter(AcpiBattery, es[k].name) in BatteryMeters(es)
  {
    var init := es[..|es| - 1];
    if k == |es| - 1 {
      assert BatteryMeter(es[k]) == [Meter(AcpiBattery, es[k].name)];
    } else {
      assert init[k] == es[k];
      AllocatedEntriesBecomeMeters(init, k);
    }
  }

  /**
   * detect_power_meters never scans both trees: when the power_supply
   * directory is readable, no ACPI meter is added, and otherwise no
   * power_supply meter is.
   */
  lemma ScansOneTree(supplyReadable: bool, batteryReadable: bool,
                     supplies: seq<SupplyEntry>, batteries: seq<BatteryEntry>)
    ensures supplyReadable ==> forall m :: m in DetectedMeters(supplyReadable, batteryReadable, supplies, batteries) ==> m.kind == PowerSupply
    ensures !supplyReadable ==> forall m :: m in DetectedMeters(supplyReadable, batteryReadable, supplies, batteries) ==> m.kind == AcpiBattery
    ensures !supplyReadable && !batteryReadable ==> DetectedMeters(supplyReadable, batteryReadable, supplies, batteries) == []
  {
    SupplyMetersFromAdmittedEntries(supplies);
    BatteryMetersFromAllocatedEntries(batteries);
  }

  /** A uevent line "POWER_SUPPLY_STATUS=<value>" is a status line, whatever the value. */
  lemma StatusAssignmentIsStatusLine(value: string)
    ensures StatusLine(StatusMarker + "=" + value)
  {
    var line := StatusMarker + "=" + value;
    assert line[0..|StatusMarker|] == StatusMarker;
    assert OccursAt(line, StatusMarker, 0);
  }

  /**
   * The source's status test does not look at the status value: a supply
   * whose uevent file reports any status at all, "Charging" or "Full" as
   * much as "Discharging", is registered once its allocation succeeds.
   */
  lemma AnyStatusIsRegistered(name: string, lines: Lines, k: nat, value: string)
    requires k < |lines| && lines[k] == StatusMarker + "=" + value
    ensures SupplyMeter(SupplyEntry(name, Some(lines), true)) == [Meter(PowerSupply, name)]
  {
    StatusAssignmentIsStatusLine(value);
    assert StatusLine(lines[k]);
  }

  // ---------------------------------------------------------------------
  // The registry
  // ---------------------------------------------------------------------

  /**
   * The process-wide state: `power_meters` in registration order,
   * `min_power`, and the start/end calls issued to the meters so far
   * (what those calls do is the backends' business).
   */
  class Registry {
    var meters: seq<Meter>
    var minPower: real
    var calls: seq<MeterCall>

    /** `min_power` stays between the noise floor and its sentinel start. */
    ghost predicate Valid()
      reads this
    {
      NoiseFloor < minPower <= InitialMinPower
    }

    constructor ()
      ensures Valid()
      ensures meters == [] && minPower == InitialMinPower && calls == []
    {
      meters := [];
      minPower := InitialMinPower;
      calls := [];
    }

    /** start_power_measurement: start_measurement on every meter once, in order. */
    method StartPowerMeasurement()
      modifies this`calls
      ensures calls == old(calls) + Broadcast(Start, |meters|)
      ensures meters == old(meters)
    {
      var i := 0;
      while i < |meters|
        invariant 0 <= i <= |meters|
        invariant calls == old(calls) + Broadcast(Start, i)
      {
        calls := calls + [MeterCall(Start, i)];
        i := i + 1;
      }
    }

    /** end_power_measurement: end_measurement on every meter once, in order. */
    method EndPowerMeasurement()
      modifies this`calls
      ensures calls == old(calls) + Broadcast(End, |meters|)
      ensures meters == old(meters)
    {
      var i := 0;
      while i < |meters|
        invariant 0 <= i <= |meters|
        invariant calls == old(calls) + Broadcast(End, i)
      {
        calls := calls + [MeterCall(End, i)];
        i := i + 1;
      }
    }

    /**
     * global_joules_consumed: the energy summed over all meters (0 for an
     * empty registry), with `min_power` lowered to that total when it is
     * above the noise floor and below the current mark. `readings[i]` is
     * what meter i answers now.
     */
    method GlobalJoulesConsumed(readings: seq<Reading>) returns (total: real)
      requires Valid()
      requires |readings| == |meters|
      modifies this`minPower
      ensures Valid()
      ensures total == SumJoules(readings)
      ensures meters == [] ==> total == 0.0
      ensures minPower == NextMinPower(old(minPower), total)
    {
      total := 0.0;
      var i := 0;
      while i < |meters|
        invariant 0 <= i <= |meters|
        invariant total == SumJoules(readings[..i])
      {
        assert readings[..i + 1][..i] == readings[..i];
        total := total + readings[i].joules;
        i := i + 1;
      }
      assert readings[..i] == readings;
      if total < minPower && total > NoiseFloor {
        minPower := total;
      }
    }

    /**
     * global_time_left: the remaining times summed over all meters, from
     * what each meter answers now (`readings[i]` for meter i); nothing
     * changes.
     */
    method GlobalTimeLeft(readings: seq<Reading>) returns (total: real)
      requires |readings| == |meters| && AllHaveRate(readings)
      ensures total == SumTimeLeft(readings)
    {
      total := 0.0;
      var i := 0;
      while i < |meters|
        invariant 0 <= i <= |meters|
        invariant AllHaveRate(readings[..i])
        invariant total == SumTimeLeft(readings[..i])
      {
        assert readings[..i + 1][..i] == readings[..i];
        total := total + TimeLeft(readings[i]);
        i := i + 1;
      }
      assert readings[..i] == readings;
    }

    /** power_meters_callback: an ACPI battery meter, unless its allocation fails. */
    method PowerMetersCallback(e: BatteryEntry)
      modifies this`meters
      ensures meters == old(meters) + BatteryMeter(e)
    {
      if e.allocOk {
        meters := meters + [Meter(AcpiBattery, e.name)];
      }
    }

    /**
     * power_supply_callback: nothing when the uevent file cannot be
     * opened or has no status line, nothing when the allocation fails,
     * otherwise exactly one power_supply meter.
     */
    method PowerSupplyCallback(e: SupplyEntry)
      requires FitsBuffers(e)
      modifies this`meters
      ensures meters == old(meters) + SupplyMeter(e)
    {
      if e.uevent.None? {
        return;
      }
      var discharging := ScanUevent(e.uevent.value);
      if !discharging {
        return;
      }
      if e.allocOk {
        meters := meters + [Meter(PowerSupply, e.name)];
      }
    }

    /**
     * detect_power_meters: scan the power_supply directory when it is
     * readable, otherwise the ACPI battery directory when that is.
     */
    method DetectPowerMeters(supplyReadable: bool, batteryReadable: bool,
                             supplies: seq<SupplyEntry>, batteries: seq<BatteryEntry>)
      requires forall i :: 0 <= i < |supplies| ==> FitsBuffers(supplies[i])
      modifies this`meters
      ensures meters == old(meters) + DetectedMeters(supplyReadable, batteryReadable, supplies, batteries)
    {
      if supplyReadable {
        var i := 0;
        while i < |supplies|
          invariant 0 <= i <= |supplies|
          invariant meters == old(meters) + SupplyMeters(supplies[..i])
        {
          assert supplies[..i + 1][..i] == supplies[..i];
          PowerSupplyCallback(supplies[i]);
          i := i + 1;
        }
        assert supplies[..i] == supplies;
      } else if batteryReadable {
        var i := 0;
        while i < |batteries|
          invariant 0 <= i <= |batteries|
          invariant meters == old(meters) + BatteryMeters(batteries[..i])
        {
          assert batteries[..i + 1][..i] == batteries[..i];
          PowerMetersCallback(batteries[i]);
          i := i + 1;
        }
        assert batteries[..i] == batteries;
      }
    }

    /** extech_power_meter: the explicitly named meter is always appended. */
    method ExtechPowerMeter(devnode: string)
      modifies this`meters
      ensures meters == old(meters) + [Meter(Extech, devnode)]
    {
      meters := meters + [Meter(Extech, devnode)];
    }
  }
}
