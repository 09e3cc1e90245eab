/**
 * The availability ("downtime") monitor: one business-IP probe per device
 * shaped into a result with at most one component and one alert, and the
 * batch counters over many such results. The probe is an input.
 */
module AvailabilityMonitor {
  import opened Basics
  import CoreDeviceMonitor

  /** The probe's outcome: online, offline, or an exception. */
  datatype Probe = Online | Offline | ProbeRaised

  /** One `check_device_availability` result (message text, times and raw result left out). */
  datatype Check = Check(
    success: bool,
    deviceId: int,
    availabilityStatus: string,
    components: seq<CoreDeviceMonitor.Comp>,
    alerts: seq<CoreDeviceMonitor.Alert>)

  const CheckName: Val := Str("宕机检测")

  /** `check_device_availability`; `probe` is consulted only when the device has a business IP. */
  function CheckDeviceAvailability(deviceId: int, businessIp: Val, probe: Probe): (r: Check)
    ensures r.deviceId == deviceId
    ensures !Truthy(businessIp) ==> r.success && r.availabilityStatus == "unknown" && r.components == [] && r.alerts == []
    ensures Truthy(businessIp) && probe == ProbeRaised ==>
              !r.success && r.availabilityStatus == "error" && r.components == [] && r.alerts == []
    ensures Truthy(businessIp) && probe == Online ==>
              r.success && r.availabilityStatus == "online" && r.alerts == [] &&
              r.components == [CoreDeviceMonitor.Comp(CoreDeviceMonitor.DowntimeCode, CheckName, "ok")]
    ensures Truthy(businessIp) && probe == Offline ==>
              r.success && r.availabilityStatus == "offline" &&
              r.components == [CoreDeviceMonitor.Comp(CoreDeviceMonitor.DowntimeCode, CheckName, "critical")] &&
              |r.alerts| == 1 && r.alerts[0].urgencyLevel == "critical" && r.alerts[0].healthStatus == "critical" &&
              r.alerts[0].alertSource == "availability_monitor" && r.alerts[0].deviceId == deviceId
  {
    if !Truthy(businessIp) then Check(true, deviceId, "unknown", [], [])
    else match probe
      case ProbeRaised => Check(false, deviceId, "error", [], [])
      case Online => Check(true, deviceId, "online", [CoreDeviceMonitor.Comp(CoreDeviceMonitor.DowntimeCode, CheckName, "ok")], [])
      case Offline =>
        var comp := CoreDeviceMonitor.Comp(CoreDeviceMonitor.DowntimeCode, CheckName, "critical");
        var alert := CoreDeviceMonitor.Alert(deviceId, "availability_monitor", CoreDeviceMonitor.DowntimeCode, CheckName, "critical", "critical");
        Check(true, deviceId, "offline", [comp], [alert])
  }

  /** A result never carries more than one component, nor more alerts than components. */
  lemma CheckShape(deviceId: int, businessIp: Val, probe: Probe)
    ensures var r := CheckDeviceAvailability(deviceId, businessIp, probe);
      |r.alerts| <= |r.components| <= 1 && (r.alerts != [] <==> r.availabilityStatus == "offline")
  {
  }

  // ---------------------------------------------------------------- batch

  /** What `asyncio.gather(..., return_exceptions=True)` yields for one device. */
  datatype Outcome = Raised | Returned(check: Check)

  predicate Kept(o: Outcome) {
    o.Returned? && o.check.success
  }

  predicate IsOnline(o: Outcome) {
    Kept(o) && o.check.availabilityStatus == "online"
  }

  predicate IsOffline(o: Outcome) {
    Kept(o) && o.check.availabilityStatus == "offline"
  }

  /** An exception, a failed check, or a kept check that is neither online nor offline. */
  predicate IsError(o: Outcome) {
    !Kept(o) || (o.check.availabilityStatus != "online" && o.check.availabilityStatus != "offline")
  }

  function KeptChecks(os: seq<Outcome>): (r: seq<Check>)
    ensures |r| == CountIf(os, Kept)
  {
    if os == [] then [] else (if Kept(os[0]) then [os[0].check] else []) + KeptChecks(os[1..])
  }

  function AlertTotal(cs: seq<Check>): nat {
    if cs == [] then 0 else |cs[0].alerts| + AlertTotal(cs[1..])
  }

  datatype Statistics = Statistics(
    totalDevices: nat,
    successfulChecks: nat,
    onlineDevices: nat,
    offlineDevices: nat,
    errorDevices: nat,
    totalAlerts: nat)

  lemma {:induction false} KeptChecksAppend(os: seq<Outcome>, o: Outcome)
    ensures KeptChecks(os + [o]) == KeptChecks(os) + (if Kept(o) then [o.check] else [])
  {
    if os == [] {
      assert os + [o] == [o];
      assert [o][1..] == [];
    } else {
      assert (os + [o])[1..] == os[1..] + [o];
      KeptChecksAppend(os[1..], o);
      AppendAssoc(if Kept(os[0]) then [os[0].check] else [], KeptChecks(os[1..]), if Kept(o) then [o.check] else []);
    }
  }

  lemma {:induction false} AlertTotalAppend(cs: seq<Check>, c: Check)
    ensures AlertTotal(cs + [c]) == AlertTotal(cs) + |c.alerts|
  {
    if cs == [] {
      assert cs + [c] == [c];
      assert [c][1..] == [];
    } else {
      assert (cs + [c])[1..] == cs[1..] + [c];
      AlertTotalAppend(cs[1..], c);
    }
  }

  /** `batch_check_devices_availability`'s counting loop over the gathered results. */
  method BatchCheck(results: seq<Outcome>) returns (stats: Statistics, valid: seq<Check>)
    ensures valid == KeptChecks(results)
    ensures stats == Statistics(|results|, CountIf(results, Kept), CountIf(results, IsOnline),
                                CountIf(results, IsOffline), CountIf(results, IsError), AlertTotal(valid))
  {
    var successful, online, offline, errors, alerts := 0, 0, 0, 0, 0;
    valid := [];
    var i := 0;
    while i < |results|
      invariant 0 <= i <= |results|
      invariant valid == KeptChecks(results[..i])
      invariant successful == CountIf(results[..i], Kept)
      invariant online == CountIf(results[..i], IsOnline)
      invariant offline == CountIf(results[..i], IsOffline)
      invariant errors == CountIf(results[..i], IsError)
      invariant alerts == AlertTotal(valid)
    {
      var result := results[i];
      assert results[..i + 1] == results[..i] + [result];
      KeptChecksAppend(results[..i], result);
      CountIfAppend(results[..i], result, Kept);
      CountIfAppend(results[..i], result, IsOnline);
      CountIfAppend(results[..i], result, IsOffline);
      CountIfAppend(results[..i], result, IsError);
      i := i + 1;
      if result.Raised? {
        errors := errors + 1;
        continue;
      }
      if !result.check.success {
        errors := errors + 1;
        continue;
      }
      AlertTotalAppend(valid, result.check);
      valid := valid + [result.check];
      successful := successful + 1;
      if result.check.availabilityStatus == "online" {
        online := online + 1;
      } else if result.check.availabilityStatus == "offline" {
        offline := offline + 1;
      } else {
        errors := errors + 1;
      }
      alerts := alerts + |result.check.alerts|;
    }
    assert results[..i] == results;
    stats := Statistics(|results|, successful, online, offline, errors, alerts);
  }

  /** Every outcome is counted exactly once as online, offline or error. */
  lemma {:induction false} CountersPartition(os: seq<Outcome>)
    ensures CountIf(os, IsOnline) + CountIf(os, IsOffline) + CountIf(os, IsError) == |os|
  {
    if os != [] {
      CountersPartition(os[1..]);
    }
  }

  /** A device without a business IP is a successful check that is still counted as an error. */
  lemma NoIpCountsAsError(deviceId: int)
    ensures var o := Returned(CheckDeviceAvailability(deviceId, Null, Online));
      Kept(o) && IsError(o)
  {
  }
}
