/**
 * The current device monitor: per-component health analysis of the
 * status data the adaptors produced, alert generation, the business-IP
 * ("downtime") component, the MemorySummary fall-back alert and the
 * overall-health roll-up. The connectivity probe is an input.
 */
module CoreDeviceMonitor {
  import opened Basics
  import opened AdaptersBase
  import ComponentTypeMapper

  datatype DeviceInfo = DeviceInfo(deviceId: int, businessIp: Val)

  /** One entry of `all_components`. */
  datatype Comp = Comp(componentType: string, componentName: Val, healthStatus: string)

  /** One entry of `alerts` (message text, timestamp and raw JSON left out). */
  datatype Alert = Alert(
    deviceId: int,
    alertSource: string,
    componentType: string,
    componentName: Val,
    healthStatus: string,
    urgencyLevel: string)

  // ------------------------------------------------------------ mappings

  predicate IsLowerHealth(h: string) {
    h == "ok" || h == "warning" || h == "critical" || h == "unknown"
  }

  /** `_normalize_health_status`: the four Redfish values in lower case, else "unknown". */
  function NormalizeHealthStatus(h: Val): (r: string)
    ensures IsLowerHealth(r)
    ensures h == Str("OK") ==> r == "ok"
    ensures h == Str("Warning") ==> r == "warning"
    ensures h == Str("Critical") ==> r == "critical"
    ensures !(h in {Str("OK"), Str("Warning"), Str("Critical")}) ==> r == "unknown"
  {
    if h == Str("OK") then "ok"
    else if h == Str("Warning") then "warning"
    else if h == Str("Critical") then "critical"
    else "unknown"
  }

  /** `_health_to_score`. */
  function HealthToScore(h: Val): (n: nat)
    ensures n <= 3
    ensures n == 3 <==> h == Str("Critical")
    ensures n == 2 <==> h == Str("Warning")
    ensures n == 1 <==> h == Str("OK")
  {
    if h == Str("Critical") then 3
    else if h == Str("Warning") then 2
    else if h == Str("OK") then 1
    else 0
  }

  /** `_score_to_health`. */
  function ScoreToHealth(n: int): (r: string)
    ensures IsLowerHealth(r)
    ensures !(1 <= n <= 3) ==> r == "unknown"
  {
    if n == 3 then "critical" else if n == 2 then "warning" else if n == 1 then "ok" else "unknown"
  }

  /** Scoring and then naming a health value is the same as normalising it. */
  lemma ScoreRoundTrip(h: Val)
    ensures ScoreToHealth(HealthToScore(h)) == NormalizeHealthStatus(h)
  {
  }

  /** `_map_health_to_urgency_level`. */
  function MapHealthToUrgencyLevel(h: Val): (r: string)
    ensures r == "urgent" || r == "scheduled"
    ensures r == "urgent" <==> h == Str("Critical")
  {
    if h == Str("Critical") then "urgent" else "scheduled"
  }

  /** `_map_health_to_log_level`: unlisted values log at "info". */
  function MapHealthToLogLevel(h: Val): (r: string)
    ensures h == Str("OK") ==> r == "info"
    ensures h == Str("Warning") || h == Str("Unknown") ==> r == "warning"
    ensures h == Str("Critical") ==> r == "error"
    ensures !(h in {Str("OK"), Str("Warning"), Str("Critical"), Str("Unknown")}) ==> r == "info"
  {
    if h == Str("OK") then "info"
    else if h == Str("Warning") then "warning"
    else if h == Str("Critical") then "error"
    else if h == Str("Unknown") then "warning"
    else "info"
  }

  // ------------------------------------------------------- status lookup

  /**
   * `_get_component_status`: a truthy top-level `health_status` / `state`
   * wins, else the Status block's `Health` / `State` (default "Unknown"
   * only when the key is absent).
   */
  function GetComponentStatus(item: Item): (hs: (Val, Val))
    ensures Truthy(Get(item.attrs, "health_status")) ==> hs.0 == item.attrs["health_status"]
    ensures !Truthy(Get(item.attrs, "health_status")) ==> hs.0 == GetOr(StatusBlock(item), "Health", Str("Unknown"))
    ensures Truthy(Get(item.attrs, "state")) ==> hs.1 == item.attrs["state"]
    ensures !Truthy(Get(item.attrs, "state")) ==> hs.1 == GetOr(StatusBlock(item), "State", Str("Unknown"))
  {
    var block := StatusBlock(item);
    (Or(Get(item.attrs, "health_status"), GetOr(block, "Health", Str("Unknown"))),
     Or(Get(item.attrs, "state"), GetOr(block, "State", Str("Unknown"))))
  }

  predicate IsBad(h: Val) {
    h == Str("Warning") || h == Str("Critical")
  }

  /** A Python dict is truthy when it has at least one key. */
  predicate ItemTruthy(item: Item) {
    item.status.Some? || item.attrs != map[]
  }

  // ------------------------------------------------------------ analysers

  /** `_analyze_system_health`: always a component; an alert iff the health is Warning or Critical. */
  function AnalyzeSystemHealth(device: DeviceInfo, system: Item): (r: (Comp, Option<Alert>))
    ensures r.0 == Comp("system", Str("System"), NormalizeHealthStatus(GetComponentStatus(system).0))
    ensures r.1.Some? <==> IsBad(GetComponentStatus(system).0)
    ensures r.1.Some? ==> r.1.value.alertSource == "redfish" && r.1.value.componentType == "system" &&
                          r.1.value.healthStatus == r.0.healthStatus && r.1.value.deviceId == device.deviceId &&
                          r.1.value.urgencyLevel == MapHealthToUrgencyLevel(GetComponentStatus(system).0)
  {
    var (health, state) := GetComponentStatus(system);
    var comp := Comp("system", Str("System"), NormalizeHealthStatus(health));
    var alert := if IsBad(health)
      then Some(Alert(device.deviceId, "redfish", "system", Str("System"),
                      NormalizeHealthStatus(health), MapHealthToUrgencyLevel(health)))
      else None;
    (comp, alert)
  }

  /** The name each analyser reports; note the `get` defaults apply only to absent keys. */
  function ComponentName(kind: ListKind, a: Dict): Val {
    match kind
      case Processors => GetOr(a, "socket", GetOr(a, "id", Str("Unknown")))
      case Memory => Str(FirstTruthy([Get(a, "component_name"), Get(a, "device_locator"), Get(a, "name"), Get(a, "id")], "Unknown"))
      case _ => GetOr(a, "name", GetOr(a, "id", Str("Unknown")))
  }

  /**
   * `_analyze_processor_health` ... `_analyze_fan_health`: nothing for an
   * Absent component, else a component of the fixed kind and an alert iff
   * the raw health is Warning or Critical.
   */
  function AnalyzeComponentHealth(kind: ListKind, device: DeviceInfo, item: Item): (r: (Option<Comp>, Option<Alert>))
    ensures GetComponentStatus(item).1 == Str("Absent") ==> r.0.None? && r.1.None?
    ensures GetComponentStatus(item).1 != Str("Absent") ==>
              r.0 == Some(Comp(TypeOf(kind), ComponentName(kind, item.attrs), NormalizeHealthStatus(GetComponentStatus(item).0)))
    ensures r.1.Some? <==> GetComponentStatus(item).1 != Str("Absent") && IsBad(GetComponentStatus(item).0)
    ensures r.1.Some? ==> r.0.Some? && r.1.value.alertSource == "redfish" && r.1.value.componentType == TypeOf(kind) &&
                          r.1.value.componentName == r.0.value.componentName &&
                          r.1.value.healthStatus == r.0.value.healthStatus && r.1.value.deviceId == device.deviceId &&
                          r.1.value.urgencyLevel == MapHealthToUrgencyLevel(GetComponentStatus(item).0)
  {
    var (health, state) := GetComponentStatus(item);
    var name := ComponentName(kind, item.attrs);
    if state == Str("Absent") then (None, None)
    else
      var comp := Comp(TypeOf(kind), name, NormalizeHealthStatus(health));
      var alert := if IsBad(health)
        then Some(Alert(device.deviceId, "redfish", TypeOf(kind), name, NormalizeHealthStatus(health), MapHealthToUrgencyLevel(health)))
        else None;
      (Some(comp), alert)
  }

  /**
   * The code `to_hardware_code` gives a kind's fixed type; `_analyze_status`
   * stores every component under it (see `StoredCodes`).
   */
  function KindCode(kind: ListKind): string {
    ComponentTypeMapper.MonitorCode(TypeOf(kind))
  }

  const SystemCode := "system"
  const DowntimeCode := "downtime"
  const MemoryCode := "memory"

  /** The stored codes are what `to_hardware_code` yields, whatever the raw item. */
  lemma StoredCodes(kind: ListKind, raw: Dict)
    ensures ComponentTypeMapper.ToHardwareCode(Str(TypeOf(kind)), raw) == KindCode(kind)
    ensures ComponentTypeMapper.ToHardwareCode(Str("system"), raw) == SystemCode
    ensures ComponentTypeMapper.ToHardwareCode(Str("downtime"), raw) == DowntimeCode
    ensures ComponentTypeMapper.ToHardwareCode(Str("memory"), raw) == MemoryCode
    ensures KindCode(Processors) == "cpu" && KindCode(Memory) == "memory" && KindCode(Storage) == "storage"
    ensures KindCode(Power) == "power" && KindCode(Temperatures) == "temperature" && KindCode(Fans) == "fan"
  {
    ComponentTypeMapper.MonitorKindCode(TypeOf(kind), raw);
    ComponentTypeMapper.MonitorKindCode("system", raw);
    ComponentTypeMapper.MonitorKindCode("downtime", raw);
    ComponentTypeMapper.MonitorKindCode("memory", raw);
  }

  /** What one item adds to `all_components`. */
  function ItemComps(kind: ListKind, device: DeviceInfo, item: Item): seq<Comp> {
    var r := AnalyzeComponentHealth(kind, device, item);
    if r.0.Some? then [r.0.value.(componentType := KindCode(kind))] else []
  }

  /** What one item adds to `alerts`. */
  function ItemAlerts(kind: ListKind, device: DeviceInfo, item: Item): seq<Alert> {
    var r := AnalyzeComponentHealth(kind, device, item);
    if r.1.Some? then [r.1.value] else []
  }

  function ListComps(kind: ListKind, device: DeviceInfo, items: seq<Item>): seq<Comp> {
    if items == [] then [] else ItemComps(kind, device, items[0]) + ListComps(kind, device, items[1..])
  }

  function ListAlerts(kind: ListKind, device: DeviceInfo, items: seq<Item>): seq<Alert> {
    if items == [] then [] else ItemAlerts(kind, device, items[0]) + ListAlerts(kind, device, items[1..])
  }

  lemma {:induction false} ListAlertsBounded(kind: ListKind, device: DeviceInfo, items: seq<Item>)
    ensures |ListAlerts(kind, device, items)| <= |ListComps(kind, device, items)|
  {
    if items != [] {
      ListAlertsBounded(kind, device, items[1..]);
    }
  }

  /** Absent components contribute neither a component nor an alert. */
  lemma {:induction false} AbsentContributesNothing(kind: ListKind, device: DeviceInfo, items: seq<Item>)
    requires forall i :: 0 <= i < |items| ==> GetComponentStatus(items[i]).1 == Str("Absent")
    ensures ListComps(kind, device, items) == [] && ListAlerts(kind, device, items) == []
  {
    if items != [] {
      assert GetComponentStatus(items[0]).1 == Str("Absent");
      AbsentContributesNothing(kind, device, items[1..]);
    }
  }

  lemma {:induction false} ListCompsAppend(kind: ListKind, device: DeviceInfo, items: seq<Item>, x: Item)
    ensures ListComps(kind, device, items + [x]) == ListComps(kind, device, items) + ItemComps(kind, device, x)
  {
    if items == [] {
      assert items + [x] == [x];
      assert [x][1..] == [];
    } else {
      assert (items + [x])[1..] == items[1..] + [x];
      ListCompsAppend(kind, device, items[1..], x);
    }
  }

  lemma {:induction false} ListAlertsAppend(kind: ListKind, device: DeviceInfo, items: seq<Item>, x: Item)
    ensures ListAlerts(kind, device, items + [x]) == ListAlerts(kind, device, items) + ItemAlerts(kind, device, x)
  {
    if items == [] {
      assert items + [x] == [x];
      assert [x][1..] == [];
    } else {
      assert (items + [x])[1..] == items[1..] + [x];
      ListAlertsAppend(kind, device, items[1..], x);
    }
  }

  /** One per-component loop of `_analyze_status`. */
  method AnalyzeList(kind: ListKind, device: DeviceInfo, items: seq<Item>) returns (comps: seq<Comp>, alerts: seq<Alert>)
    ensures comps == ListComps(kind, device, items) && alerts == ListAlerts(kind, device, items)
  {
    comps, alerts := [], [];
    var i := 0;
    while i < |items|
      invariant 0 <= i <= |items|
      invariant comps == ListComps(kind, device, items[..i]) && alerts == ListAlerts(kind, device, items[..i])
    {
      var item := items[i];
      assert items[..i + 1] == items[..i] + [item];
      ListCompsAppend(kind, device, items[..i], item);
      ListAlertsAppend(kind, device, items[..i], item);
      var (comp, alert) := AnalyzeComponentHealth(kind, device, item);
      if comp.Some? {
        comps := comps + [comp.value.(componentType := KindCode(kind))];
      }
      if alert.Some? {
        alerts := alerts + [alert.value];
      }
      i := i + 1;
    }
    assert items[..i] == items;
  }

  // ------------------------------------------------- connectivity result

  const DowntimeName: Val := Str("宕机")

  /**
   * The business-IP part of `_analyze_status`. `probe` is the probe's
   * `online` flag, or None when the probe raised.
   */
  function Connectivity(device: DeviceInfo, probe: Option<bool>): (r: (seq<Comp>, seq<Alert>))
  {
    var code := DowntimeCode;
    if !Truthy(device.businessIp) then ([], [])
    else match probe
      case None => ([Comp(code, DowntimeName, "unknown")], [])
      case Some(online) =>
        var health := if online then Str("OK") else Str("Critical");
        var comp := Comp(code, DowntimeName, NormalizeHealthStatus(health));
        if online then ([comp], [])
        else ([comp], [Alert(device.deviceId, "downtime_detection", code, DowntimeName,
                             NormalizeHealthStatus(health), MapHealthToUrgencyLevel(health))])
  }

  /**
   * A downtime component exists only with a business IP; an alert only when
   * the device is offline; a failed probe gives "unknown" and no alert.
   */
  lemma ConnectivityRules(device: DeviceInfo, probe: Option<bool>)
    ensures var (cs, als) := Connectivity(device, probe);
      |cs| == (if Truthy(device.businessIp) then 1 else 0) &&
      |als| == (if Truthy(device.businessIp) && probe == Some(false) then 1 else 0) &&
      (cs != [] ==> cs[0].componentType == "downtime" && cs[0].componentName == DowntimeName) &&
      (cs != [] && probe.None? ==> cs[0].healthStatus == "unknown") &&
      (cs != [] && probe == Some(true) ==> cs[0].healthStatus == "ok") &&
      (als != [] ==> (als[0].healthStatus == "critical" && als[0].urgencyLevel == "urgent" &&
                      als[0].alertSource == "downtime_detection"))
  {
  }

  // ------------------------------------------------ MemorySummary fallback

  /** A MemorySummary dictionary that is non-empty, with its `Status` block (empty when missing or falsy). */
  datatype Summary = Summary(status: Dict)

  /** `raw_data` of the raw system dictionary, when truthy. */
  datatype RawData = RawData(memorySummary: Option<Summary>)

  /** A raw system dictionary from the client: its keys and Status, `raw_data`, `MemorySummary`. */
  datatype RawSystem = RawSystem(item: Item, rawData: Option<RawData>, memorySummary: Option<Summary>)

  /** A non-empty `system_info`: the status item, its `raw` dictionary (empty when missing) and its `memory_summary`. */
  datatype SystemInfo = SystemInfo(item: Item, raw: RawSystem, memorySummary: Option<Summary>)

  /** The status data handed to the analysis; `system` is None when missing or empty. */
  datatype StatusData = StatusData(
    system: Option<SystemInfo>,
    processors: seq<Item>,
    memory: seq<Item>,
    storage: seq<Item>,
    power: seq<Item>,
    temperatures: seq<Item>,
    fans: seq<Item>)

  const EmptyRaw: RawSystem := RawSystem(Item(None, map[]), None, None)

  function RawOf(system: Option<SystemInfo>): RawSystem {
    if system.Some? then system.value.raw else EmptyRaw
  }

  function SystemAttrs(system: Option<SystemInfo>): Dict {
    if system.Some? then system.value.item.attrs else map[]
  }

  /** `raw.Manufacturer or raw.manufacturer or system_info.manufacturer or ''`. */
  function Manufacturer(system: Option<SystemInfo>): Val {
    var raw := RawOf(system).item.attrs;
    Or(Get(raw, "Manufacturer"), Or(Get(raw, "manufacturer"), Or(Get(SystemAttrs(system), "manufacturer"), Str(""))))
  }

  predicate IsFujitsu(system: Option<SystemInfo>) {
    Manufacturer(system).Str? && Contains(Upper(Manufacturer(system).s), "FUJITSU")
  }

  /** Some memory component already reports warning or critical. */
  predicate DimmHasIssue(comps: seq<Comp>) {
    exists i :: 0 <= i < |comps| && comps[i].componentType in {"memory", "MEMORY"} &&
                comps[i].healthStatus in {"warning", "critical"}
  }

  /** `(raw_data or raw).MemorySummary or system_info.memory_summary or {}`, then its Status. */
  function SummaryStatus(system: Option<SystemInfo>): Dict {
    var raw := RawOf(system);
    var fromRaw := if raw.rawData.Some? then raw.rawData.value.memorySummary else raw.memorySummary;
    var fromSystem := if system.Some? then system.value.memorySummary else None;
    if fromRaw.Some? then fromRaw.value.status
    else if fromSystem.Some? then fromSystem.value.status
    else map[]
  }

  /** `HealthRollup` first, then `Health`. */
  function Rollup(system: Option<SystemInfo>): Val {
    var status := SummaryStatus(system);
    Or(Get(status, "HealthRollup"), Get(status, "Health"))
  }

  /** The MemorySummary fall-back: it fires only when the DIMMs look fine, the vendor is not Fujitsu and the roll-up is bad. */
  function SummaryFallback(device: DeviceInfo, system: Option<SystemInfo>, comps: seq<Comp>): (r: (seq<Comp>, seq<Alert>))
    ensures |r.0| == |r.1|
    ensures |r.0| == (if !DimmHasIssue(comps) && !IsFujitsu(system) && IsBad(Rollup(system)) then 1 else 0)
    ensures |r.1| == 1 ==> r.1[0].componentName == Str("MemorySummary") && r.1[0].alertSource == "redfish" &&
                           r.1[0].healthStatus == NormalizeHealthStatus(Rollup(system)) &&
                           r.1[0].healthStatus == r.0[0].healthStatus
  {
    var rollup := Rollup(system);
    if !DimmHasIssue(comps) && !IsFujitsu(system) && IsBad(rollup) then
      var comp := Comp(MemoryCode, Str("MemorySummary"), NormalizeHealthStatus(rollup));
      ([comp], [Alert(device.deviceId, "redfish", comp.componentType, Str("MemorySummary"), comp.healthStatus,
                      MapHealthToUrgencyLevel(rollup))])
    else ([], [])
  }

  /** The system part of `_analyze_status`. */
  function SystemPart(device: DeviceInfo, system: Option<SystemInfo>): (r: (seq<Comp>, seq<Alert>))
    ensures |r.1| <= |r.0| <= 1
  {
    match system
      case None => ([], [])
      case Some(s) =>
        var (comp, alert) := AnalyzeSystemHealth(device, s.item);
        ([comp.(componentType := SystemCode)], if alert.Some? then [alert.value] else [])
  }

  /** The part of `_analyze_status` before the MemorySummary step: connectivity, system, processors, memory. */
  function Before(device: DeviceInfo, status: StatusData, probe: Option<bool>): (seq<Comp>, seq<Alert>) {
    var (c0, a0) := Connectivity(device, probe);
    var (c1, a1) := SystemPart(device, status.system);
    (c0 + c1 + ListComps(Processors, device, status.processors) + ListComps(Memory, device, status.memory),
     a0 + a1 + ListAlerts(Processors, device, status.processors) + ListAlerts(Memory, device, status.memory))
  }

  /** The part after it: storage, power, temperatures, fans. */
  function After(device: DeviceInfo, status: StatusData): (seq<Comp>, seq<Alert>) {
    (ListComps(Storage, device, status.storage) + ListComps(Power, device, status.power) +
     ListComps(Temperatures, device, status.temperatures) + ListComps(Fans, device, status.fans),
     ListAlerts(Storage, device, status.storage) + ListAlerts(Power, device, status.power) +
     ListAlerts(Temperatures, device, status.temperatures) + ListAlerts(Fans, device, status.fans))
  }

  /** Everything `_analyze_status` returns: (alerts, all_components), in append order. */
  function Analysis(device: DeviceInfo, status: StatusData, probe: Option<bool>): (seq<Alert>, seq<Comp>) {
    var before := Before(device, status, probe);
    var summary := SummaryFallback(device, status.system, before.0);
    var after := After(device, status);
    (before.1 + summary.1 + after.1, before.0 + summary.0 + after.0)
  }

  /** `_analyze_status`. */
  method AnalyzeStatus(device: DeviceInfo, status: StatusData, probe: Option<bool>)
    returns (alerts: seq<Alert>, allComponents: seq<Comp>)
    ensures (alerts, allComponents) == Analysis(device, status, probe)
  {
    var (c0, a0) := Connectivity(device, probe);
    var systemComps: seq<Comp>, systemAlerts: seq<Alert> := [], [];
    if status.system.Some? {
      var (comp, alert) := AnalyzeSystemHealth(device, status.system.value.item);
      systemComps := [comp.(componentType := SystemCode)];
      if alert.Some? {
        systemAlerts := [alert.value];
      }
    }
    assert (systemComps, systemAlerts) == SystemPart(device, status.system);
    var procC, procA := AnalyzeList(Processors, device, status.processors);
    var memC, memA := AnalyzeList(Memory, device, status.memory);
    allComponents := c0 + systemComps + procC + memC;
    alerts := a0 + systemAlerts + procA + memA;
    var (sc, sa) := SummaryFallback(device, status.system, allComponents);
    allComponents, alerts := allComponents + sc, alerts + sa;
    var restC, restA := AnalyzeList(Storage, device, status.storage);
    var cs, als := AnalyzeList(Power, device, status.power);
    restC, restA := restC + cs, restA + als;
    cs, als := AnalyzeList(Temperatures, device, status.temperatures);
    restC, restA := restC + cs, restA + als;
    cs, als := AnalyzeList(Fans, device, status.fans);
    restC, restA := restC + cs, restA + als;
    allComponents, alerts := allComponents + restC, alerts + restA;
  }

  /** Every alert is appended together with a component, so there are never more alerts than components. */
  lemma AlertsAtMostComponents(device: DeviceInfo, status: StatusData, probe: Option<bool>)
    ensures |Analysis(device, status, probe).0| <= |Analysis(device, status, probe).1|
  {
    ListAlertsBounded(Processors, device, status.processors);
    ListAlertsBounded(Memory, device, status.memory);
    ListAlertsBounded(Storage, device, status.storage);
    ListAlertsBounded(Power, device, status.power);
    ListAlertsBounded(Temperatures, device, status.temperatures);
    ListAlertsBounded(Fans, device, status.fans);
    ConnectivityRules(device, probe);
  }

  // ------------------------------------------------------ overall health

  predicate IsCountedHealth(h: Val) {
    h == Str("OK") || h == Str("Warning") || h == Str("Critical")
  }

  /** The health values of the non-Absent, truthy components that carry OK/Warning/Critical. */
  function CountedHealths(items: seq<Item>): (hs: seq<Val>)
    ensures forall i :: 0 <= i < |hs| ==> IsCountedHealth(hs[i])
  {
    if items == [] then []
    else
      var (health, state) := GetComponentStatus(items[0]);
      (if ItemTruthy(items[0]) && state != Str("Absent") && IsCountedHealth(health) then [health] else []) +
      CountedHealths(items[1..])
  }

  function MaxScore(hs: seq<Val>): (m: nat)
    ensures m <= 3
    ensures forall i :: 0 <= i < |hs| ==> HealthToScore(hs[i]) <= m
    ensures hs != [] ==> exists i :: 0 <= i < |hs| && HealthToScore(hs[i]) == m
  {
    if hs == [] then 0
    else
      var rest := MaxScore(hs[1..]);
      assert forall i :: 1 <= i < |hs| ==> hs[i] == hs[1..][i - 1];
      if HealthToScore(hs[0]) >= rest then HealthToScore(hs[0]) else rest
  }

  /** "unknown" for no counted health, else the worst one by score. */
  function Overall(hs: seq<Val>): string {
    if hs == [] then "unknown" else ScoreToHealth(MaxScore(hs))
  }

  /**
   * The roll-up is the worst counted health: critical beats warning beats
   * ok, and nothing counted gives "unknown".
   */
  lemma OverallIsWorst(hs: seq<Val>)
    requires forall i :: 0 <= i < |hs| ==> IsCountedHealth(hs[i])
    ensures Overall(hs) == "unknown" <==> hs == []
    ensures Overall(hs) == "critical" <==> Str("Critical") in hs
    ensures Overall(hs) == "warning" <==> Str("Critical") !in hs && Str("Warning") in hs
    ensures Overall(hs) == "ok" <==> hs != [] && forall i :: 0 <= i < |hs| ==> hs[i] == Str("OK")
  {
    if hs != [] {
      var m := MaxScore(hs);
      var k :| 0 <= k < |hs| && HealthToScore(hs[k]) == m;
      assert 1 <= m;
    }
  }

  function AllCountedHealths(status: StatusData): seq<Val> {
    (if status.system.Some? then CountedHealths([status.system.value.item]) else []) +
    CountedHealths(status.processors) + CountedHealths(status.memory) + CountedHealths(status.storage) +
    CountedHealths(status.power) + CountedHealths(status.temperatures) + CountedHealths(status.fans)
  }

  lemma {:induction false} CountedHealthsAppend(items: seq<Item>, x: Item)
    ensures CountedHealths(items + [x]) == CountedHealths(items) + CountedHealths([x])
  {
    if items == [] {
      assert items + [x] == [x];
    } else {
      assert (items + [x])[1..] == items[1..] + [x];
      CountedHealthsAppend(items[1..], x);
    }
  }

  /** The inner loop of `_calculate_overall_health` over one component list. */
  method CollectHealths(items: seq<Item>) returns (hs: seq<Val>)
    ensures hs == CountedHealths(items)
  {
    hs := [];
    var i := 0;
    while i < |items|
      invariant 0 <= i <= |items|
      invariant hs == CountedHealths(items[..i])
    {
      var component := items[i];
      assert items[..i + 1] == items[..i] + [component];
      CountedHealthsAppend(items[..i], component);
      assert [component][1..] == [];
      if ItemTruthy(component) {
        var (health, state) := GetComponentStatus(component);
        if state != Str("Absent") {
          if IsCountedHealth(health) {
            hs := hs + [health];
          }
        }
      }
      i := i + 1;
    }
    assert items[..i] == items;
  }

  /** `_calculate_overall_health`. */
  method CalculateOverallHealth(status: StatusData) returns (health: string)
    ensures health == Overall(AllCountedHealths(status))
  {
    var all: seq<Val> := [];
    if status.system.Some? {
      all := CollectHealths([status.system.value.item]);
    }
    var hs := CollectHealths(status.processors);
    all := all + hs;
    hs := CollectHealths(status.memory);
    all := all + hs;
    hs := CollectHealths(status.storage);
    all := all + hs;
    hs := CollectHealths(status.power);
    all := all + hs;
    hs := CollectHealths(status.temperatures);
    all := all + hs;
    hs := CollectHealths(status.fans);
    all := all + hs;
    if all == [] {
      return "unknown";
    }
    health := ScoreToHealth(MaxScore(all));
  }

  /** Absent components and health values outside OK/Warning/Critical never influence the roll-up. */
  lemma {:induction false} IgnoredComponents(items: seq<Item>)
    requires forall i :: 0 <= i < |items| ==>
      GetComponentStatus(items[i]).1 == Str("Absent") || !IsCountedHealth(GetComponentStatus(items[i]).0)
    ensures CountedHealths(items) == []
  {
    if items != [] {
      assert GetComponentStatus(items[0]).1 == Str("Absent") || !IsCountedHealth(GetComponentStatus(items[0]).0);
      IgnoredComponents(items[1..]);
    }
  }

  // --------------------------------------------------- monitor_device

  /** A unified record as the analysis reads it: its scalar keys and no Status block (`raw` is not a scalar). */
  function AsItem(c: Component): Item {
    Item(None, map["component_type" := Str(c.componentType), "component_name" := Str(c.componentName),
                   "health_status" := Str(c.healthStatus), "state" := c.state])
  }

  function AsItems(cs: seq<Component>): (r: seq<Item>)
    ensures |r| == |cs| && forall i :: 0 <= i < |cs| ==> r[i] == AsItem(cs[i])
  {
    seq(|cs|, i requires 0 <= i < |cs| => AsItem(cs[i]))
  }

  /** The one list `UnifiedList` admits. */
  function UnifiedSeq(kind: ListKind, items: seq<Item>): (out: seq<Component>)
    ensures UnifiedList(kind, items, out)
  {
    var kept := NonAbsent(items);
    seq(|kept|, i requires 0 <= i < |kept| => Unify(kind, kept[i]))
  }

  lemma UnifiedListIsUnifiedSeq(kind: ListKind, items: seq<Item>, out: seq<Component>)
    requires UnifiedList(kind, items, out)
    ensures out == UnifiedSeq(kind, items)
  {
  }

  /** What the client returned; `system` is None when `system_info` is missing or empty. */
  datatype RawStatus = RawStatus(
    system: Option<RawSystem>,
    processors: seq<Item>,
    memory: seq<Item>,
    storage: seq<Item>,
    power: seq<Item>,
    temperatures: seq<Item>,
    fans: seq<Item>)

  /** The status data after the adaptor's normalisation and `postprocess`. */
  function NormalizedStatus(raw: RawStatus): StatusData {
    StatusData(
      if raw.system.Some? then Some(SystemInfo(AsItem(AdaptersBase.NormalizeSystem(raw.system.value.item)), raw.system.value, None)) else None,
      AsItems(UnifiedSeq(Processors, raw.processors)),
      AsItems(UnifiedSeq(Memory, raw.memory)),
      AsItems(UnifiedSeq(Storage, raw.storage)),
      AsItems(UnifiedSeq(Power, raw.power)),
      AsItems(UnifiedSeq(Temperatures, raw.temperatures)),
      AsItems(UnifiedSeq(Fans, raw.fans)))
  }

  datatype MonitorResult = MonitorResult(
    deviceId: int,
    success: bool,
    overallHealth: string,
    alerts: seq<Alert>,
    allComponents: seq<Comp>)

  /**
   * `monitor_device`: `fetched` is the client's status data, or None when
   * fetching raised; then the result is a failure with no alerts.
   */
  method MonitorDevice(device: DeviceInfo, fetched: Option<RawStatus>, probe: Option<bool>) returns (r: MonitorResult)
    ensures r.deviceId == device.deviceId
    ensures fetched.None? ==> !r.success && r.alerts == [] && r.allComponents == []
    ensures fetched.Some? ==> r.success
    ensures fetched.Some? ==> (r.alerts, r.allComponents) == Analysis(device, NormalizedStatus(fetched.value), probe)
    ensures fetched.Some? ==> r.overallHealth == Overall(AllCountedHealths(NormalizedStatus(fetched.value)))
  {
    if fetched.None? {
      return MonitorResult(device.deviceId, false, "", [], []);
    }
    var raw := fetched.value;
    var system: Option<SystemInfo> := None;
    if raw.system.Some? {
      var unified := AdaptersBase.NormalizeSystem(raw.system.value.item);
      system := Some(SystemInfo(AsItem(unified), raw.system.value, None));
    }
    var processors := NormalizeProcessors(raw.processors);
    var memory := NormalizeMemory(raw.memory);
    var storage := NormalizeStorage(raw.storage);
    var power := NormalizePower(raw.power);
    var temps, fans := NormalizeThermal(raw.temperatures, raw.fans);
    UnifiedListIsUnifiedSeq(Processors, raw.processors, processors);
    UnifiedListIsUnifiedSeq(Memory, raw.memory, memory);
    UnifiedListIsUnifiedSeq(Storage, raw.storage, storage);
    UnifiedListIsUnifiedSeq(Power, raw.power, power);
    UnifiedListIsUnifiedSeq(Temperatures, raw.temperatures, temps);
    UnifiedListIsUnifiedSeq(Fans, raw.fans, fans);
    var status := Postprocess(StatusData(system, AsItems(processors), AsItems(memory), AsItems(storage),
                                         AsItems(power), AsItems(temps), AsItems(fans)));
    assert status == NormalizedStatus(raw);
    var alerts, allComponents := AnalyzeStatus(device, status, probe);
    var overall := CalculateOverallHealth(status);
    r := MonitorResult(device.deviceId, true, overall, alerts, allComponents);
  }

  /** The health and state `_get_component_status` reads from a unified record of a kept item. */
  lemma UnifiedStatus(kind: ListKind, x: Item)
    requires NotAbsent(x)
    ensures GetComponentStatus(AsItem(Unify(kind, x))).0 == Str(Unify(kind, x).healthStatus)
    ensures GetComponentStatus(AsItem(Unify(kind, x))).1 != Str("Absent")
  {
  }

  /**
   * Each kept item of a normalised list yields exactly one component, under
   * its kind's code, and an alert exactly when its unified health is
   * Warning or Critical.
   */
  lemma UnifiedItemReported(kind: ListKind, device: DeviceInfo, x: Item)
    requires NotAbsent(x)
    ensures var c := Unify(kind, x);
      ItemComps(kind, device, AsItem(c)) ==
        [Comp(KindCode(kind), ComponentName(kind, AsItem(c).attrs), NormalizeHealthStatus(Str(c.healthStatus)))] &&
      (|ItemAlerts(kind, device, AsItem(c))| == 1 <==> c.healthStatus in {"Warning", "Critical"}) &&
      |ItemAlerts(kind, device, AsItem(c))| <= 1
  {
    UnifiedStatus(kind, x);
  }

  /**
   * As written, every analyser except memory looks the name up under keys
   * (`socket`, `name`, `id`) that a unified record does not have, so the
   * name is always "Unknown".
   */
  lemma NamesLostAfterNormalization(kind: ListKind, c: Component)
    ensures kind != Memory ==> ComponentName(kind, AsItem(c).attrs) == Str("Unknown")
    ensures kind == Memory && c.componentName != "" ==> ComponentName(kind, AsItem(c).attrs) == Str(c.componentName)
  {
  }

  /**
   * Consequently two different processors with a bad health raise alerts
   * that agree on device, type and name, the key under which alerts are
   * merged.
   */
  lemma ProcessorAlertsCollide(device: DeviceInfo, x: Item, y: Item)
    requires NotAbsent(x) && NotAbsent(y)
    requires Unify(Processors, x).healthStatus == "Warning" && Unify(Processors, y).healthStatus == "Warning"
    ensures var ax := ItemAlerts(Processors, device, AsItem(Unify(Processors, x)));
            var ay := ItemAlerts(Processors, device, AsItem(Unify(Processors, y)));
      |ax| == 1 && |ay| == 1 && ax[0] == ay[0]
  {
    UnifiedItemReported(Processors, device, x);
    UnifiedItemReported(Processors, device, y);
    NamesLostAfterNormalization(Processors, Unify(Processors, x));
    NamesLostAfterNormalization(Processors, Unify(Processors, y));
  }

  /** The intended name: the adaptor's `component_name` first, then the analyser's own chain. */
  function CorrectedComponentName(kind: ListKind, a: Dict): Val {
    if Truthy(Get(a, "component_name")) then a["component_name"] else ComponentName(kind, a)
  }

  /** The corrected lookup keeps the adaptor's name and agrees with the old one on raw items. */
  lemma CorrectedNameKeepsAdaptorName(kind: ListKind, c: Component, a: Dict)
    requires c.componentName != ""
    ensures CorrectedComponentName(kind, AsItem(c).attrs) == Str(c.componentName)
    ensures "component_name" !in a ==> CorrectedComponentName(kind, a) == ComponentName(kind, a)
  {
  }
}
