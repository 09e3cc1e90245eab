/**
 * The earlier device monitor: it reads the client's raw status lists
 * directly, emits one log entry for every analysed component and an alert
 * for bad health, an unexpected state, worn media, overheating or a
 * stopped fan; the overall health is the worst (minimum) score.
 */
module DeviceMonitorLegacy {
  import opened Basics

  /** A numeric field: key missing, present but `None`, or a number. */
  datatype Reading = NoKey | NullReading | Reading(n: int)

  /**
   * One component dictionary: its string keys and its numeric readings;
   * `readingCelsius` is the `reading_celsius` value with a missing key read as 0.
   */
  datatype Part = Part(
    attrs: Dict,
    mediaLifeLeft: Reading,
    readingCelsius: int,
    upperThresholdCritical: Reading,
    readingRpm: Reading)

  datatype Log = Log(deviceId: int, componentType: string, componentName: Val, logLevel: string)

  datatype Alert = Alert(deviceId: int, alertSource: string, componentType: string, componentName: Val, alertLevel: string)

  /** Why an alert was raised; the source joins these into the message. */
  datatype Reason = BadHealth(health: Val) | BadState(state: Val) | LowMediaLife(left: int) | Overheat(reading: int, threshold: int) | FanStopped

  // ------------------------------------------------------------ level maps

  /** `_map_health_to_alert_level`: unlisted values give "warning". */
  function AlertLevel(h: Val): (r: string)
    ensures h == Str("OK") ==> r == "info"
    ensures h == Str("Critical") ==> r == "critical"
    ensures h != Str("OK") && h != Str("Critical") ==> r == "warning"
  {
    if h == Str("OK") then "info"
    else if h == Str("Warning") then "warning"
    else if h == Str("Critical") then "critical"
    else "warning"
  }

  /** `_map_health_to_log_level`: unlisted values give "info". */
  function LogLevel(h: Val): (r: string)
    ensures h == Str("Critical") ==> r == "error"
    ensures h == Str("Warning") || h == Str("Unknown") ==> r == "warning"
    ensures !(h in {Str("Warning"), Str("Critical"), Str("Unknown")}) ==> r == "info"
  {
    if h == Str("OK") then "info"
    else if h == Str("Warning") then "warning"
    else if h == Str("Critical") then "error"
    else if h == Str("Unknown") then "warning"
    else "info"
  }

  // ------------------------------------------------------------ analysers

  function Health(p: Part): Val {
    GetOr(p.attrs, "health_status", Str("Unknown"))
  }

  function State(p: Part): Val {
    GetOr(p.attrs, "state", Str("Unknown"))
  }

  predicate IsBad(h: Val) {
    h == Str("Warning") || h == Str("Critical")
  }

  /** The kinds of component the legacy monitor analyses. */
  datatype Kind = System | Processor | Memory | Storage | Power | Temperature | Fan

  function TypeCode(kind: Kind): string {
    match kind
      case System => "system"
      case Processor => "cpu"
      case Memory => "memory"
      case Storage => "disk"
      case Power => "power"
      case Temperature => "temperature"
      case Fan => "fan"
  }

  /** The display name; `get` defaults apply only when a key is absent. */
  function Name(kind: Kind, a: Dict): Val {
    match kind
      case System => Str("System")
      case Memory => GetOr(a, "device_locator", GetOr(a, "name", GetOr(a, "id", Str("Unknown"))))
      case _ => GetOr(a, "name", GetOr(a, "id", Str("Unknown")))
  }

  /** The reasons a component raises an alert, in the order the source appends them. */
  function Reasons(kind: Kind, p: Part): seq<Reason>
  {
    var h := Health(p);
    var s := State(p);
    var health := if IsBad(h) then [BadHealth(h)] else [];
    match kind
      case System => health + (if s !in {Str("Enabled"), Str("StandbyOffline")} then [BadState(s)] else [])
      case Storage =>
        health +
        (if s !in {Str("Enabled"), Str("StandbyOffline")} then [BadState(s)] else []) +
        (if p.mediaLifeLeft.Reading? && p.mediaLifeLeft.n < 10 then [LowMediaLife(p.mediaLifeLeft.n)] else [])
      case Temperature =>
        var reading := p.readingCelsius;
        health +
        (if ThresholdSet(p) && reading >= p.upperThresholdCritical.n then [Overheat(reading, p.upperThresholdCritical.n)] else [])
      case Fan =>
        health + (if s != Str("Enabled") then [BadState(s)] else []) + (if Stopped(p) then [FanStopped] else [])
      case _ => health + (if s != Str("Enabled") then [BadState(s)] else [])
  }

  /** A truthy `upper_threshold_critical`. */
  predicate ThresholdSet(p: Part) {
    p.upperThresholdCritical.Reading? && p.upperThresholdCritical.n != 0
  }

  /** `reading_rpm == 0`, with a missing key read as 0. */
  predicate Stopped(p: Part) {
    p.readingRpm.NoKey? || p.readingRpm == Reading(0)
  }

  /** The alert level: critical for a stopped fan or an over-threshold reading (threshold default 100). */
  function Level(kind: Kind, p: Part): string
  {
    match kind
      case Temperature =>
        var limit := if ThresholdSet(p) then p.upperThresholdCritical.n else 100;
        if p.readingCelsius >= limit then "critical" else AlertLevel(Health(p))
      case Fan => if Stopped(p) then "critical" else AlertLevel(Health(p))
      case _ => AlertLevel(Health(p))
  }

  /** `_analyze_*_health`: always a log entry; an alert iff there is a reason. */
  function Analyze(kind: Kind, deviceId: int, p: Part): (r: (Option<Alert>, Log))
    ensures r.1 == Log(deviceId, TypeCode(kind), Name(kind, p.attrs), LogLevel(Health(p)))
    ensures r.0.Some? <==> Reasons(kind, p) != []
    ensures r.0.Some? ==> r.0.value == Alert(deviceId, "redfish", TypeCode(kind), Name(kind, p.attrs), Level(kind, p))
  {
    var log := Log(deviceId, TypeCode(kind), Name(kind, p.attrs), LogLevel(Health(p)));
    if Reasons(kind, p) != [] then (Some(Alert(deviceId, "redfish", TypeCode(kind), Name(kind, p.attrs), Level(kind, p))), log)
    else (None, log)
  }

  /** The system alerts iff its health is bad or its state is neither Enabled nor StandbyOffline. */
  lemma SystemAlertRule(deviceId: int, p: Part)
    ensures Analyze(System, deviceId, p).0.Some? <==>
      IsBad(Health(p)) || State(p) !in {Str("Enabled"), Str("StandbyOffline")}
  {
  }

  /** Processors, memory and power supplies alert iff the health is bad or the state is not Enabled. */
  lemma SimpleAlertRule(kind: Kind, deviceId: int, p: Part)
    requires kind in {Processor, Memory, Power}
    ensures Analyze(kind, deviceId, p).0.Some? <==> IsBad(Health(p)) || State(p) != Str("Enabled")
  {
  }

  /** Storage alerts iff its health is bad, its state unexpected, or less than 10% media life is left. */
  lemma StorageAlertRule(deviceId: int, p: Part)
    ensures Analyze(Storage, deviceId, p).0.Some? <==>
      IsBad(Health(p)) || State(p) !in {Str("Enabled"), Str("StandbyOffline")} ||
      (p.mediaLifeLeft.Reading? && p.mediaLifeLeft.n < 10)
  {
  }

  /** A stopped fan always alerts, at level critical. */
  lemma StoppedFanIsCritical(deviceId: int, p: Part)
    requires Stopped(p)
    ensures Analyze(Fan, deviceId, p).0.Some? && Analyze(Fan, deviceId, p).0.value.alertLevel == "critical"
  {
  }

  /** A temperature at or above its threshold (100 when unset) alerts at level critical whenever it alerts. */
  lemma HotSensorIsCritical(deviceId: int, p: Part)
    requires p.readingCelsius >= (if ThresholdSet(p) then p.upperThresholdCritical.n else 100)
    ensures ThresholdSet(p) ==> Analyze(Temperature, deviceId, p).0.Some?
    ensures Analyze(Temperature, deviceId, p).0.Some? ==> Analyze(Temperature, deviceId, p).0.value.alertLevel == "critical"
  {
  }

  // -------------------------------------------------------- _analyze_status

  /** The client's status data; `system` is None when `system_info` is missing or empty. */
  datatype LegacyStatus = LegacyStatus(
    system: Option<Part>,
    processors: seq<Part>,
    memory: seq<Part>,
    storage: seq<Part>,
    power: seq<Part>,
    temperatures: seq<Part>,
    fans: seq<Part>)

  /** The (kind, part) pairs in the order `_analyze_status` visits them. */
  function Visits(status: LegacyStatus): seq<(Kind, Part)> {
    (if status.system.Some? then [(System, status.system.value)] else []) +
    Tag(Processor, status.processors) + Tag(Memory, status.memory) + Tag(Storage, status.storage) +
    Tag(Power, status.power) + Tag(Temperature, status.temperatures) + Tag(Fan, status.fans)
  }

  function Tag(kind: Kind, parts: seq<Part>): (r: seq<(Kind, Part)>)
    ensures |r| == |parts| && forall i :: 0 <= i < |parts| ==> r[i] == (kind, parts[i])
  {
    seq(|parts|, i requires 0 <= i < |parts| => (kind, parts[i]))
  }

  /** The log entry of one visit. */
  function VisitLog(deviceId: int, v: (Kind, Part)): Log {
    Analyze(v.0, deviceId, v.1).1
  }

  /** The alert of one visit, if any, as a list. */
  function VisitAlerts(deviceId: int, v: (Kind, Part)): (r: seq<Alert>)
    ensures |r| <= 1
  {
    var a := Analyze(v.0, deviceId, v.1).0;
    if a.Some? then [a.value] else []
  }

  function Logs(deviceId: int, vs: seq<(Kind, Part)>): (r: seq<Log>)
    ensures |r| == |vs|
  {
    if vs == [] then [] else [VisitLog(deviceId, vs[0])] + Logs(deviceId, vs[1..])
  }

  function Alerts(deviceId: int, vs: seq<(Kind, Part)>): seq<Alert> {
    if vs == [] then [] else VisitAlerts(deviceId, vs[0]) + Alerts(deviceId, vs[1..])
  }

  lemma {:induction false} AlertsAtMostLogs(deviceId: int, vs: seq<(Kind, Part)>)
    ensures |Alerts(deviceId, vs)| <= |Logs(deviceId, vs)|
  {
    if vs != [] {
      AlertsAtMostLogs(deviceId, vs[1..]);
    }
  }

  lemma {:induction false} LogsAppend(deviceId: int, vs: seq<(Kind, Part)>, v: (Kind, Part))
    ensures Logs(deviceId, vs + [v]) == Logs(deviceId, vs) + [VisitLog(deviceId, v)]
  {
    if vs == [] {
      assert vs + [v] == [v];
      assert [v][1..] == [];
    } else {
      assert (vs + [v])[1..] == vs[1..] + [v];
      LogsAppend(deviceId, vs[1..], v);
    }
  }

  lemma {:induction false} AlertsAppend(deviceId: int, vs: seq<(Kind, Part)>, v: (Kind, Part))
    ensures Alerts(deviceId, vs + [v]) == Alerts(deviceId, vs) + VisitAlerts(deviceId, v)
  {
    if vs == [] {
      assert vs + [v] == [v];
      assert [v][1..] == [];
    } else {
      assert (vs + [v])[1..] == vs[1..] + [v];
      AlertsAppend(deviceId, vs[1..], v);
      var head := VisitAlerts(deviceId, vs[0]);
      assert Alerts(deviceId, vs + [v]) == head + Alerts(deviceId, vs[1..] + [v]);
      AppendAssoc(head, Alerts(deviceId, vs[1..]), VisitAlerts(deviceId, v));
    }
  }

  /** One more visit adds its log and its alert, if any. */
  lemma VisitStep(deviceId: int, vs: seq<(Kind, Part)>, i: nat)
    requires i < |vs|
    ensures Logs(deviceId, vs[..i + 1]) == Logs(deviceId, vs[..i]) + [Analyze(vs[i].0, deviceId, vs[i].1).1]
    ensures var a := Analyze(vs[i].0, deviceId, vs[i].1).0;
      Alerts(deviceId, vs[..i + 1]) == Alerts(deviceId, vs[..i]) + if a.Some? then [a.value] else []
  {
    assert vs[..i + 1] == vs[..i] + [vs[i]];
    LogsAppend(deviceId, vs[..i], vs[i]);
    AlertsAppend(deviceId, vs[..i], vs[i]);
  }

  /** `_analyze_status`: one pass over every visited component, appending alerts and logs. */
  method AnalyzeStatus(deviceId: int, status: LegacyStatus) returns (alerts: seq<Alert>, logs: seq<Log>)
    ensures alerts == Alerts(deviceId, Visits(status)) && logs == Logs(deviceId, Visits(status))
  {
    var vs := Visits(status);
    alerts, logs := [], [];
    var i := 0;
    while i < |vs|
      invariant 0 <= i <= |vs|
      invariant alerts == Alerts(deviceId, vs[..i]) && logs == Logs(deviceId, vs[..i])
    {
      var v := vs[i];
      VisitStep(deviceId, vs, i);
      var (alert, log) := Analyze(v.0, deviceId, v.1);
      if alert.Some? {
        alerts := alerts + [alert.value];
      }
      logs := logs + [log];
      i := i + 1;
    }
    assert vs[..i] == vs;
  }

  /** One log per analysed component, and never more alerts than logs. */
  lemma OneLogPerComponent(deviceId: int, status: LegacyStatus)
    ensures |Logs(deviceId, Visits(status))| == |Visits(status)|
    ensures |Alerts(deviceId, Visits(status))| <= |Logs(deviceId, Visits(status))|
  {
    AlertsAtMostLogs(deviceId, Visits(status));
  }

  // ------------------------------------------------------ overall health

  /** `_health_to_score`. */
  function Score(h: Val): (n: nat)
    ensures n == 4 <==> h == Str("OK")
    ensures n == 2 <==> h == Str("Warning")
    ensures n == 1 <==> h == Str("Critical")
    ensures n == 0 <==> !(h in {Str("OK"), Str("Warning"), Str("Critical")})
  {
    if h == Str("OK") then 4 else if h == Str("Warning") then 2 else if h == Str("Critical") then 1 else 0
  }

  /** `_score_to_health`. */
  function ScoreToHealth(n: int): string {
    if n >= 4 then "ok" else if n >= 2 then "warning" else if n >= 1 then "critical" else "unknown"
  }

  /** The system's health (Unknown when missing) followed by every listed component's. */
  function Healths(status: LegacyStatus): seq<Val> {
    [if status.system.Some? then Health(status.system.value) else Str("Unknown")] +
    HealthsOf(status.processors) + HealthsOf(status.memory) + HealthsOf(status.storage) +
    HealthsOf(status.power) + HealthsOf(status.temperatures) + HealthsOf(status.fans)
  }

  function HealthsOf(parts: seq<Part>): (r: seq<Val>)
    ensures |r| == |parts| && forall i :: 0 <= i < |parts| ==> r[i] == Health(parts[i])
  {
    seq(|parts|, i requires 0 <= i < |parts| => Health(parts[i]))
  }

  /** The minimum score, folded from the left as the loop does. */
  function MinScore(hs: seq<Val>): (m: nat)
    requires hs != []
    ensures forall i :: 0 <= i < |hs| ==> m <= Score(hs[i])
    ensures exists i :: 0 <= i < |hs| && Score(hs[i]) == m
  {
    if |hs| == 1 then Score(hs[0])
    else
      var init := hs[..|hs| - 1];
      var rest := MinScore(init);
      assert forall i :: 0 <= i < |init| ==> hs[i] == init[i];
      var last := Score(hs[|hs| - 1]);
      if last < rest then last else rest
  }

  /** The minimum-score roll-up; the list always holds the system's entry, so it is never empty. */
  function OverallOf(hs: seq<Val>): string {
    if hs == [] then "unknown" else ScoreToHealth(MinScore(hs))
  }

  /**
   * "ok" iff every health is OK; any value outside OK/Warning/Critical
   * makes it "unknown"; otherwise "critical" iff some Critical.
   */
  lemma OverallRules(hs: seq<Val>)
    requires hs != []
    ensures OverallOf(hs) == "ok" <==> forall i :: 0 <= i < |hs| ==> hs[i] == Str("OK")
    ensures (exists i :: 0 <= i < |hs| && Score(hs[i]) == 0) <==> OverallOf(hs) == "unknown"
    ensures OverallOf(hs) == "critical" <==>
      (forall i :: 0 <= i < |hs| ==> Score(hs[i]) != 0) && Str("Critical") in hs
  {
    var m := MinScore(hs);
    var k :| 0 <= k < |hs| && Score(hs[k]) == m;
    if Str("Critical") in hs {
      var j :| 0 <= j < |hs| && hs[j] == Str("Critical");
      assert Score(hs[j]) == 1;
    }
  }

  /** One more score lowers the minimum to it when it is smaller. */
  lemma MinStep(hs: seq<Val>, i: nat)
    requires 1 <= i < |hs|
    ensures MinScore(hs[..i + 1]) == if Score(hs[i]) < MinScore(hs[..i]) then Score(hs[i]) else MinScore(hs[..i])
  {
    assert hs[..i + 1][..i] == hs[..i];
    assert hs[..i + 1][i] == hs[i];
  }

  /** `_calculate_overall_health`: collects the scores in a loop and takes the minimum. */
  method CalculateOverallHealth(status: LegacyStatus) returns (health: string)
    ensures health == OverallOf(Healths(status))
  {
    var hs := Healths(status);
    var m := Score(hs[0]);
    assert hs[..1] == [hs[0]];
    var i := 1;
    while i < |hs|
      invariant 1 <= i <= |hs|
      invariant m == MinScore(hs[..i])
    {
      MinStep(hs, i);
      if Score(hs[i]) < m {
        m := Score(hs[i]);
      }
      i := i + 1;
    }
    assert hs[..i] == hs;
    health := ScoreToHealth(m);
  }

  /** A missing system entry counts as Unknown, so the device is then always "unknown". */
  lemma MissingSystemIsUnknown(status: LegacyStatus)
    requires status.system.None?
    ensures OverallOf(Healths(status)) == "unknown"
  {
    OverallRules(Healths(status));
    assert Score(Healths(status)[0]) == 0;
  }
}
