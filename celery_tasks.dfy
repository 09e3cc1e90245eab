/**
 * The monitoring tasks: the alert type a business rule gives a new alert,
 * the storage of one monitoring result (device status, alert upsert,
 * logs), the batch summary over all monitored devices and the clean-up of
 * old rows.
 *
 * The Celery queue, the monitor that produces a result and the clock are
 * outside the model: results and `now` are parameters. The session does
 * not flush before its queries, so every lookup of one save sees the alert
 * table as committed before the save began.
 */
module CeleryTasks {
  import opened Basics
  import opened Records
  import opened DeviceDao
  import opened BusinessRuleDao

  // ---------------------------------------------------------------- alert type

  predicate RuleApplies(r: Rule, businessType: Cell, hardwareType: string) {
    IsPair(r, businessType, Text(Upper(hardwareType))) && Active(r)
  }

  /** The rule `.first()` returns for the business type and hardware type. */
  function FirstApplicable(rules: seq<Rule>, businessType: Cell, hardwareType: string): (r: Option<nat>)
    ensures r.Some? ==> r.value < |rules| && RuleApplies(rules[r.value], businessType, hardwareType)
    ensures r.Some? ==> forall j :: 0 <= j < r.value ==> !RuleApplies(rules[j], businessType, hardwareType)
    ensures r.None? <==> forall j :: 0 <= j < |rules| ==> !RuleApplies(rules[j], businessType, hardwareType)
  {
    FirstWhere(rules, (x: Rule) => RuleApplies(x, businessType, hardwareType))
  }

  /**
   * `determine_alert_type`: the first active rule for the business type and
   * the upper-cased hardware type gives its level; without one, 'cpu' and
   * 'memory' are urgent and everything else scheduled. A hardware type that
   * is not a string makes `upper()` raise, which gives 'scheduled'.
   */
  function DetermineAlertType(rules: seq<Rule>, businessType: Cell, hardwareType: Cell): (t: Cell)
    ensures !hardwareType.Text? ==> t == Text("scheduled")
    ensures hardwareType.Text? && FirstApplicable(rules, businessType, hardwareType.s).Some? ==>
      t == UrgencyLevel(rules[FirstApplicable(rules, businessType, hardwareType.s).value])
    ensures hardwareType.Text? && (forall i :: 0 <= i < |rules| ==> !RuleApplies(rules[i], businessType, hardwareType.s)) ==>
      t == (if hardwareType.s == "cpu" || hardwareType.s == "memory" then Text("urgent") else Text("scheduled"))
  {
    if !hardwareType.Text? then Text("scheduled")
    else
      match FirstApplicable(rules, businessType, hardwareType.s)
      case Some(i) => UrgencyLevel(rules[i])
      case None => if hardwareType.s == "cpu" || hardwareType.s == "memory" then Text("urgent") else Text("scheduled")
  }

  /** Under unique pairs the first applicable rule is the one the rule lookup finds, so both give the same level. */
  lemma AlertTypeAgreesWithRuleLookup(rules: seq<Rule>, businessType: string, hardwareType: string, rule: Rule)
    requires PairsUnique(rules)
    requires GetRuleByType(rules, businessType, Upper(hardwareType)) == Found(rule)
    ensures DetermineAlertType(rules, Text(businessType), Text(hardwareType)) == UrgencyLevel(rule)
  {
    var k :| 0 <= k < |rules| && rules[k] == rule;
    OnlyApplicableIsFirst(rules, Text(businessType), hardwareType, k);
  }

  /** Under unique pairs a rule that applies is the first that applies. */
  lemma OnlyApplicableIsFirst(rules: seq<Rule>, businessType: Cell, hardwareType: string, k: nat)
    requires PairsUnique(rules)
    requires k < |rules| && RuleApplies(rules[k], businessType, hardwareType)
    ensures FirstApplicable(rules, businessType, hardwareType) == Some(k)
  {
  }

  /** The default for a component without rule is urgent exactly for the lower-case 'cpu' and 'memory'. */
  lemma DefaultIsCaseSensitive(rules: seq<Rule>, businessType: Cell)
    requires forall i :: 0 <= i < |rules| ==> !Active(rules[i])
    ensures DetermineAlertType(rules, businessType, Text("cpu")) == Text("urgent")
    ensures DetermineAlertType(rules, businessType, Text("CPU")) == Text("scheduled")
  {
    assert forall i :: 0 <= i < |rules| ==> !RuleApplies(rules[i], businessType, "cpu");
    assert forall i :: 0 <= i < |rules| ==> !RuleApplies(rules[i], businessType, "CPU");
  }

  // ---------------------------------------------------------------- stored rows

  /** The `alert_info` columns `save_monitoring_result` writes (the Celery module's model class, not the display one). */
  datatype StoredAlert = StoredAlert(
    alertId: int,
    deviceId: int,
    alertSource: string,
    componentType: string,
    componentName: string,
    alertLevel: string,
    alertType: Cell,
    alertTypeOriginal: Cell,
    alertMessage: string,
    alertStatus: string,
    firstOccurrence: int,
    lastOccurrence: int,
    occurrenceCount: int,
    resolvedTime: Option<int>,
    rawData: string)

  /** A `redfish_alert_log` row. */
  datatype StoredLog = StoredLog(
    logId: int,
    deviceId: int,
    logSource: string,
    componentType: string,
    componentName: string,
    logLevel: string,
    logMessage: string,
    rawData: string,
    occurrenceTime: int)

  /** One entry of the result's `alerts` list. */
  datatype ReportedAlert = ReportedAlert(
    alertSource: string,
    componentType: string,
    componentName: string,
    alertLevel: string,
    alertMessage: string,
    firstOccurrence: int,
    rawData: string)

  /** One entry of the result's `logs` list. */
  datatype ReportedLog = ReportedLog(
    componentType: string,
    componentName: string,
    logLevel: string,
    logMessage: string,
    rawData: string,
    occurrenceTime: int)

  /** A monitoring result; `overallHealth` is None when the key is absent. */
  datatype MonitoringResult = MonitoringResult(
    success: bool,
    deviceId: int,
    overallHealth: Option<string>,
    alerts: seq<ReportedAlert>,
    logs: seq<ReportedLog>)

  /** The lookup of an existing alert: same device, component type and name, still active. */
  predicate OpenFor(a: StoredAlert, deviceId: int, r: ReportedAlert) {
    a.deviceId == deviceId && a.componentType == r.componentType && a.componentName == r.componentName && a.alertStatus == "active"
  }

  function ExistingFor(committed: seq<StoredAlert>, deviceId: int, r: ReportedAlert): (i: Option<nat>)
    ensures i.Some? ==> i.value < |committed| && OpenFor(committed[i.value], deviceId, r)
  {
    FirstWhere(committed, (a: StoredAlert) => OpenFor(a, deviceId, r))
  }

  /** A repeated alert: now as its last occurrence, one more occurrence, the new raw data. */
  function Refreshed(a: StoredAlert, r: ReportedAlert, now: int): (b: StoredAlert)
    ensures b.lastOccurrence == now && b.occurrenceCount == a.occurrenceCount + 1 && b.rawData == r.rawData
    ensures b.(lastOccurrence := a.lastOccurrence, occurrenceCount := a.occurrenceCount, rawData := a.rawData) == a
  {
    a.(lastOccurrence := now, occurrenceCount := a.occurrenceCount + 1, rawData := r.rawData)
  }

  /** A new alert: active, seen once, last occurrence equal to the first. */
  function NewAlert(alertId: int, deviceId: int, r: ReportedAlert, alertType: Cell): StoredAlert {
    StoredAlert(alertId, deviceId, r.alertSource, r.componentType, r.componentName, r.alertLevel, alertType, alertType,
                r.alertMessage, "active", r.firstOccurrence, r.firstOccurrence, 1, None, r.rawData)
  }

  /** The alert rows in the session and the next key. */
  datatype Pending = Pending(alerts: seq<StoredAlert>, nextId: int)

  /** One iteration of the alert loop. */
  function SaveAlert(committed: seq<StoredAlert>, p: Pending, deviceId: int, businessType: Cell, rules: seq<Rule>,
                     r: ReportedAlert, now: int): (q: Pending)
    requires |committed| <= |p.alerts|
    ensures |committed| <= |q.alerts|
  {
    match ExistingFor(committed, deviceId, r)
    case Some(i) => Pending(p.alerts[i := Refreshed(p.alerts[i], r, now)], p.nextId)
    case None =>
      Pending(p.alerts + [NewAlert(p.nextId, deviceId, r, DetermineAlertType(rules, businessType, Text(r.componentType)))], p.nextId + 1)
  }

  /** The alert loop over the reported alerts, in order. */
  function SaveAlerts(committed: seq<StoredAlert>, nextId: int, deviceId: int, businessType: Cell, rules: seq<Rule>,
                      reported: seq<ReportedAlert>, now: int): (p: Pending)
    ensures |committed| <= |p.alerts|
  {
    if reported == [] then Pending(committed, nextId)
    else
      SaveAlert(committed, SaveAlerts(committed, nextId, deviceId, businessType, rules, reported[..|reported| - 1], now),
                deviceId, businessType, rules, reported[|reported| - 1], now)
  }

  /** How many reported alerts find the committed row `k`. */
  function Hits(committed: seq<StoredAlert>, deviceId: int, reported: seq<ReportedAlert>, k: nat): nat {
    if reported == [] then 0
    else Hits(committed, deviceId, reported[..|reported| - 1], k) +
           (if ExistingFor(committed, deviceId, reported[|reported| - 1]) == Some(k) then 1 else 0)
  }

  /** How many reported alerts find no committed row. */
  function Misses(committed: seq<StoredAlert>, deviceId: int, reported: seq<ReportedAlert>): nat {
    if reported == [] then 0
    else Misses(committed, deviceId, reported[..|reported| - 1]) +
           (if ExistingFor(committed, deviceId, reported[|reported| - 1]).None? then 1 else 0)
  }

  /** The committed row `k` with only its occurrence columns changed. */
  predicate SameAlert(a: StoredAlert, b: StoredAlert) {
    a.(lastOccurrence := b.lastOccurrence, occurrenceCount := b.occurrenceCount, rawData := b.rawData) == b
  }

  /** A row the loop inserted. */
  predicate Inserted(a: StoredAlert, deviceId: int) {
    a.deviceId == deviceId && a.alertStatus == "active" && a.occurrenceCount == 1 &&
    a.firstOccurrence == a.lastOccurrence && a.alertType == a.alertTypeOriginal
  }

  /**
   * The table after the alert loop has seen `reported`: each committed row
   * is counted up once per reported alert that finds it, and is otherwise
   * untouched; one row with the next keys is appended per reported alert
   * that finds none.
   */
  ghost predicate SavedShape(committed: seq<StoredAlert>, nextId: int, deviceId: int, reported: seq<ReportedAlert>,
                             now: int, p: Pending)
  {
    && |p.alerts| == |committed| + Misses(committed, deviceId, reported)
    && p.nextId == nextId + Misses(committed, deviceId, reported)
    && (forall k :: 0 <= k < |committed| ==>
          SameAlert(p.alerts[k], committed[k]) &&
          p.alerts[k].occurrenceCount == committed[k].occurrenceCount + Hits(committed, deviceId, reported, k) &&
          (Hits(committed, deviceId, reported, k) == 0 ==> p.alerts[k] == committed[k]) &&
          (Hits(committed, deviceId, reported, k) > 0 ==> p.alerts[k].lastOccurrence == now))
    && (forall k :: |committed| <= k < |p.alerts| ==>
          Inserted(p.alerts[k], deviceId) && p.alerts[k].alertId == nextId + (k - |committed|))
  }

  /** What the alert loop does to the table, as `SavedShape` describes it. */
  lemma {:induction false} SavedAlertsShape(committed: seq<StoredAlert>, nextId: int, deviceId: int, businessType: Cell,
                                            rules: seq<Rule>, reported: seq<ReportedAlert>, now: int)
    ensures SavedShape(committed, nextId, deviceId, reported, now,
                       SaveAlerts(committed, nextId, deviceId, businessType, rules, reported, now))
  {
    if reported != [] {
      var front := reported[..|reported| - 1];
      SavedAlertsShape(committed, nextId, deviceId, businessType, rules, front, now);
      SaveAlertKeepsShape(committed, nextId, deviceId, businessType, rules, reported, now,
                          SaveAlerts(committed, nextId, deviceId, businessType, rules, front, now));
    }
  }

  /** One iteration of the alert loop extends `SavedShape` by the next reported alert. */
  lemma SaveAlertKeepsShape(committed: seq<StoredAlert>, nextId: int, deviceId: int, businessType: Cell,
                            rules: seq<Rule>, reported: seq<ReportedAlert>, now: int, p: Pending)
    requires reported != []
    requires SavedShape(committed, nextId, deviceId, reported[..|reported| - 1], now, p)
    ensures SavedShape(committed, nextId, deviceId, reported, now,
                       SaveAlert(committed, p, deviceId, businessType, rules, reported[|reported| - 1], now))
  {
    var r := reported[|reported| - 1];
    match ExistingFor(committed, deviceId, r)
    case Some(i) => RefreshKeepsShape(committed, nextId, deviceId, reported, now, p, i);
    case None =>
      AppendKeepsShape(committed, nextId, deviceId, reported, now, p,
                       NewAlert(p.nextId, deviceId, r, DetermineAlertType(rules, businessType, Text(r.componentType))));
  }

  /** A reported alert that finds the committed row `i` counts up that row alone. */
  lemma RefreshKeepsShape(committed: seq<StoredAlert>, nextId: int, deviceId: int, reported: seq<ReportedAlert>,
                          now: int, p: Pending, i: nat)
    requires reported != [] && ExistingFor(committed, deviceId, reported[|reported| - 1]) == Some(i)
    requires SavedShape(committed, nextId, deviceId, reported[..|reported| - 1], now, p)
    ensures SavedShape(committed, nextId, deviceId, reported, now,
                       Pending(p.alerts[i := Refreshed(p.alerts[i], reported[|reported| - 1], now)], p.nextId))
  {
    var q := p.alerts[i := Refreshed(p.alerts[i], reported[|reported| - 1], now)];
    assert forall k :: 0 <= k < |q| && k != i ==> q[k] == p.alerts[k];
  }

  /** A reported alert that finds no committed row appends one inserted row with the next key. */
  lemma AppendKeepsShape(committed: seq<StoredAlert>, nextId: int, deviceId: int, reported: seq<ReportedAlert>,
                         now: int, p: Pending, a: StoredAlert)
    requires reported != [] && ExistingFor(committed, deviceId, reported[|reported| - 1]).None?
    requires SavedShape(committed, nextId, deviceId, reported[..|reported| - 1], now, p)
    requires Inserted(a, deviceId) && a.alertId == p.nextId
    ensures SavedShape(committed, nextId, deviceId, reported, now, Pending(p.alerts + [a], p.nextId + 1))
  {
    var q := p.alerts + [a];
    assert forall k :: 0 <= k < |p.alerts| ==> q[k] == p.alerts[k];
  }

  /** Keys are unique and below the next one handed out. */
  ghost predicate KeysFresh(alerts: seq<StoredAlert>, nextId: int) {
    (forall i, j :: 0 <= i < j < |alerts| ==> alerts[i].alertId != alerts[j].alertId) &&
    (forall i :: 0 <= i < |alerts| ==> alerts[i].alertId < nextId)
  }

  ghost predicate LogKeysFresh(logs: seq<StoredLog>, nextId: int) {
    (forall i, j :: 0 <= i < j < |logs| ==> logs[i].logId != logs[j].logId) &&
    (forall i :: 0 <= i < |logs| ==> logs[i].logId < nextId)
  }

  /** The loop keeps the keys unique. */
  lemma SavedKeysFresh(committed: seq<StoredAlert>, nextId: int, deviceId: int, businessType: Cell,
                       rules: seq<Rule>, reported: seq<ReportedAlert>, now: int)
    requires KeysFresh(committed, nextId)
    ensures var p := SaveAlerts(committed, nextId, deviceId, businessType, rules, reported, now);
      KeysFresh(p.alerts, p.nextId)
  {
    SavedAlertsShape(committed, nextId, deviceId, businessType, rules, reported, now);
  }

  /** The log rows of a result, keyed from `nextId` on. */
  function NewLogs(deviceId: int, logs: seq<ReportedLog>, nextId: int): (r: seq<StoredLog>)
    ensures |r| == |logs|
    ensures forall k :: 0 <= k < |r| ==>
      r[k].logId == nextId + k && r[k].deviceId == deviceId && r[k].logSource == "redfish" && r[k].occurrenceTime == logs[k].occurrenceTime
  {
    seq(|logs|, k requires 0 <= k < |logs| =>
      StoredLog(nextId + k, deviceId, "redfish", logs[k].componentType, logs[k].componentName, logs[k].logLevel,
                logs[k].logMessage, logs[k].rawData, logs[k].occurrenceTime))
  }

  /** The device row after a check: the check time and the overall health, 'unknown' when absent. */
  function Checked(d: Device, overallHealth: Option<string>, now: int): (e: Device)
    ensures e.deviceId == d.deviceId
    ensures ColumnOf(e.columns, "health_status") == Text(if overallHealth.Some? then overallHealth.value else "unknown")
    ensures ColumnOf(e.columns, "last_check_time") == Number(now)
    ensures forall k :: k in d.columns && k != "health_status" && k != "last_check_time" ==> k in e.columns && e.columns[k] == d.columns[k]
  {
    Device(d.deviceId, d.columns["last_check_time" := Number(now)]["health_status" := Text(if overallHealth.Some? then overallHealth.value else "unknown")])
  }

  // ---------------------------------------------------------------- the store

  class MonitoringStore {
    var alerts: seq<StoredAlert>
    var nextAlertId: int
    var logs: seq<StoredLog>
    var nextLogId: int

    ghost predicate Valid()
      reads this
    {
      KeysFresh(alerts, nextAlertId) && LogKeysFresh(logs, nextLogId)
    }

    constructor ()
      ensures Valid() && alerts == [] && logs == [] && nextAlertId == 1 && nextLogId == 1
    {
      alerts := [];
      nextAlertId := 1;
      logs := [];
      nextLogId := 1;
    }

    /** The alert loop of `save_monitoring_result`; lookups go to the rows committed before it. */
    method SaveReportedAlerts(rules: seq<Rule>, businessType: Cell, deviceId: int, reported: seq<ReportedAlert>, now: int)
      modifies this`alerts, this`nextAlertId
      ensures var p := SaveAlerts(old(alerts), old(nextAlertId), deviceId, businessType, rules, reported, now);
        alerts == p.alerts && nextAlertId == p.nextId
      ensures old(KeysFresh(alerts, nextAlertId)) ==> KeysFresh(alerts, nextAlertId)
    {
      var committed := alerts;
      ghost var startId := nextAlertId;
      var i := 0;
      while i < |reported|
        invariant 0 <= i <= |reported|
        invariant Pending(alerts, nextAlertId) == SaveAlerts(committed, startId, deviceId, businessType, rules, reported[..i], now)
      {
        var r := reported[i];
        assert reported[..i + 1][..i] == reported[..i];
        var existing := FindOpen(committed, deviceId, r);
        if existing.Some? {
          alerts := alerts[existing.value := Refreshed(alerts[existing.value], r, now)];
        } else {
          var alertType := DetermineAlertType(rules, businessType, Text(r.componentType));
          alerts := alerts + [NewAlert(nextAlertId, deviceId, r, alertType)];
          nextAlertId := nextAlertId + 1;
        }
        i := i + 1;
      }
      assert reported[..i] == reported;
      if KeysFresh(committed, startId) {
        SavedKeysFresh(committed, startId, deviceId, businessType, rules, reported, now);
      }
    }

    /**
     * `save_monitoring_result`: the first device row with the id gets the
     * check time and health; each reported alert refreshes the committed
     * active alert of its component or inserts a new one typed by the rules;
     * each log becomes a row.
     */
    method SaveMonitoringResult(devices: DeviceTable, rules: seq<Rule>, businessType: Cell, result: MonitoringResult, now: int)
      modifies this, devices`rows
      ensures var p := SaveAlerts(old(alerts), old(nextAlertId), result.deviceId, businessType, rules, result.alerts, now);
        alerts == p.alerts && nextAlertId == p.nextId
      ensures logs == old(logs) + NewLogs(result.deviceId, result.logs, old(nextLogId))
      ensures nextLogId == old(nextLogId) + |result.logs|
      ensures devices.rows == CheckedRows(old(devices.rows), result.deviceId, result.overallHealth, now)
      ensures old(Valid()) ==> Valid()
      ensures old(devices.Valid()) ==> devices.Valid()
    {
      MarkChecked(devices, result.deviceId, result.overallHealth, now);
      SaveReportedAlerts(rules, businessType, result.deviceId, result.alerts, now);
      logs := logs + NewLogs(result.deviceId, result.logs, nextLogId);
      nextLogId := nextLogId + |result.logs|;
    }

    /** `monitor_single_device` after the monitor returned: a successful result is stored. */
    method MonitorSingleDevice(devices: DeviceTable, rules: seq<Rule>, businessType: Cell, result: MonitoringResult, now: int)
      returns (r: MonitoringResult)
      modifies this, devices`rows
      ensures r == result
      ensures !result.success ==> alerts == old(alerts) && logs == old(logs) && nextAlertId == old(nextAlertId) &&
                                  nextLogId == old(nextLogId) && devices.rows == old(devices.rows)
      ensures result.success ==>
        alerts == SaveAlerts(old(alerts), old(nextAlertId), result.deviceId, businessType, rules, result.alerts, now).alerts &&
        logs == old(logs) + NewLogs(result.deviceId, result.logs, old(nextLogId))
      ensures old(Valid()) ==> Valid()
      ensures old(devices.Valid()) ==> devices.Valid()
    {
      if result.success {
        SaveMonitoringResult(devices, rules, businessType, result, now);
      }
      r := result;
    }

    /**
     * `cleanup_old_logs`: logs older than the cut-off go, and so do resolved
     * or closed alerts resolved before it; the counts are what went.
     */
    method CleanupOldLogs(days: int, now: int) returns (deletedLogs: nat, deletedAlerts: nat)
      modifies this`logs, this`alerts
      ensures var cutoff := now - days * SecondsPerDay;
        && (forall l :: l in logs <==> l in old(logs) && !(l.occurrenceTime < cutoff))
        && (forall a :: a in alerts <==> a in old(alerts) && !Expired(a, cutoff))
        && deletedLogs + |logs| == |old(logs)| && deletedAlerts + |alerts| == |old(alerts)|
      ensures old(Valid()) ==> Valid()
    {
      var cutoff := now - days * SecondsPerDay;
      var keepLog := (l: StoredLog) => !(l.occurrenceTime < cutoff);
      var keepAlert := (a: StoredAlert) => !Expired(a, cutoff);
      var keptLogs := FilterSeq(logs, keepLog);
      var keptAlerts := FilterSeq(alerts, keepAlert);
      forall l | l in logs && keepLog(l) ensures l in keptLogs {
        FilterSeqComplete(logs, keepLog, l);
      }
      forall a | a in alerts && keepAlert(a) ensures a in keptAlerts {
        FilterSeqComplete(alerts, keepAlert, a);
      }
      if Valid() {
        FilterKeepsFresh(alerts, nextAlertId, keepAlert);
        FilterKeepsFreshLogs(logs, nextLogId, keepLog);
      }
      deletedLogs := |logs| - |keptLogs|;
      deletedAlerts := |alerts| - |keptAlerts|;
      logs := keptLogs;
      alerts := keptAlerts;
    }
  }

  /** An alert the clean-up removes: resolved or closed, resolved before the cut-off. */
  predicate Expired(a: StoredAlert, cutoff: int) {
    a.resolvedTime.Some? && a.resolvedTime.value < cutoff && (a.alertStatus == "resolved" || a.alertStatus == "closed")
  }

  /** The loop's lookup: the first committed active alert of the component. */
  method FindOpen(committed: seq<StoredAlert>, deviceId: int, r: ReportedAlert) returns (found: Option<nat>)
    ensures found == ExistingFor(committed, deviceId, r)
  {
    var p := (a: StoredAlert) => OpenFor(a, deviceId, r);
    var i := 0;
    while i < |committed|
      invariant 0 <= i <= |committed|
      invariant forall j :: 0 <= j < i ==> !p(committed[j])
    {
      if p(committed[i]) {
        FirstWhereIs(committed, p, i);
        return Some(i);
      }
      i := i + 1;
    }
    return None;
  }

  /** The device rows after a check of `deviceId`: the first row with the id is marked checked. */
  function CheckedRows(rows: seq<Device>, deviceId: int, overallHealth: Option<string>, now: int): (r: seq<Device>)
    ensures |r| == |rows|
  {
    match FirstWhere(rows, (d: Device) => d.deviceId == deviceId)
    case None => rows
    case Some(i) => rows[i := Checked(rows[i], overallHealth, now)]
  }

  /** The device update of `save_monitoring_result`. */
  method MarkChecked(devices: DeviceTable, deviceId: int, overallHealth: Option<string>, now: int)
    modifies devices`rows
    ensures devices.rows == CheckedRows(old(devices.rows), deviceId, overallHealth, now)
    ensures forall k :: 0 <= k < |devices.rows| ==> devices.rows[k].deviceId == old(devices.rows)[k].deviceId
    ensures old(devices.Valid()) ==> devices.Valid()
  {
    var found := devices.IndexOf(deviceId);
    if found.Some? {
      FirstWhereIs(devices.rows, (d: Device) => d.deviceId == deviceId, found.value);
      devices.rows := devices.rows[found.value := Checked(devices.rows[found.value], overallHealth, now)];
    } else {
      assert FirstWhere(devices.rows, (d: Device) => d.deviceId == deviceId).None?;
    }
  }

  /** A filter keeps keys unique and fresh. */
  lemma FilterKeepsFresh(alerts: seq<StoredAlert>, nextId: int, p: StoredAlert -> bool)
    requires KeysFresh(alerts, nextId)
    ensures KeysFresh(FilterSeq(alerts, p), nextId)
  {
    var apart := (a: StoredAlert, b: StoredAlert) => a.alertId != b.alertId;
    assert forall i, j :: 0 <= i < j < |alerts| ==> apart(alerts[i], alerts[j]);
    FilterSeqPairwise(alerts, p, apart);
    var r := FilterSeq(alerts, p);
    assert forall i :: 0 <= i < |r| ==> r[i] in alerts;
  }

  lemma FilterKeepsFreshLogs(logs: seq<StoredLog>, nextId: int, p: StoredLog -> bool)
    requires LogKeysFresh(logs, nextId)
    ensures LogKeysFresh(FilterSeq(logs, p), nextId)
  {
    var apart := (a: StoredLog, b: StoredLog) => a.logId != b.logId;
    assert forall i, j :: 0 <= i < j < |logs| ==> apart(logs[i], logs[j]);
    FilterSeqPairwise(logs, p, apart);
    var r := FilterSeq(logs, p);
    assert forall i :: 0 <= i < |r| ==> r[i] in logs;
  }

  // ---------------------------------------------------------------- batch summary

  /** The dictionary `monitor_all_devices` returns; `Errored` is its exception branch. */
  datatype BatchSummary =
    | NoDevices
    | Completed(totalDevices: nat, successCount: nat, failedCount: nat, outcomes: seq<bool>)
    | Errored

  /**
   * `monitor_all_devices` given the per-task success flags the Celery group
   * returns (None when collecting them raised, e.g. on the timeout): no
   * monitored device gives success with total 0; otherwise successes and
   * failures add up to the results.
   */
  function MonitorAllDevices(devices: seq<Device>, outcomes: Option<seq<bool>>): (r: BatchSummary)
    ensures r.NoDevices? <==> forall d :: d in devices ==> !Monitored(d)
    ensures r.Errored? <==> (exists d :: d in devices && Monitored(d)) && outcomes.None?
    ensures r.Completed? ==>
      && r.totalDevices == |MonitoringDevices(devices)| > 0
      && r.outcomes == outcomes.value
      && r.successCount + r.failedCount == |r.outcomes|
      && (r.failedCount == 0 <==> forall k :: 0 <= k < |r.outcomes| ==> r.outcomes[k])
      && (r.successCount == 0 <==> forall k :: 0 <= k < |r.outcomes| ==> !r.outcomes[k])
  {
    var monitored := FilterSeq(devices, Monitored);
    if monitored == [] then
      NoneMatch(devices, Monitored);
      NoDevices
    else
      assert monitored[0] in monitored;
      match outcomes
      case None => Errored
      case Some(results) =>
        var success := CountIf(results, (b: bool) => b);
        SuccessCount(results);
        Completed(|monitored|, success, |results| - success, results)
  }

  /** The success count is all of the results exactly when none failed, and zero exactly when none succeeded. */
  lemma {:induction false} SuccessCount(results: seq<bool>)
    ensures CountIf(results, (b: bool) => b) == |results| <==> forall k :: 0 <= k < |results| ==> results[k]
    ensures CountIf(results, (b: bool) => b) == 0 <==> forall k :: 0 <= k < |results| ==> !results[k]
  {
    if results != [] {
      SuccessCount(results[1..]);
      assert forall k :: 1 <= k < |results| ==> results[k] == results[1..][k - 1];
    }
  }
}
