/**
 * Alert urgency from the urgency rules: the lookup for one device and
 * component type with its 'scheduled' default, the lookup by alert, the
 * batch re-evaluation with its counters and the per-device split into
 * urgent and scheduled alerts.
 */
module AlertUrgencyService {
  import opened Basics
  import opened Records
  import opened DeviceDao
  import opened BusinessRuleDao

  /** The alert columns these queries select. */
  datatype AlertRow = AlertRow(alertId: int, deviceId: int, componentType: Cell, alertStatus: Cell)

  /** Why a level was chosen; the exception text itself is not kept. */
  datatype Reason = NoDevice | NoAlert | MatchedRule(description: string) | NoRule | QueryFailed

  /** The dictionary the lookup returns. */
  datatype UrgencyInfo = UrgencyInfo(urgencyLevel: Cell, matched: bool, reason: Reason, ruleId: Option<int>)

  /** `.first()` over the device rows with that id. */
  function FirstDevice(devices: seq<Device>, deviceId: int): (r: Option<Device>)
    ensures r.None? <==> forall d :: d in devices ==> d.deviceId != deviceId
    ensures r.Some? ==> r.value in devices && r.value.deviceId == deviceId
  {
    match FirstWhere(devices, (d: Device) => d.deviceId == deviceId)
    case None => None
    case Some(i) => Some(devices[i])
  }

  const DefaultInfo := UrgencyInfo(Text("scheduled"), false, QueryFailed, None)

  /** The rule query of the lookup: the device's business type and the upper-cased component type. */
  function LookupFor(device: Device, rules: seq<Rule>, componentType: string): Lookup<Rule> {
    ActiveRuleFor(rules, ColumnOf(device.columns, "business_type"), Text(Upper(componentType)))
  }

  /**
   * `get_alert_urgency_by_device_and_component`: an unknown device, no
   * rule, or an exception (a non-text component type, several rules) gives
   * 'scheduled' unmatched; an active rule for the device's business type and
   * the upper-cased component type gives its level and id.
   */
  function UrgencyByDeviceAndComponent(devices: seq<Device>, rules: seq<Rule>, deviceId: int, componentType: Cell): (r: UrgencyInfo)
    ensures !r.matched ==> r.urgencyLevel == Text("scheduled") && r.ruleId == None
    ensures FirstDevice(devices, deviceId).None? ==> r == UrgencyInfo(Text("scheduled"), false, NoDevice, None)
    ensures r.matched <==>
      FirstDevice(devices, deviceId).Some? && componentType.Text? &&
      LookupFor(FirstDevice(devices, deviceId).value, rules, componentType.s).Found?
    ensures r.matched ==>
      var rule := LookupFor(FirstDevice(devices, deviceId).value, rules, componentType.s).row;
      && rule in rules && Active(rule)
      && BusinessType(rule) == ColumnOf(FirstDevice(devices, deviceId).value.columns, "business_type")
      && HardwareType(rule) == Text(Upper(componentType.s))
      && r.urgencyLevel == UrgencyLevel(rule) && r.ruleId == Some(rule.ruleId)
  {
    match FirstDevice(devices, deviceId)
    case None => UrgencyInfo(Text("scheduled"), false, NoDevice, None)
    case Some(device) =>
      if !componentType.Text? then DefaultInfo
      else
        match LookupFor(device, rules, componentType.s)
        case Found(rule) =>
          var description := ColumnOf(rule.columns, "description");
          UrgencyInfo(UrgencyLevel(rule), true, MatchedRule(if NonEmptyText(description) then description.s else ""), Some(rule.ruleId))
        case NoRow => UrgencyInfo(Text("scheduled"), false, NoRule, None)
        case Raised => DefaultInfo
  }

  /** Under unique pairs the lookup matches exactly when an active rule holds the pair. */
  lemma MatchedIffActiveRule(devices: seq<Device>, rules: seq<Rule>, deviceId: int, componentType: string, device: Device)
    requires PairsUnique(rules) && FirstDevice(devices, deviceId) == Some(device)
    requires ColumnOf(device.columns, "business_type").Text?
    ensures UrgencyByDeviceAndComponent(devices, rules, deviceId, Text(componentType)).matched <==>
      exists x :: x in rules && Active(x) && IsPair(x, ColumnOf(device.columns, "business_type"), Text(Upper(componentType)))
  {
  }

  /** The position of the first alert row with that id. */
  function FirstAlert(alerts: seq<AlertRow>, alertId: int): (r: Option<nat>)
    ensures r.None? <==> forall a :: a in alerts ==> a.alertId != alertId
    ensures r.Some? ==> r.value < |alerts| && alerts[r.value].alertId == alertId &&
                        forall j :: 0 <= j < r.value ==> alerts[j].alertId != alertId
  {
    FirstWhere(alerts, (a: AlertRow) => a.alertId == alertId)
  }

  /**
   * `get_alert_urgency_by_alert_id`: an unknown alert is 'scheduled'
   * unmatched; otherwise the device and component of the first alert with
   * that id decide.
   */
  function UrgencyByAlertId(alerts: seq<AlertRow>, devices: seq<Device>, rules: seq<Rule>, alertId: int): (r: UrgencyInfo)
    ensures (forall a :: a in alerts ==> a.alertId != alertId) ==> r == UrgencyInfo(Text("scheduled"), false, NoAlert, None)
    ensures FirstAlert(alerts, alertId).Some? ==>
      var a := alerts[FirstAlert(alerts, alertId).value];
      r == UrgencyByDeviceAndComponent(devices, rules, a.deviceId, a.componentType)
    ensures !r.matched ==> r.urgencyLevel == Text("scheduled") && r.ruleId == None
    ensures r.matched ==>
      exists a :: (a in alerts && a.alertId == alertId &&
                   r == UrgencyByDeviceAndComponent(devices, rules, a.deviceId, a.componentType))
  {
    if alerts == [] then UrgencyInfo(Text("scheduled"), false, NoAlert, None)
    else if alerts[0].alertId == alertId then UrgencyByDeviceAndComponent(devices, rules, alerts[0].deviceId, alerts[0].componentType)
    else
      assert forall a :: a in alerts ==> a == alerts[0] || a in alerts[1..];
      UrgencyByAlertId(alerts[1..], devices, rules, alertId)
  }

  // ---------------------------------------------------------------- batch

  /** The alerts the batch query selects: listed alerts first, else listed devices, else every active alert. */
  predicate Selects(a: AlertRow, alertIds: seq<int>, deviceIds: seq<int>) {
    if alertIds != [] then a.alertId in alertIds
    else if deviceIds != [] then a.deviceId in deviceIds
    else a.alertStatus == Text("active")
  }

  function Selection(alerts: seq<AlertRow>, alertIds: seq<int>, deviceIds: seq<int>): (r: seq<AlertRow>)
    ensures forall a :: a in r <==> a in alerts && Selects(a, alertIds, deviceIds)
    ensures |r| <= |alerts|
  {
    if alerts == [] then []
    else
      assert forall a :: a in alerts ==> a == alerts[0] || a in alerts[1..];
      (if Selects(alerts[0], alertIds, deviceIds) then [alerts[0]] else []) + Selection(alerts[1..], alertIds, deviceIds)
  }

  predicate IsUrgent(devices: seq<Device>, rules: seq<Rule>, deviceId: int, a: AlertRow) {
    UrgencyByDeviceAndComponent(devices, rules, deviceId, a.componentType).urgencyLevel == Text("urgent")
  }

  /** How many alerts come out urgent, each looked up on its own device. */
  function CountUrgent(devices: seq<Device>, rules: seq<Rule>, alerts: seq<AlertRow>): (n: nat)
    ensures n <= |alerts|
  {
    if alerts == [] then 0
    else CountUrgent(devices, rules, alerts[..|alerts| - 1]) + (if IsUrgent(devices, rules, alerts[|alerts| - 1].deviceId, alerts[|alerts| - 1]) then 1 else 0)
  }

  /** A rule-less setup leaves every alert scheduled. */
  lemma {:induction false} NoRulesNoUrgent(devices: seq<Device>, alerts: seq<AlertRow>)
    ensures CountUrgent(devices, [], alerts) == 0
  {
    if alerts != [] {
      NoRulesNoUrgent(devices, alerts[..|alerts| - 1]);
      var a := alerts[|alerts| - 1];
      if FirstDevice(devices, a.deviceId).Some? && a.componentType.Text? {
        var p := (x: Rule) => IsPair(x, Text(""), Text("")) && Active(x);
        assert CountIf([], p) == 0;
      }
    }
  }

  datatype BatchResult = BatchResult(success: bool, totalCount: nat, updatedCount: nat, urgentCount: nat,
                                     scheduledCount: nat, errorCount: nat)

  /**
   * `batch_update_alert_urgency`: every selected alert is looked up and
   * counted once, as urgent or scheduled; the lookup catches its own
   * exceptions, so none is counted as an error.
   */
  method BatchUpdateAlertUrgency(alerts: seq<AlertRow>, devices: seq<Device>, rules: seq<Rule>,
                                 alertIds: seq<int>, deviceIds: seq<int>) returns (r: BatchResult)
    ensures var selected := Selection(alerts, alertIds, deviceIds);
      && r.success && r.totalCount == |selected|
      && r.updatedCount + r.errorCount == r.totalCount
      && r.urgentCount + r.scheduledCount == r.updatedCount
      && r.urgentCount == CountUrgent(devices, rules, selected)
      && r.errorCount == 0
  {
    var selected := Selection(alerts, alertIds, deviceIds);
    var updated, urgent, scheduled, errors := 0, 0, 0, 0;
    var i := 0;
    while i < |selected|
      invariant 0 <= i <= |selected|
      invariant updated == i && errors == 0
      invariant urgent + scheduled == updated
      invariant urgent == CountUrgent(devices, rules, selected[..i])
    {
      var alert := selected[i];
      var info := UrgencyByDeviceAndComponent(devices, rules, alert.deviceId, alert.componentType);
      if info.urgencyLevel == Text("urgent") {
        urgent := urgent + 1;
      } else {
        scheduled := scheduled + 1;
      }
      updated := updated + 1;
      assert selected[..i + 1][..i] == selected[..i];
      i := i + 1;
    }
    assert selected[..i] == selected;
    r := BatchResult(true, |selected|, updated, urgent, scheduled, errors);
  }

  // ---------------------------------------------------------------- per device

  /** One alert in the per-device statistics. */
  datatype AlertData = AlertData(alertId: int, componentType: Cell, urgencyLevel: Cell, matched: bool, ruleId: Option<int>)

  datatype DeviceStatistics = DeviceStatistics(deviceId: int, totalAlerts: nat, urgentCount: nat, scheduledCount: nat,
                                               urgentAlerts: seq<AlertData>, scheduledAlerts: seq<AlertData>)

  /** The device's active alerts, in table order. */
  function ActiveOfDevice(alerts: seq<AlertRow>, deviceId: int): (r: seq<AlertRow>)
    ensures forall a :: a in r <==> a in alerts && a.deviceId == deviceId && a.alertStatus == Text("active")
  {
    if alerts == [] then []
    else
      assert forall a :: a in alerts ==> a == alerts[0] || a in alerts[1..];
      (if alerts[0].deviceId == deviceId && alerts[0].alertStatus == Text("active") then [alerts[0]] else [])
        + ActiveOfDevice(alerts[1..], deviceId)
  }

  function DataOf(devices: seq<Device>, rules: seq<Rule>, deviceId: int, a: AlertRow): AlertData {
    var info := UrgencyByDeviceAndComponent(devices, rules, deviceId, a.componentType);
    AlertData(a.alertId, a.componentType, info.urgencyLevel, info.matched, info.ruleId)
  }

  /** The alerts of one side of the split, in order. */
  function Side(devices: seq<Device>, rules: seq<Rule>, deviceId: int, alerts: seq<AlertRow>, urgent: bool): seq<AlertData> {
    if alerts == [] then []
    else
      var last := alerts[|alerts| - 1];
      Side(devices, rules, deviceId, alerts[..|alerts| - 1], urgent) +
        (if IsUrgent(devices, rules, deviceId, last) == urgent then [DataOf(devices, rules, deviceId, last)] else [])
  }

  /** The two sides together hold every alert once. */
  lemma {:induction false} SidesPartition(devices: seq<Device>, rules: seq<Rule>, deviceId: int, alerts: seq<AlertRow>)
    ensures |Side(devices, rules, deviceId, alerts, true)| + |Side(devices, rules, deviceId, alerts, false)| == |alerts|
    ensures multiset(Side(devices, rules, deviceId, alerts, true) + Side(devices, rules, deviceId, alerts, false)) ==
            multiset(seq(|alerts|, k requires 0 <= k < |alerts| => DataOf(devices, rules, deviceId, alerts[k])))
  {
    if alerts != [] {
      var init := alerts[..|alerts| - 1];
      SidesPartition(devices, rules, deviceId, init);
      var all := seq(|alerts|, k requires 0 <= k < |alerts| => DataOf(devices, rules, deviceId, alerts[k]));
      var front := seq(|init|, k requires 0 <= k < |init| => DataOf(devices, rules, deviceId, init[k]));
      assert all == front + [DataOf(devices, rules, deviceId, alerts[|alerts| - 1])];
    }
  }

  /**
   * `get_urgency_statistics_by_device`: the device's active alerts split
   * into urgent and the rest, so the two counts add up to the total.
   */
  method UrgencyStatisticsByDevice(alerts: seq<AlertRow>, devices: seq<Device>, rules: seq<Rule>, deviceId: int)
    returns (r: DeviceStatistics)
    ensures var mine := ActiveOfDevice(alerts, deviceId);
      && r.totalAlerts == |mine|
      && r.urgentCount + r.scheduledCount == r.totalAlerts
      && r.urgentAlerts == Side(devices, rules, deviceId, mine, true)
      && r.scheduledAlerts == Side(devices, rules, deviceId, mine, false)
      && r.urgentCount == |r.urgentAlerts| && r.scheduledCount == |r.scheduledAlerts|
      && (forall d :: d in r.urgentAlerts ==> d.urgencyLevel == Text("urgent"))
      && (forall d :: d in r.scheduledAlerts ==> d.urgencyLevel != Text("urgent"))
  {
    var mine := ActiveOfDevice(alerts, deviceId);
    var urgentAlerts: seq<AlertData> := [];
    var scheduledAlerts: seq<AlertData> := [];
    var i := 0;
    while i < |mine|
      invariant 0 <= i <= |mine|
      invariant urgentAlerts == Side(devices, rules, deviceId, mine[..i], true)
      invariant scheduledAlerts == Side(devices, rules, deviceId, mine[..i], false)
    {
      var alert := mine[i];
      var info := UrgencyByDeviceAndComponent(devices, rules, deviceId, alert.componentType);
      var data := AlertData(alert.alertId, alert.componentType, info.urgencyLevel, info.matched, info.ruleId);
      if info.urgencyLevel == Text("urgent") {
        urgentAlerts := urgentAlerts + [data];
      } else {
        scheduledAlerts := scheduledAlerts + [data];
      }
      assert mine[..i + 1][..i] == mine[..i];
      i := i + 1;
    }
    assert mine[..i] == mine;
    SidesPartition(devices, rules, deviceId, mine);
    SideLevels(devices, rules, deviceId, mine);
    r := DeviceStatistics(deviceId, |mine|, |urgentAlerts|, |scheduledAlerts|, urgentAlerts, scheduledAlerts);
  }

  /** Each side holds only alerts of its level. */
  lemma {:induction false} SideLevels(devices: seq<Device>, rules: seq<Rule>, deviceId: int, alerts: seq<AlertRow>)
    ensures forall d :: d in Side(devices, rules, deviceId, alerts, true) ==> d.urgencyLevel == Text("urgent")
    ensures forall d :: d in Side(devices, rules, deviceId, alerts, false) ==> d.urgencyLevel != Text("urgent")
  {
    if alerts != [] {
      SideLevels(devices, rules, deviceId, alerts[..|alerts| - 1]);
    }
  }
}
