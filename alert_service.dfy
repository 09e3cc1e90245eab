/**
 * The alert service's own logic: the per-device alert list, the Excel
 * export formatting, the maintenance-update dictionaries, their replies,
 * and the `hasNext` flag of the maintenance list.
 */
module AlertService {
  import opened Basics
  import opened Records
  import opened Exports
  import opened Dates
  import AlertDao
  import DeviceDao

  type Alert = AlertDao.Alert
  type Device = DeviceDao.Device

  // ---------------------------------------------------------------- get_device_alerts_services

  /** Alerts whose device row exists: the inner join of `get_alert_list`. */
  predicate Joined(devices: seq<Device>, a: Alert) {
    exists d :: d in devices && d.deviceId == a.deviceId
  }

  /**
   * The rows `get_device_alerts_services(device_id)` lists as written. Its
   * query model is built with field names (`device_id`, `status`,
   * `page_num`) while the model validates camel-case aliases only, so no
   * filter is set and every joined alert comes back, whatever the device.
   */
  function DeviceAlerts(alerts: seq<Alert>, devices: seq<Device>, deviceId: int): (r: seq<Alert>)
    ensures forall a :: a in r <==> a in alerts && Joined(devices, a)
  {
    var joined := (a: Alert) => Joined(devices, a);
    FilterSeqMembers(alerts, joined);
    FilterSeq(alerts, joined)
  }

  /** As written, every device is credited with every alert: two devices show the same count. */
  lemma AlertCountIgnoresDevice(alerts: seq<Alert>, devices: seq<Device>, deviceId: int, other: int)
    ensures |DeviceAlerts(alerts, devices, deviceId)| == |DeviceAlerts(alerts, devices, other)|
  {
  }

  /** A concrete case: one active alert on device 1, and device 2 is credited with it. */
  lemma OtherDeviceCreditedWithAlert(a: Alert, d1: Device, d2: Device)
    requires a.deviceId == 1 && a.alertStatus == "active" && d1.deviceId == 1 && d2.deviceId == 2
    ensures DeviceAlerts([a], [d1, d2], 2) == [a]
  {
    assert Joined([d1, d2], a) by {
      assert d1 in [d1, d2];
    }
  }

  /** `get_device_alerts_services` as intended: the device's own active alerts. */
  function CorrectedDeviceAlerts(alerts: seq<Alert>, devices: seq<Device>, deviceId: int): (r: seq<Alert>)
    ensures forall a :: a in r <==> a in alerts && Joined(devices, a) && a.deviceId == deviceId && a.alertStatus == "active"
  {
    var own := (a: Alert) => Joined(devices, a) && a.deviceId == deviceId && a.alertStatus == "active";
    FilterSeqMembers(alerts, own);
    FilterSeq(alerts, own)
  }

  /** Corrected, each alert counts for its own device only: two devices' counts never exceed the alerts. */
  lemma CorrectedCountsSplit(alerts: seq<Alert>, devices: seq<Device>, deviceId: int, other: int)
    requires deviceId != other
    ensures |CorrectedDeviceAlerts(alerts, devices, deviceId)| + |CorrectedDeviceAlerts(alerts, devices, other)| <= |alerts|
  {
    var p := (a: Alert) => Joined(devices, a) && a.deviceId == deviceId && a.alertStatus == "active";
    var q := (a: Alert) => Joined(devices, a) && a.deviceId == other && a.alertStatus == "active";
    CountIsFilterLength(alerts, p);
    CountIsFilterLength(alerts, q);
    AlertDao.DisjointCounts(alerts, p, q);
  }


  // ---------------------------------------------------------------- export formatting

  /** `mapping.get(value, default)` after an `if value:` test; only text keys can match. */
  function Label(mapping: map<string, string>, c: Cell, default: string): (t: string)
    ensures c.Text? && c.s in mapping && c.s != "" ==> t == mapping[c.s]
    ensures !(c.Text? && c.s in mapping) ==> t == default
  {
    if CellTruthy(c) && c.Text? && c.s in mapping then mapping[c.s] else default
  }

  const UrgencyLabels: map<string, string> := map["urgent" := "紧急", "scheduled" := "择期"]

  /** The urgency column: 紧急 and 择期 for the two known levels, 未知 for anything else or nothing. */
  function UrgencyText(c: Cell): (t: string)
    ensures t == "紧急" <==> c == Text("urgent")
    ensures t == "择期" <==> c == Text("scheduled")
    ensures t == "未知" <==> c != Text("urgent") && c != Text("scheduled")
  {
    Label(UrgencyLabels, c, "未知")
  }

  const AlertHealthLabels: map<string, string> := map[
    "OK" := "正常", "ok" := "正常",
    "Warning" := "警告", "warning" := "警告",
    "Critical" := "警告", "critical" := "警告",
    "Unknown" := "未知", "unknown" := "未知"]

  /**
   * The health column: 正常 for OK in either case, 未知 for Unknown in
   * either case, and 警告 for everything else, a missing value included.
   */
  function AlertHealthText(c: Cell): (t: string)
    ensures t == "正常" <==> c == Text("OK") || c == Text("ok")
    ensures t == "未知" <==> c == Text("Unknown") || c == Text("unknown")
    ensures t == "警告" <==> c != Text("OK") && c != Text("ok") && c != Text("Unknown") && c != Text("unknown")
  {
    Label(AlertHealthLabels, c, "警告")
  }

  const AlertStatusLabels: map<string, string> := map["active" := "活跃", "resolved" := "已解决", "ignored" := "已忽略"]

  /** The status column: the three known states by name, 未知 for anything else or nothing. */
  function AlertStatusText(c: Cell): (t: string)
    ensures t == "活跃" <==> c == Text("active")
    ensures t == "已解决" <==> c == Text("resolved")
    ensures t == "已忽略" <==> c == Text("ignored")
    ensures t == "未知" <==> c != Text("active") && c != Text("resolved") && c != Text("ignored")
  {
    Label(AlertStatusLabels, c, "未知")
  }

  const MaintenanceStatusLabels: map<string, string> := map[
    "none" := "未安排", "planned" := "已计划", "in_progress" := "进行中",
    "completed" := "已完成", "cancelled" := "已取消"]

  /** The maintenance column: 未安排 for none, for unknown values and for nothing. */
  function MaintenanceStatusText(c: Cell): (t: string)
    ensures t == "已计划" <==> c == Text("planned")
    ensures t == "进行中" <==> c == Text("in_progress")
    ensures t == "已完成" <==> c == Text("completed")
    ensures t == "已取消" <==> c == Text("cancelled")
    ensures t == "未安排" <==> c != Text("planned") && c != Text("in_progress") && c != Text("completed") && c != Text("cancelled")
  {
    Label(MaintenanceStatusLabels, c, "未安排")
  }

  const AlertTimeFields: set<string> := {"firstOccurrence", "lastOccurrence", "scheduledMaintenanceTime", "createTime", "updateTime"}

  /**
   * One time field of an alert export. `if time_value:` blanks NULL and
   * ''; a non-empty string is kept; a datetime, held here as its seconds
   * and truthy whatever its value, prints as `%Y-%m-%d %H:%M:%S`.
   */
  function AlertTime(c: Cell): (r: Cell)
    ensures NonEmptyText(c) ==> r == c
    ensures c == SqlNull || c == Text("") ==> r == Text("")
    ensures c.Number? && FormatSeconds(c.n).Some? ==>
      r.Text? && DateTimeShaped(r.s) && ValidDateTime(ReadBack(r.s)) && SecondsOf(ReadBack(r.s)) == c.n
    ensures c.Number? && FormatSeconds(c.n).None? ==> r == Text("")
  {
    match c
    case Number(t) => Text(if FormatSeconds(t).Some? then FormatSeconds(t).value else "")
    case _ => if NonEmptyText(c) then c else Text("")
  }

  const AlertLabelFields: set<string> := {"urgencyLevel", "healthStatus", "alertStatus", "maintenanceStatus"}

  /** The formatting `export_alert_list_services` applies to one alert dictionary. */
  function FormatAlert(item: Record): (r: Record)
    ensures forall k :: k in r <==> k in item || k in AlertLabelFields || k in AlertTimeFields
    ensures r["urgencyLevel"] == Text(UrgencyText(ColumnOf(item, "urgencyLevel")))
    ensures r["healthStatus"] == Text(AlertHealthText(ColumnOf(item, "healthStatus")))
    ensures r["alertStatus"] == Text(AlertStatusText(ColumnOf(item, "alertStatus")))
    ensures r["maintenanceStatus"] == Text(MaintenanceStatusText(ColumnOf(item, "maintenanceStatus")))
    ensures forall f :: f in AlertTimeFields ==> r[f] == AlertTime(ColumnOf(item, f))
    ensures forall k :: k in item && k !in AlertLabelFields && k !in AlertTimeFields ==> r[k] == item[k]
  {
    assert forall f :: f in AlertTimeFields ==> f !in AlertLabelFields;
    Relabelled(TimeStamped(item), item)
  }

  /** The four label columns of `item` rewritten as text over `base`. */
  function Relabelled(base: Record, item: Record): (r: Record)
    ensures forall k :: k in r <==> k in base || k in AlertLabelFields
    ensures r["urgencyLevel"] == Text(UrgencyText(ColumnOf(item, "urgencyLevel")))
    ensures r["healthStatus"] == Text(AlertHealthText(ColumnOf(item, "healthStatus")))
    ensures r["alertStatus"] == Text(AlertStatusText(ColumnOf(item, "alertStatus")))
    ensures r["maintenanceStatus"] == Text(MaintenanceStatusText(ColumnOf(item, "maintenanceStatus")))
    ensures forall k :: k in base && k !in AlertLabelFields ==> r[k] == base[k]
  {
    base["urgencyLevel" := Text(UrgencyText(ColumnOf(item, "urgencyLevel")))]
        ["healthStatus" := Text(AlertHealthText(ColumnOf(item, "healthStatus")))]
        ["alertStatus" := Text(AlertStatusText(ColumnOf(item, "alertStatus")))]
        ["maintenanceStatus" := Text(MaintenanceStatusText(ColumnOf(item, "maintenanceStatus")))]
  }

  /** The loop over the time fields. */
  function TimeStamped(item: Record): (r: Record)
    ensures r.Keys == item.Keys + AlertTimeFields
    ensures forall f :: f in AlertTimeFields ==> r[f] == AlertTime(ColumnOf(item, f))
    ensures forall k :: k in item && k !in AlertTimeFields ==> r[k] == item[k]
  {
    item + map f | f in AlertTimeFields :: AlertTime(ColumnOf(item, f))
  }

  /**
   * The rows `export_alert_list_services` writes to the sheet: every
   * convertible alert formatted, numbered with its 1-based input position.
   */
  method ExportAlertRows(items: seq<Option<Record>>) returns (processed: seq<Record>)
    ensures |processed| == |Kept(items)|
    ensures forall k :: 0 <= k < |processed| ==>
      processed[k] == Numbered(FormatAlert(items[Kept(items)[k]].value), Kept(items)[k])
  {
    processed := ProcessRows(items, FormatAlert);
  }

  /** Every exported row carries all sixteen sheet columns' formatted fields and its serial number. */
  lemma ExportedRowShape(item: Record, position: nat)
    ensures AlertLabelFields + AlertTimeFields + {"serialNo"} <= Numbered(FormatAlert(item), position).Keys
    ensures Numbered(FormatAlert(item), position)["urgencyLevel"] in
      {Text("紧急"), Text("择期"), Text("未知")}
  {
    var f := FormatAlert(item);
    assert AlertLabelFields + AlertTimeFields <= f.Keys;
    assert "urgencyLevel" != "serialNo";
    var t := UrgencyText(ColumnOf(item, "urgencyLevel"));
    assert t == "紧急" || t == "择期" || t == "未知";
    assert f["urgencyLevel"] == Text(t);
  }

  // ---------------------------------------------------------------- maintenance updates

  /** The four optional fields of `MaintenanceUpdateModel` and `BatchMaintenanceUpdateModel`; NULL is `None`. */
  datatype MaintenanceUpdate = MaintenanceUpdate(
    scheduledMaintenanceTime: Cell,
    maintenanceDescription: Cell,
    maintenanceStatus: Cell,
    maintenanceNotes: Cell)

  const MaintenanceFields: set<string> := {"scheduled_maintenance_time", "maintenance_description", "maintenance_status", "maintenance_notes"}

  /** The four fields by column name, `None` included. */
  function UpdateDump(u: MaintenanceUpdate): (d: Record)
    ensures d.Keys == MaintenanceFields
  {
    map["scheduled_maintenance_time" := u.scheduledMaintenanceTime,
        "maintenance_description" := u.maintenanceDescription,
        "maintenance_status" := u.maintenanceStatus,
        "maintenance_notes" := u.maintenanceNotes]
  }

  /**
   * `maintenance_data`, built by inserting each field that is not None: the
   * same dictionary as dumping the fields with `exclude_none`.
   */
  method MaintenanceData(u: MaintenanceUpdate) returns (data: Record)
    ensures data == NonNone(UpdateDump(u), {})
    ensures data.Keys <= MaintenanceFields
  {
    data := map[];
    if u.scheduledMaintenanceTime != SqlNull {
      data := data["scheduled_maintenance_time" := u.scheduledMaintenanceTime];
    }
    if u.maintenanceDescription != SqlNull {
      data := data["maintenance_description" := u.maintenanceDescription];
    }
    if u.maintenanceStatus != SqlNull {
      data := data["maintenance_status" := u.maintenanceStatus];
    }
    if u.maintenanceNotes != SqlNull {
      data := data["maintenance_notes" := u.maintenanceNotes];
    }
  }

  /**
   * The reply of `update_maintenance_services` for what the DAO call did:
   * True, False, or raised (None).
   */
  function UpdateMaintenanceReply(outcome: Option<bool>): (r: Reply)
    ensures r.Success? <==> outcome == Some(true)
    ensures r == Failure("告警不存在或更新维修计划失败") <==> outcome == Some(false)
    ensures r == Failure("更新维修计划失败") <==> outcome.None?
  {
    match outcome
      case Some(true) => Success("更新维修计划成功", map[])
      case Some(false) => Failure("告警不存在或更新维修计划失败")
      case None => Failure("更新维修计划失败")
  }

  /**
   * What the DAO calls of the maintenance services do as written: the
   * data-access class has no `update_maintenance` nor
   * `batch_schedule_maintenance`, so the attribute lookup raises inside
   * the `try`.
   */
  function UpdateMaintenanceCall(alertId: int, data: Record): Option<bool> {
    None
  }

  function BatchScheduleCall(alertIds: seq<int>, data: Record): Option<int> {
    None
  }

  /** As written, every maintenance update ends in the generic failure, whatever the alert. */
  lemma UpdateMaintenanceAlwaysFails(alertId: int, data: Record)
    ensures UpdateMaintenanceReply(UpdateMaintenanceCall(alertId, data)) == Failure("更新维修计划失败")
    ensures !UpdateMaintenanceReply(UpdateMaintenanceCall(alertId, data)).Success?
  {
  }

  const BatchSuccessPrefix := "批量安排维修时间成功，更新了 "
  const BatchSuccessSuffix := " 条记录"

  /**
   * The reply of `batch_schedule_maintenance_services` for the number of
   * updated rows, or None when the DAO call raised.
   */
  function BatchScheduleReply(updated: Option<int>): (r: Reply)
    ensures r.Success? <==> updated.Some? && updated.value > 0
    ensures r == Failure("没有找到符合条件的告警记录") <==> updated.Some? && updated.value <= 0
    ensures r == Failure("批量安排维修时间失败") <==> updated.None?
  {
    match updated
      case None => Failure("批量安排维修时间失败")
      case Some(n) =>
        if n > 0 then Success(BatchSuccessPrefix + IntToString(n) + BatchSuccessSuffix, map[])
        else Failure("没有找到符合条件的告警记录")
  }

  /** The success message reports the count: reading the number back between the fixed texts gives it. */
  lemma BatchMessageReportsCount(n: int)
    requires n > 0
    ensures var msg := BatchScheduleReply(Some(n)).msg;
      |BatchSuccessPrefix| + |BatchSuccessSuffix| <= |msg| &&
      PyInt(msg[|BatchSuccessPrefix|..|msg| - |BatchSuccessSuffix|]) == Some(n)
  {
    var msg := BatchScheduleReply(Some(n)).msg;
    assert msg[|BatchSuccessPrefix|..|msg| - |BatchSuccessSuffix|] == IntToString(n);
    PyIntOfIntToString(n);
  }

  /** As written, every batch schedule ends in the generic failure. */
  lemma BatchScheduleAlwaysFails(alertIds: seq<int>, data: Record)
    ensures BatchScheduleReply(BatchScheduleCall(alertIds, data)) == Failure("批量安排维修时间失败")
  {
  }

  // ---------------------------------------------------------------- hasNext

  /** `math.ceil(a / b)` for a positive divisor. */
  function CeilDiv(a: int, b: int): (q: int)
    requires b > 0
    ensures (q - 1) * b < a <= q * b
  {
    (a + b - 1) / b
  }

  /**
   * `math.ceil(total / page_size) > page_num if total > 0 else False`;
   * None where the division raises (`page_size == 0`).
   */
  function HasNext(total: int, pageNum: int, pageSize: int): (r: Option<bool>)
    ensures total <= 0 ==> r == Some(false)
    ensures r.None? <==> total > 0 && pageSize == 0
  {
    if total <= 0 then Some(false)
    else if pageSize == 0 then None
    else if pageSize > 0 then Some(CeilDiv(total, pageSize) > pageNum)
    // a positive total over a negative size: the Euclidean quotient is the ceiling
    else Some(total / pageSize > pageNum)
  }

  /** With a positive page size, there is a next page exactly when the pages so far leave rows over. */
  lemma HasNextMeansRowsLeft(total: int, pageNum: int, pageSize: int)
    requires total > 0 && pageSize > 0
    ensures HasNext(total, pageNum, pageSize) == Some(pageNum * pageSize < total)
  {
    var q := CeilDiv(total, pageSize);
    if q > pageNum {
      assert pageNum * pageSize <= (q - 1) * pageSize by {
        var d := q - 1 - pageNum;
        assert d >= 0 && d * pageSize >= 0;
        assert (q - 1) * pageSize == pageNum * pageSize + d * pageSize;
      }
    } else {
      assert q * pageSize <= pageNum * pageSize by {
        var d := pageNum - q;
        assert d >= 0 && d * pageSize >= 0;
        assert pageNum * pageSize == q * pageSize + d * pageSize;
      }
    }
  }
}
