/**
 * The dashboard: the overview counts, the alert trend chart, the health
 * chart and distribution, the realtime and scheduled alert lists, the
 * device health summary and the system metrics.
 *
 * Times are whole seconds; `datetime.now()` is the parameter `now`. The
 * rows the DAO queries return (`get_realtime_alerts`,
 * `get_scheduled_alerts`, `get_monitoring_devices`) are parameters in the
 * order the queries return them.
 */
module DashboardService {
  import opened Basics
  import opened Records
  import AlertDao
  import DeviceDao
  import AlertService

  type Alert = AlertDao.Alert
  type Device = DeviceDao.Device

  // ---------------------------------------------------------------- durations

  /** A `timedelta` as Python normalises it: whole days, then 0 <= seconds < 86400. */
  datatype Delta = Delta(days: int, seconds: int)

  function DeltaOf(span: int): (d: Delta)
    ensures 0 <= d.seconds < SecondsPerDay
    ensures d.days * SecondsPerDay + d.seconds == span
  {
    Delta(span / SecondsPerDay, span % SecondsPerDay)
  }

  /** The branch `_calculate_duration` takes, with the number it prints. */
  datatype Duration = Days(n: int) | Hours(n: int) | Minutes(n: int) | JustNow

  /**
   * `_calculate_duration` for a span of `span` seconds: the whole days when
   * there is at least one, else the whole hours, else the whole minutes,
   * else "just now". A start in the future has negative days and falls
   * through to the hours and minutes of the normalised remainder.
   */
  function DurationOf(span: int): (b: Duration)
    ensures span >= 0 ==> (b.Days? <==> span >= SecondsPerDay)
    ensures span >= 0 ==> (b.Hours? <==> 3600 <= span < SecondsPerDay)
    ensures span >= 0 ==> (b.Minutes? <==> 60 <= span < 3600)
    ensures span >= 0 ==> (b.JustNow? <==> span < 60)
    ensures span < 0 ==> !b.Days?
    ensures b.Days? ==> b.n >= 1 && b.n * SecondsPerDay <= span < (b.n + 1) * SecondsPerDay
    ensures b.Hours? ==> 1 <= b.n <= 23 && (span >= 0 ==> b.n * 3600 <= span < (b.n + 1) * 3600)
    ensures b.Minutes? ==> 1 <= b.n <= 59 && (span >= 0 ==> b.n * 60 <= span < (b.n + 1) * 60)
  {
    var d := DeltaOf(span);
    if d.days > 0 then Days(d.days)
    else if d.seconds >= 3600 then Hours(d.seconds / 3600)
    else if d.seconds >= 60 then Minutes(d.seconds / 60)
    else JustNow
  }

  /** The f-strings of `_calculate_duration`. */
  function DurationText(b: Duration): string {
    match b
    case Days(n) => IntToString(n) + "天"
    case Hours(n) => IntToString(n) + "小时"
    case Minutes(n) => IntToString(n) + "分钟"
    case JustNow => "刚刚"
  }

  /** `_calculate_duration(start_time)` at time `now`. */
  function CalculateDuration(now: int, startTime: int): string {
    DurationText(DurationOf(now - startTime))
  }

  /** Reads a duration text back: the unit from its suffix, the number from the rest. */
  function ParseDuration(text: string): Option<Duration> {
    if text == "刚刚" then Some(JustNow)
    else if |text| >= 2 && text[|text| - 1] == '天' then
      match PyInt(text[..|text| - 1])
      case Some(n) => Some(Days(n))
      case None => None
    else if |text| >= 3 && text[|text| - 2..] == "小时" then
      match PyInt(text[..|text| - 2])
      case Some(n) => Some(Hours(n))
      case None => None
    else if |text| >= 3 && text[|text| - 2..] == "分钟" then
      match PyInt(text[..|text| - 2])
      case Some(n) => Some(Minutes(n))
      case None => None
    else None
  }

  /** The printed number starts with a digit or a minus sign, never with a CJK character. */
  lemma NumberHead(n: int)
    ensures IntToString(n)[0] == '-' || IsDigit(IntToString(n)[0])
  {
    var m: nat := if n < 0 then -n else n;
    NatToStringDigits(m);
  }

  /** Every duration text reads back as the duration it was printed from, so no two read alike. */
  lemma DurationTextRoundTrip(b: Duration)
    ensures ParseDuration(DurationText(b)) == Some(b)
  {
    match b
    case JustNow =>
    case Days(n) => DaysReadBack(n);
    case Hours(n) => HoursReadBack(n);
    case Minutes(n) => MinutesReadBack(n);
  }

  lemma DaysReadBack(n: int)
    ensures ParseDuration(IntToString(n) + "天") == Some(Days(n))
  {
    var text := IntToString(n) + "天";
    NumberHead(n);
    PyIntOfIntToString(n);
    assert text[..|text| - 1] == IntToString(n);
  }

  lemma HoursReadBack(n: int)
    ensures ParseDuration(IntToString(n) + "小时") == Some(Hours(n))
  {
    var text := IntToString(n) + "小时";
    NumberHead(n);
    PyIntOfIntToString(n);
    assert text[..|text| - 2] == IntToString(n);
    assert text[|text| - 2..] == "小时";
  }

  lemma MinutesReadBack(n: int)
    ensures ParseDuration(IntToString(n) + "分钟") == Some(Minutes(n))
  {
    var text := IntToString(n) + "分钟";
    NumberHead(n);
    PyIntOfIntToString(n);
    assert text[..|text| - 2] == IntToString(n);
    assert text[|text| - 2..] == "分钟";
  }

  // ---------------------------------------------------------------- priority

  /** The scheduled list's priority: ten per occurrence, fifty more once the alert is over a week old. */
  function PriorityScore(occurrenceCount: int, firstOccurrence: int, now: int): (score: int)
    ensures score == occurrenceCount * 10 || score == occurrenceCount * 10 + 50
    ensures score == occurrenceCount * 10 + 50 <==> firstOccurrence < now - 7 * SecondsPerDay
  {
    var base := occurrenceCount * 10;
    if firstOccurrence < now - 7 * SecondsPerDay then base + 50 else base
  }

  /** More occurrences never score lower, and neither does an older first occurrence. */
  lemma PriorityOrder(count: int, count2: int, first: int, first2: int, now: int)
    requires count <= count2 && first2 <= first
    ensures PriorityScore(count, first, now) <= PriorityScore(count2, first2, now)
    ensures count < count2 ==> PriorityScore(count, first, now) < PriorityScore(count2, first2, now) + 50
  {
  }

  // ---------------------------------------------------------------- health distribution

  function HealthOf(d: Device): Cell {
    ColumnOf(d.columns, "health_status")
  }

  /** Devices whose `health_status` is exactly the text `s`. */
  function CountHealth(devices: seq<Device>, s: string): nat {
    CountIf(devices, (d: Device) => HealthOf(d) == Text(s))
  }

  /** The health values present, NULL included. */
  function Statuses(devices: seq<Device>): set<Cell> {
    set d | d in devices :: HealthOf(d)
  }

  /** The `GROUP BY health_status` result: each value present with its count. */
  function GroupCounts(devices: seq<Device>): (groups: map<Cell, nat>)
    ensures forall c :: c in groups <==> exists d :: d in devices && HealthOf(d) == c
  {
    map c | c in Statuses(devices) :: CountIf(devices, (d: Device) => HealthOf(d) == c)
  }

  /** `status_counts.get(k, 0)`. */
  function GroupGet(groups: map<Cell, nat>, k: string): nat {
    if Text(k) in groups then groups[Text(k)] else 0
  }

  /**
   * `_get_device_health_distribution`: exactly the four keys, each the
   * number of devices with that health; a status no device has counts 0.
   */
  function HealthDistribution(devices: seq<Device>): (r: map<string, nat>)
    ensures r.Keys == DistributionKeys
    ensures forall k :: k in r ==> r[k] == CountHealth(devices, k)
  {
    var groups := GroupCounts(devices);
    assert forall k :: GroupGet(groups, k) == CountHealth(devices, k) by {
      forall k {
        GroupGetCounts(devices, k);
      }
    }
    map k | k in DistributionKeys :: GroupGet(groups, k)
  }

  const DistributionKeys: set<string> := {"ok", "warning", "critical", "unknown"}

  /** Reading a key of the grouped counts gives that status's count, 0 when no row has it. */
  lemma GroupGetCounts(devices: seq<Device>, k: string)
    ensures GroupGet(GroupCounts(devices), k) == CountHealth(devices, k)
  {
    var p := (d: Device) => HealthOf(d) == Text(k);
    if Text(k) !in GroupCounts(devices) {
      CountZero(devices, p);
    }
  }

  /** A health other than the four texts, NULL included. */
  predicate OtherHealth(d: Device) {
    HealthOf(d) !in {Text("ok"), Text("warning"), Text("critical"), Text("unknown")}
  }

  /** Every device falls in exactly one of the four counts or among the others. */
  lemma {:induction false} HealthSplit(devices: seq<Device>)
    ensures CountHealth(devices, "ok") + CountHealth(devices, "warning") + CountHealth(devices, "critical")
            + CountHealth(devices, "unknown") + CountIf(devices, OtherHealth) == |devices|
  {
    if devices != [] {
      HealthSplit(devices[1..]);
    }
  }

  /**
   * Statuses outside the four are left out of the distribution: its counts
   * add up to the number of devices exactly when every device has one of
   * the four.
   */
  lemma DistributionIgnoresOthers(devices: seq<Device>)
    ensures var r := HealthDistribution(devices);
      r["ok"] + r["warning"] + r["critical"] + r["unknown"] <= |devices|
    ensures var r := HealthDistribution(devices);
      r["ok"] + r["warning"] + r["critical"] + r["unknown"] == |devices| <==> forall d :: d in devices ==> !OtherHealth(d)
  {
    HealthSplit(devices);
    CountZero(devices, OtherHealth);
  }

  // ---------------------------------------------------------------- time range and trend chart

  /** The time-range parse of `get_complete_dashboard_data_services`: '30d', '90d', and seven days otherwise. */
  function TrendDays(timeRange: Option<string>): (days: int)
    ensures days == 7 || days == 30 || days == 90
    ensures days == 30 <==> timeRange == Some("30d")
    ensures days == 90 <==> timeRange == Some("90d")
  {
    if timeRange == Some("30d") then 30
    else if timeRange == Some("90d") then 90
    else 7
  }

  /** `AlertTrendChartModel`: four parallel lists. */
  datatype TrendChart = TrendChart(dates: seq<int>, urgentCounts: seq<nat>, scheduledCounts: seq<nat>, totalCounts: seq<nat>)

  /** `get_alert_trend_chart_services`: one column per field of the trend points, in their order. */
  function AlertTrendChart(trend: seq<AlertDao.TrendPoint>): (c: TrendChart)
    ensures |c.dates| == |c.urgentCounts| == |c.scheduledCounts| == |c.totalCounts| == |trend|
  {
    TrendChart(seq(|trend|, i requires 0 <= i < |trend| => trend[i].date),
               seq(|trend|, i requires 0 <= i < |trend| => trend[i].urgentCount),
               seq(|trend|, i requires 0 <= i < |trend| => trend[i].scheduledCount),
               seq(|trend|, i requires 0 <= i < |trend| => trend[i].totalCount))
  }

  /** The points the parallel lists describe: the i-th element of each list. */
  function ChartPoints(c: TrendChart): (points: seq<AlertDao.TrendPoint>)
    requires |c.dates| == |c.urgentCounts| == |c.scheduledCounts| == |c.totalCounts|
    ensures |points| == |c.dates|
  {
    seq(|c.dates|, i requires 0 <= i < |c.dates| =>
      AlertDao.TrendPoint(c.dates[i], c.urgentCounts[i], c.scheduledCounts[i], c.totalCounts[i]))
  }

  /** The chart keeps every trend point, in order: zipping its lists back gives the trend. */
  lemma TrendChartRoundTrip(trend: seq<AlertDao.TrendPoint>)
    ensures ChartPoints(AlertTrendChart(trend)) == trend
  {
    var points := ChartPoints(AlertTrendChart(trend));
    forall i | 0 <= i < |trend|
      ensures points[i] == trend[i]
    {
    }
  }

  /** A trend of consecutive days ending today gives a chart whose last date is today. */
  lemma TrendChartEndsToday(rows: seq<Alert>, days: int, today: int, trend: seq<AlertDao.TrendPoint>)
    requires days > 0 && |trend| == days
    requires forall i :: 0 <= i < |trend| ==> trend[i] == AlertDao.PointOn(rows, today - days + 1 + i)
    ensures var c := AlertTrendChart(trend);
      c.dates[days - 1] == today &&
      forall i :: 0 <= i < days ==> c.totalCounts[i] == c.urgentCounts[i] + c.scheduledCounts[i]
  {
    AlertDao.TrendEndsToday(rows, days, today, trend);
  }

  // ---------------------------------------------------------------- overview and health chart

  /** `_get_current_alert_count`: active alerts of the level (`or 0` never applies to a count). */
  function CurrentAlertCount(alerts: seq<Alert>, level: string): nat {
    CountIf(alerts, (a: Alert) => a.alertStatus == "active" && a.alertLevel == level)
  }

  datatype Overview = Overview(
    totalDevices: int,
    onlineDevices: int,
    offlineDevices: int,
    healthyDevices: nat,
    warningDevices: nat,
    criticalDevices: nat,
    alerts7days: nat,
    urgentAlerts7days: nat,
    scheduledAlerts7days: nat,
    alerts30days: nat,
    urgentAlerts30days: nat,
    scheduledAlerts30days: nat,
    currentUrgentAlerts: nat,
    currentScheduledAlerts: nat,
    lastUpdateTime: int)

  /**
   * `get_dashboard_overview_services`. The online and offline counts are
   * the healthy and unhealthy device statistics; the healthy count of the
   * distribution agrees with the online count, and the warning and
   * critical devices are among the offline ones.
   */
  function DashboardOverview(devices: seq<Device>, alerts: seq<Alert>, now: int): (o: Overview)
    ensures o.totalDevices == |devices| && o.onlineDevices + o.offlineDevices == o.totalDevices
    ensures o.healthyDevices == o.onlineDevices
    ensures o.warningDevices + o.criticalDevices <= o.offlineDevices
    ensures o.urgentAlerts7days + o.scheduledAlerts7days <= o.alerts7days
    ensures o.urgentAlerts30days + o.scheduledAlerts30days <= o.alerts30days
    ensures o.currentUrgentAlerts + o.currentScheduledAlerts <= |alerts|
    ensures o.lastUpdateTime == now
  {
    var stats := DeviceDao.DeviceStatistics(devices);
    var week := AlertDao.AlertStatistics(alerts, 7, now);
    var month := AlertDao.AlertStatistics(alerts, 30, now);
    var distribution := HealthDistribution(devices);
    var urgent := CurrentAlertCount(alerts, "urgent");
    var scheduled := CurrentAlertCount(alerts, "scheduled");
    OnlineIsOk(devices);
    AlertDao.DisjointCounts(alerts, (a: Alert) => a.alertStatus == "active" && a.alertLevel == "urgent",
                            (a: Alert) => a.alertStatus == "active" && a.alertLevel == "scheduled");
    Overview(stats["total_devices"], stats["healthy_devices"], stats["unhealthy_devices"],
             distribution["ok"], distribution["warning"], distribution["critical"],
             week.totalAlerts, week.urgentAlerts, week.scheduledAlerts,
             month.totalAlerts, month.urgentAlerts, month.scheduledAlerts,
             urgent, scheduled, now)
  }

  /** The device statistics' healthy devices are the distribution's 'ok' ones; 'warning' and 'critical' are unhealthy. */
  lemma OnlineIsOk(devices: seq<Device>)
    ensures DeviceDao.DeviceStatistics(devices)["healthy_devices"] == CountHealth(devices, "ok")
    ensures CountHealth(devices, "warning") + CountHealth(devices, "critical") <= DeviceDao.DeviceStatistics(devices)["unhealthy_devices"]
  {
    var ok := (d: Device) => HealthOf(d) == Text("ok");
    var warning := (d: Device) => HealthOf(d) == Text("warning");
    var critical := (d: Device) => HealthOf(d) == Text("critical");
    CountComplement(devices, ok, DeviceDao.NotHealthy);
    AlertDao.PartCounts(devices, DeviceDao.NotHealthy, warning, critical);
  }

  /** One component's row of the health chart. */
  datatype ComponentHealth = ComponentHealth(healthy: nat, warning: nat, critical: nat)

  /** `DeviceHealthChartModel`. */
  datatype HealthChart = HealthChart(healthyCount: nat, warningCount: nat, criticalCount: nat, offlineCount: nat,
                                     componentHealth: map<string, ComponentHealth>)

  /**
   * `get_device_health_chart_services`: the four distribution counts, 'unknown'
   * shown as offline, and the five component rows fixed at zero.
   */
  function DeviceHealthChart(devices: seq<Device>): (c: HealthChart)
    ensures c.healthyCount == CountHealth(devices, "ok") && c.offlineCount == CountHealth(devices, "unknown")
    ensures c.healthyCount + c.warningCount + c.criticalCount + c.offlineCount <= |devices|
    ensures c.componentHealth.Keys == {"Processor", "Memory", "Storage", "Power", "Thermal"}
    ensures forall k :: k in c.componentHealth ==> c.componentHealth[k] == ComponentHealth(0, 0, 0)
  {
    var distribution := HealthDistribution(devices);
    DistributionIgnoresOthers(devices);
    var zero := ComponentHealth(0, 0, 0);
    HealthChart(distribution["ok"], distribution["warning"], distribution["critical"], distribution["unknown"],
                map["Processor" := zero, "Memory" := zero, "Storage" := zero, "Power" := zero, "Thermal" := zero])
  }

  // ---------------------------------------------------------------- alert lists

  /** A column of the alert's device, or "Unknown" when no device matches; defined only when the lookup did not raise. */
  function DeviceColumn(found: Lookup<Device>, column: string): (c: Cell)
    requires !found.Raised?
    ensures found.NoRow? ==> c == Text("Unknown")
    ensures found.Found? ==> c == ColumnOf(found.row.columns, column)
  {
    if found.Found? then ColumnOf(found.row.columns, column) else Text("Unknown")
  }

  /** `RealtimeAlertListModel`. */
  datatype RealtimeAlert = RealtimeAlert(
    deviceId: int,
    hostname: Cell,
    businessIp: Cell,
    location: Cell,
    componentType: string,
    componentName: string,
    healthStatus: Cell,
    alertLevel: string,
    alertMessage: string,
    lastOccurrence: int,
    duration: string)

  /**
   * One entry of the realtime list as intended. As written the entry reads
   * `alert.hostname`, `alert.business_ip` and `alert.health_status`, which
   * `AlertInfo` lacks; corrected, they come from the alert's device, as the
   * location does.
   */
  function RealtimeOf(a: Alert, found: Lookup<Device>, now: int): (r: RealtimeAlert)
    requires !found.Raised?
    ensures found.NoRow? ==> r.hostname == r.businessIp == r.location == r.healthStatus == Text("Unknown")
    ensures found.Found? ==> r.hostname == ColumnOf(found.row.columns, "hostname") &&
                             r.businessIp == ColumnOf(found.row.columns, "business_ip") &&
                             r.location == ColumnOf(found.row.columns, "location") &&
                             r.healthStatus == ColumnOf(found.row.columns, "health_status")
    ensures r.deviceId == a.deviceId && r.lastOccurrence == a.lastOccurrence && r.alertLevel == a.alertLevel
    ensures r.componentType == a.componentType && r.componentName == a.componentName && r.alertMessage == a.alertMessage
  {
    RealtimeAlert(a.deviceId, DeviceColumn(found, "hostname"), DeviceColumn(found, "business_ip"), DeviceColumn(found, "location"),
                  a.componentType, a.componentName, DeviceColumn(found, "health_status"), a.alertLevel, a.alertMessage,
                  a.lastOccurrence, CalculateDuration(now, a.firstOccurrence))
  }

  /** The duration text of a realtime entry reads back as the time since the alert first occurred. */
  lemma RealtimeDurationReadsBack(a: Alert, found: Lookup<Device>, now: int)
    requires !found.Raised?
    ensures ParseDuration(RealtimeOf(a, found, now).duration) == Some(DurationOf(now - a.firstOccurrence))
  {
    DurationTextRoundTrip(DurationOf(now - a.firstOccurrence));
  }

  /** Some device lookup of the listed alerts raises. */
  predicate AnyLookupRaises(alerts: seq<Alert>, devices: seq<Device>) {
    exists i :: 0 <= i < |alerts| && DeviceDao.DeviceById(devices, alerts[i].deviceId).Raised?
  }

  /** Some alert's device lookup raises, or building its entry raises (None). */
  predicate AnyEntryFails<R>(alerts: seq<Alert>, devices: seq<Device>, entry: (Alert, Lookup<Device>) --> Option<R>)
    requires forall a: Alert, found: Lookup<Device> :: !found.Raised? ==> entry.requires(a, found)
  {
    exists i :: 0 <= i < |alerts| &&
      (DeviceDao.DeviceById(devices, alerts[i].deviceId).Raised? ||
       entry(alerts[i], DeviceDao.DeviceById(devices, alerts[i].deviceId)).None?)
  }

  /**
   * The loop both alert lists share: for each alert in order its device is
   * looked up and `entry` builds the list item; a lookup or an entry that
   * raises ends the loop with the exception.
   */
  method EntriesOf<R>(alerts: seq<Alert>, devices: seq<Device>, entry: (Alert, Lookup<Device>) --> Option<R>)
    returns (result: Option<seq<R>>)
    requires forall a: Alert, found: Lookup<Device> :: !found.Raised? ==> entry.requires(a, found)
    ensures result.None? <==> AnyEntryFails(alerts, devices, entry)
    ensures result.Some? ==> |result.value| == |alerts|
    ensures result.Some? ==>
      forall i :: 0 <= i < |alerts| ==> Some(result.value[i]) == entry(alerts[i], DeviceDao.DeviceById(devices, alerts[i].deviceId))
  {
    var list: seq<R> := [];
    var i := 0;
    while i < |alerts|
      invariant 0 <= i <= |alerts| && |list| == i
      invariant forall j :: 0 <= j < i ==> !DeviceDao.DeviceById(devices, alerts[j].deviceId).Raised?
      invariant forall j :: 0 <= j < i ==> Some(list[j]) == entry(alerts[j], DeviceDao.DeviceById(devices, alerts[j].deviceId))
    {
      var found := DeviceDao.DeviceById(devices, alerts[i].deviceId);
      if found.Raised? {
        return None;
      }
      var item := entry(alerts[i], found);
      if item.None? {
        return None;
      }
      list := list + [item.value];
      i := i + 1;
    }
    return Some(list);
  }

  /**
   * `get_realtime_alert_list_services` as written, over the rows
   * `get_realtime_alerts` returned: the first alert raises, in its device
   * lookup or on `alert.hostname`, and nothing catches it, so only an empty
   * list comes back.
   */
  method GetRealtimeAlertList(alerts: seq<Alert>, devices: seq<Device>, now: int) returns (result: Option<seq<RealtimeAlert>>)
    ensures result.None? <==> alerts != []
    ensures result.Some? ==> result.value == []
  {
    var attributeError: (Alert, Lookup<Device>) --> Option<RealtimeAlert> := (a: Alert, found: Lookup<Device>) => None;
    result := EntriesOf(alerts, devices, attributeError);
    assert alerts != [] ==> AnyEntryFails(alerts, devices, attributeError) by {
      if alerts != [] {
        assert DeviceDao.DeviceById(devices, alerts[0].deviceId).Raised? ||
               attributeError(alerts[0], DeviceDao.DeviceById(devices, alerts[0].deviceId)).None?;
      }
    }
  }

  /** The realtime list with the corrected entry: one entry per alert, in order, unless a device lookup raises. */
  method CorrectedGetRealtimeAlertList(alerts: seq<Alert>, devices: seq<Device>, now: int) returns (result: Option<seq<RealtimeAlert>>)
    ensures result.None? <==> AnyLookupRaises(alerts, devices)
    ensures result.Some? ==> |result.value| == |alerts|
    ensures result.Some? ==>
      forall i :: 0 <= i < |alerts| ==> result.value[i] == RealtimeOf(alerts[i], DeviceDao.DeviceById(devices, alerts[i].deviceId), now)
  {
    var entry: (Alert, Lookup<Device>) --> Option<RealtimeAlert> :=
      (a: Alert, found: Lookup<Device>) requires !found.Raised? => Some(RealtimeOf(a, found, now));
    result := EntriesOf(alerts, devices, entry);
    assert AnyEntryFails(alerts, devices, entry) <==> AnyLookupRaises(alerts, devices);
  }

  /** `ScheduledAlertListModel`. */
  datatype ScheduledAlert = ScheduledAlert(
    deviceId: int,
    hostname: Cell,
    businessIp: Cell,
    location: Cell,
    componentType: string,
    componentName: string,
    healthStatus: Cell,
    alertMessage: string,
    firstOccurrence: int,
    occurrenceCount: int,
    priorityScore: int)

  /**
   * One entry of the scheduled list as intended: the alert's fields, its
   * device's hostname, IP, location and health (read from the alert as
   * written), and its priority.
   */
  function ScheduledOf(a: Alert, found: Lookup<Device>, now: int): (r: ScheduledAlert)
    requires !found.Raised?
    ensures r.priorityScore == PriorityScore(a.occurrenceCount, a.firstOccurrence, now)
    ensures found.NoRow? ==> r.hostname == r.businessIp == r.location == r.healthStatus == Text("Unknown")
    ensures found.Found? ==> r.hostname == ColumnOf(found.row.columns, "hostname") &&
                             r.businessIp == ColumnOf(found.row.columns, "business_ip") &&
                             r.location == ColumnOf(found.row.columns, "location") &&
                             r.healthStatus == ColumnOf(found.row.columns, "health_status")
    ensures r.deviceId == a.deviceId && r.occurrenceCount == a.occurrenceCount && r.firstOccurrence == a.firstOccurrence
  {
    ScheduledAlert(a.deviceId, DeviceColumn(found, "hostname"), DeviceColumn(found, "business_ip"), DeviceColumn(found, "location"),
                   a.componentType, a.componentName, DeviceColumn(found, "health_status"), a.alertMessage,
                   a.firstOccurrence, a.occurrenceCount, PriorityScore(a.occurrenceCount, a.firstOccurrence, now))
  }

  /**
   * `get_scheduled_alert_list_services` as written, over the rows
   * `get_scheduled_alerts` returned: the first alert raises on
   * `alert.hostname`, or in its device lookup, so only an empty list comes back.
   */
  method GetScheduledAlertList(alerts: seq<Alert>, devices: seq<Device>, now: int) returns (result: Option<seq<ScheduledAlert>>)
    ensures result.None? <==> alerts != []
    ensures result.Some? ==> result.value == []
  {
    var attributeError: (Alert, Lookup<Device>) --> Option<ScheduledAlert> := (a: Alert, found: Lookup<Device>) => None;
    result := EntriesOf(alerts, devices, attributeError);
    assert alerts != [] ==> AnyEntryFails(alerts, devices, attributeError) by {
      if alerts != [] {
        assert DeviceDao.DeviceById(devices, alerts[0].deviceId).Raised? ||
               attributeError(alerts[0], DeviceDao.DeviceById(devices, alerts[0].deviceId)).None?;
      }
    }
  }

  /** The scheduled list with the corrected entry: one entry per alert, in order, unless a device lookup raises. */
  method CorrectedGetScheduledAlertList(alerts: seq<Alert>, devices: seq<Device>, now: int) returns (result: Option<seq<ScheduledAlert>>)
    ensures result.None? <==> AnyLookupRaises(alerts, devices)
    ensures result.Some? ==> |result.value| == |alerts|
    ensures result.Some? ==>
      forall i :: 0 <= i < |alerts| ==> result.value[i] == ScheduledOf(alerts[i], DeviceDao.DeviceById(devices, alerts[i].deviceId), now)
  {
    var entry: (Alert, Lookup<Device>) --> Option<ScheduledAlert> :=
      (a: Alert, found: Lookup<Device>) requires !found.Raised? => Some(ScheduledOf(a, found, now));
    result := EntriesOf(alerts, devices, entry);
    assert AnyEntryFails(alerts, devices, entry) <==> AnyLookupRaises(alerts, devices);
  }

  /** With unique device keys no lookup raises, so both lists are built. */
  lemma ListsBuiltWithUniqueKeys(alerts: seq<Alert>, devices: seq<Device>, nextId: int)
    requires DeviceDao.IdsIncreasing(devices, nextId)
    ensures !AnyLookupRaises(alerts, devices)
  {
    forall i | 0 <= i < |alerts|
      ensures !DeviceDao.DeviceById(devices, alerts[i].deviceId).Raised?
    {
      DeviceDao.DeviceByIdFinds(devices, nextId, alerts[i].deviceId);
    }
  }

  // ---------------------------------------------------------------- device health summary

  /** Python `value or "Unknown"` on a column: NULL, '' and 0 are falsy. */
  function OrUnknown(c: Cell): (r: Cell)
    ensures r != SqlNull && r != Text("") && r != Number(0)
    ensures r == c || r == Text("Unknown")
    ensures c != SqlNull && c != Text("") && c != Number(0) ==> r == c
  {
    if c == SqlNull || c == Text("") || c == Number(0) then Text("Unknown") else c
  }

  /** `DeviceHealthSummaryListModel`. */
  datatype HealthSummary = HealthSummary(
    deviceId: int,
    hostname: Cell,
    businessIp: Cell,
    location: Cell,
    manufacturer: Cell,
    model: Cell,
    overallHealth: string,
    powerState: string,
    processorHealth: string,
    memoryHealth: string,
    storageHealth: string,
    thermalHealth: string,
    powerHealth: string,
    alertCount: nat,
    lastCheckTime: int,
    connectionStatus: string)

  /** One summary row: the device's columns with the 'Unknown' fallbacks, the fixed health texts and the alert count. */
  function SummaryOf(d: Device, alertCount: nat, now: int): (s: HealthSummary)
    ensures s.location == OrUnknown(ColumnOf(d.columns, "location"))
    ensures s.manufacturer == OrUnknown(ColumnOf(d.columns, "manufacturer")) && s.model == OrUnknown(ColumnOf(d.columns, "model"))
    ensures s.overallHealth == "OK" && s.powerState == "On" && s.connectionStatus == "Connected"
  {
    HealthSummary(d.deviceId, ColumnOf(d.columns, "hostname"), ColumnOf(d.columns, "business_ip"),
                  OrUnknown(ColumnOf(d.columns, "location")), OrUnknown(ColumnOf(d.columns, "manufacturer")),
                  OrUnknown(ColumnOf(d.columns, "model")),
                  "OK", "On", "OK", "OK", "OK", "OK", "OK", alertCount, now, "Connected")
  }

  /**
   * `get_device_health_summary_services` over the monitoring devices, with
   * the corrected per-device alert lists: the first `limit` devices (Python
   * slicing), one row each, in order.
   */
  method GetDeviceHealthSummary(monitoring: seq<Device>, alerts: seq<Alert>, devices: seq<Device>, limit: int, now: int)
    returns (result: seq<HealthSummary>)
    ensures |result| == |PySlice(monitoring, limit)|
    ensures forall i :: 0 <= i < |result| ==>
      result[i] == SummaryOf(monitoring[i], |AlertService.CorrectedDeviceAlerts(alerts, devices, monitoring[i].deviceId)|, now)
  {
    var shown := PySlice(monitoring, limit);
    result := [];
    var i := 0;
    while i < |shown|
      invariant 0 <= i <= |shown| && |result| == i
      invariant forall j :: 0 <= j < i ==> result[j] == SummaryOf(monitoring[j], |AlertService.CorrectedDeviceAlerts(alerts, devices, monitoring[j].deviceId)|, now)
    {
      var own := AlertService.CorrectedDeviceAlerts(alerts, devices, shown[i].deviceId);
      result := result + [SummaryOf(shown[i], |own|, now)];
      i := i + 1;
    }
  }

  /** Python `s[:limit]`: a negative limit counts from the end. */
  function PySlice<T>(s: seq<T>, limit: int): (r: seq<T>)
    ensures |r| <= |s|
    ensures forall i :: 0 <= i < |r| ==> r[i] == s[i]
    ensures 0 <= limit ==> |r| == if limit < |s| then limit else |s|
    ensures limit < 0 ==> |r| == if -limit < |s| then |s| + limit else 0
  {
    if limit >= 0 then (if limit < |s| then s[..limit] else s)
    else if -limit < |s| then s[..|s| + limit]
    else []
  }

  // ---------------------------------------------------------------- system metrics

  /**
   * `get_system_health_metrics_services`: the unavailable points read the
   * key 'inactive_devices', which the device statistics never hold, so the
   * call raises `KeyError` (`None`) every time.
   */
  function SystemHealthMetrics(devices: seq<Device>): (unavailablePoints: Option<int>)
    ensures unavailablePoints == None
  {
    var stats := DeviceDao.DeviceStatistics(devices);
    match DictGet(stats, "inactive_devices")
    case Some(inactive) => Some(inactive * 5)
    case None => None
  }

  /** `d[k]`: the value, or `KeyError` (`None`) for a missing key. */
  function DictGet(d: map<string, int>, k: string): (v: Option<int>)
    ensures v.Some? <==> k in d
    ensures v.Some? ==> v.value == d[k]
  {
    if k in d then Some(d[k]) else None
  }
}
