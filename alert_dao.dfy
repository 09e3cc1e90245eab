/**
 * The alert table: the upsert that folds a repeated active alert into one
 * row, the bulk resolve/ignore updates, the statistics and daily trend
 * counts, and the paging of the alert list.
 *
 * A row holds the columns of `models.AlertInfo`, the class the DAO maps.
 * The DAO also names `hostname`, `business_ip`, `health_status`,
 * `resolved_by` and `resolved_note`, which that class does not declare:
 * the create and the two status updates raise as written, and each has a
 * corrected twin that names only declared columns. The create also leaves
 * the NOT NULL `alert_source` and `alert_type` unset; its twin sets them.
 *
 * Times are whole seconds and dates whole days (`DayOf`); `datetime.now()`
 * is the parameter `now`, the device table the set of device ids.
 */
module AlertDao {
  import opened Basics
  import Records

  /** An `alert_info` row: the `models.AlertInfo` columns the DAO reads and writes. */
  datatype Alert = Alert(
    alertId: int,
    deviceId: int,
    alertSource: string,
    componentType: string,
    componentName: string,
    alertLevel: string,
    alertType: string,
    alertMessage: string,
    firstOccurrence: int,
    lastOccurrence: int,
    occurrenceCount: int,
    alertStatus: string,
    resolvedTime: Option<int>,
    resolutionNote: Option<string>,
    createTime: int,
    updateTime: int)

  /** The keywords the create branch passes to `AlertInfo(...)`. */
  const CreateKeywords: set<string> := {
    "device_id", "hostname", "business_ip", "component_type", "component_name", "alert_level",
    "health_status", "alert_message", "first_occurrence", "last_occurrence", "occurrence_count",
    "alert_status", "create_time", "update_time"}

  /** The columns the resolve and ignore updates name in `.values(...)`. */
  const StatusKeywords: set<string> := {"alert_status", "resolved_by", "resolved_time", "resolved_note", "update_time"}

  /**
   * The create without the three device and health keywords the class lacks,
   * and with the two NOT NULL columns it leaves unset, `alert_source` and `alert_type`.
   */
  const CorrectedCreateKeywords: set<string> :=
    CreateKeywords - {"hostname", "business_ip", "health_status"} + {"alert_source", "alert_type"}

  /** The status update with the note in `resolution_note` and no `resolved_by`. */
  const CorrectedStatusKeywords: set<string> := {"alert_status", "resolved_time", "resolution_note", "update_time"}

  /**
   * As written the create names `hostname`, `business_ip` and `health_status`,
   * which `AlertInfo` does not declare, so its keyword constructor raises
   * TypeError; it also leaves `alert_source` and `alert_type` unset, which
   * are NOT NULL without a default, so the INSERT would fail even without
   * them. The corrected create names declared columns only, all the
   * required ones among them.
   */
  lemma CreateKeywordsUndeclared()
    ensures "hostname" in CreateKeywords && "hostname" !in Records.AlertInfoColumns
    ensures "business_ip" in CreateKeywords && "business_ip" !in Records.AlertInfoColumns
    ensures "health_status" in CreateKeywords && "health_status" !in Records.AlertInfoColumns
    ensures "alert_source" !in CreateKeywords && "alert_type" !in CreateKeywords
    ensures !(Records.AlertInfoRequired <= CreateKeywords)
    ensures Records.AlertInfoRequired <= CorrectedCreateKeywords <= Records.AlertInfoColumns
  {
  }

  /**
   * As written the status updates name `resolved_by` and `resolved_note`,
   * which are not columns, so compiling the UPDATE raises; the corrected
   * update names declared columns only.
   */
  lemma StatusKeywordsUndeclared()
    ensures "resolved_by" in StatusKeywords && "resolved_by" !in Records.AlertInfoColumns
    ensures "resolved_note" in StatusKeywords && "resolved_note" !in Records.AlertInfoColumns
    ensures CorrectedStatusKeywords <= Records.AlertInfoColumns
  {
  }

  /** The lookup of `get_or_create_alert`: same device, component type and name, and still active. */
  predicate SameActive(a: Alert, deviceId: int, componentType: string, componentName: string) {
    a.deviceId == deviceId && a.componentType == componentType && a.componentName == componentName && a.alertStatus == "active"
  }

  /** Indices of the rows the lookup finds, in table order. */
  function ActiveMatches(rows: seq<Alert>, deviceId: int, componentType: string, componentName: string): (r: seq<nat>)
    ensures forall k :: 0 <= k < |r| ==> r[k] < |rows| && SameActive(rows[r[k]], deviceId, componentType, componentName)
    ensures forall i :: 0 <= i < |rows| && SameActive(rows[i], deviceId, componentType, componentName) ==> i in r
    ensures forall a, b :: 0 <= a < b < |r| ==> r[a] < r[b]
  {
    if rows == [] then []
    else
      var last := |rows| - 1;
      var front := ActiveMatches(rows[..last], deviceId, componentType, componentName);
      assert forall k :: 0 <= k < last ==> rows[..last][k] == rows[k];
      if SameActive(rows[last], deviceId, componentType, componentName) then front + [last] else front
  }

  /**
   * A repeated alert: the new message and level, one more occurrence, now as
   * last occurrence and update time. The health is set on the instance as a
   * plain attribute, which is not a column and is never stored.
   */
  function Refreshed(a: Alert, alertMessage: string, alertLevel: string, now: int): (r: Alert)
    ensures r.occurrenceCount == a.occurrenceCount + 1 && r.lastOccurrence == now && r.updateTime == now
    ensures r.alertMessage == alertMessage && r.alertLevel == alertLevel
    ensures r.(alertMessage := a.alertMessage, alertLevel := a.alertLevel,
               lastOccurrence := a.lastOccurrence, occurrenceCount := a.occurrenceCount, updateTime := a.updateTime) == a
  {
    a.(alertMessage := alertMessage, alertLevel := alertLevel,
       lastOccurrence := now, occurrenceCount := a.occurrenceCount + 1, updateTime := now)
  }

  /**
   * The row the corrected create inserts: its declared keywords, the
   * required source and type among them, fresh and active.
   */
  function NewAlert(alertId: int, deviceId: int, alertSource: string, componentType: string, componentName: string,
                    alertMessage: string, alertLevel: string, alertType: string, now: int): (a: Alert)
    ensures SameActive(a, deviceId, componentType, componentName) && a.alertId == alertId
    ensures a.alertSource == alertSource && a.alertType == alertType
    ensures a.occurrenceCount == 1 && a.firstOccurrence == now && a.lastOccurrence == now
    ensures a.alertMessage == alertMessage && a.alertLevel == alertLevel
    ensures a.resolvedTime == None && a.resolutionNote == None && a.createTime == now && a.updateTime == now
  {
    Alert(alertId, deviceId, alertSource, componentType, componentName, alertLevel, alertType, alertMessage,
          now, now, 1, "active", None, None, now, now)
  }

  /** Result of the upsert: the row refreshed, the id inserted, or the exception raised. */
  datatype Upsert = Refresh(index: nat) | Insert(alertId: int) | Raised

  /**
   * The corrected status update: the given status, the time and the note in
   * `resolution_note` for every row whose id is listed; every other row unchanged.
   */
  function WithStatus(rows: seq<Alert>, alertIds: set<int>, status: string, note: Option<string>, now: int): (r: seq<Alert>)
    ensures |r| == |rows|
    ensures forall k :: 0 <= k < |r| && rows[k].alertId in alertIds ==>
              r[k] == rows[k].(alertStatus := status, resolvedTime := Some(now), resolutionNote := note, updateTime := now)
    ensures forall k :: 0 <= k < |r| && rows[k].alertId !in alertIds ==> r[k] == rows[k]
  {
    seq(|rows|, k requires 0 <= k < |rows| =>
      if rows[k].alertId in alertIds
      then rows[k].(alertStatus := status, resolvedTime := Some(now), resolutionNote := note, updateTime := now)
      else rows[k])
  }

  /** Ids are unique and below the next one handed out. */
  ghost predicate IdsFresh(rows: seq<Alert>, nextId: int) {
    (forall i, j :: 0 <= i < j < |rows| ==> rows[i].alertId != rows[j].alertId) &&
    (forall i :: 0 <= i < |rows| ==> rows[i].alertId < nextId)
  }

  /** No two active rows share device, component type and name. */
  ghost predicate OneActivePerComponent(rows: seq<Alert>) {
    forall i, j :: 0 <= i < j < |rows| && rows[i].alertStatus == "active" ==>
      !SameActive(rows[j], rows[i].deviceId, rows[i].componentType, rows[i].componentName)
  }

  class AlertTable {
    var rows: seq<Alert>
    var nextId: int

    ghost predicate Valid()
      reads this`rows, this`nextId
    {
      IdsFresh(rows, nextId) && OneActivePerComponent(rows)
    }

    constructor ()
      ensures Valid() && rows == [] && nextId == 1
    {
      rows := [];
      nextId := 1;
    }

    /**
     * `get_or_create_alert` as written: several active matches raise, one is
     * refreshed, and with none the create raises, either in the device lookup
     * or in `AlertInfo(...)` (`CreateKeywordsUndeclared`). The health is
     * never stored.
     */
    method GetOrCreateAlert(devices: set<int>, deviceId: int, componentType: string, componentName: string,
                            healthStatus: string, alertMessage: string, alertLevel: string, now: int)
      returns (result: Upsert)
      modifies this`rows
      ensures var matches := ActiveMatches(old(rows), deviceId, componentType, componentName);
        if |matches| == 1 then
          result == Refresh(matches[0]) &&
          rows == old(rows)[matches[0] := Refreshed(old(rows)[matches[0]], alertMessage, alertLevel, now)]
        else result == Raised && rows == old(rows)
      ensures old(Valid()) ==> Valid()
    {
      var matches := ActiveMatches(rows, deviceId, componentType, componentName);
      if |matches| == 1 {
        var i := matches[0];
        if Valid() {
          RefreshKeepsValid(rows, nextId, i, alertMessage, alertLevel, now);
        }
        rows := rows[i := Refreshed(rows[i], alertMessage, alertLevel, now)];
        return Refresh(i);
      }
      return Raised;
    }

    /**
     * `get_or_create_alert` with the create naming only declared columns and
     * the caller supplying the required `alert_source` and `alert_type`: one
     * active match is refreshed, several raise, and with none a row is
     * inserted under the next id when the device exists.
     */
    method CorrectedGetOrCreateAlert(devices: set<int>, deviceId: int, alertSource: string, componentType: string,
                                     componentName: string, healthStatus: string, alertMessage: string,
                                     alertLevel: string, alertType: string, now: int)
      returns (result: Upsert)
      modifies this`rows, this`nextId
      ensures var matches := ActiveMatches(old(rows), deviceId, componentType, componentName);
        if |matches| > 1 then result == Raised && rows == old(rows) && nextId == old(nextId)
        else if |matches| == 1 then
          result == Refresh(matches[0]) && nextId == old(nextId) &&
          rows == old(rows)[matches[0] := Refreshed(old(rows)[matches[0]], alertMessage, alertLevel, now)]
        else if deviceId !in devices then result == Raised && rows == old(rows) && nextId == old(nextId)
        else
          result == Insert(old(nextId)) && nextId == old(nextId) + 1 &&
          rows == old(rows) + [NewAlert(old(nextId), deviceId, alertSource, componentType, componentName, alertMessage,
                                         alertLevel, alertType, now)]
      ensures old(Valid()) ==> Valid()
      ensures old(Valid()) ==> |ActiveMatches(old(rows), deviceId, componentType, componentName)| <= 1
    {
      var matches := ActiveMatches(rows, deviceId, componentType, componentName);
      if Valid() {
        AtMostOneActiveMatch(rows, deviceId, componentType, componentName);
      }
      if |matches| > 1 {
        return Raised;
      }
      if |matches| == 1 {
        var i := matches[0];
        if Valid() {
          RefreshKeepsValid(rows, nextId, i, alertMessage, alertLevel, now);
        }
        rows := rows[i := Refreshed(rows[i], alertMessage, alertLevel, now)];
        return Refresh(i);
      }
      if deviceId !in devices {
        return Raised;
      }
      var alert := NewAlert(nextId, deviceId, alertSource, componentType, componentName, alertMessage, alertLevel, alertType, now);
      if Valid() {
        InsertKeepsValid(rows, nextId, alert);
      }
      rows := rows + [alert];
      result := Insert(nextId);
      nextId := nextId + 1;
    }

    /**
     * `resolve_alerts` as written: the UPDATE names `resolved_by` and
     * `resolved_note` (`StatusKeywordsUndeclared`), so it raises before any
     * row changes; None stands for the exception.
     */
    method ResolveAlerts(alertIds: set<int>, resolvedBy: string, resolvedNote: Option<string>, now: int) returns (ok: Option<bool>)
      ensures ok.None?
    {
      return None;
    }

    /** `ignore_alerts` as written: the same undeclared columns, so it raises too. */
    method IgnoreAlerts(alertIds: set<int>, operator: string, ignoreReason: Option<string>, now: int) returns (ok: Option<bool>)
      ensures ok.None?
    {
      return None;
    }

    /** `resolve_alerts` naming declared columns: always True, the listed alerts resolved with the note. */
    method CorrectedResolveAlerts(alertIds: set<int>, resolvedBy: string, resolvedNote: Option<string>, now: int) returns (ok: Option<bool>)
      modifies this`rows
      ensures ok == Some(true)
      ensures rows == WithStatus(old(rows), alertIds, "resolved", resolvedNote, now)
      ensures old(Valid()) ==> Valid()
    {
      if Valid() {
        LeavingActiveKeepsValid(rows, nextId, alertIds, "resolved", resolvedNote, now);
      }
      rows := WithStatus(rows, alertIds, "resolved", resolvedNote, now);
      return Some(true);
    }

    /** `ignore_alerts` naming declared columns: the reason goes to `resolution_note`. */
    method CorrectedIgnoreAlerts(alertIds: set<int>, operator: string, ignoreReason: Option<string>, now: int) returns (ok: Option<bool>)
      modifies this`rows
      ensures ok == Some(true)
      ensures rows == WithStatus(old(rows), alertIds, "ignored", ignoreReason, now)
      ensures old(Valid()) ==> Valid()
    {
      if Valid() {
        LeavingActiveKeepsValid(rows, nextId, alertIds, "ignored", ignoreReason, now);
      }
      rows := WithStatus(rows, alertIds, "ignored", ignoreReason, now);
      return Some(true);
    }

    /** `get_alert_trend`: one point per day, oldest first, ending today. */
    method GetAlertTrend(days: int, today: int) returns (trend: seq<TrendPoint>)
      ensures |trend| == (if days > 0 then days else 0)
      ensures forall i :: 0 <= i < |trend| ==> trend[i] == PointOn(rows, today - days + 1 + i)
    {
      var startDate := today - (days - 1);
      trend := [];
      var i := 0;
      while i < days
        invariant 0 <= i && (days > 0 ==> i <= days) && (days <= 0 ==> i == 0)
        invariant |trend| == i
        invariant forall k :: 0 <= k < i ==> trend[k] == PointOn(rows, startDate + k)
      {
        var currentDate := startDate + i;
        var urgentCount := CountIf(rows, (a: Alert) => DayOf(a.firstOccurrence) == currentDate && a.alertLevel == "urgent");
        var scheduledCount := CountIf(rows, (a: Alert) => DayOf(a.firstOccurrence) == currentDate && a.alertLevel == "scheduled");
        trend := trend + [TrendPoint(currentDate, urgentCount, scheduledCount, urgentCount + scheduledCount)];
        i := i + 1;
      }
    }
  }

  lemma RefreshKeepsValid(rows: seq<Alert>, nextId: int, i: nat, alertMessage: string, alertLevel: string, now: int)
    requires IdsFresh(rows, nextId) && OneActivePerComponent(rows) && i < |rows|
    ensures var r := rows[i := Refreshed(rows[i], alertMessage, alertLevel, now)];
      IdsFresh(r, nextId) && OneActivePerComponent(r)
  {
    var r := rows[i := Refreshed(rows[i], alertMessage, alertLevel, now)];
    assert forall k :: 0 <= k < |r| ==>
      (r[k].alertId == rows[k].alertId && r[k].alertStatus == rows[k].alertStatus && r[k].deviceId == rows[k].deviceId &&
       r[k].componentType == rows[k].componentType && r[k].componentName == rows[k].componentName);
  }

  lemma InsertKeepsValid(rows: seq<Alert>, nextId: int, alert: Alert)
    requires IdsFresh(rows, nextId) && OneActivePerComponent(rows)
    requires alert.alertId == nextId
    requires ActiveMatches(rows, alert.deviceId, alert.componentType, alert.componentName) == []
    ensures IdsFresh(rows + [alert], nextId + 1) && OneActivePerComponent(rows + [alert])
  {
    var r := rows + [alert];
    forall i, j | 0 <= i < j < |r| && r[i].alertStatus == "active"
      ensures !SameActive(r[j], r[i].deviceId, r[i].componentType, r[i].componentName)
    {
      if j == |rows| {
        assert !SameActive(rows[i], alert.deviceId, alert.componentType, alert.componentName);
      }
    }
  }

  lemma LeavingActiveKeepsValid(rows: seq<Alert>, nextId: int, alertIds: set<int>, status: string, note: Option<string>, now: int)
    requires IdsFresh(rows, nextId) && OneActivePerComponent(rows) && status != "active"
    ensures var r := WithStatus(rows, alertIds, status, note, now); IdsFresh(r, nextId) && OneActivePerComponent(r)
  {
  }

  /** With one active row per component, the upsert's lookup finds at most one row. */
  lemma AtMostOneActiveMatch(rows: seq<Alert>, deviceId: int, componentType: string, componentName: string)
    requires OneActivePerComponent(rows)
    ensures |ActiveMatches(rows, deviceId, componentType, componentName)| <= 1
  {
    var m := ActiveMatches(rows, deviceId, componentType, componentName);
    if |m| >= 1 {
      forall j | m[0] < j < |rows|
        ensures !SameActive(rows[j], deviceId, componentType, componentName)
      {
        assert SameActive(rows[m[0]], deviceId, componentType, componentName);
      }
    }
  }

  // ---------------------------------------------------------------- statistics and trend

  datatype TrendPoint = TrendPoint(date: int, urgentCount: nat, scheduledCount: nat, totalCount: nat)

  /** One day's counts of urgent and scheduled alerts first seen that day. */
  function PointOn(rows: seq<Alert>, date: int): (p: TrendPoint)
    ensures p.date == date && p.totalCount == p.urgentCount + p.scheduledCount
    ensures p.urgentCount + p.scheduledCount <= |rows|
  {
    var onDay := (a: Alert) => DayOf(a.firstOccurrence) == date;
    var urgent := CountIf(rows, (a: Alert) => DayOf(a.firstOccurrence) == date && a.alertLevel == "urgent");
    var scheduled := CountIf(rows, (a: Alert) => DayOf(a.firstOccurrence) == date && a.alertLevel == "scheduled");
    DisjointCounts(rows, (a: Alert) => DayOf(a.firstOccurrence) == date && a.alertLevel == "urgent",
                   (a: Alert) => DayOf(a.firstOccurrence) == date && a.alertLevel == "scheduled");
    TrendPoint(date, urgent, scheduled, urgent + scheduled)
  }

  /** Two tests no element passes together count at most the whole sequence. */
  lemma {:induction false} DisjointCounts<T>(s: seq<T>, p: T -> bool, q: T -> bool)
    requires forall x :: !(p(x) && q(x))
    ensures CountIf(s, p) + CountIf(s, q) <= |s|
  {
    if s != [] {
      DisjointCounts(s[1..], p, q);
    }
  }

  /** The consecutive dates of a trend end today. */
  lemma TrendEndsToday(rows: seq<Alert>, days: int, today: int, trend: seq<TrendPoint>)
    requires days > 0 && |trend| == days
    requires forall i :: 0 <= i < |trend| ==> trend[i] == PointOn(rows, today - days + 1 + i)
    ensures trend[|trend| - 1].date == today
    ensures forall i :: 0 <= i < |trend| - 1 ==> trend[i + 1].date == trend[i].date + 1
  {
  }

  datatype Statistics = Statistics(
    totalAlerts: nat,
    urgentAlerts: nat,
    scheduledAlerts: nat,
    activeAlerts: nat,
    resolvedAlerts: nat,
    ignoredAlerts: nat)

  /** `get_alert_statistics`: the period counts, then the status counts over the whole table. */
  function AlertStatistics(rows: seq<Alert>, days: int, now: int): (r: Statistics)
    ensures r.urgentAlerts + r.scheduledAlerts <= r.totalAlerts <= |rows|
    ensures r.activeAlerts + r.resolvedAlerts + r.ignoredAlerts <= |rows|
  {
    var start := now - days * SecondsPerDay;
    var inPeriod := (a: Alert) => a.firstOccurrence >= start;
    var urgent := (a: Alert) => a.firstOccurrence >= start && a.alertLevel == "urgent";
    var scheduled := (a: Alert) => a.firstOccurrence >= start && a.alertLevel == "scheduled";
    var active := (a: Alert) => a.alertStatus == "active";
    var resolved := (a: Alert) => a.alertStatus == "resolved";
    var ignored := (a: Alert) => a.alertStatus == "ignored";
    PartCounts(rows, inPeriod, urgent, scheduled);
    ThreeWayCounts(rows, active, resolved, ignored);
    Statistics(CountIf(rows, inPeriod), CountIf(rows, urgent), CountIf(rows, scheduled),
               CountIf(rows, active), CountIf(rows, resolved), CountIf(rows, ignored))
  }

  lemma {:induction false} PartCounts<T>(s: seq<T>, whole: T -> bool, p: T -> bool, q: T -> bool)
    requires forall x :: (p(x) ==> whole(x)) && (q(x) ==> whole(x)) && !(p(x) && q(x))
    ensures CountIf(s, p) + CountIf(s, q) <= CountIf(s, whole)
  {
    if s != [] {
      PartCounts(s[1..], whole, p, q);
    }
  }

  lemma {:induction false} ThreeWayCounts<T>(s: seq<T>, p: T -> bool, q: T -> bool, o: T -> bool)
    requires forall x :: !(p(x) && q(x)) && !(p(x) && o(x)) && !(q(x) && o(x))
    ensures CountIf(s, p) + CountIf(s, q) + CountIf(s, o) <= |s|
  {
    if s != [] {
      ThreeWayCounts(s[1..], p, q, o);
    }
  }

  // ---------------------------------------------------------------- paging

  /**
   * One page of `get_alert_list`: the ordered rows from offset `page_num`.
   * The alert route hands the page number straight to the offset.
   */
  function AlertPage(ordered: seq<Alert>, pageNum: int, pageSize: int): Option<seq<Alert>> {
    SqlPage(ordered, pageNum, pageSize)
  }

  /** Page 1 starts at the second row, so the newest alert never shows on the first page. */
  lemma FirstPageSkipsFirstAlert(ordered: seq<Alert>, pageSize: int)
    requires |ordered| >= 1 && pageSize >= 1
    ensures AlertPage(ordered, 1, pageSize).Some?
    ensures forall k :: 0 <= k < |AlertPage(ordered, 1, pageSize).value| ==> AlertPage(ordered, 1, pageSize).value[k] == ordered[k + 1]
    ensures |ordered| - 1 < pageSize ==> |AlertPage(ordered, 1, pageSize).value| == |ordered| - 1
  {
  }

  /** The page with offset `(page_num - 1) * page_size`, as the other list routes compute it. */
  function CorrectedAlertPage(ordered: seq<Alert>, pageNum: int, pageSize: int): Option<seq<Alert>> {
    SqlPage(ordered, PageOffset(pageNum, pageSize), pageSize)
  }

  /** With the corrected offset, page n holds exactly the rows (n-1)*size .. n*size. */
  lemma CorrectedPagesTile(ordered: seq<Alert>, pageNum: int, pageSize: int)
    requires pageNum >= 1 && pageSize >= 0
    ensures CorrectedAlertPage(ordered, pageNum, pageSize).Some?
    ensures var page := CorrectedAlertPage(ordered, pageNum, pageSize).value;
      forall k :: 0 <= k < |page| ==> page[k] == ordered[PageOffset(pageNum, pageSize) + k]
    ensures pageNum == 1 && |ordered| >= 1 && pageSize >= 1 ==> CorrectedAlertPage(ordered, 1, pageSize).value[0] == ordered[0]
  {
  }
}
