/**
 * The Redfish log service: the list and detail answers built from the
 * stored rows, the deletions, the cleanup by age, and log collection (the
 * per-device scan of fetched entries and the summary over all devices).
 */
module RedfishLogService {
  import opened Basics
  import opened RedfishLogVo
  import opened RedfishLogDao
  import Records
  import DeviceDao

  // ---------------------------------------------------------------- list and detail

  /** A row of the list and detail answers (`RedfishLogModel`); the key is printed as text. */
  datatype LogView = LogView(
    logId: string,
    deviceId: int,
    deviceIp: string,
    entryId: Option<string>,
    entryType: Option<string>,
    logSource: string,
    severity: string,
    createdTime: int,
    message: Option<string>,
    createBy: Option<string>)

  /** The list answer: a page, a plain list, or the exception the service re-raises. */
  datatype ListAnswer =
    | PageAnswer(rows: seq<LogView>, pageNum: int, pageSize: int, total: int, hasNext: bool)
    | PlainAnswer(rows: seq<LogView>)
    | ListRaised

  /** `has_next`: the rows of pages 1..n do not yet reach the total. */
  function HasNext(pageNum: int, pageSize: int, total: int): bool {
    pageNum * pageSize < total
  }

  /**
   * `get_redfish_log_list_services` as written. Both converters read
   * `message_id`, `sensor_type` and `sensor_number`, attributes the stored
   * row class does not declare, so converting the first listed row raises.
   */
  function GetRedfishLogListServices(rows: seq<RedfishLog>, ordered: seq<RedfishLog>, q: LogQuery, isPage: bool): ListAnswer
    requires InQueryOrder(ordered, rows)
  {
    match GetRedfishLogList(rows, ordered, q, isPage)
      case Failed => ListRaised
      case Listed(logs, total) =>
        if logs != [] then ListRaised
        else if isPage then PageAnswer([], q.pageNum, q.pageSize, total, HasNext(q.pageNum, q.pageSize, total))
        else PlainAnswer([])
  }

  /** As written, listing succeeds only when it lists nothing: an unfiltered list of a non-empty table raises. */
  lemma StoredLogBreaksListing(rows: seq<RedfishLog>, ordered: seq<RedfishLog>, q: LogQuery)
    requires InQueryOrder(ordered, rows) && rows != []
    requires q.deviceId.None? && q.deviceIp.None? && q.logSource.None? && q.severity.None?
    requires q.messageKeyword.None? && q.startTime.None? && q.endTime.None?
    ensures GetRedfishLogListServices(rows, ordered, q, false) == ListRaised
    ensures forall isPage :: (GetRedfishLogListServices(rows, ordered, q, isPage).ListRaised? ||
      GetRedfishLogListServices(rows, ordered, q, isPage).rows == [])
  {
    var p := (log: RedfishLog) => BaseConditions(q, log);
    assert |ordered| == |multiset(ordered)| == |multiset(rows)| == |rows|;
    FilterSeqComplete(ordered, p, ordered[0]);
  }

  /** The converter with only the columns the row class declares: the key printed with `str`. */
  function CorrectedLogView(log: RedfishLog): (v: LogView)
    ensures PyInt(v.logId) == Some(log.logId)
    ensures v.deviceId == log.data.deviceId && v.createdTime == log.data.createdTime
  {
    PyIntOfIntToString(log.logId);
    LogView(IntToString(log.logId), log.data.deviceId, log.data.deviceIp, log.data.entryId, log.data.entryType,
            log.data.logSource, log.data.severity, log.data.createdTime, log.data.message, log.data.createBy)
  }

  function ViewsOf(logs: seq<RedfishLog>): (vs: seq<LogView>)
    ensures |vs| == |logs|
    ensures forall k :: 0 <= k < |logs| ==> vs[k] == CorrectedLogView(logs[k])
  {
    seq(|logs|, k requires 0 <= k < |logs| => CorrectedLogView(logs[k]))
  }

  /** The list service over the corrected converter and the corrected keyword condition. */
  function CorrectedListServices(rows: seq<RedfishLog>, ordered: seq<RedfishLog>, q: LogQuery, isPage: bool): ListAnswer
    requires InQueryOrder(ordered, rows)
  {
    match CorrectedRedfishLogList(rows, ordered, q, isPage)
      case Failed => ListRaised
      case Listed(logs, total) =>
        if isPage then PageAnswer(ViewsOf(logs), q.pageNum, q.pageSize, total, HasNext(q.pageNum, q.pageSize, total))
        else PlainAnswer(ViewsOf(logs))
  }

  /**
   * A page in range is answered; it holds at most `page_size` rows, each
   * naming a stored key, and `has_next` holds exactly when matching rows
   * remain after this page.
   */
  lemma HasNextMeansMoreRows(table: seq<RedfishLog>, ordered: seq<RedfishLog>, q: LogQuery)
    requires InQueryOrder(ordered, table) && PageInRange(q.pageNum, q.pageSize)
    ensures var a := CorrectedListServices(table, ordered, q, true);
      a.PageAnswer? && |a.rows| <= q.pageSize &&
      (a.hasNext <==> PageOffset(q.pageNum, q.pageSize) + |a.rows| < a.total) &&
      (forall k :: 0 <= k < |a.rows| ==> exists log :: log in table && PyInt(a.rows[k].logId) == Some(log.logId))
  {
    CorrectedListPaging(table, ordered, q);
    var p := (log: RedfishLog) => CorrectedConditions(q, log);
    var matching := FilterSeq(ordered, p);
    CountIsFilterLength(ordered, p);
    var offset := PageOffset(q.pageNum, q.pageSize);
    assert offset >= 0;
    assert offset + q.pageSize == q.pageNum * q.pageSize;
    var page := SqlPage(matching, offset, q.pageSize).value;
    var a := CorrectedListServices(table, ordered, q, true);
    assert a.rows == ViewsOf(page) && a.total == |matching|;
    forall k | 0 <= k < |a.rows|
      ensures exists log :: log in table && PyInt(a.rows[k].logId) == Some(log.logId)
    {
      assert page[k] in matching;
      assert page[k] in multiset(ordered);
      assert page[k] in table && PyInt(a.rows[k].logId) == Some(page[k].logId);
    }
    assert forall k :: 0 <= k < |a.rows| ==> exists log :: log in table && PyInt(a.rows[k].logId) == Some(log.logId);
  }

  /** The detail answer: the row, `ValueError("日志不存在")`, or another exception. */
  datatype DetailAnswer = Detail(view: LogView) | NotFound | DetailRaised

  /** `get_redfish_log_detail_services` as written: a found row reaches the failing converter. */
  function GetRedfishLogDetailServices(rows: seq<RedfishLog>, logId: int): DetailAnswer {
    if LogById(rows, logId).None? then NotFound else DetailRaised
  }

  /** As written, no stored log can be shown. */
  lemma DetailNeverShown(rows: seq<RedfishLog>, logId: int)
    ensures !GetRedfishLogDetailServices(rows, logId).Detail?
    ensures GetRedfishLogDetailServices(rows, logId) == NotFound <==> forall log :: log in rows ==> log.logId != logId
  {
  }

  /** The detail service with the corrected converter. */
  function CorrectedDetailServices(rows: seq<RedfishLog>, logId: int): (a: DetailAnswer)
    ensures a.NotFound? <==> forall log :: log in rows ==> log.logId != logId
    ensures a.Detail? ==> PyInt(a.view.logId) == Some(logId)
    ensures !a.DetailRaised?
  {
    match LogById(rows, logId)
      case None => NotFound
      case Some(log) => Detail(CorrectedLogView(log))
  }

  // ---------------------------------------------------------------- deletions and cleanup

  /** `delete_redfish_log_services`: a missing key is reported without deleting. */
  method DeleteRedfishLogServices(table: RedfishLogTable, logId: int) returns (ok: bool)
    requires table.Valid()
    modifies table
    ensures ok <==> exists log :: log in old(table.rows) && log.logId == logId
    ensures !ok ==> table.rows == old(table.rows)
    ensures forall log :: log in table.rows <==> log in old(table.rows) && log.logId != logId
    ensures table.Valid()
  {
    var found := LogById(table.rows, logId);
    if found.None? {
      return false;
    }
    ok := table.DeleteRedfishLog(logId);
  }

  /** `delete_device_logs_services`: the number of the device's rows removed. */
  method DeleteDeviceLogsServices(table: RedfishLogTable, deviceId: int) returns (deletedCount: nat)
    requires table.Valid()
    modifies table
    ensures deletedCount == DeviceLogCount(old(table.rows), deviceId)
    ensures forall log :: log in table.rows <==> log in old(table.rows) && !OfDevice(log, deviceId)
    ensures table.Valid()
  {
    deletedCount := table.DeleteRedfishLogsByDevice(deviceId);
  }

  datatype CleanupResult = CleanupResult(success: bool, cleanedCount: nat, beforeDate: int)

  /** `cleanup_old_logs_services`: rows collected more than `days` days before `now` are removed. */
  method CleanupOldLogsServices(table: RedfishLogTable, now: int, days: int) returns (r: CleanupResult)
    requires table.Valid()
    modifies table
    ensures r.success && r.beforeDate == now - days * SecondsPerDay
    ensures r.cleanedCount == CountIf(old(table.rows), (log: RedfishLog) => log.data.createdTime < r.beforeDate)
    ensures forall log :: log in table.rows <==> log in old(table.rows) && log.data.createdTime >= now - days * SecondsPerDay
    ensures table.Valid()
  {
    var beforeDate := now - days * SecondsPerDay;
    var cleaned := table.CleanupOldLogs(beforeDate);
    r := CleanupResult(true, cleaned, beforeDate);
  }

  // ---------------------------------------------------------------- collecting one device

  /**
   * The time handed to the client: none on a forced refresh, otherwise
   * the latest `created_time` stored for the device (none if it has none).
   */
  function SinceTimestamp(stored: seq<RedfishLog>, deviceId: int, forceRefresh: bool): (t: Option<int>)
    ensures forceRefresh ==> t.None?
    ensures !forceRefresh ==> (t.None? <==> forall log :: log in stored ==> !OfDevice(log, deviceId))
    ensures t.Some? ==> ((exists log :: log in stored && OfDevice(log, deviceId) && log.data.createdTime == t.value) &&
      (forall log :: log in stored && OfDevice(log, deviceId) ==> log.data.createdTime <= t.value))
  {
    if forceRefresh then None else LatestLogTime(stored, deviceId)
  }

  /** What the scan needs besides the entries: the rows stored before, the device, the operator, the clock. */
  datatype Context = Context(
    stored: seq<RedfishLog>,
    device: DeviceDao.Device,
    operator: string,
    fromIso: string -> Option<int>,
    now: int)

  /** The device's `oob_ip` column. */
  function OobIp(d: DeviceDao.Device): Records.Cell {
    Records.ColumnOf(d.columns, "oob_ip")
  }

  /** An `Optional[str]` model field: None stays None. */
  function OptionalText(v: Val): Option<string> {
    if v.Str? then Some(v.s) else None
  }

  /** The entry's `created` text parsed after the 'Z' rewrite, or the current time when it does not parse. */
  function CreatedTime(cx: Context, text: string): int {
    match cx.fromIso(ReplaceAll(text, "Z", "+00:00"))
      case Some(t) => t
      case None => cx.now
  }

  /** What one fetched entry becomes: skipped, a row to save, or an exception that aborts the device. */
  datatype EntryStep = Skip | Keep(data: LogData) | Fail

  /**
   * One iteration of the scan. Entries without a truthy `id` or `created`
   * are skipped, and so are entries already stored for the device (the
   * check asks the rows stored before the scan). Two stored copies make
   * the check raise; so do a missing or invalid `log_source` or
   * `severity` in the add model, or a device without an OOB address.
   */
  function Step(cx: Context, entry: Dict): (s: EntryStep)
    ensures s.Keep? ==> (Truthy(GetOr(entry, "id", Str(""))) && Truthy(GetOr(entry, "created", Str(""))) &&
      s.data.entryId == Some(GetOr(entry, "id", Str("")).s) && s.data.deviceId == cx.device.deviceId &&
      CheckLogExists(cx.stored, s.data.deviceId, s.data.entryId.value, s.data.createdTime) == Some(false) &&
      s.data.logSource in {"SEL", "MEL"} && s.data.severity in {"", "CRITICAL", "WARNING"} &&
      GetOr(entry, "severity", Str("")).Str? && s.data.severity == Upper(GetOr(entry, "severity", Str("")).s))
    ensures !Truthy(GetOr(entry, "id", Str(""))) || !Truthy(GetOr(entry, "created", Str(""))) ==> s.Skip?
  {
    var id := GetOr(entry, "id", Str(""));
    var created := GetOr(entry, "created", Str(""));
    if !Truthy(id) || !Truthy(created) then Skip
    else
      var t := CreatedTime(cx, created.s);
      match CheckLogExists(cx.stored, cx.device.deviceId, id.s, t)
        case None => Fail
        case Some(true) => Skip
        case Some(false) =>
          var source := GetOr(entry, "log_source", Str(""));
          var severity := GetOr(entry, "severity", Str(""));
          if !source.Str? || !severity.Str? || !OobIp(cx.device).Text? then Fail
          else match (AddLogSource(source.s), AddSeverity(severity.s))
            case (Accepted(src), Accepted(level)) =>
              assert severity.s == "" ==> Upper(severity.s) == "";
              Keep(LogData(cx.device.deviceId, OobIp(cx.device).s, Some(id.s),
                           OptionalText(GetOr(entry, "entry_type", Str(""))), src, level, t,
                           OptionalText(GetOr(entry, "message", Str(""))), Some(cx.operator)))
            case _ => Fail
  }

  /** `acc` followed by the rest of a scan, which may have failed. */
  function Then(acc: seq<LogData>, rest: Option<seq<LogData>>): Option<seq<LogData>> {
    if rest.None? then None else Some(acc + rest.value)
  }

  /** The rows a scan of `entries` saves, or None when some entry raises. */
  function Prepare(cx: Context, entries: seq<Dict>): Option<seq<LogData>> {
    if entries == [] then Some([])
    else match Step(cx, entries[0])
      case Skip => Prepare(cx, entries[1..])
      case Fail => None
      case Keep(d) => Then([d], Prepare(cx, entries[1..]))
  }

  /** One unfolding of the scan at position `i`. */
  lemma PrepareAt(cx: Context, entries: seq<Dict>, i: nat, step: EntryStep)
    requires i < |entries| && step == Step(cx, entries[i])
    ensures step.Skip? ==> Prepare(cx, entries[i..]) == Prepare(cx, entries[i + 1..])
    ensures step.Fail? ==> Prepare(cx, entries[i..]) == None
    ensures step.Keep? ==> Prepare(cx, entries[i..]) == Then([step.data], Prepare(cx, entries[i + 1..]))
  {
    assert entries[i..][0] == entries[i] && entries[i..][1..] == entries[i + 1..];
  }

  lemma ThenAppend(batch: seq<LogData>, d: LogData, rest: Option<seq<LogData>>)
    ensures Then(batch, Then([d], rest)) == Then(batch + [d], rest)
  {
    if rest.Some? {
      assert batch + ([d] + rest.value) == (batch + [d]) + rest.value;
    }
  }

  /**
   * Everything a scan saves is a fresh SEL or MEL row of this device with
   * a non-empty entry id and a known severity, and it saves at most one
   * row per entry.
   */
  lemma {:induction false} PreparedRowsAreNew(cx: Context, entries: seq<Dict>)
    requires Prepare(cx, entries).Some?
    ensures |Prepare(cx, entries).value| <= |entries|
    ensures forall d :: d in Prepare(cx, entries).value ==>
      d.deviceId == cx.device.deviceId && d.entryId.Some? && d.entryId.value != "" &&
      CheckLogExists(cx.stored, d.deviceId, d.entryId.value, d.createdTime) == Some(false) &&
      d.logSource in {"SEL", "MEL"} && d.severity in {"", "CRITICAL", "WARNING"}
  {
    if entries != [] {
      PreparedRowsAreNew(cx, entries[1..]);
    }
  }

  predicate IsCritical(d: LogData) {
    d.severity == "CRITICAL"
  }

  predicate IsWarning(d: LogData) {
    d.severity == "WARNING"
  }

  /** The counters one device reports: `{'total', 'critical', 'warning'}`. */
  datatype Counts = Counts(total: nat, critical: nat, warning: nat)

  /** The counters of a saved batch: its size and its critical and warning rows. */
  function Tally(batch: seq<LogData>): (c: Counts)
    ensures c.total == |batch|
    ensures c.critical + c.warning <= c.total
  {
    ExclusiveCounts(batch, IsCritical, IsWarning);
    Counts(|batch|, CountIf(batch, IsCritical), CountIf(batch, IsWarning))
  }

  /** What the device scan saves: the fetched entries depend on the time handed to the client. */
  function Plan(stored: seq<RedfishLog>, device: DeviceDao.Device, forceRefresh: bool, operator: string,
                fetch: (DeviceDao.Device, Option<int>) -> Option<seq<Dict>>,
                fromIso: string -> Option<int>, now: int): Option<seq<LogData>> {
    match fetch(device, SinceTimestamp(stored, device.deviceId, forceRefresh))
      case None => None
      case Some(entries) => Prepare(Context(stored, device, operator, fromIso, now), entries)
  }

  /**
   * The entry loop of `_collect_single_device_logs`: rows to save are
   * gathered in order with their critical and warning counts, and the
   * first entry that raises abandons the scan.
   */
  method ScanEntries(cx: Context, entries: seq<Dict>) returns (plan: Option<seq<LogData>>, counts: Counts)
    ensures plan == Prepare(cx, entries)
    ensures plan.Some? ==> counts == Tally(plan.value)
  {
    var batch: seq<LogData> := [];
    var critical, warning := 0, 0;
    var i := 0;
    assert entries[0..] == entries;
    if Prepare(cx, entries).Some? {
      assert [] + Prepare(cx, entries).value == Prepare(cx, entries).value;
    }
    while i < |entries|
      invariant 0 <= i <= |entries|
      invariant Prepare(cx, entries) == Then(batch, Prepare(cx, entries[i..]))
      invariant critical == CountIf(batch, IsCritical) && warning == CountIf(batch, IsWarning)
    {
      var step := Step(cx, entries[i]);
      PrepareAt(cx, entries, i, step);
      match step {
        case Skip =>
        case Fail =>
          return None, Counts(0, 0, 0);
        case Keep(d) =>
          ThenAppend(batch, d, Prepare(cx, entries[i + 1..]));
          CountIfAppend(batch, d, IsCritical);
          CountIfAppend(batch, d, IsWarning);
          batch := batch + [d];
          if d.severity == "CRITICAL" {
            critical := critical + 1;
          } else if d.severity == "WARNING" {
            warning := warning + 1;
          }
      }
      i := i + 1;
    }
    assert entries[i..] == [];
    assert batch + [] == batch;
    plan := Some(batch);
    counts := Counts(|batch|, critical, warning);
  }

  /**
   * `_collect_single_device_logs`: the client call (passwords, HTTP) is
   * `fetch`, which answers None when it raises. The rows of the plan are
   * added in one batch; a failed scan saves nothing.
   */
  method CollectSingleDeviceLogs(table: RedfishLogTable, device: DeviceDao.Device, forceRefresh: bool, operator: string,
                                 fetch: (DeviceDao.Device, Option<int>) -> Option<seq<Dict>>,
                                 fromIso: string -> Option<int>, now: int) returns (outcome: Option<Counts>)
    modifies table`rows, table`nextId
    ensures var plan := Plan(old(table.rows), device, forceRefresh, operator, fetch, fromIso, now);
      (plan.None? ==> outcome.None? && table.rows == old(table.rows) && table.nextId == old(table.nextId)) &&
      (plan.Some? ==> (outcome == Some(Tally(plan.value)) &&
        table.nextId == old(table.nextId) + |plan.value| &&
        |table.rows| == |old(table.rows)| + |plan.value| && table.rows[..|old(table.rows)|] == old(table.rows) &&
        forall k :: 0 <= k < |plan.value| ==>
          table.rows[|old(table.rows)| + k] == RedfishLog(old(table.nextId) + k, plan.value[k])))
    ensures var plan := Plan(old(table.rows), device, forceRefresh, operator, fetch, fromIso, now);
      table.rows == (if plan.Some? then old(table.rows) + Appended(plan.value, old(table.nextId)) else old(table.rows))
    ensures old(table.Valid()) ==> table.Valid()
  {
    var since := SinceTimestamp(table.rows, device.deviceId, forceRefresh);
    var fetched := fetch(device, since);
    if fetched.None? {
      return None;
    }
    var plan, counts := ScanEntries(Context(table.rows, device, operator, fromIso, now), fetched.value);
    if plan.None? {
      return None;
    }
    ghost var before := table.rows;
    if plan.value != [] {
      var added := table.AddRedfishLogsBatch(plan.value);
    }
    assert table.rows == before + Appended(plan.value, old(table.nextId));
    outcome := Some(counts);
  }

  /** The rows a plan appends, under consecutive keys from `nextId`. */
  function Appended(plan: seq<LogData>, nextId: int): (r: seq<RedfishLog>)
    ensures |r| == |plan|
    ensures forall k :: 0 <= k < |plan| ==> r[k] == RedfishLog(nextId + k, plan[k])
  {
    seq(|plan|, k requires 0 <= k < |plan| => RedfishLog(nextId + k, plan[k]))
  }

  // ---------------------------------------------------------------- collecting all devices

  /** The devices a collection request covers, or the exception a duplicate key lookup raises. */
  datatype Selection = Selected(devices: seq<DeviceDao.Device>) | SelectionRaised

  /**
   * A truthy device id selects that device whatever its monitoring flag,
   * or none; otherwise every monitored device is selected.
   */
  function DevicesToCollect(rows: seq<DeviceDao.Device>, deviceId: Option<int>): (s: Selection)
    ensures (deviceId.None? || deviceId.value == 0) ==>
      s.Selected? && forall d :: d in s.devices <==> d in rows && DeviceDao.Monitored(d)
    ensures s.Selected? && deviceId.Some? && deviceId.value != 0 ==>
      |s.devices| <= 1 && forall d :: d in s.devices ==> d in rows && d.deviceId == deviceId.value
  {
    if deviceId.Some? && deviceId.value != 0 then
      match DeviceDao.DeviceById(rows, deviceId.value)
        case Found(d) => Selected([d])
        case NoRow => Selected([])
        case Raised => SelectionRaised
    else
      var monitored := DeviceDao.MonitoringDevices(rows);
      assert forall d :: d in rows && DeviceDao.Monitored(d) ==> d in monitored by {
        forall d | d in rows && DeviceDao.Monitored(d)
          ensures d in monitored
        {
          FilterSeqComplete(rows, DeviceDao.Monitored, d);
        }
      }
      Selected(monitored)
  }

  /** With unique device keys, a truthy id selects exactly the device holding it, when there is one. */
  lemma SelectionById(rows: seq<DeviceDao.Device>, nextId: int, deviceId: int)
    requires DeviceDao.IdsIncreasing(rows, nextId) && deviceId != 0
    ensures DevicesToCollect(rows, Some(deviceId)).Selected?
    ensures |DevicesToCollect(rows, Some(deviceId)).devices| == 1 <==>
      exists i :: 0 <= i < |rows| && rows[i].deviceId == deviceId
  {
    DeviceDao.DeviceByIdFinds(rows, nextId, deviceId);
  }

  /** `RedfishLogCollectResultModel`, without the message text. */
  datatype CollectResult = CollectResult(
    success: bool,
    deviceCount: nat,
    totalCollected: nat,
    criticalCollected: nat,
    warningCollected: nat,
    failedDevices: seq<Records.Cell>)

  /** The OOB addresses of the devices whose collection raised, in device order. */
  function FailedDevices(devices: seq<DeviceDao.Device>, results: seq<Option<Counts>>): (ips: seq<Records.Cell>)
    requires |devices| == |results|
    ensures |ips| <= |devices|
    ensures |ips| == |devices| <==> forall i :: 0 <= i < |results| ==> results[i].None?
    decreases |devices|
  {
    if devices == [] then []
    else
      var n := |devices| - 1;
      var front := FailedDevices(devices[..n], results[..n]);
      assert forall i :: 0 <= i < n ==> results[..n][i] == results[i];
      front + (if results[n].None? then [OobIp(devices[n])] else [])
  }

  function TotalOf(c: Counts): nat { c.total }
  function CriticalOf(c: Counts): nat { c.critical }
  function WarningOf(c: Counts): nat { c.warning }

  /** A counter summed over the devices whose collection returned. */
  function Collected(results: seq<Option<Counts>>, pick: Counts -> nat): nat {
    if results == [] then 0
    else
      var n := |results| - 1;
      Collected(results[..n], pick) + (if results[n].Some? then pick(results[n].value) else 0)
  }

  /** When every device's critical and warning counts stay within its total, so do the sums. */
  lemma {:induction false} CollectedBounded(results: seq<Option<Counts>>)
    requires forall i :: 0 <= i < |results| && results[i].Some? ==>
      results[i].value.critical + results[i].value.warning <= results[i].value.total
    ensures Collected(results, CriticalOf) + Collected(results, WarningOf) <= Collected(results, TotalOf)
    decreases |results|
  {
    if results != [] {
      var n := |results| - 1;
      assert forall i :: 0 <= i < n ==> results[..n][i] == results[i];
      CollectedBounded(results[..n]);
    }
  }

  /**
   * The devices collected in turn against one table: each device's plan is
   * made against the rows collected so far and its rows appended. The
   * table, its next key and each device's outcome afterwards.
   */
  function CollectInTurn(rows: seq<RedfishLog>, nextId: int, devices: seq<DeviceDao.Device>, forceRefresh: bool, operator: string,
                         fetch: (DeviceDao.Device, Option<int>) -> Option<seq<Dict>>,
                         fromIso: string -> Option<int>, now: int): (r: (seq<RedfishLog>, int, seq<Option<Counts>>))
    ensures |r.2| == |devices|
    decreases |devices|
  {
    if devices == [] then (rows, nextId, [])
    else
      var plan := Plan(rows, devices[0], forceRefresh, operator, fetch, fromIso, now);
      var rows' := if plan.Some? then rows + Appended(plan.value, nextId) else rows;
      var nextId' := if plan.Some? then nextId + |plan.value| else nextId;
      var rest := CollectInTurn(rows', nextId', devices[1..], forceRefresh, operator, fetch, fromIso, now);
      (rest.0, rest.1, [if plan.Some? then Some(Tally(plan.value)) else None] + rest.2)
  }

  /**
   * One step of `CollectInTurn`: the first device's outcome, then the rest
   * collected against the table that device left.
   */
  lemma CollectInTurnStep(rows: seq<RedfishLog>, nextId: int, devices: seq<DeviceDao.Device>, forceRefresh: bool,
                          operator: string, fetch: (DeviceDao.Device, Option<int>) -> Option<seq<Dict>>,
                          fromIso: string -> Option<int>, now: int,
                          rows': seq<RedfishLog>, nextId': int, outcome: Option<Counts>)
    requires devices != []
    requires var plan := Plan(rows, devices[0], forceRefresh, operator, fetch, fromIso, now);
      rows' == (if plan.Some? then rows + Appended(plan.value, nextId) else rows) &&
      nextId' == (if plan.Some? then nextId + |plan.value| else nextId) &&
      outcome == (if plan.Some? then Some(Tally(plan.value)) else None)
    ensures var rest := CollectInTurn(rows', nextId', devices[1..], forceRefresh, operator, fetch, fromIso, now);
      CollectInTurn(rows, nextId, devices, forceRefresh, operator, fetch, fromIso, now) == (rest.0, rest.1, [outcome] + rest.2)
  {
  }

  /**
   * Collecting only appends: the stored rows stay in front, one new key is
   * used per new row, and a device's outcome is None exactly when its plan,
   * made against the rows before it, fails.
   */
  lemma {:induction false} CollectInTurnAppends(rows: seq<RedfishLog>, nextId: int, devices: seq<DeviceDao.Device>, forceRefresh: bool,
                                                operator: string, fetch: (DeviceDao.Device, Option<int>) -> Option<seq<Dict>>,
                                                fromIso: string -> Option<int>, now: int)
    ensures var r := CollectInTurn(rows, nextId, devices, forceRefresh, operator, fetch, fromIso, now);
      |rows| <= |r.0| && r.0[..|rows|] == rows && r.1 - nextId == |r.0| - |rows| &&
      (forall i :: 0 <= i < |r.2| && r.2[i].Some? ==> r.2[i].value.critical + r.2[i].value.warning <= r.2[i].value.total)
    ensures devices != [] ==>
      (CollectInTurn(rows, nextId, devices, forceRefresh, operator, fetch, fromIso, now).2[0].None? <==>
       Plan(rows, devices[0], forceRefresh, operator, fetch, fromIso, now).None?)
    decreases |devices|
  {
    if devices != [] {
      var plan := Plan(rows, devices[0], forceRefresh, operator, fetch, fromIso, now);
      var rows' := if plan.Some? then rows + Appended(plan.value, nextId) else rows;
      var nextId' := if plan.Some? then nextId + |plan.value| else nextId;
      CollectInTurnAppends(rows', nextId', devices[1..], forceRefresh, operator, fetch, fromIso, now);
      var rest := CollectInTurn(rows', nextId', devices[1..], forceRefresh, operator, fetch, fromIso, now);
      assert rest.0[..|rows'|] == rows';
      assert rest.0[..|rows|] == rows'[..|rows|];
      var r := CollectInTurn(rows, nextId, devices, forceRefresh, operator, fetch, fromIso, now);
      forall i | 0 <= i < |r.2| && r.2[i].Some?
        ensures r.2[i].value.critical + r.2[i].value.warning <= r.2[i].value.total
      {
        if i > 0 {
          assert r.2[i] == rest.2[i - 1];
        }
      }
    }
  }

  /**
   * The summary loop of `collect_device_logs_services` over the per-device
   * outcomes `asyncio.gather` returns in device order (None for an
   * exception). No device gives an unsuccessful all-zero result; otherwise
   * the collection succeeds exactly when some device did not fail.
   */
  method Summarise(devices: seq<DeviceDao.Device>, results: seq<Option<Counts>>) returns (r: CollectResult)
    requires |results| == |devices|
    ensures devices == [] ==> r == CollectResult(false, 0, 0, 0, 0, [])
    ensures r.deviceCount == |devices|
    ensures r.success <==> exists i :: 0 <= i < |results| && results[i].Some?
    ensures r.failedDevices == FailedDevices(devices, results)
    ensures r.totalCollected == Collected(results, TotalOf)
    ensures r.criticalCollected == Collected(results, CriticalOf)
    ensures r.warningCollected == Collected(results, WarningOf)
  {
    if devices == [] {
      return CollectResult(false, 0, 0, 0, 0, []);
    }
    var total, critical, warning := 0, 0, 0;
    var failed: seq<Records.Cell> := [];
    var i := 0;
    while i < |devices|
      invariant 0 <= i <= |devices|
      invariant failed == FailedDevices(devices[..i], results[..i])
      invariant total == Collected(results[..i], TotalOf)
      invariant critical == Collected(results[..i], CriticalOf)
      invariant warning == Collected(results[..i], WarningOf)
    {
      assert devices[..i + 1][..i] == devices[..i] && results[..i + 1][..i] == results[..i];
      if results[i].None? {
        failed := failed + [OobIp(devices[i])];
      } else {
        total := total + results[i].value.total;
        critical := critical + results[i].value.critical;
        warning := warning + results[i].value.warning;
      }
      i := i + 1;
    }
    assert devices[..i] == devices && results[..i] == results;
    r := CollectResult(|failed| < |devices|, |devices|, total, critical, warning, failed);
  }

  /** The device loop: each device collected in turn against the table, its outcome recorded. */
  method CollectEach(table: RedfishLogTable, devices: seq<DeviceDao.Device>, forceRefresh: bool, operator: string,
                     fetch: (DeviceDao.Device, Option<int>) -> Option<seq<Dict>>,
                     fromIso: string -> Option<int>, now: int) returns (results: seq<Option<Counts>>)
    modifies table`rows, table`nextId
    ensures var c := CollectInTurn(old(table.rows), old(table.nextId), devices, forceRefresh, operator, fetch, fromIso, now);
      table.rows == c.0 && table.nextId == c.1 && results == c.2
    ensures old(table.Valid()) ==> table.Valid()
  {
    ghost var whole := CollectInTurn(table.rows, table.nextId, devices, forceRefresh, operator, fetch, fromIso, now);
    results := [];
    var i := 0;
    assert devices[0..] == devices && whole.2[0..] == whole.2;
    while i < |devices|
      invariant 0 <= i <= |devices|
      invariant results == whole.2[..i]
      invariant CollectInTurn(table.rows, table.nextId, devices[i..], forceRefresh, operator, fetch, fromIso, now) ==
        (whole.0, whole.1, whole.2[i..])
      invariant old(table.Valid()) ==> table.Valid()
    {
      ghost var rowsI, idI := table.rows, table.nextId;
      var outcome := CollectSingleDeviceLogs(table, devices[i], forceRefresh, operator, fetch, fromIso, now);
      assert devices[i..][0] == devices[i] && devices[i..][1..] == devices[i + 1..];
      ghost var plan := Plan(rowsI, devices[i], forceRefresh, operator, fetch, fromIso, now);
      assert outcome == (if plan.Some? then Some(Tally(plan.value)) else None);
      CollectInTurnStep(rowsI, idI, devices[i..], forceRefresh, operator, fetch, fromIso, now, table.rows, table.nextId, outcome);
      ghost var rest := CollectInTurn(table.rows, table.nextId, devices[i + 1..], forceRefresh, operator, fetch, fromIso, now);
      assert whole.2[i..] == [outcome] + rest.2;
      assert whole.2[i + 1..] == whole.2[i..][1..];
      assert whole.2[i] == whole.2[i..][0] == outcome;
      assert whole.2[..i + 1] == whole.2[..i] + [outcome];
      results := results + [outcome];
      i := i + 1;
    }
    assert whole.2[..|devices|] == whole.2;
  }

  /**
   * `collect_device_logs_services`: every selected device is collected in
   * turn against the same table, then the outcomes are summarised. None
   * is the exception a failed device selection raises.
   */
  method CollectDeviceLogsServices(table: RedfishLogTable, deviceRows: seq<DeviceDao.Device>, request: CollectRequest,
                                   operator: string, fetch: (DeviceDao.Device, Option<int>) -> Option<seq<Dict>>,
                                   fromIso: string -> Option<int>, now: int) returns (r: Option<CollectResult>)
    modifies table`rows, table`nextId
    ensures DevicesToCollect(deviceRows, request.deviceId).SelectionRaised? <==> r.None?
    ensures r.None? ==> table.rows == old(table.rows) && table.nextId == old(table.nextId)
    ensures r.Some? ==>
      var devices := DevicesToCollect(deviceRows, request.deviceId).devices;
      var c := CollectInTurn(old(table.rows), old(table.nextId), devices, request.forceRefresh, operator, fetch, fromIso, now);
      table.rows == c.0 && table.nextId == c.1 &&
      r.value.deviceCount == |devices| &&
      (r.value.success <==> exists i :: 0 <= i < |c.2| && c.2[i].Some?) &&
      r.value.failedDevices == FailedDevices(devices, c.2) &&
      r.value.totalCollected == Collected(c.2, TotalOf) &&
      r.value.criticalCollected == Collected(c.2, CriticalOf) &&
      r.value.warningCollected == Collected(c.2, WarningOf)
    ensures r.Some? ==> r.value.criticalCollected + r.value.warningCollected <= r.value.totalCollected
    ensures r.Some? && r.value.success ==> r.value.deviceCount > 0
    ensures old(table.Valid()) ==> table.Valid()
  {
    var selection := DevicesToCollect(deviceRows, request.deviceId);
    if selection.SelectionRaised? {
      return None;
    }
    var devices := selection.devices;
    ghost var rows0, id0 := table.rows, table.nextId;
    var results := CollectEach(table, devices, request.forceRefresh, operator, fetch, fromIso, now);
    CollectInTurnAppends(rows0, id0, devices, request.forceRefresh, operator, fetch, fromIso, now);
    CollectedBounded(results);
    var summary := Summarise(devices, results);
    r := Some(summary);
  }
}
