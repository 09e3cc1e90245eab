/**
 * The stored Redfish log table (`redfish_log`): the list query and its
 * conditions, batch insertion, the three deletions, the duplicate check,
 * the latest collection time and the statistics.
 */
module RedfishLogDao {
  import opened Basics
  import opened RedfishLogVo

  /** The columns supplied when a log is added (`AddRedfishLogModel`). */
  datatype LogData = LogData(
    deviceId: int,
    deviceIp: string,
    entryId: Option<string>,
    entryType: Option<string>,
    logSource: string,
    severity: string,
    createdTime: int,
    message: Option<string>,
    createBy: Option<string>)

  /** A stored row: its key and its columns. */
  datatype RedfishLog = RedfishLog(logId: int, data: LogData)

  /** Keys are distinct and below the next one handed out. */
  ghost predicate KeysFresh(rows: seq<RedfishLog>, nextId: int) {
    (forall i, j :: 0 <= i < j < |rows| ==> rows[i].logId != rows[j].logId) &&
    (forall i :: 0 <= i < |rows| ==> rows[i].logId < nextId)
  }

  // ---------------------------------------------------------------- list conditions

  /** SQL `column LIKE '%text%'` on a nullable column. */
  predicate LikeText(c: Option<string>, text: string) {
    c.Some? && Contains(c.value, text)
  }

  /**
   * The conditions `_build_query_conditions` adds (and the count query
   * repeats word for word), apart from the message keyword: a falsy
   * device id, an empty IP and a missing or 'all' source or severity add
   * nothing; times bound `created_time` inclusively.
   */
  predicate BaseConditions(q: LogQuery, log: RedfishLog) {
    (q.deviceId.None? || q.deviceId.value == 0 || log.data.deviceId == q.deviceId.value) &&
    (!Present(q.deviceIp) || Contains(log.data.deviceIp, q.deviceIp.value)) &&
    (!Present(q.logSource) || q.logSource.value == "all" || log.data.logSource == q.logSource.value) &&
    (!Present(q.severity) || q.severity.value == "all" || log.data.severity == q.severity.value) &&
    (q.startTime.None? || log.data.createdTime >= q.startTime.value) &&
    (q.endTime.None? || log.data.createdTime <= q.endTime.value)
  }

  /** Rows as `order_by(desc(created_time))` returns the table: the same rows, newest first. */
  predicate InQueryOrder(ordered: seq<RedfishLog>, rows: seq<RedfishLog>) {
    multiset(ordered) == multiset(rows) &&
    forall i, j :: 0 <= i < j < |ordered| ==> ordered[j].data.createdTime <= ordered[i].data.createdTime
  }

  /** The list and its total; `Failed` is an exception raised by the query. */
  datatype LogList = Listed(logs: seq<RedfishLog>, total: int) | Failed

  /** Paged or unpaged selection of the matching rows, as both list routes build it. */
  function Select(ordered: seq<RedfishLog>, pageNum: int, pageSize: int, isPage: bool, p: RedfishLog -> bool): LogList {
    var matching := FilterSeq(ordered, p);
    if !isPage then Listed(matching, |matching|)
    else match SqlPage(matching, PageOffset(pageNum, pageSize), pageSize)
      case None => Failed
      case Some(page) => Listed(page, CountIf(ordered, p))
  }

  /**
   * `get_redfish_log_list` over the table in `created_time` descending
   * order. A message keyword names `RedfishLogDO.message_id`, a column
   * the table does not define, so building that condition raises.
   */
  function GetRedfishLogList(rows: seq<RedfishLog>, ordered: seq<RedfishLog>, q: LogQuery, isPage: bool): LogList
    requires InQueryOrder(ordered, rows)
  {
    if Present(q.messageKeyword) then Failed
    else Select(ordered, q.pageNum, q.pageSize, isPage, (log: RedfishLog) => BaseConditions(q, log))
  }

  /** Every keyword search fails, whatever the table holds. */
  lemma KeywordSearchFails(rows: seq<RedfishLog>, ordered: seq<RedfishLog>, q: LogQuery, isPage: bool)
    requires InQueryOrder(ordered, rows) && Present(q.messageKeyword)
    ensures GetRedfishLogList(rows, ordered, q, isPage) == Failed
  {
  }

  /** The keyword condition over the message column, the one message column the table has. */
  predicate CorrectedConditions(q: LogQuery, log: RedfishLog) {
    BaseConditions(q, log) && (!Present(q.messageKeyword) || LikeText(log.data.message, q.messageKeyword.value))
  }

  function CorrectedRedfishLogList(rows: seq<RedfishLog>, ordered: seq<RedfishLog>, q: LogQuery, isPage: bool): LogList
    requires InQueryOrder(ordered, rows)
  {
    Select(ordered, q.pageNum, q.pageSize, isPage, (log: RedfishLog) => CorrectedConditions(q, log))
  }

  /**
   * With the keyword on the message column: the paged total counts the
   * rows the unpaged list returns, page n starts at row `(n-1)*size`, and
   * each listed row matches the keyword.
   */
  lemma CorrectedListPaging(rows: seq<RedfishLog>, ordered: seq<RedfishLog>, q: LogQuery)
    requires InQueryOrder(ordered, rows) && PageInRange(q.pageNum, q.pageSize)
    ensures CorrectedRedfishLogList(rows, ordered, q, true).Listed?
    ensures CorrectedRedfishLogList(rows, ordered, q, true).total == CorrectedRedfishLogList(rows, ordered, q, false).total
    ensures var page := CorrectedRedfishLogList(rows, ordered, q, true).logs;
      var all := CorrectedRedfishLogList(rows, ordered, q, false).logs;
      |page| <= q.pageSize &&
      forall k :: 0 <= k < |page| ==> PageOffset(q.pageNum, q.pageSize) + k < |all| && page[k] == all[PageOffset(q.pageNum, q.pageSize) + k]
    ensures Present(q.messageKeyword) ==>
      forall log :: log in CorrectedRedfishLogList(rows, ordered, q, false).logs ==> LikeText(log.data.message, q.messageKeyword.value)
  {
    CountIsFilterLength(ordered, (log: RedfishLog) => CorrectedConditions(q, log));
  }

  /** A source and severity of 'all' filter nothing: they list what an empty query lists. */
  lemma AllImposesNoFilter(rows: seq<RedfishLog>, ordered: seq<RedfishLog>, q: LogQuery, isPage: bool)
    requires InQueryOrder(ordered, rows) && q.logSource == Some("all") && q.severity == Some("all")
    ensures GetRedfishLogList(rows, ordered, q, isPage) == GetRedfishLogList(rows, ordered, q.(logSource := None, severity := None), isPage)
  {
    var q' := q.(logSource := None, severity := None);
    var p := (log: RedfishLog) => BaseConditions(q, log);
    var p' := (log: RedfishLog) => BaseConditions(q', log);
    assert forall log :: p(log) == p'(log);
    FilterSeqSame(ordered, p, p');
    CountIsFilterLength(ordered, p);
    CountIsFilterLength(ordered, p');
    assert Select(ordered, q.pageNum, q.pageSize, isPage, p) == Select(ordered, q'.pageNum, q'.pageSize, isPage, p');
  }

  /**
   * The unpaged corrected list holds exactly the table's rows that meet the
   * conditions, each as often as the table holds it, newest first.
   */
  lemma CorrectedListIsMatchingRows(rows: seq<RedfishLog>, ordered: seq<RedfishLog>, q: LogQuery)
    requires InQueryOrder(ordered, rows)
    ensures var all := CorrectedRedfishLogList(rows, ordered, q, false).logs;
      (forall log :: multiset(all)[log] == if CorrectedConditions(q, log) then multiset(rows)[log] else 0) &&
      (forall i, j :: 0 <= i < j < |all| ==> all[j].data.createdTime <= all[i].data.createdTime)
  {
    var p := (log: RedfishLog) => CorrectedConditions(q, log);
    FilterSeqMultiset(ordered, p);
    FilterSeqPairwise(ordered, p, (a: RedfishLog, b: RedfishLog) => b.data.createdTime <= a.data.createdTime);
  }

  // ---------------------------------------------------------------- lookups

  predicate HasKey(log: RedfishLog, logId: int) {
    log.logId == logId
  }

  /** `get_redfish_log_detail`. */
  function LogById(rows: seq<RedfishLog>, logId: int): (r: Option<RedfishLog>)
    ensures r.Some? ==> r.value in rows && r.value.logId == logId
    ensures r.None? ==> forall log :: log in rows ==> log.logId != logId
  {
    if rows == [] then None
    else if rows[0].logId == logId then Some(rows[0])
    else LogById(rows[1..], logId)
  }

  predicate SameEntry(log: RedfishLog, deviceId: int, entryId: string, createdTime: int) {
    log.data.deviceId == deviceId && log.data.entryId == Some(entryId) && log.data.createdTime == createdTime
  }

  /**
   * `check_log_exists`: whether the (device, entry, created time) triple is
   * stored; `scalar_one_or_none` raises (None here) when it is stored twice.
   */
  function CheckLogExists(rows: seq<RedfishLog>, deviceId: int, entryId: string, createdTime: int): (r: Option<bool>)
    ensures r == Some(true) <==> CountIf(rows, (log: RedfishLog) => SameEntry(log, deviceId, entryId, createdTime)) == 1
    ensures r == Some(false) <==> forall log :: log in rows ==> !SameEntry(log, deviceId, entryId, createdTime)
    ensures r.None? <==> CountIf(rows, (log: RedfishLog) => SameEntry(log, deviceId, entryId, createdTime)) >= 2
  {
    var p := (log: RedfishLog) => SameEntry(log, deviceId, entryId, createdTime);
    CountIsFilterLength(rows, p);
    if CountIf(rows, p) == 0 then
      NoRowPasses(rows, p);
      Some(false)
    else if CountIf(rows, p) == 1 then
      SomeRowPasses(rows, p);
      Some(true)
    else
      SomeRowPasses(rows, p);
      None
  }

  lemma {:induction false} NoRowPasses<T>(rows: seq<T>, p: T -> bool)
    requires CountIf(rows, p) == 0
    ensures forall x :: x in rows ==> !p(x)
  {
    if rows != [] {
      NoRowPasses(rows[1..], p);
      assert forall x :: x in rows ==> x == rows[0] || x in rows[1..];
    }
  }

  lemma {:induction false} SomeRowPasses<T>(rows: seq<T>, p: T -> bool)
    requires CountIf(rows, p) > 0
    ensures exists x :: x in rows && p(x)
  {
    if !p(rows[0]) {
      SomeRowPasses(rows[1..], p);
      var x :| x in rows[1..] && p(x);
      assert x in rows;
    } else {
      assert rows[0] in rows;
    }
  }

  predicate OfDevice(log: RedfishLog, deviceId: int) {
    log.data.deviceId == deviceId
  }

  /** `get_latest_log_time`: the largest `created_time` of the device's logs, None without any. */
  function LatestLogTime(rows: seq<RedfishLog>, deviceId: int): (t: Option<int>)
    ensures t.None? <==> forall log :: log in rows ==> !OfDevice(log, deviceId)
    ensures t.Some? ==> exists log :: log in rows && OfDevice(log, deviceId) && log.data.createdTime == t.value
    ensures t.Some? ==> forall log :: log in rows && OfDevice(log, deviceId) ==> log.data.createdTime <= t.value
  {
    if rows == [] then None
    else
      var rest := LatestLogTime(rows[1..], deviceId);
      assert forall log :: log in rows ==> log == rows[0] || log in rows[1..];
      if !OfDevice(rows[0], deviceId) then rest
      else if rest.Some? && rest.value > rows[0].data.createdTime then rest
      else Some(rows[0].data.createdTime)
  }

  /** `get_device_log_count`. */
  function DeviceLogCount(rows: seq<RedfishLog>, deviceId: int): (n: nat)
    ensures n == 0 <==> forall log :: log in rows ==> !OfDevice(log, deviceId)
  {
    var p := (log: RedfishLog) => OfDevice(log, deviceId);
    if CountIf(rows, p) == 0 then NoRowPasses(rows, p); 0
    else SomeRowPasses(rows, p); CountIf(rows, p)
  }

  // ---------------------------------------------------------------- statistics

  /** The log counts of `get_redfish_log_stats` at time `now` (seconds, local time). */
  function LogStats(rows: seq<RedfishLog>, now: int): (r: map<string, int>)
    ensures r.Keys == {"total_count", "critical_count", "warning_count", "sel_count", "mel_count", "today_count", "recent_7days_count"}
    ensures r["total_count"] == |rows|
    ensures r["critical_count"] + r["warning_count"] <= r["total_count"]
    ensures r["sel_count"] + r["mel_count"] <= r["total_count"]
    ensures r["today_count"] <= r["recent_7days_count"] <= r["total_count"]
  {
    var todayStart := (now / SecondsPerDay) * SecondsPerDay;
    var critical := CountIf(rows, (log: RedfishLog) => log.data.severity == "CRITICAL");
    var warning := CountIf(rows, (log: RedfishLog) => log.data.severity == "WARNING");
    var sel := CountIf(rows, (log: RedfishLog) => log.data.logSource == "SEL");
    var mel := CountIf(rows, (log: RedfishLog) => log.data.logSource == "MEL");
    var today := CountIf(rows, (log: RedfishLog) => todayStart <= log.data.createdTime < todayStart + SecondsPerDay);
    var recent := CountIf(rows, (log: RedfishLog) => log.data.createdTime >= now - 7 * SecondsPerDay);
    ExclusiveCounts(rows, (log: RedfishLog) => log.data.severity == "CRITICAL", (log: RedfishLog) => log.data.severity == "WARNING");
    ExclusiveCounts(rows, (log: RedfishLog) => log.data.logSource == "SEL", (log: RedfishLog) => log.data.logSource == "MEL");
    CountIfMono(rows, (log: RedfishLog) => todayStart <= log.data.createdTime < todayStart + SecondsPerDay,
                (log: RedfishLog) => log.data.createdTime >= now - 7 * SecondsPerDay);
    map["total_count" := |rows|, "critical_count" := critical, "warning_count" := warning,
        "sel_count" := sel, "mel_count" := mel, "today_count" := today, "recent_7days_count" := recent]
  }

  /** Two tests no element passes together count at most the whole. */
  lemma {:induction false} ExclusiveCounts<T>(s: seq<T>, p: T -> bool, q: T -> bool)
    requires forall x :: !(p(x) && q(x))
    ensures CountIf(s, p) + CountIf(s, q) <= |s|
  {
    if s != [] {
      ExclusiveCounts(s[1..], p, q);
    }
  }

  // ---------------------------------------------------------------- the table

  class RedfishLogTable {
    var rows: seq<RedfishLog>
    var nextId: int

    ghost predicate Valid()
      reads this`rows, this`nextId
    {
      KeysFresh(rows, nextId)
    }

    constructor ()
      ensures Valid() && rows == [] && nextId == 1
    {
      rows := [];
      nextId := 1;
    }

    /** `add_redfish_logs_batch`: one row per model, in order, each under a fresh key. */
    method AddRedfishLogsBatch(batch: seq<LogData>) returns (added: seq<RedfishLog>)
      modifies this`rows, this`nextId
      ensures |added| == |batch|
      ensures forall k :: 0 <= k < |batch| ==> added[k] == RedfishLog(old(nextId) + k, batch[k])
      ensures rows == old(rows) + added && nextId == old(nextId) + |batch|
      ensures old(Valid()) ==> Valid()
    {
      added := [];
      var i := 0;
      while i < |batch|
        invariant 0 <= i <= |batch|
        invariant nextId == old(nextId) + i
        invariant |added| == i
        invariant forall k :: 0 <= k < i ==> added[k] == RedfishLog(old(nextId) + k, batch[k])
        invariant rows == old(rows) + added
        invariant old(Valid()) ==> Valid()
      {
        var log := RedfishLog(nextId, batch[i]);
        rows := rows + [log];
        added := added + [log];
        nextId := nextId + 1;
        i := i + 1;
      }
    }

    /** `delete_redfish_log`: True iff the key was stored; only that row goes. */
    method DeleteRedfishLog(logId: int) returns (ok: bool)
      requires Valid()
      modifies this`rows
      ensures ok <==> exists log :: log in old(rows) && log.logId == logId
      ensures rows == WithoutKeys(old(rows), {logId})
      ensures forall log :: log in rows <==> log in old(rows) && log.logId != logId
      ensures Valid()
    {
      var found := LogById(rows, logId);
      if found.None? {
        WithoutAbsentKeys(rows, {logId});
        return false;
      }
      WithoutKeepsKeysFresh(rows, nextId, {logId});
      rows := WithoutKeys(rows, {logId});
      return true;
    }

    /**
     * The per-device delete and the cleanup share this loop: select the
     * rows passing `p`, delete them one at a time, report how many.
     */
    method DeleteWhere(p: RedfishLog -> bool) returns (count: nat)
      requires Valid()
      modifies this`rows
      ensures count == CountIf(old(rows), p)
      ensures rows == WithoutKeys(old(rows), KeysOf(FilterSeq(old(rows), p)))
      ensures forall log :: log in rows <==> log in old(rows) && !p(log)
      ensures Valid()
    {
      var victims := FilterSeq(rows, p);
      CountIsFilterLength(rows, p);
      VictimKeys(rows, nextId, p);
      DeleteAll(victims);
      count := |victims|;
    }

    /** `for log_obj in logs: await db.delete(log_obj)`. */
    method DeleteAll(victims: seq<RedfishLog>)
      requires Valid()
      modifies this`rows
      ensures rows == WithoutKeys(old(rows), KeysOf(victims))
      ensures Valid()
    {
      ghost var before := rows;
      WithoutAbsentKeys(rows, {});
      assert KeysOf(victims[..0]) == {};
      var i := 0;
      while i < |victims|
        invariant 0 <= i <= |victims|
        invariant rows == WithoutKeys(before, KeysOf(victims[..i]))
        invariant KeysFresh(rows, nextId)
      {
        var key := victims[i].logId;
        StepDelete(before, victims, i);
        WithoutKeepsKeysFresh(rows, nextId, {key});
        rows := WithoutKeys(rows, {key});
        i := i + 1;
      }
      assert victims[..i] == victims;
    }

    /** `delete_redfish_logs_by_device`: the number removed, and none of the device's rows remain. */
    method DeleteRedfishLogsByDevice(deviceId: int) returns (count: nat)
      requires Valid()
      modifies this`rows
      ensures count == DeviceLogCount(old(rows), deviceId)
      ensures forall log :: log in rows <==> log in old(rows) && !OfDevice(log, deviceId)
      ensures Valid()
    {
      count := DeleteWhere((log: RedfishLog) => OfDevice(log, deviceId));
    }

    /** `cleanup_old_logs`: the number removed, and exactly the rows from `beforeDate` on remain. */
    method CleanupOldLogs(beforeDate: int) returns (count: nat)
      requires Valid()
      modifies this`rows
      ensures count == CountIf(old(rows), (log: RedfishLog) => log.data.createdTime < beforeDate)
      ensures forall log :: log in rows <==> log in old(rows) && log.data.createdTime >= beforeDate
      ensures Valid()
    {
      count := DeleteWhere((log: RedfishLog) => log.data.createdTime < beforeDate);
    }
  }

  /** The keys of some rows. */
  function KeysOf(s: seq<RedfishLog>): set<int> {
    set log | log in s :: log.logId
  }

  /** One more pass of the delete loop. */
  lemma StepDelete(before: seq<RedfishLog>, victims: seq<RedfishLog>, i: nat)
    requires i < |victims|
    ensures WithoutKeys(WithoutKeys(before, KeysOf(victims[..i])), {victims[i].logId}) == WithoutKeys(before, KeysOf(victims[..i + 1]))
  {
    assert victims[..i + 1] == victims[..i] + [victims[i]];
    assert forall log :: log in victims[..i + 1] <==> log in victims[..i] || log == victims[i];
    assert KeysOf(victims[..i + 1]) == KeysOf(victims[..i]) + {victims[i].logId};
    WithoutOneMore(before, KeysOf(victims[..i]), victims[i].logId);
  }

  /** The rows whose key is not in `gone`, in order: what deleting those keys leaves. */
  function WithoutKeys(rows: seq<RedfishLog>, gone: set<int>): (r: seq<RedfishLog>)
    ensures forall log :: log in r <==> log in rows && log.logId !in gone
  {
    if rows == [] then []
    else (if rows[0].logId in gone then [] else [rows[0]]) + WithoutKeys(rows[1..], gone)
  }

  lemma {:induction false} WithoutAbsentKeys(rows: seq<RedfishLog>, gone: set<int>)
    requires forall log :: log in rows ==> log.logId !in gone
    ensures WithoutKeys(rows, gone) == rows
  {
    if rows != [] {
      assert rows[0] in rows;
      WithoutAbsentKeys(rows[1..], gone);
    }
  }

  /** Deleting one more key after some is deleting all of them at once. */
  lemma {:induction false} WithoutOneMore(rows: seq<RedfishLog>, gone: set<int>, key: int)
    ensures WithoutKeys(WithoutKeys(rows, gone), {key}) == WithoutKeys(rows, gone + {key})
  {
    if rows != [] {
      WithoutOneMore(rows[1..], gone, key);
      var rest := WithoutKeys(rows[1..], gone);
      if rows[0].logId !in gone {
        assert WithoutKeys(rows, gone) == [rows[0]] + rest;
        assert WithoutKeys(rows, gone)[1..] == rest;
      } else {
        assert WithoutKeys(rows, gone) == rest;
      }
    }
  }

  /** Deleting rows keeps the keys distinct. */
  lemma {:induction false} WithoutKeepsKeysFresh(rows: seq<RedfishLog>, nextId: int, gone: set<int>)
    requires KeysFresh(rows, nextId)
    ensures KeysFresh(WithoutKeys(rows, gone), nextId)
  {
    if rows != [] {
      assert KeysFresh(rows[1..], nextId);
      WithoutKeepsKeysFresh(rows[1..], nextId, gone);
      var rest := WithoutKeys(rows[1..], gone);
      forall x | x in rest
        ensures x.logId != rows[0].logId
      {
        var j :| 0 <= j < |rows[1..]| && rows[1..][j] == x;
        assert rows[j + 1] == x;
      }
      var out := WithoutKeys(rows, gone);
      assert out == (if rows[0].logId in gone then [] else [rows[0]]) + rest;
      forall i, j | 0 <= i < j < |out|
        ensures out[i].logId != out[j].logId
      {
        if rows[0].logId !in gone && i == 0 {
          assert out[j] == rest[j - 1];
          assert rest[j - 1] in rest;
        }
      }
      forall i | 0 <= i < |out|
        ensures out[i].logId < nextId
      {
        assert out[i] in out;
      }
    }
  }

  /** With distinct keys, a row's key was selected exactly when the row passes the test. */
  lemma VictimKeys(rows: seq<RedfishLog>, nextId: int, p: RedfishLog -> bool)
    requires KeysFresh(rows, nextId)
    ensures forall log :: log in rows ==> (log.logId in KeysOf(FilterSeq(rows, p)) <==> p(log))
  {
    var victims := FilterSeq(rows, p);
    forall log | log in rows
      ensures log.logId in KeysOf(victims) <==> p(log)
    {
      if p(log) {
        FilterSeqComplete(rows, p, log);
      }
      if log.logId in KeysOf(victims) {
        var other :| other in victims && other.logId == log.logId;
        SameKeySameRow(rows, nextId, log, other);
      }
    }
  }

  lemma SameKeySameRow(rows: seq<RedfishLog>, nextId: int, a: RedfishLog, b: RedfishLog)
    requires KeysFresh(rows, nextId) && a in rows && b in rows && a.logId == b.logId
    ensures a == b
  {
    var i :| 0 <= i < |rows| && rows[i] == a;
    var j :| 0 <= j < |rows| && rows[j] == b;
    assert !(i < j) && !(j < i);
  }
}
