/**
 * The request models of the Redfish log routes and their field
 * validators: the list query (with its string-time constructor), the
 * add-log model and the collection request.
 */
module RedfishLogVo {
  import opened Basics

  /** A validated value, or the `ValueError` a validator raises. */
  datatype Checked<T> = Accepted(value: T) | Rejected

  // ---------------------------------------------------------------- list query

  /** Query `validate_log_source`: an empty value passes; otherwise SEL, MEL or 'all'. */
  function QueryLogSource(v: Option<string>): (r: Checked<Option<string>>)
    ensures r.Accepted? <==> !Present(v) || v.value in {"SEL", "MEL", "all"}
    ensures r.Accepted? ==> r.value == v
  {
    if Present(v) && v.value !in {"SEL", "MEL", "all"} then Rejected else Accepted(v)
  }

  /**
   * Query `validate_severity`: 'all' in any case becomes 'all'; any other
   * non-empty value must upper-case to CRITICAL or WARNING and is returned
   * upper-cased; an empty value passes unchanged.
   */
  function QuerySeverity(v: Option<string>): (r: Checked<Option<string>>)
    ensures !Present(v) ==> r == Accepted(v)
    ensures Present(v) && Lower(v.value) == "all" ==> r == Accepted(Some("all"))
    ensures Present(v) && Lower(v.value) != "all" ==>
      (r.Accepted? <==> Upper(v.value) in {"CRITICAL", "WARNING"})
    ensures r.Accepted? && Present(v) ==> Present(r.value) && r.value.value in {"all", "CRITICAL", "WARNING"}
  {
    if Present(v) then
      if Lower(v.value) == "all" then Accepted(Some("all"))
      else if Upper(v.value) in {"CRITICAL", "WARNING"} then Accepted(Some(Upper(v.value)))
      else Rejected
    else Accepted(v)
  }

  /** "all" is its own lower case. */
  lemma AllIsLower(t: string)
    requires t == "all"
    ensures Lower(t) == t
  {
    LowerOfNoUpper(t);
  }

  /** Validating an already validated severity changes nothing. */
  lemma QuerySeverityIdempotent(v: Option<string>)
    requires QuerySeverity(v).Accepted?
    ensures QuerySeverity(QuerySeverity(v).value) == QuerySeverity(v)
  {
    if Present(v) {
      if Lower(v.value) == "all" {
        AllIsLower("all");
      } else {
        var u := Upper(v.value);
        assert |Lower(u)| != |"all"|;
        UpperOfUpper(v.value);
      }
    }
  }

  /** A list query after validation; times are seconds since the epoch. */
  datatype LogQuery = LogQuery(
    deviceId: Option<int>,
    deviceIp: Option<string>,
    logSource: Option<string>,
    severity: Option<string>,
    messageKeyword: Option<string>,
    startTime: Option<int>,
    endTime: Option<int>,
    pageNum: int,
    pageSize: int)

  /** `page_num >= 1` and `1 <= page_size <= 100`. */
  predicate PageInRange(pageNum: int, pageSize: int) {
    pageNum >= 1 && 1 <= pageSize <= 100
  }

  /**
   * `RedfishLogQueryModel(...)`: every field validator and the page bounds
   * must pass.
   */
  function NewLogQuery(deviceId: Option<int>, deviceIp: Option<string>, logSource: Option<string>, severity: Option<string>,
                       messageKeyword: Option<string>, startTime: Option<int>, endTime: Option<int>,
                       pageNum: int, pageSize: int): (r: Checked<LogQuery>)
    ensures r.Accepted? <==> QueryLogSource(logSource).Accepted? && QuerySeverity(severity).Accepted? && PageInRange(pageNum, pageSize)
    ensures r.Accepted? ==> (r.value.logSource == logSource && r.value.severity == QuerySeverity(severity).value &&
      r.value.startTime == startTime && r.value.endTime == endTime && r.value.messageKeyword == messageKeyword)
    ensures r.Accepted? ==> (r.value.deviceId == deviceId && r.value.deviceIp == deviceIp &&
      r.value.pageNum == pageNum && r.value.pageSize == pageSize)
  {
    match (QueryLogSource(logSource), QuerySeverity(severity))
      case (Accepted(source), Accepted(level)) =>
        if PageInRange(pageNum, pageSize) then
          Accepted(LogQuery(deviceId, deviceIp, source, level, messageKeyword, startTime, endTime, pageNum, pageSize))
        else Rejected
      case _ => Rejected
  }

  /**
   * One time parameter of `as_query`: a 'Z' suffix is rewritten to
   * '+00:00' before `fromisoformat`, and a failed parse becomes None.
   */
  function QueryTime(text: Option<string>, fromIso: string -> Option<int>): (t: Option<int>)
    ensures !Present(text) ==> t.None?
    ensures Present(text) ==> t == fromIso(ReplaceAll(text.value, "Z", "+00:00"))
  {
    if Present(text) then fromIso(ReplaceAll(text.value, "Z", "+00:00")) else None
  }

  /** `as_query`: the time strings are parsed first, then the model is built. */
  function AsQuery(deviceId: Option<int>, deviceIp: Option<string>, logSource: Option<string>, severity: Option<string>,
                   messageKeyword: Option<string>, startTime: Option<string>, endTime: Option<string>,
                   pageNum: int, pageSize: int, fromIso: string -> Option<int>): Checked<LogQuery>
  {
    NewLogQuery(deviceId, deviceIp, logSource, severity, messageKeyword,
                QueryTime(startTime, fromIso), QueryTime(endTime, fromIso), pageNum, pageSize)
  }

  /**
   * A time string never makes `as_query` fail: acceptance depends only on
   * the other fields, and an unparseable time becomes None.
   */
  lemma AsQueryIgnoresBadTimes(deviceId: Option<int>, deviceIp: Option<string>, logSource: Option<string>, severity: Option<string>,
                               messageKeyword: Option<string>, startTime: Option<string>, endTime: Option<string>,
                               pageNum: int, pageSize: int, fromIso: string -> Option<int>)
    ensures var q := AsQuery(deviceId, deviceIp, logSource, severity, messageKeyword, startTime, endTime, pageNum, pageSize, fromIso);
      q.Accepted? == AsQuery(deviceId, deviceIp, logSource, severity, messageKeyword, None, None, pageNum, pageSize, fromIso).Accepted? &&
      (q.Accepted? && Present(startTime) && fromIso(ReplaceAll(startTime.value, "Z", "+00:00")).None? ==> q.value.startTime.None?) &&
      (q.Accepted? && Present(endTime) && fromIso(ReplaceAll(endTime.value, "Z", "+00:00")).None? ==> q.value.endTime.None?)
  {
  }

  // ---------------------------------------------------------------- add-log model

  /** Add-model `validate_log_source`: exactly SEL or MEL. */
  function AddLogSource(v: string): (r: Checked<string>)
    ensures r.Accepted? <==> v in {"SEL", "MEL"}
    ensures r.Accepted? ==> r.value == v
  {
    if v in {"SEL", "MEL"} then Accepted(v) else Rejected
  }

  /**
   * Add-model `validate_severity`: a non-empty value must upper-case to
   * CRITICAL or WARNING and is stored upper-cased; an empty one is kept.
   */
  function AddSeverity(v: string): (r: Checked<string>)
    ensures v == "" ==> r == Accepted("")
    ensures v != "" ==> (r.Accepted? <==> Upper(v) in {"CRITICAL", "WARNING"})
    ensures r.Accepted? ==> r.value in {"", "CRITICAL", "WARNING"}
  {
    if v != "" then
      if Upper(v) in {"CRITICAL", "WARNING"} then Accepted(Upper(v)) else Rejected
    else Accepted(v)
  }

  /** The add-model severity validator is idempotent too. */
  lemma AddSeverityIdempotent(v: string)
    requires AddSeverity(v).Accepted?
    ensures AddSeverity(AddSeverity(v).value) == AddSeverity(v)
  {
    if v != "" {
      UpperOfUpper(v);
    }
  }

  // ---------------------------------------------------------------- collection request

  /** `validate_log_type`: exactly 'sel', 'mel' or 'all', case included. */
  function CollectLogType(v: string): (r: Checked<string>)
    ensures r.Accepted? <==> v in {"sel", "mel", "all"}
    ensures r.Accepted? ==> r.value == v
  {
    if v in {"sel", "mel", "all"} then Accepted(v) else Rejected
  }

  /** A collection request after validation. */
  datatype CollectRequest = CollectRequest(deviceId: Option<int>, logType: string, maxEntries: int, forceRefresh: bool)

  /** `DeviceLogCollectModel(...)`: a valid log type and `1 <= max_entries <= 1000`. */
  function NewCollectRequest(deviceId: Option<int>, logType: string, maxEntries: int, forceRefresh: bool): (r: Checked<CollectRequest>)
    ensures r.Accepted? <==> logType in {"sel", "mel", "all"} && 1 <= maxEntries <= 1000
    ensures r.Accepted? ==> r.value == CollectRequest(deviceId, logType, maxEntries, forceRefresh)
  {
    if CollectLogType(logType).Accepted? && 1 <= maxEntries <= 1000 then
      Accepted(CollectRequest(deviceId, logType, maxEntries, forceRefresh))
    else Rejected
  }
}
