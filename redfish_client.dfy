/**
 * The log side of the Redfish client: the OEM-aware property lookup, the
 * entry loop of one log service (retries, the incremental start point, the
 * Repaired/OK filter, the entry cap), the selection of services for an
 * event-log request, and the stand-alone incremental filter.
 *
 * HTTP responses are inputs: a log service is the sequence of its members,
 * and each member carries the responses its detail requests would receive.
 */
module RedfishClient {
  import opened Basics

  /** A decoded JSON value as Python sees it. */
  datatype Json = JNone | JBool(b: bool) | JInt(i: int) | JStr(s: string) | JList(items: seq<Json>) | JDict(fields: map<string, Json>)

  /** A decoded Redfish resource. */
  type Resource = map<string, Json>

  /** `d.get(k, default)`. */
  function DictGet(d: Resource, k: string, default: Json): (v: Json)
    ensures k in d ==> v == d[k]
    ensures k !in d ==> v == default
  {
    if k in d then d[k] else default
  }

  /** Python truthiness of a JSON value. */
  predicate JTruthy(v: Json) {
    match v
      case JNone => false
      case JBool(b) => b
      case JInt(i) => i != 0
      case JStr(s) => s != ""
      case JList(items) => items != []
      case JDict(fields) => fields != map[]
  }

  /** Python `needle in container` for a string needle; `None` where Python raises TypeError. */
  function PyIn(needle: string, container: Json): (r: Option<bool>)
    ensures r.None? <==> (container.JNone? || container.JBool? || container.JInt?)
  {
    match container
      case JDict(fields) => Some(needle in fields)
      case JList(items) => Some(JStr(needle) in items)
      case JStr(s) => Some(Contains(s, needle))
      case _ => None
  }

  // ---------------------------------------------------------------- _get_property

  /** A property found (never None), missing, or a TypeError escaping the lookup. */
  datatype Property = Found(value: Json) | NotFound | Raises

  /** The top-level value, else the one under `Oem.Hpe`. */
  function GetProperty(entry: Resource, name: string): (r: Property)
    ensures r.Found? ==> r.value != JNone
    ensures name in entry && entry[name] != JNone ==> r == Found(entry[name])
    ensures r.Found? && !(name in entry && entry[name] != JNone) ==>
              "Oem" in entry && entry["Oem"].JDict? && "Hpe" in entry["Oem"].fields &&
              entry["Oem"].fields["Hpe"].JDict? && name in entry["Oem"].fields["Hpe"].fields &&
              r.value == entry["Oem"].fields["Hpe"].fields[name]
    ensures r.Raises? <==> !(name in entry && entry[name] != JNone) && "Oem" in entry && PyIn("Hpe", entry["Oem"]).None?
  {
    var value := DictGet(entry, name, JNone);
    if value != JNone then Found(value)
    else if "Oem" !in entry then NotFound
    else match PyIn("Hpe", entry["Oem"])
      case None => Raises
      case Some(hasHpe) =>
        if !hasHpe then NotFound
        else match entry["Oem"]
          case JDict(oem) =>
            (match oem["Hpe"]
              case JDict(hpe) =>
                var v := DictGet(hpe, name, JNone);
                if v != JNone then Found(v) else NotFound
              case _ => NotFound)
          case _ => NotFound
  }

  /** The value a lookup yields to its caller: `None` when nothing was found. */
  function ValueOf(p: Property): Json
    requires !p.Raises?
  {
    if p.Found? then p.value else JNone
  }

  // ---------------------------------------------------------------- fetching one entry

  const MaxRetries: nat := 3

  /** Member of an entry collection: whether it has an `@odata.id`, and the successive detail responses. */
  datatype Member = Member(hasUri: bool, responses: seq<Option<Resource>>)

  /** The first successful response among the first `tries` attempts; attempts past the end fail. */
  function FirstResponse(responses: seq<Option<Resource>>, tries: nat): (r: Option<Resource>)
    ensures r.Some? ==> exists k :: 0 <= k < tries && k < |responses| && responses[k] == r &&
                          forall j :: 0 <= j < k ==> responses[j].None?
    ensures r.None? ==> forall j :: 0 <= j < tries && j < |responses| ==> responses[j].None?
  {
    if tries == 0 || responses == [] then None
    else if responses[0].Some? then responses[0]
    else
      var r := FirstResponse(responses[1..], tries - 1);
      assert forall j :: 1 <= j < |responses| ==> responses[j] == responses[1..][j - 1];
      r
  }

  lemma {:induction false} FirstResponseStep(responses: seq<Option<Resource>>, tries: nat)
    requires FirstResponse(responses, tries).None?
    ensures FirstResponse(responses, tries + 1) == if tries < |responses| then responses[tries] else None
  {
    if tries > 0 && responses != [] {
      FirstResponseStep(responses[1..], tries - 1);
    }
  }

  /** The retry loop: at most three requests, stopping at the first success. */
  method FetchEntry(responses: seq<Option<Resource>>) returns (data: Option<Resource>, attempts: nat)
    ensures data == FirstResponse(responses, MaxRetries)
    ensures 1 <= attempts <= MaxRetries
    ensures data.None? ==> attempts == MaxRetries
    ensures data.Some? ==> attempts <= |responses| && responses[attempts - 1] == data
  {
    data := None;
    attempts := 0;
    while attempts < MaxRetries && data.None?
      invariant attempts <= MaxRetries
      invariant data.None? ==> data == FirstResponse(responses, attempts)
      invariant data.Some? ==> 1 <= attempts <= |responses| && responses[attempts - 1] == data &&
                               data == FirstResponse(responses, MaxRetries)
    {
      FirstResponseStep(responses, attempts);
      var response := if attempts < |responses| then responses[attempts] else None;
      if response.Some? {
        data := response;
        FirstSuccessStays(responses, attempts + 1, MaxRetries);
      }
      attempts := attempts + 1;
    }
  }

  lemma {:induction false} FirstSuccessStays(responses: seq<Option<Resource>>, tries: nat, more: nat)
    requires tries <= more && FirstResponse(responses, tries).Some?
    ensures FirstResponse(responses, more) == FirstResponse(responses, tries)
  {
    if responses[0].None? {
      FirstSuccessStays(responses[1..], tries - 1, more - 1);
    }
  }

  // ---------------------------------------------------------------- one log service

  /** A collected log entry, with the keys the client gives it. */
  datatype LogEntry = LogEntry(
    id: Json,
    message: Json,
    severity: string,
    created: Json,
    repaired: Json,
    sensorType: Json,
    rawData: Resource)

  /** The request's limits: the cap, the incremental start id and time, and the time parser. */
  datatype Filters = Filters(
    maxEntries: int,
    sinceEntryId: Option<string>,
    sinceTimestamp: Option<int>,
    parseTime: string -> Option<int>)

  /** What happens to one fetched entry. */
  datatype Step = Skipped(found: bool) | Dropped | Kept(log: LogEntry) | Raised

  /** The entry's creation time, when it is a string the parser accepts. */
  function CreatedTime(created: Json, parseTime: string -> Option<int>): Option<int> {
    if created.JStr? then parseTime(created.s) else None
  }

  /** Start-point skipping, the time filter, then the Repaired/OK drop. */
  function EntryStep(data: Resource, found: bool, f: Filters): (r: Step)
    ensures r.Kept? ==> r.log.repaired != JBool(true) && r.log.severity != "OK" && Upper(r.log.severity) == r.log.severity
    ensures r.Kept? ==> r.log.rawData == data
    ensures !found && f.sinceEntryId.Some? && f.sinceEntryId.value != "" ==>
              r == Skipped(DictGet(data, "Id", JStr("")) == JStr(f.sinceEntryId.value))
  {
    var entryId := DictGet(data, "Id", JStr(""));
    var created := DictGet(data, "Created", JStr(""));
    if !found && f.sinceEntryId.Some? && f.sinceEntryId.value != "" then
      Skipped(entryId == JStr(f.sinceEntryId.value))
    else if f.sinceTimestamp.Some? && JTruthy(created) && CreatedTime(created, f.parseTime).Some? &&
            CreatedTime(created, f.parseTime).value <= f.sinceTimestamp.value then
      Skipped(found)
    else
      var repairedProp := GetProperty(data, "Repaired");
      var severityProp := GetProperty(data, "Severity");
      if repairedProp.Raises? || severityProp.Raises? then Raised
      else
        var repaired := if repairedProp.Found? then repairedProp.value else JBool(false);
        var severity := if severityProp.Found? && severityProp.value.JStr? then Upper(severityProp.value.s) else "";
        if repaired == JBool(true) || severity == "OK" then Dropped
        else
          var message := GetProperty(data, "Message");
          var sensorType := GetProperty(data, "SensorType");
          if message.Raises? || sensorType.Raises? then Raised
          else
            UpperOfUpper(if severityProp.Found? && severityProp.value.JStr? then severityProp.value.s else "");
            Kept(LogEntry(entryId, ValueOf(message), severity, DictGet(data, "Created", JNone), repaired, ValueOf(sensorType), data))
  }

  /** The loop's variables. */
  datatype Scan = Scan(logs: seq<LogEntry>, processed: nat, failed: nat, found: bool)

  /** The rest of the entry loop from state `s`; `None` when an exception escapes it. */
  function Collect(members: seq<Member>, s: Scan, f: Filters): Option<Scan>
    decreases |members|
  {
    if members == [] || |s.logs| >= f.maxEntries then Some(s)
    else if !members[0].hasUri then None
    else
      var next := s.(processed := s.processed + 1);
      match FirstResponse(members[0].responses, MaxRetries)
        case None => Collect(members[1..], next.(failed := s.failed + 1), f)
        case Some(data) =>
          match EntryStep(data, s.found, f)
            case Raised => None
            case Skipped(found) => Collect(members[1..], next.(found := found), f)
            case Dropped => Collect(members[1..], next, f)
            case Kept(log) => Collect(members[1..], next.(logs := s.logs + [log]), f)
  }

  function InitialScan(f: Filters): Scan {
    Scan([], 0, 0, f.sinceEntryId.None?)
  }

  /** What `get_log_service_entries` returns: the collected logs, or `[]` after an exception. */
  function ServiceEntries(members: seq<Member>, f: Filters): seq<LogEntry> {
    match Collect(members, InitialScan(f), f)
      case None => []
      case Some(s) => s.logs
  }

  /** The entry loop of `get_log_service_entries`, with its counters. */
  method GetLogServiceEntries(members: seq<Member>, f: Filters) returns (logs: seq<LogEntry>, processed: nat, failed: nat)
    ensures logs == ServiceEntries(members, f)
    ensures Collect(members, InitialScan(f), f).Some? ==>
              processed == Collect(members, InitialScan(f), f).value.processed &&
              failed == Collect(members, InitialScan(f), f).value.failed
  {
    logs, processed, failed := [], 0, 0;
    var found := f.sinceEntryId.None?;
    var i := 0;
    while i < |members|
      invariant 0 <= i <= |members|
      invariant Collect(members, InitialScan(f), f) == Collect(members[i..], Scan(logs, processed, failed, found), f)
    {
      if |logs| >= f.maxEntries {
        break;
      }
      var member := members[i];
      if !member.hasUri {
        logs, processed, failed := [], 0, 0;
        return;
      }
      var data, attempts := FetchEntry(member.responses);
      processed := processed + 1;
      assert members[i..][1..] == members[i + 1..];
      if data.None? {
        failed := failed + 1;
        i := i + 1;
        continue;
      }
      var step := EntryStep(data.value, found, f);
      match step {
        case Raised =>
          logs, processed, failed := [], 0, 0;
          return;
        case Skipped(nowFound) =>
          found := nowFound;
        case Dropped =>
        case Kept(log) =>
          logs := logs + [log];
      }
      i := i + 1;
    }
  }

  /** The loop never collects past the cap, and counts each processed member at most once as failed. */
  lemma {:induction false} CollectBounds(members: seq<Member>, s: Scan, f: Filters)
    requires Collect(members, s, f).Some?
    ensures var t := Collect(members, s, f).value;
      |s.logs| <= |t.logs| <= (if f.maxEntries > |s.logs| then f.maxEntries else |s.logs|) &&
      t.logs[..|s.logs|] == s.logs &&
      t.processed - s.processed <= |members| &&
      t.failed - s.failed <= t.processed - s.processed && t.failed >= s.failed && t.processed >= s.processed
    decreases |members|
  {
    if members != [] && |s.logs| < f.maxEntries {
      var next := s.(processed := s.processed + 1);
      match FirstResponse(members[0].responses, MaxRetries)
        case None => CollectBounds(members[1..], next.(failed := s.failed + 1), f);
        case Some(data) =>
          match EntryStep(data, s.found, f)
            case Skipped(found) => CollectBounds(members[1..], next.(found := found), f);
            case Dropped => CollectBounds(members[1..], next, f);
            case Kept(log) =>
              CollectBounds(members[1..], next.(logs := s.logs + [log]), f);
              var t := Collect(members, s, f).value;
              assert t.logs[..|s.logs| + 1] == s.logs + [log];
              assert t.logs[..|s.logs|] == t.logs[..|s.logs| + 1][..|s.logs|];
    }
  }

  /** At most `max_entries` entries come back (none when the cap is not positive). */
  lemma EntriesCapped(members: seq<Member>, f: Filters)
    ensures |ServiceEntries(members, f)| <= (if f.maxEntries > 0 then f.maxEntries else 0)
  {
    if Collect(members, InitialScan(f), f).Some? {
      CollectBounds(members, InitialScan(f), f);
    }
  }

  /** Every failed member is also a processed one, and no member is processed twice. */
  lemma CountersBounded(members: seq<Member>, f: Filters)
    requires Collect(members, InitialScan(f), f).Some?
    ensures var t := Collect(members, InitialScan(f), f).value; t.failed <= t.processed <= |members|
  {
    CollectBounds(members, InitialScan(f), f);
  }

  /** What comes back is unrepaired, non-OK, with an upper-case severity. */
  lemma {:induction false} CollectedAreUnrepaired(members: seq<Member>, s: Scan, f: Filters)
    requires Collect(members, s, f).Some?
    requires forall k :: 0 <= k < |s.logs| ==>
               s.logs[k].repaired != JBool(true) && s.logs[k].severity != "OK" && Upper(s.logs[k].severity) == s.logs[k].severity
    ensures var t := Collect(members, s, f).value;
      forall k :: 0 <= k < |t.logs| ==>
        t.logs[k].repaired != JBool(true) && t.logs[k].severity != "OK" && Upper(t.logs[k].severity) == t.logs[k].severity
    decreases |members|
  {
    if members != [] && |s.logs| < f.maxEntries {
      var next := s.(processed := s.processed + 1);
      match FirstResponse(members[0].responses, MaxRetries)
        case None => CollectedAreUnrepaired(members[1..], next.(failed := s.failed + 1), f);
        case Some(data) =>
          match EntryStep(data, s.found, f)
            case Skipped(found) => CollectedAreUnrepaired(members[1..], next.(found := found), f);
            case Dropped => CollectedAreUnrepaired(members[1..], next, f);
            case Kept(log) => CollectedAreUnrepaired(members[1..], next.(logs := s.logs + [log]), f);
    }
  }

  lemma EntriesAreUnrepaired(members: seq<Member>, f: Filters)
    ensures forall e :: e in ServiceEntries(members, f) ==> e.repaired != JBool(true) && e.severity != "OK" && Upper(e.severity) == e.severity
  {
    if Collect(members, InitialScan(f), f).Some? {
      CollectedAreUnrepaired(members, InitialScan(f), f);
    }
  }

  /** The id a fetched member carries, when its fetch succeeds. */
  predicate IsStartPoint(m: Member, id: string) {
    var data := FirstResponse(m.responses, MaxRetries);
    data.Some? && DictGet(data.value, "Id", JStr("")) == JStr(id)
  }

  /**
   * With a start id, every member up to and including the first one whose
   * entry has that id is skipped without being collected: the loop resumes
   * after it as if no start id had been asked for.
   */
  lemma {:induction false} SkipsThroughStartPoint(members: seq<Member>, s: Scan, f: Filters, k: nat)
    requires f.sinceEntryId.Some? && f.sinceEntryId.value != "" && !s.found && |s.logs| < f.maxEntries
    requires k < |members| && IsStartPoint(members[k], f.sinceEntryId.value)
    requires forall j :: 0 <= j <= k ==> members[j].hasUri
    requires forall j :: 0 <= j < k ==> !IsStartPoint(members[j], f.sinceEntryId.value)
    ensures exists processed: nat, failed: nat ::
              Collect(members, s, f) == Collect(members[k + 1..], Scan(s.logs, processed, failed, true), f)
    decreases k
  {
    var next := s.(processed := s.processed + 1);
    var data := FirstResponse(members[0].responses, MaxRetries);
    if k == 0 {
      assert Collect(members, s, f) == Collect(members[1..], next.(found := true), f);
    } else {
      assert forall j :: 0 <= j < |members| - 1 ==> members[1..][j] == members[j + 1];
      assert members[1..][k - 1 + 1..] == members[k + 1..];
      var s' := if data.None? then next.(failed := s.failed + 1) else next.(found := false);
      assert Collect(members, s, f) == Collect(members[1..], s', f);
      SkipsThroughStartPoint(members[1..], s', f, k - 1);
      var p: nat, q: nat :| Collect(members[1..], s', f) == Collect(members[k + 1..], Scan(s.logs, p, q, true), f);
    }
  }

  /** With a start id no entry carries, nothing at all is collected. */
  lemma {:induction false} MissingStartPointCollectsNothing(members: seq<Member>, s: Scan, f: Filters)
    requires f.sinceEntryId.Some? && f.sinceEntryId.value != "" && !s.found
    requires forall j :: 0 <= j < |members| ==> members[j].hasUri && !IsStartPoint(members[j], f.sinceEntryId.value)
    ensures Collect(members, s, f).Some? && Collect(members, s, f).value.logs == s.logs
    decreases |members|
  {
    if members != [] && |s.logs| < f.maxEntries {
      assert forall j :: 0 <= j < |members| - 1 ==> members[1..][j] == members[j + 1];
      var next := s.(processed := s.processed + 1);
      if FirstResponse(members[0].responses, MaxRetries).None? {
        MissingStartPointCollectsNothing(members[1..], next.(failed := s.failed + 1), f);
      } else {
        MissingStartPointCollectsNothing(members[1..], next.(found := false), f);
      }
    }
  }

  // ---------------------------------------------------------------- get_event_logs

  /** A discovered log service: whether its resource could be read, its Id and Name, and its entries. */
  datatype LogService = LogService(reachable: bool, id: string, name: string, members: seq<Member>)

  const SelServiceIds: seq<string> := ["sel", "systemlog", "systemlogservice", "iml"]
  const MelServiceIds: seq<string> := ["mel", "managementlog", "iel", "managereventlog"]

  /** Some pattern occurs in the lower-cased Id or Name. */
  predicate MatchesAny(service: LogService, patterns: seq<string>) {
    exists i :: 0 <= i < |patterns| && (Contains(Lower(service.id), patterns[i]) || Contains(Lower(service.name), patterns[i]))
  }

  /** The `log_type` filter: 'sel' and 'mel' need a matching service, any other type takes all. */
  predicate Selected(logType: string, service: LogService) {
    !(logType == "sel" && !MatchesAny(service, SelServiceIds)) &&
    !(logType == "mel" && !MatchesAny(service, MelServiceIds))
  }

  /** Python `s[:n]`. */
  function PrefixSlice<T>(s: seq<T>, n: int): (r: seq<T>)
    ensures n >= 0 ==> r == s[..if n < |s| then n else |s|]
    ensures n < 0 ==> r == s[..if |s| + n > 0 then |s| + n else 0]
  {
    if n >= |s| then s
    else if n >= 0 then s[..n]
    else if |s| + n > 0 then s[..|s| + n] else []
  }

  /** The service loop from collected logs `acc` on. */
  function CollectServices(services: seq<LogService>, acc: seq<LogEntry>, logType: string, f: Filters): seq<LogEntry>
    decreases |services|
  {
    if services == [] || |acc| >= f.maxEntries then acc
    else if !services[0].reachable || !Selected(logType, services[0]) then CollectServices(services[1..], acc, logType, f)
    else CollectServices(services[1..], acc + ServiceEntries(services[0].members, f.(maxEntries := f.maxEntries - |acc|)), logType, f)
  }

  /**
   * `get_event_logs`. The final sort is on a `created` key no collected
   * entry has, so with Python's stable sort it keeps the collected order.
   */
  function EventLogs(services: seq<LogService>, logType: string, f: Filters): seq<LogEntry> {
    PrefixSlice(CollectServices(services, [], logType, f), f.maxEntries)
  }

  method GetEventLogs(services: seq<LogService>, logType: string, f: Filters) returns (logs: seq<LogEntry>)
    ensures logs == EventLogs(services, logType, f)
  {
    var allLogs: seq<LogEntry> := [];
    var i := 0;
    while i < |services|
      invariant 0 <= i <= |services|
      invariant CollectServices(services, [], logType, f) == CollectServices(services[i..], allLogs, logType, f)
    {
      if |allLogs| >= f.maxEntries {
        break;
      }
      var service := services[i];
      assert services[i..][1..] == services[i + 1..];
      i := i + 1;
      if !service.reachable {
        continue;
      }
      var isSel := MatchesAny(service, SelServiceIds);
      var isMel := MatchesAny(service, MelServiceIds);
      if logType == "sel" && !isSel {
        continue;
      } else if logType == "mel" && !isMel {
        continue;
      }
      var remaining := f.maxEntries - |allLogs|;
      var serviceLogs, _, _ := GetLogServiceEntries(service.members, f.(maxEntries := remaining));
      allLogs := allLogs + serviceLogs;
    }
    logs := PrefixSlice(allLogs, f.maxEntries);
  }

  /** Each service is asked only for what is left, so the total never passes the cap. */
  lemma {:induction false} CollectServicesCapped(services: seq<LogService>, acc: seq<LogEntry>, logType: string, f: Filters)
    requires |acc| <= f.maxEntries
    ensures |CollectServices(services, acc, logType, f)| <= f.maxEntries
    decreases |services|
  {
    if services != [] && |acc| < f.maxEntries {
      var rest := f.(maxEntries := f.maxEntries - |acc|);
      EntriesCapped(services[0].members, rest);
      CollectServicesCapped(services[1..], if services[0].reachable && Selected(logType, services[0]) then acc + ServiceEntries(services[0].members, rest) else acc, logType, f);
    }
  }

  lemma EventLogsCapped(services: seq<LogService>, logType: string, f: Filters)
    ensures |EventLogs(services, logType, f)| <= (if f.maxEntries > 0 then f.maxEntries else 0)
  {
    if f.maxEntries >= 0 {
      CollectServicesCapped(services, [], logType, f);
    }
  }

  /** Every returned log comes from a reachable service that passes the type filter. */
  lemma {:induction false} CollectedFromSelected(services: seq<LogService>, acc: seq<LogEntry>, logType: string, f: Filters)
    ensures forall e :: e in CollectServices(services, acc, logType, f) ==>
              e in acc || exists k, cap :: 0 <= k < |services| && services[k].reachable && Selected(logType, services[k]) &&
                                           e in ServiceEntries(services[k].members, f.(maxEntries := cap))
    decreases |services|
  {
    if services != [] && |acc| < f.maxEntries {
      var cap := f.maxEntries - |acc|;
      var next := if services[0].reachable && Selected(logType, services[0])
                  then acc + ServiceEntries(services[0].members, f.(maxEntries := cap)) else acc;
      CollectedFromSelected(services[1..], next, logType, f);
      forall e | e in CollectServices(services, acc, logType, f)
        ensures e in acc || exists k, cap :: 0 <= k < |services| && services[k].reachable && Selected(logType, services[k]) &&
                                             e in ServiceEntries(services[k].members, f.(maxEntries := cap))
      {
        if e !in acc {
          if e in next {
            assert e in ServiceEntries(services[0].members, f.(maxEntries := cap));
          } else {
            var k, c :| 0 <= k < |services[1..]| && services[1..][k].reachable && Selected(logType, services[1..][k]) &&
                        e in ServiceEntries(services[1..][k].members, f.(maxEntries := c));
            assert services[1..][k] == services[k + 1];
          }
        }
      }
    }
  }

  lemma EventLogsFromSelected(services: seq<LogService>, logType: string, f: Filters)
    ensures forall e :: e in EventLogs(services, logType, f) ==>
              exists k, cap :: 0 <= k < |services| && services[k].reachable && Selected(logType, services[k]) &&
                               e in ServiceEntries(services[k].members, f.(maxEntries := cap))
  {
    CollectedFromSelected(services, [], logType, f);
    var all := CollectServices(services, [], logType, f);
    assert forall e :: e in PrefixSlice(all, f.maxEntries) ==> e in all;
  }

  // ---------------------------------------------------------------- _apply_incremental_filter

  /** The value a stored entry holds under `redfish_log_id`: absent, `None`, an int or a string. */
  datatype LogId = NoId | NullId | IntId(n: int) | TextId(s: string)

  /** The value under `entry_timestamp`: absent, `None`, or a datetime held as its seconds. */
  datatype Stamp = Missing | NoneTs | At(t: int)

  /** One stored entry, with the keys the incremental filter reads ('' for a missing service key). */
  datatype StoredEntry = StoredEntry(serviceUri: string, serviceName: string, serviceId: string, logId: LogId, timestamp: Stamp)

  const MelIndicators: seq<string> := ["mel", "management", "iel", "managereventlog", "managementlog"]

  /** The MEL test, applied to the first entry only. */
  predicate IsMelEntry(e: StoredEntry) {
    exists i :: 0 <= i < |MelIndicators| &&
      (Contains(Lower(e.serviceUri), MelIndicators[i]) || Contains(Lower(e.serviceName), MelIndicators[i]) ||
       Contains(Lower(e.serviceId), MelIndicators[i]))
  }

  /** Python `int(x)` of a stored id; `None` where it raises. */
  function IdAsInt(id: LogId): Option<int> {
    match id
      case IntId(n) => Some(n)
      case TextId(s) => PyInt(s)
      case _ => None
  }

  /** The id test: MEL services keep ids numerically above the start id, others drop only an equal id. */
  predicate PassesIdFilter(e: StoredEntry, isMel: bool, sinceEntryId: Option<string>) {
    if sinceEntryId.None? then true
    else if isMel && IdAsInt(e.logId).Some? && PyInt(sinceEntryId.value).Some? then
      IdAsInt(e.logId).value > PyInt(sinceEntryId.value).value
    else e.logId != TextId(sinceEntryId.value)
  }

  /** The time test: `entry.get('entry_timestamp')` is `None` for an absent key too, and then the entry stays. */
  predicate PassesTimeFilter(e: StoredEntry, sinceTimestamp: Option<int>) {
    sinceTimestamp.None? || !e.timestamp.At? || e.timestamp.t > sinceTimestamp.value
  }

  predicate Included(e: StoredEntry, isMel: bool, sinceEntryId: Option<string>, sinceTimestamp: Option<int>) {
    PassesIdFilter(e, isMel, sinceEntryId) && PassesTimeFilter(e, sinceTimestamp)
  }

  // ---------------------------------------------------------------- sorted(..., reverse=True)

  /** A `sorted` key: a number (a datetime as its seconds, an int id), a string, or `None`. */
  datatype SortKey = NumKey(n: int) | StrKey(s: string) | NoneKey

  /** `datetime.min`, 0001-01-01 00:00:00, in seconds since 1970-01-01. */
  const DatetimeMin := -62135596800

  /** `x.get('entry_timestamp', datetime.min)`. */
  function TimeKey(e: StoredEntry): SortKey {
    match e.timestamp
      case Missing => NumKey(DatetimeMin)
      case NoneTs => NoneKey
      case At(t) => NumKey(t)
  }

  /** `x.get('redfish_log_id', '')`. */
  function IdKey(e: StoredEntry): SortKey {
    match e.logId
      case NoId => StrKey("")
      case NullId => NoneKey
      case IntId(n) => NumKey(n)
      case TextId(s) => StrKey(s)
  }

  /** Python's `a <= b` on keys, where it is defined: two numbers, or two strings by code points. */
  predicate KeyLe(a: SortKey, b: SortKey) {
    (a.NumKey? && b.NumKey? && a.n <= b.n) || (a.StrKey? && b.StrKey? && TextLe(a.s, b.s))
  }

  /** Every key is a number, or every key is a string: any two of them compare. */
  predicate OneKind(s: seq<StoredEntry>, key: StoredEntry -> SortKey) {
    (forall e :: e in s ==> key(e).NumKey?) || (forall e :: e in s ==> key(e).StrKey?)
  }

  /**
   * `sorted` compares every element at least once when there are two or
   * more, and comparing `None`, or a number with a string, raises
   * `TypeError`: it succeeds exactly on fewer than two entries or keys of
   * one kind.
   */
  predicate Sortable(s: seq<StoredEntry>, key: StoredEntry -> SortKey) {
    |s| < 2 || OneKind(s, key)
  }

  predicate Descending(s: seq<StoredEntry>, key: StoredEntry -> SortKey) {
    forall i, j :: 0 <= i < j < |s| ==> KeyLe(key(s[j]), key(s[i]))
  }

  lemma KeyLeTotal(a: SortKey, b: SortKey)
    requires (a.NumKey? && b.NumKey?) || (a.StrKey? && b.StrKey?)
    ensures KeyLe(a, b) || KeyLe(b, a)
  {
    if a.StrKey? {
      TextLeTotal(a.s, b.s);
    }
  }

  lemma KeyLeTrans(a: SortKey, b: SortKey, c: SortKey)
    requires KeyLe(a, b) && KeyLe(b, c)
    ensures KeyLe(a, c)
  {
    if a.StrKey? {
      TextLeTrans(a.s, b.s, c.s);
    }
  }

  /** Places `e` before the first element whose key is not above its own, so that ties keep their input order. */
  function Insert(e: StoredEntry, s: seq<StoredEntry>, key: StoredEntry -> SortKey): seq<StoredEntry> {
    if s == [] || KeyLe(key(s[0]), key(e)) then [e] + s else [s[0]] + Insert(e, s[1..], key)
  }

  /** Inserting adds exactly the one entry. */
  lemma {:induction false} InsertPermutes(e: StoredEntry, s: seq<StoredEntry>, key: StoredEntry -> SortKey)
    ensures multiset(Insert(e, s, key)) == multiset(s) + multiset{e}
  {
    if s != [] && !KeyLe(key(s[0]), key(e)) {
      InsertPermutes(e, s[1..], key);
      assert s == [s[0]] + s[1..];
    }
  }

  lemma {:induction false} InsertKeepsOrder(e: StoredEntry, s: seq<StoredEntry>, key: StoredEntry -> SortKey)
    requires Descending(s, key) && OneKind(s + [e], key)
    ensures Descending(Insert(e, s, key), key)
  {
    if s == [] || KeyLe(key(s[0]), key(e)) {
      forall x | x in s
        ensures KeyLe(key(x), key(e))
      {
        var j :| 0 <= j < |s| && s[j] == x;
        if j > 0 {
          KeyLeTrans(key(x), key(s[0]), key(e));
        }
      }
      ConsKeepsOrder(e, s, key);
    } else {
      assert s[0] in s + [e] && e in s + [e];
      KeyLeTotal(key(s[0]), key(e));
      var t := Insert(e, s[1..], key);
      assert forall x :: x in s[1..] + [e] ==> x in s + [e];
      InsertKeepsOrder(e, s[1..], key);
      InsertPermutes(e, s[1..], key);
      forall x | x in t
        ensures KeyLe(key(x), key(s[0]))
      {
        assert x in multiset(t);
        if x != e {
          var j :| 0 <= j < |s[1..]| && s[1..][j] == x;
          assert s[j + 1] == x;
        }
      }
      ConsKeepsOrder(s[0], t, key);
    }
  }

  /** An entry whose key is no lower than every key of a descending list can lead it. */
  lemma ConsKeepsOrder(h: StoredEntry, t: seq<StoredEntry>, key: StoredEntry -> SortKey)
    requires Descending(t, key)
    requires forall x :: x in t ==> KeyLe(key(x), key(h))
    ensures Descending([h] + t, key)
  {
    var r := [h] + t;
    forall i, j | 0 <= i < j < |r|
      ensures KeyLe(key(r[j]), key(r[i]))
    {
      assert r[j] == t[j - 1];
      if i > 0 {
        assert r[i] == t[i - 1];
      }
    }
  }

  /** A stable insertion sort, highest key first. */
  function SortBy(entries: seq<StoredEntry>, key: StoredEntry -> SortKey): (r: seq<StoredEntry>)
    ensures multiset(r) == multiset(entries)
    ensures Sortable(entries, key) ==> Descending(r, key)
  {
    if entries == [] then []
    else
      var rest := SortBy(entries[1..], key);
      InsertPermutes(entries[0], rest, key);
      assert entries == [entries[0]] + entries[1..];
      if Sortable(entries, key) && |entries| >= 2 then
        assert forall x :: x in rest + [entries[0]] ==> x in entries by {
          forall x | x in rest + [entries[0]]
            ensures x in entries
          {
            if x != entries[0] {
              assert x in multiset(rest);
            }
          }
        }
        InsertKeepsOrder(entries[0], rest, key);
        Insert(entries[0], rest, key)
      else
        Insert(entries[0], rest, key)
  }

  /** `sorted(entries, key=key, reverse=True)`; `None` where it raises. */
  function SortedDesc(entries: seq<StoredEntry>, key: StoredEntry -> SortKey): (r: Option<seq<StoredEntry>>)
    ensures r.Some? <==> Sortable(entries, key)
    ensures r.Some? ==> Descending(r.value, key) && multiset(r.value) == multiset(entries)
  {
    if Sortable(entries, key) then Some(SortBy(entries, key)) else None
  }

  /** The time sort raises exactly when two or more entries are sorted and one holds a `None` time. */
  lemma TimeSortRaises(entries: seq<StoredEntry>)
    ensures !Sortable(entries, TimeKey) <==> |entries| >= 2 && exists e :: e in entries && e.timestamp.NoneTs?
  {
  }

  /**
   * The closing `try`: the kept entries newest first; if that sort raises,
   * by id descending; if that raises too, the call raises (`None`).
   */
  function FinalSort(kept: seq<StoredEntry>): (r: Option<seq<StoredEntry>>)
    ensures r.Some? <==> Sortable(kept, TimeKey) || Sortable(kept, IdKey)
    ensures Sortable(kept, TimeKey) ==> r.Some? && Descending(r.value, TimeKey)
    ensures !Sortable(kept, TimeKey) && Sortable(kept, IdKey) ==> r.Some? && Descending(r.value, IdKey)
    ensures r.Some? ==> multiset(r.value) == multiset(kept)
  {
    if Sortable(kept, TimeKey) then SortedDesc(kept, TimeKey) else SortedDesc(kept, IdKey)
  }

  /**
   * `_apply_incremental_filter`; `None` where it raises. Without a start
   * id or time the entries are sorted outside any `try`, so a failing
   * time sort raises.
   */
  method ApplyIncrementalFilter(entries: seq<StoredEntry>, sinceEntryId: Option<string>, sinceTimestamp: Option<int>)
    returns (r: Option<seq<StoredEntry>>)
    ensures entries == [] ==> r == Some([])
    ensures entries != [] && sinceEntryId.None? && sinceTimestamp.None? ==> r == SortedDesc(entries, TimeKey)
    ensures entries != [] && (sinceEntryId.Some? || sinceTimestamp.Some?) ==>
              r == FinalSort(FilterSeq(entries, e => Included(e, IsMelEntry(entries[0]), sinceEntryId, sinceTimestamp)))
  {
    if entries == [] {
      return Some([]);
    }
    if sinceEntryId.None? && sinceTimestamp.None? {
      return SortedDesc(entries, TimeKey);
    }
    var isMel := IsMelEntry(entries[0]);
    var p := e => Included(e, isMel, sinceEntryId, sinceTimestamp);
    var filtered: seq<StoredEntry> := [];
    var i := 0;
    while i < |entries|
      invariant 0 <= i <= |entries|
      invariant filtered == FilterSeq(entries[..i], p)
    {
      var entry := entries[i];
      var keep := KeepEntry(entry, isMel, sinceEntryId, sinceTimestamp);
      assert entries[..i + 1] == entries[..i] + [entry];
      FilterSeqAppend(entries[..i], entry, p);
      if keep {
        filtered := filtered + [entry];
      }
      i := i + 1;
    }
    assert entries[..i] == entries;
    r := SortedDesc(filtered, TimeKey);
    if r.None? {
      r := SortedDesc(filtered, IdKey);
    }
  }

  /** The two tests of the filter loop on one entry, in the loop's order. */
  method KeepEntry(entry: StoredEntry, isMel: bool, sinceEntryId: Option<string>, sinceTimestamp: Option<int>)
    returns (keep: bool)
    ensures keep == Included(entry, isMel, sinceEntryId, sinceTimestamp)
  {
    keep := true;
    if sinceEntryId.Some? {
      var entryId := entry.logId;
      if isMel {
        if IdAsInt(entryId).Some? && PyInt(sinceEntryId.value).Some? {
          if IdAsInt(entryId).value <= PyInt(sinceEntryId.value).value {
            keep := false;
          }
        } else if entryId == TextId(sinceEntryId.value) {
          keep := false;
        }
      } else if entryId == TextId(sinceEntryId.value) {
        keep := false;
      }
    }
    if sinceTimestamp.Some? && keep {
      if entry.timestamp.At? && entry.timestamp.t <= sinceTimestamp.value {
        keep := false;
      }
    }
  }

  /** When the call returns, an entry is in the result exactly when it passes both tests. */
  lemma {:induction false} IncrementalFilterKeepsExactly(entries: seq<StoredEntry>, sinceEntryId: Option<string>, sinceTimestamp: Option<int>, e: StoredEntry)
    requires entries != []
    ensures var p := (x: StoredEntry) => Included(x, IsMelEntry(entries[0]), sinceEntryId, sinceTimestamp);
      var r := FinalSort(FilterSeq(entries, p));
      r.Some? ==> (e in r.value <==> e in entries && p(e))
  {
    var p := (x: StoredEntry) => Included(x, IsMelEntry(entries[0]), sinceEntryId, sinceTimestamp);
    var kept := FilterSeq(entries, p);
    var r := FinalSort(kept);
    if r.Some? {
      assert e in r.value <==> e in multiset(kept);
      if e in entries && p(e) {
        FilterSeqComplete(entries, p, e);
      }
    }
  }

  /** For a MEL service with numeric ids, exactly the ids above the start id survive. */
  lemma MelKeepsLaterIds(e: StoredEntry, since: string, n: int)
    requires IdAsInt(e.logId).Some? && PyInt(since) == Some(n)
    ensures PassesIdFilter(e, true, Some(since)) <==> IdAsInt(e.logId).value > n
  {
  }
}
