/**
 * Maintenance schedules, which are kept as rows of the alert table
 * (`alert_info`), and their data-access operations:
 * - the scheduled-date rule and the responsible person stored in the
 *   resolution note;
 * - partial and batch updates, deletion and creation;
 * - the statistics and the calendar grouping.
 *
 * The table is parametrised by the columns of the mapped `AlertInfo`
 * class. `hasattr`, keyword construction and attribute reads succeed only
 * for those columns. `AlertInfoColumns` is the class as `models.py` declares
 * it, which has no `urgency_level`; `CorrectedColumns` adds that column.
 */
module MaintenanceDao {
  import opened Basics
  import opened Records

  // ---------------------------------------------------------------- time

  const SecondsPerHour := 3600

  /** `datetime.weekday()`, Monday being 0: day 0, 1970-01-01, was a Thursday. */
  function Weekday(t: int): int {
    (DayOf(t) + 3) % 7
  }

  function HourOf(t: int): int {
    (t % SecondsPerDay) / SecondsPerHour
  }

  const Saturday := 5
  /** The window opens at 02:00; from 06:00 on a Saturday the rule moves to the next week. */
  const WindowOpens := 2 * SecondsPerHour
  const WindowCloses := 6 * SecondsPerHour

  /** `days_until_saturday`: 0 to 6 days, or 7 on a Saturday from 06:00. */
  function NextSaturdayOffset(now: int): (d: int)
    ensures 0 <= d <= 7
    ensures (Weekday(now) + d) % 7 == Saturday
    ensures d == 0 <==> Weekday(now) == Saturday && now % SecondsPerDay < WindowCloses
  {
    var days := (Saturday - Weekday(now)) % 7;
    if days == 0 && HourOf(now) >= 6 then 7 else days
  }

  /** 02:00 on the day `d` days after `now` falls on a Saturday when the weekdays line up. */
  lemma SaturdayWindow(now: int, d: int)
    requires (Weekday(now) + d) % 7 == Saturday
    ensures var t := (DayOf(now) + d) * SecondsPerDay + WindowOpens;
      DayOf(t) == DayOf(now) + d && t % SecondsPerDay == WindowOpens && Weekday(t) == Saturday
  {
    var t := (DayOf(now) + d) * SecondsPerDay + WindowOpens;
    assert DayOf(t) == DayOf(now) + d;
    var q := (DayOf(now) + 3) / 7;
    assert DayOf(now) + 3 == 7 * q + Weekday(now);
    assert DayOf(t) + 3 == 7 * q + (Weekday(now) + d);
  }

  /**
   * `_calculate_scheduled_date`: now for 'immediate', 24 hours later for
   * 'urgent', otherwise 02:00 of the next Saturday, between 0 and 7 days on.
   */
  function ScheduledDate(urgency: string, now: int): (t: int)
    ensures urgency == "immediate" ==> t == now
    ensures urgency == "urgent" ==> t == now + 24 * SecondsPerHour
    ensures urgency != "immediate" && urgency != "urgent" ==>
      Weekday(t) == Saturday && t % SecondsPerDay == WindowOpens && 0 <= DayOf(t) - DayOf(now) <= 7
  {
    if urgency == "immediate" then now
    else if urgency == "urgent" then now + 24 * SecondsPerHour
    else
      var days := NextSaturdayOffset(now);
      SaturdayWindow(now, days);
      (DayOf(now) + days) * SecondsPerDay + WindowOpens
  }

  /**
   * A Saturday schedule lies in the past exactly when it is computed on a
   * Saturday after 02:00 and before 06:00; at any other time it is now or later.
   */
  lemma ScheduledBeforeNow(urgency: string, now: int)
    requires urgency != "immediate" && urgency != "urgent"
    ensures ScheduledDate(urgency, now) < now <==>
      Weekday(now) == Saturday && WindowOpens < now % SecondsPerDay < WindowCloses
  {
    var d := NextSaturdayOffset(now);
    assert now == DayOf(now) * SecondsPerDay + now % SecondsPerDay;
    assert ScheduledDate(urgency, now) == DayOf(now) * SecondsPerDay + d * SecondsPerDay + WindowOpens;
  }

  // ---------------------------------------------------------------- resolution note

  const Marker := "负责人:"

  /** The note written with a schedule: the marker, the person and an optional description line. */
  function ResolutionNote(person: string, description: Option<string>): string {
    Marker + " " + person + (if description.Some? then "\n描述: " + description.value else "")
  }

  /** An f-string of an optional value: None prints as "None". */
  function PersonText(person: Option<string>): string {
    if person.Some? then person.value else "None"
  }

  /**
   * `_extract_responsible_person`: the text between the first marker and
   * the next marker or newline, stripped; None without a marker.
   */
  function ExtractResponsiblePerson(note: Option<string>): (r: Option<string>)
    ensures r.Some? <==> note.Some? && Contains(note.value, Marker)
    ensures r.Some? ==> Trimmed(r.value)
  {
    if note.None? || note.value == "" then None
    else if Contains(note.value, Marker) then
      var parts := Split(note.value, Marker);
      assert |parts| > 1;
      var person := Strip(Split(parts[1], "\n")[0]);
      StripIsTrimmed(Split(parts[1], "\n")[0]);
      Some(person)
    else None
  }

  /** The first part of a split ends where the separator first occurs. */
  lemma SplitHead(s: string, sep: string)
    requires sep != []
    ensures Find(s, sep).None? ==> Split(s, sep)[0] == s
    ensures Find(s, sep).Some? ==> Split(s, sep)[0] == s[..Find(s, sep).value]
  {
  }

  /** Characters of the marker; none is a space or a newline. */
  lemma MarkerChars()
    ensures |Marker| == 4 && Marker[0] != ' '
    ensures forall k :: 0 <= k < |Marker| ==> Marker[k] != '\n'
  {
  }

  /** A string without a newline has no newline at any index. */
  lemma NoNewlineAt(s: string, k: int)
    requires !Contains(s, "\n") && 0 <= k < |s|
    ensures s[k] != '\n'
  {
    assert !MatchAt(s, "\n", k);
    assert s[k..k + 1][0] == s[k];
  }

  /**
   * In `" " + person + suffix`, the marker cannot start at or before the end
   * of the person when the person holds no marker and the suffix is empty
   * or starts with a newline.
   */
  lemma NoMarkerBefore(person: string, suffix: string, j: int)
    requires !Contains(person, Marker)
    requires suffix == [] || suffix[0] == '\n'
    requires 0 <= j <= |person| + 1
    ensures !MatchAt(" " + person + suffix, Marker, j)
  {
    var rest := " " + person + suffix;
    var w := |person| + 1;
    MarkerChars();
    if j + |Marker| <= |rest| {
      if j == 0 {
        assert rest[j..j + |Marker|][0] == ' ';
      } else if j + |Marker| <= w {
        assert rest[j..j + |Marker|] == person[j - 1..j - 1 + |Marker|];
        assert !MatchAt(person, Marker, j - 1);
      } else {
        assert rest[w] == suffix[0] == '\n';
        assert rest[j..j + |Marker|][w - j] == rest[w];
      }
    }
  }

  /**
   * The first line of a text that is `w` alone, or `w` followed by a
   * newline and more, is `w` when `w` holds no newline.
   */
  lemma FirstLineIsWord(w: string, suffix: string, part: string)
    requires forall k :: 0 <= k < |w| ==> w[k] != '\n'
    requires suffix == [] ==> part == w
    requires suffix != [] ==> |w| < |part| && part[..|w| + 1] == w + ['\n']
    ensures Split(part, "\n")[0] == w
  {
    SplitHead(part, "\n");
    if suffix == [] {
      NoNewlineFound(w);
    } else {
      NewlineFoundAt(w, part);
    }
  }

  /** A text without a newline has none to find. */
  lemma NoNewlineFound(w: string)
    requires forall k :: 0 <= k < |w| ==> w[k] != '\n'
    ensures Find(w, "\n").None?
  {
    forall j | 0 <= j < |w|
      ensures !MatchAt(w, "\n", j)
    {
      assert w[j..j + 1][0] == w[j];
    }
  }

  /** The first newline of `w + "\n" + ...` is the one after `w`. */
  lemma NewlineFoundAt(w: string, part: string)
    requires forall k :: 0 <= k < |w| ==> w[k] != '\n'
    requires |w| < |part| && part[..|w| + 1] == w + ['\n']
    ensures Find(part, "\n") == Some(|w|)
  {
    assert part[|w|..|w| + 1] == "\n";
    assert MatchAt(part, "\n", |w|);
    forall j | 0 <= j < |w|
      ensures !MatchAt(part, "\n", j)
    {
      assert part[..|w| + 1][j] == w[j];
      assert part[j..j + 1][0] == part[j];
    }
  }

  /** `" " + person` strips to what `person` strips to. */
  lemma StripLeadingSpace(person: string)
    ensures Strip(" " + person) == Strip(person)
  {
    assert (" " + person)[1..] == person;
  }

  /**
   * The note written for a person reads back that person, stripped, when the
   * name holds neither the marker nor a newline, whatever the description.
   */
  lemma ExtractAfterNote(person: string, description: Option<string>)
    requires !Contains(person, Marker) && !Contains(person, "\n")
    ensures ExtractResponsiblePerson(Some(ResolutionNote(person, description))) == Some(Strip(person))
  {
    var suffix := if description.Some? then "\n描述: " + description.value else "";
    var rest := " " + person + suffix;
    var note := ResolutionNote(person, description);
    assert note == Marker + rest;
    assert note[..|Marker|] == Marker;
    assert note[|Marker|..] == rest;
    assert Find(note, Marker) == Some(0);
    ContainsAt(note, Marker, 0);
    assert Split(note, Marker) == [note[..0]] + Split(rest, Marker);
    var parts := Split(note, Marker);
    assert parts[1] == Split(rest, Marker)[0];
    FirstPartIsName(person, suffix);
    assert Split(parts[1], "\n")[0] == " " + person;
    StripLeadingSpace(person);
  }

  /**
   * Split at the marker, the text after it keeps `" " + person` up to the
   * first newline, so its first line is `" " + person`.
   */
  lemma FirstPartIsName(person: string, suffix: string)
    requires !Contains(person, Marker) && !Contains(person, "\n")
    requires suffix == [] || suffix[0] == '\n'
    ensures Split(Split(" " + person + suffix, Marker)[0], "\n")[0] == " " + person
  {
    var w := " " + person;
    var rest := w + suffix;
    var part := Split(rest, Marker)[0];
    SplitHead(rest, Marker);
    forall j | 0 <= j <= |w|
      ensures !MatchAt(rest, Marker, j)
    {
      NoMarkerBefore(person, suffix, j);
    }
    forall k | 0 <= k < |w|
      ensures w[k] != '\n'
    {
      if k > 0 {
        NoNewlineAt(person, k - 1);
      }
    }
    MarkerChars();
    if suffix == [] {
      assert rest == w;
      assert part == w;
    } else {
      var i := Find(rest, Marker);
      assert i.None? || i.value > |w|;
      assert part[..|w| + 1] == w + ['\n'];
    }
    FirstLineIsWord(w, suffix, part);
  }

  // ---------------------------------------------------------------- rows

  /** An `alert_info` row used as a schedule: the key and the other columns by name. */
  datatype Schedule = Schedule(alertId: int, columns: Record)

  ghost predicate KeysDistinct(rows: seq<Schedule>) {
    forall i, j :: 0 <= i < j < |rows| ==> rows[i].alertId != rows[j].alertId
  }

  predicate HasKey(rows: seq<Schedule>, alertId: int) {
    exists i :: 0 <= i < |rows| && rows[i].alertId == alertId
  }

  /** The same class with the `urgency_level` column the maintenance code reads and writes. */
  const CorrectedColumns: set<string> := AlertInfoColumns + {"urgency_level"}

  /** The updates `update_maintenance_schedule` applies: the non-None values of known columns. */
  function Settable(kwargs: Record, columns: set<string>): (u: Record)
    ensures forall k :: k in u <==> k in kwargs && kwargs[k] != SqlNull && k in columns
    ensures forall k :: k in u ==> u[k] == kwargs[k]
  {
    NonNone(kwargs, kwargs.Keys - columns)
  }

  /** A schedule after one update: the settable values, then the update time. */
  function Updated(s: Schedule, kwargs: Record, columns: set<string>, now: int): Schedule {
    Schedule(s.alertId, (s.columns + Settable(kwargs, columns))["update_time" := Number(now)])
  }

  /** A column other than the update time after one update. */
  lemma UpdatedColumn(s: Schedule, kwargs: Record, columns: set<string>, now: int, k: string)
    requires k != "update_time"
    ensures ColumnOf(Updated(s, kwargs, columns, now).columns, k) ==
            if k in kwargs && kwargs[k] != SqlNull && k in columns then kwargs[k] else ColumnOf(s.columns, k)
  {
    ColumnOfEdited(s.columns, Settable(kwargs, columns), k);
  }

  /** Every row whose key is in `ids` updated, the others as they were. */
  function UpdatedRows(rows: seq<Schedule>, ids: set<int>, kwargs: Record, columns: set<string>, now: int): (r: seq<Schedule>)
    ensures |r| == |rows|
    ensures forall k :: 0 <= k < |rows| ==> r[k] == (if rows[k].alertId in ids then Updated(rows[k], kwargs, columns, now) else rows[k])
  {
    seq(|rows|, k requires 0 <= k < |rows| => if rows[k].alertId in ids then Updated(rows[k], kwargs, columns, now) else rows[k])
  }

  /** Updating twice with the same arguments is updating once. */
  lemma UpdatedTwice(s: Schedule, kwargs: Record, columns: set<string>, now: int)
    ensures Updated(Updated(s, kwargs, columns, now), kwargs, columns, now) == Updated(s, kwargs, columns, now)
  {
    var u := Settable(kwargs, columns);
    var once := (s.columns + u)["update_time" := Number(now)];
    assert (once + u)["update_time" := Number(now)] == once;
  }

  /** Updating the rows of `ids` and then those of `more` updates the rows of both. */
  lemma UpdatedRowsUnion(rows: seq<Schedule>, ids: set<int>, more: set<int>, kwargs: Record, columns: set<string>, now: int)
    ensures UpdatedRows(UpdatedRows(rows, ids, kwargs, columns, now), more, kwargs, columns, now) ==
            UpdatedRows(rows, ids + more, kwargs, columns, now)
  {
    var a := UpdatedRows(UpdatedRows(rows, ids, kwargs, columns, now), more, kwargs, columns, now);
    var b := UpdatedRows(rows, ids + more, kwargs, columns, now);
    forall k | 0 <= k < |rows|
      ensures a[k] == b[k]
    {
      UpdatedTwice(rows[k], kwargs, columns, now);
    }
  }

  /** The keys a list of keys names. */
  function IdSet(ids: seq<int>): set<int> {
    set id | id in ids
  }

  /** How many listed keys some row holds, counted as the batch loop counts them. */
  function KnownCount(rows: seq<Schedule>, ids: seq<int>): (n: nat)
    ensures n <= |ids|
  {
    if ids == [] then 0
    else KnownCount(rows, ids[..|ids| - 1]) + (if HasKey(rows, ids[|ids| - 1]) then 1 else 0)
  }

  /** Every listed key held by a row counts, so the count is all of them exactly when every key exists. */
  lemma {:induction false} KnownCountAll(rows: seq<Schedule>, ids: seq<int>)
    ensures KnownCount(rows, ids) == |ids| <==> forall id :: id in ids ==> HasKey(rows, id)
  {
    if ids != [] {
      var init := ids[..|ids| - 1];
      KnownCountAll(rows, init);
      assert ids == init + [ids[|ids| - 1]];
      assert forall id :: id in ids <==> id in init || id == ids[|ids| - 1];
    }
  }

  // ---------------------------------------------------------------- creation

  /** The keyword arguments `create_maintenance_schedule` passes to `AlertInfo(...)`. */
  function CreateFields(deviceId: int, componentType: string, componentName: Option<string>, urgency: string,
                        responsible: Option<string>, description: Option<string>, scheduledDate: Option<int>,
                        now: int): (f: Record)
    ensures f.Keys == {"device_id", "alert_source", "component_type", "component_name", "urgency_level", "alert_type",
                       "alert_message", "alert_status", "first_occurrence", "last_occurrence", "resolved_time", "resolution_note"}
    ensures f["urgency_level"] == Text(urgency) && f["device_id"] == Number(deviceId)
    ensures f["alert_status"] == Text("scheduled") && f["alert_source"] == Text("maintenance")
    ensures f["resolved_time"] == Number(if scheduledDate.Some? then scheduledDate.value else ScheduledDate(urgency, now))
    ensures f["resolution_note"] == Text(ResolutionNote(PersonText(responsible), None))
    ensures f["component_name"] == Text(if Present(componentName) then componentName.value else componentType)
  {
    map["device_id" := Number(deviceId),
        "alert_source" := Text("maintenance"),
        "component_type" := Text(componentType),
        "component_name" := Text(if Present(componentName) then componentName.value else componentType),
        "urgency_level" := Text(urgency),
        "alert_type" := Text("maintenance"),
        "alert_message" := Text(if Present(description) then description.value else componentType + "需要维护"),
        "alert_status" := Text("scheduled"),
        "first_occurrence" := Number(now),
        "last_occurrence" := Number(now),
        "resolved_time" := Number(if scheduledDate.Some? then scheduledDate.value else ScheduledDate(urgency, now)),
        "resolution_note" := Text(ResolutionNote(PersonText(responsible), None))]
  }

  /**
   * The mapped class rejects the `urgency_level` keyword, so creation always
   * raises as written; with the column added every keyword is accepted.
   */
  lemma CreateFieldsNeedUrgency(deviceId: int, componentType: string, componentName: Option<string>, urgency: string,
                                responsible: Option<string>, description: Option<string>, scheduledDate: Option<int>, now: int)
    ensures var f := CreateFields(deviceId, componentType, componentName, urgency, responsible, description, scheduledDate, now);
      !(f.Keys <= AlertInfoColumns) && f.Keys <= CorrectedColumns
  {
  }

  /**
   * The level the corrected create files a schedule under. `alert_level`
   * takes `urgent` or `scheduled` (alert_vo.py:19); an `immediate` or
   * `urgent` schedule is filed as urgent, any other as scheduled.
   */
  function LevelOf(urgency: string): (level: string)
    ensures level == "urgent" || level == "scheduled"
    ensures level == "urgent" <==> urgency == "immediate" || urgency == "urgent"
  {
    if urgency == "immediate" || urgency == "urgent" then "urgent" else "scheduled"
  }

  /**
   * The create leaves `alert_level` unset, a column that is NOT NULL without a
   * default, so the INSERT fails whatever columns the class declares.
   */
  lemma CreateFieldsLackLevel(deviceId: int, componentType: string, componentName: Option<string>, urgency: string,
                              responsible: Option<string>, description: Option<string>, scheduledDate: Option<int>, now: int)
    ensures var f := CreateFields(deviceId, componentType, componentName, urgency, responsible, description, scheduledDate, now);
      "alert_level" !in f && !(AlertInfoRequired <= f.Keys)
  {
  }

  /** The keywords of the corrected create: those of the create, with the level of its urgency. */
  function CorrectedCreateFields(deviceId: int, componentType: string, componentName: Option<string>, urgency: string,
                                 responsible: Option<string>, description: Option<string>, scheduledDate: Option<int>,
                                 now: int): (f: Record)
    ensures var g := CreateFields(deviceId, componentType, componentName, urgency, responsible, description, scheduledDate, now);
      && f.Keys == g.Keys + {"alert_level"} && f["alert_level"] == Text(LevelOf(urgency))
      && forall k :: k in g ==> f[k] == g[k]
    ensures AlertInfoRequired <= f.Keys <= CorrectedColumns && !(f.Keys <= AlertInfoColumns)
  {
    var g := CreateFields(deviceId, componentType, componentName, urgency, responsible, description, scheduledDate, now);
    assert "urgency_level" in g && "urgency_level" !in AlertInfoColumns;
    assert g.Keys <= CorrectedColumns by {
      CreateFieldsNeedUrgency(deviceId, componentType, componentName, urgency, responsible, description, scheduledDate, now);
    }
    g["alert_level" := Text(LevelOf(urgency))]
  }

  /**
   * `AlertInfo(**f)` and the commit succeed: every keyword is a column of the
   * class, and every NOT NULL column without a default is set.
   */
  predicate Storable(columns: set<string>, f: Record) {
    f.Keys <= columns && AlertInfoRequired <= f.Keys
  }

  // ---------------------------------------------------------------- statistics

  function StatusOf(s: Schedule): Cell {
    ColumnOf(s.columns, "alert_status")
  }

  function UrgencyOf(s: Schedule): Cell {
    ColumnOf(s.columns, "urgency_level")
  }

  /** `resolved_time`, the scheduled date, when the row holds one. */
  function ResolvedTime(s: Schedule): Option<int> {
    match ColumnOf(s.columns, "resolved_time")
    case Number(t) => Some(t)
    case _ => None
  }

  predicate StatusIn(s: Schedule, statuses: set<string>) {
    StatusOf(s).Text? && StatusOf(s).s in statuses
  }

  const OpenStatuses: set<string> := {"active", "acknowledged", "scheduled"}
  const CountedStatuses: set<string> := OpenStatuses + {"resolved"}

  /** `count(alert_id) WHERE alert_status IN statuses`. */
  function CountIn(rows: seq<Schedule>, statuses: set<string>): (n: nat)
    ensures n <= |rows|
  {
    if rows == [] then 0 else (if StatusIn(rows[0], statuses) then 1 else 0) + CountIn(rows[1..], statuses)
  }

  /** One group of the status `GROUP BY`, 0 when the group is absent. */
  function CountStatus(rows: seq<Schedule>, status: string): nat {
    CountIn(rows, {status})
  }

  /** One group of the urgency `GROUP BY` over the counted statuses. */
  function CountUrgency(rows: seq<Schedule>, urgency: string): (n: nat)
    ensures n <= CountIn(rows, CountedStatuses)
  {
    if rows == [] then 0
    else (if StatusIn(rows[0], CountedStatuses) && UrgencyOf(rows[0]) == Text(urgency) then 1 else 0) + CountUrgency(rows[1..], urgency)
  }

  /** Open schedules whose date is before now; a NULL date never compares. */
  function CountOverdue(rows: seq<Schedule>, now: int): (n: nat)
    ensures n <= CountIn(rows, OpenStatuses)
  {
    if rows == [] then 0
    else (if StatusIn(rows[0], OpenStatuses) && ResolvedTime(rows[0]).Some? && ResolvedTime(rows[0]).value < now then 1 else 0) +
         CountOverdue(rows[1..], now)
  }

  /** The dictionary `get_maintenance_statistics` returns. */
  datatype Statistics = Statistics(total: nat, pending: nat, inProgress: nat, completed: nat,
                                   immediate: nat, urgent: nat, scheduled: nat, overdue: nat)

  /** The four counted statuses partition the total. */
  lemma {:induction false} StatusPartition(rows: seq<Schedule>)
    ensures CountIn(rows, CountedStatuses) ==
      CountStatus(rows, "active") + CountStatus(rows, "acknowledged") + CountStatus(rows, "scheduled") + CountStatus(rows, "resolved")
  {
    if rows != [] {
      StatusPartition(rows[1..]);
    }
  }

  /** The open statuses are the first three of the four. */
  lemma {:induction false} OpenPartition(rows: seq<Schedule>)
    ensures CountIn(rows, OpenStatuses) == CountStatus(rows, "active") + CountStatus(rows, "acknowledged") + CountStatus(rows, "scheduled")
  {
    if rows != [] {
      OpenPartition(rows[1..]);
    }
  }

  /** The three urgency groups together count no more than the total. */
  lemma {:induction false} UrgencyBounded(rows: seq<Schedule>)
    ensures CountUrgency(rows, "immediate") + CountUrgency(rows, "urgent") + CountUrgency(rows, "scheduled") <= CountIn(rows, CountedStatuses)
  {
    if rows != [] {
      UrgencyBounded(rows[1..]);
    }
  }

  /**
   * `get_maintenance_statistics`: the query grouping by `urgency_level`
   * raises when the class has no such column (None); otherwise the totals
   * split into pending, in progress and completed, the urgency groups fit in
   * the total, and only pending or in-progress schedules are overdue.
   */
  function MaintenanceStatistics(rows: seq<Schedule>, columns: set<string>, now: int): (r: Option<Statistics>)
    ensures r.None? <==> "urgency_level" !in columns
    ensures r.Some? ==> r.value.total == r.value.pending + r.value.inProgress + r.value.completed
    ensures r.Some? ==> r.value.immediate + r.value.urgent + r.value.scheduled <= r.value.total
    ensures r.Some? ==> r.value.overdue <= r.value.pending + r.value.inProgress
  {
    if "urgency_level" !in columns then None
    else
      StatusPartition(rows);
      OpenPartition(rows);
      UrgencyBounded(rows);
      Some(Statistics(
        CountIn(rows, CountedStatuses),
        CountStatus(rows, "active") + CountStatus(rows, "acknowledged"),
        CountStatus(rows, "scheduled"),
        CountStatus(rows, "resolved"),
        CountUrgency(rows, "immediate"),
        CountUrgency(rows, "urgent"),
        CountUrgency(rows, "scheduled"),
        CountOverdue(rows, now)))
  }

  // ---------------------------------------------------------------- calendar

  /** One schedule as the calendar lists it. */
  datatype CalendarEntry = CalendarEntry(alertId: int, hostname: string, componentType: Cell, componentName: Cell,
                                         urgency: Cell, responsible: Option<string>, status: Cell)

  /** The schedules of one day with their counts by urgency. */
  datatype DayBucket = DayBucket(date: int, schedules: seq<CalendarEntry>, total: nat, immediate: nat, urgent: nat, scheduled: nat)

  function NoteOf(s: Schedule): Option<string> {
    match ColumnOf(s.columns, "resolution_note")
    case Text(note) => Some(note)
    case _ => None
  }

  /** The joined device's hostname, or '' when the row has no device. */
  function HostnameOf(s: Schedule, hostnames: map<int, string>): string {
    match ColumnOf(s.columns, "device_id")
    case Number(d) => if d in hostnames then hostnames[d] else ""
    case _ => ""
  }

  function EntryOf(s: Schedule, hostnames: map<int, string>): CalendarEntry {
    CalendarEntry(s.alertId, HostnameOf(s, hostnames), ColumnOf(s.columns, "component_type"), ColumnOf(s.columns, "component_name"),
                  UrgencyOf(s), ExtractResponsiblePerson(NoteOf(s)), StatusOf(s))
  }

  /** The query of `get_calendar_data`: open schedules dated between the two bounds, inclusive. */
  predicate OnCalendar(s: Schedule, start: int, end: int) {
    StatusIn(s, OpenStatuses) && ResolvedTime(s).Some? && start <= ResolvedTime(s).value <= end
  }

  /**
   * Rows as `order_by(AlertInfo.resolved_time)` returns the table: the same
   * rows, the dated ones in ascending time (where the NULL times go is left open).
   */
  predicate InDateOrder(ordered: seq<Schedule>, rows: seq<Schedule>) {
    multiset(ordered) == multiset(rows) &&
    forall i, j :: 0 <= i < j < |ordered| && ResolvedTime(ordered[i]).Some? && ResolvedTime(ordered[j]).Some? ==>
      ResolvedTime(ordered[i]).value <= ResolvedTime(ordered[j]).value
  }

  /** The rows the calendar query selects, in the order the rows come. */
  function CalendarRows(ordered: seq<Schedule>, start: int, end: int): (r: seq<Schedule>)
    ensures forall s :: s in r <==> s in ordered && OnCalendar(s, start, end)
    ensures forall s :: multiset(r)[s] == if OnCalendar(s, start, end) then multiset(ordered)[s] else 0
  {
    var p := (s: Schedule) => OnCalendar(s, start, end);
    FilterSeqMembers(ordered, p);
    FilterSeqMultiset(ordered, p);
    FilterSeq(ordered, p)
  }

  /**
   * Over the table in query order the calendar selects every open schedule
   * dated in the range, each as often as the table holds it, in date order.
   */
  lemma CalendarRowsInDateOrder(ordered: seq<Schedule>, rows: seq<Schedule>, start: int, end: int)
    requires InDateOrder(ordered, rows)
    ensures var r := CalendarRows(ordered, start, end);
      (forall s :: multiset(r)[s] == if OnCalendar(s, start, end) then multiset(rows)[s] else 0) &&
      (forall i, j :: 0 <= i < j < |r| ==> ResolvedTime(r[i]).Some? && ResolvedTime(r[j]).Some? && ResolvedTime(r[i]).value <= ResolvedTime(r[j]).value)
  {
    var p := (s: Schedule) => OnCalendar(s, start, end);
    var rel := (a: Schedule, b: Schedule) =>
      ResolvedTime(a).Some? && ResolvedTime(b).Some? ==> ResolvedTime(a).value <= ResolvedTime(b).value;
    FilterSeqPairwise(ordered, p, rel);
    var r := CalendarRows(ordered, start, end);
    assert r == FilterSeq(ordered, p);
    forall i, j | 0 <= i < j < |r|
      ensures ResolvedTime(r[i]).Some? && ResolvedTime(r[j]).Some? && ResolvedTime(r[i]).value <= ResolvedTime(r[j]).value
    {
      assert r[i] in r && r[j] in r;
      assert rel(r[i], r[j]);
    }
  }

  /** A bucket with one more schedule: listed, counted, and counted by its urgency. */
  function Counted(b: DayBucket, e: CalendarEntry): DayBucket {
    var b' := b.(schedules := b.schedules + [e], total := b.total + 1);
    if e.urgency == Text("immediate") then b'.(immediate := b'.immediate + 1)
    else if e.urgency == Text("urgent") then b'.(urgent := b'.urgent + 1)
    else if e.urgency == Text("scheduled") then b'.(scheduled := b'.scheduled + 1)
    else b'
  }

  function EmptyBucket(day: int): DayBucket {
    DayBucket(day, [], 0, 0, 0, 0)
  }

  /** The position of a day's bucket, the first when there are several. */
  function BucketIndex(buckets: seq<DayBucket>, day: int): (r: Option<nat>)
    ensures r.Some? ==> r.value < |buckets| && buckets[r.value].date == day
    ensures r.Some? ==> forall j :: 0 <= j < r.value ==> buckets[j].date != day
    ensures r.None? ==> forall j :: 0 <= j < |buckets| ==> buckets[j].date != day
  {
    if buckets == [] then None
    else if buckets[0].date == day then Some(0)
    else match BucketIndex(buckets[1..], day)
      case None => None
      case Some(j) => Some(j + 1)
  }

  /** One schedule filed under its day: a new bucket at the end for a new day. */
  function AddEntry(buckets: seq<DayBucket>, day: int, e: CalendarEntry): seq<DayBucket> {
    match BucketIndex(buckets, day)
    case None => buckets + [Counted(EmptyBucket(day), e)]
    case Some(j) => buckets[j := Counted(buckets[j], e)]
  }

  /** The buckets of a sequence of schedules in order; a schedule with no date is skipped. */
  function Calendar(schedules: seq<Schedule>, hostnames: map<int, string>): seq<DayBucket> {
    if schedules == [] then []
    else
      var last := schedules[|schedules| - 1];
      var before := Calendar(schedules[..|schedules| - 1], hostnames);
      match ResolvedTime(last)
      case None => before
      case Some(t) => AddEntry(before, DayOf(t), EntryOf(last, hostnames))
  }

  ghost predicate DatesDistinct(buckets: seq<DayBucket>) {
    forall i, j :: 0 <= i < j < |buckets| ==> buckets[i].date != buckets[j].date
  }

  /** A bucket's total is the number of its schedules, and the urgency counts fit in it. */
  predicate Consistent(b: DayBucket) {
    b.total == |b.schedules| && b.immediate + b.urgent + b.scheduled <= b.total
  }

  /** The days that have a bucket. */
  function DaysOf(buckets: seq<DayBucket>): set<int> {
    set j | 0 <= j < |buckets| :: buckets[j].date
  }

  /** The days on which some dated schedule falls. */
  function ScheduledDays(schedules: seq<Schedule>): set<int> {
    set s | s in schedules && ResolvedTime(s).Some? :: DayOf(ResolvedTime(s).value)
  }

  /** Filing an entry adds its day, keeps the days distinct and keeps every bucket consistent. */
  lemma AddEntryShape(buckets: seq<DayBucket>, day: int, e: CalendarEntry)
    ensures DaysOf(AddEntry(buckets, day, e)) == DaysOf(buckets) + {day}
    ensures DatesDistinct(buckets) ==> DatesDistinct(AddEntry(buckets, day, e))
    ensures (forall b :: b in buckets ==> Consistent(b)) ==> forall b :: b in AddEntry(buckets, day, e) ==> Consistent(b)
  {
    var after := AddEntry(buckets, day, e);
    match BucketIndex(buckets, day)
    case None =>
      assert after == buckets + [Counted(EmptyBucket(day), e)];
      assert after[|buckets|].date == day;
      assert forall j :: 0 <= j < |buckets| ==> after[j] == buckets[j];
      assert DaysOf(after) == DaysOf(buckets) + {day};
    case Some(j) =>
      assert buckets[j] in buckets;
      assert forall k :: 0 <= k < |after| ==> after[k].date == buckets[k].date;
      assert DaysOf(after) == DaysOf(buckets);
      assert forall b :: b in after ==> b == after[j] || b in buckets;
  }

  lemma ScheduledDaysSnoc(init: seq<Schedule>, last: Schedule)
    ensures ScheduledDays(init + [last]) ==
      ScheduledDays(init) + (match ResolvedTime(last) case None => {} case Some(t) => {DayOf(t)})
  {
    assert forall s :: s in init + [last] <==> s in init || s == last;
  }

  /**
   * The calendar has one bucket per day: the days are distinct, a day has a
   * bucket exactly when some dated schedule falls on it, and every bucket's
   * counts agree with its list.
   */
  lemma {:induction false} CalendarShape(schedules: seq<Schedule>, hostnames: map<int, string>)
    ensures DatesDistinct(Calendar(schedules, hostnames))
    ensures forall b :: b in Calendar(schedules, hostnames) ==> Consistent(b)
    ensures DaysOf(Calendar(schedules, hostnames)) == ScheduledDays(schedules)
  {
    if schedules != [] {
      var init := schedules[..|schedules| - 1];
      var last := schedules[|schedules| - 1];
      assert schedules == init + [last];
      ScheduledDaysSnoc(init, last);
      CalendarShape(init, hostnames);
      match ResolvedTime(last)
      case None =>
      case Some(t) =>
        AddEntryShape(Calendar(init, hostnames), DayOf(t), EntryOf(last, hostnames));
    }
  }

  /** One more schedule adds its entry under its day, or nothing when it has no date. */
  lemma CalendarStep(selected: seq<Schedule>, i: nat, hostnames: map<int, string>)
    requires i < |selected|
    ensures Calendar(selected[..i + 1], hostnames) ==
      match ResolvedTime(selected[i])
      case None => Calendar(selected[..i], hostnames)
      case Some(t) => AddEntry(Calendar(selected[..i], hostnames), DayOf(t), EntryOf(selected[i], hostnames))
    ensures AnyDated(selected[..i + 1]) == (AnyDated(selected[..i]) || ResolvedTime(selected[i]).Some?)
  {
    assert selected[..i + 1][..i] == selected[..i];
  }

  /** Some schedule of the sequence has a date. */
  predicate AnyDated(schedules: seq<Schedule>) {
    schedules != [] && (AnyDated(schedules[..|schedules| - 1]) || ResolvedTime(schedules[|schedules| - 1]).Some?)
  }

  /** A dated schedule in a prefix is a dated schedule in the whole. */
  lemma {:induction false} PrefixDated(schedules: seq<Schedule>, n: nat)
    requires n <= |schedules| && AnyDated(schedules[..n])
    ensures AnyDated(schedules)
    decreases |schedules| - n
  {
    if n == |schedules| {
      assert schedules[..n] == schedules;
    } else {
      assert schedules[..n + 1][..n] == schedules[..n];
      PrefixDated(schedules, n + 1);
    }
  }

  /** The calendar query selects dated schedules only, so a non-empty selection holds a dated one. */
  lemma SelectedAreDated(ordered: seq<Schedule>, start: int, end: int)
    ensures CalendarRows(ordered, start, end) != [] ==> AnyDated(CalendarRows(ordered, start, end))
  {
    var r := CalendarRows(ordered, start, end);
    if r != [] {
      assert r[|r| - 1] in r;
    }
  }

  /** The calendar dictionary's keys: the days of the buckets, each mapped to its position. */
  ghost predicate IndexMirrors(index: map<int, nat>, buckets: seq<DayBucket>) {
    index.Keys == DaysOf(buckets) &&
    forall d :: d in index ==> index[d] < |buckets| && buckets[index[d]].date == d
  }

  /** Removing the row at `i` removes exactly the rows with its key and keeps the keys distinct. */
  lemma RemoveAt(rows: seq<Schedule>, i: nat, nextId: int)
    requires i < |rows| && KeysDistinct(rows)
    requires forall k :: 0 <= k < |rows| ==> rows[k].alertId < nextId
    ensures var after := rows[..i] + rows[i + 1..];
      (forall s :: s in after <==> s in rows && s.alertId != rows[i].alertId) &&
      KeysDistinct(after) && (forall k :: 0 <= k < |after| ==> after[k].alertId < nextId)
  {
    var after := rows[..i] + rows[i + 1..];
    assert forall k :: 0 <= k < |after| ==> after[k] == rows[if k < i then k else k + 1];
    forall s | s in rows && s.alertId != rows[i].alertId
      ensures s in after
    {
      var k :| 0 <= k < |rows| && rows[k] == s;
      assert after[if k < i then k else k - 1] == s;
    }
  }

  // ---------------------------------------------------------------- the table

  /** One step of the grouping loop: the day's bucket is created when new, then the entry is counted in it. */
  method FileEntry(buckets: seq<DayBucket>, index: map<int, nat>, day: int, e: CalendarEntry)
    returns (buckets': seq<DayBucket>, index': map<int, nat>)
    requires DatesDistinct(buckets) && IndexMirrors(index, buckets)
    ensures buckets' == AddEntry(buckets, day, e) && IndexMirrors(index', buckets')
  {
    AddEntryShape(buckets, day, e);
    buckets', index' := buckets, index;
    if day !in index' {
      index' := index'[day := |buckets'|];
      buckets' := buckets' + [EmptyBucket(day)];
    }
    var j := index'[day];
    var b := Counted(buckets'[j], e);
    buckets' := buckets'[j := b];
    match BucketIndex(buckets, day) {
      case None =>
        assert day !in index;
        assert buckets' == buckets + [Counted(EmptyBucket(day), e)];
      case Some(k) =>
        assert day in index && index[day] == k;
    }
  }

  /** One schedule of the grouping loop: a dated one is counted in its day's bucket, an undated one is skipped. */
  method FileOne(selected: seq<Schedule>, i: nat, hostnames: map<int, string>, buckets: seq<DayBucket>, index: map<int, nat>)
    returns (buckets': seq<DayBucket>, index': map<int, nat>)
    requires i < |selected| && buckets == Calendar(selected[..i], hostnames) && IndexMirrors(index, buckets)
    ensures buckets' == Calendar(selected[..i + 1], hostnames) && IndexMirrors(index', buckets')
  {
    CalendarStep(selected, i, hostnames);
    buckets', index' := buckets, index;
    var t := ResolvedTime(selected[i]);
    if t.Some? {
      CalendarShape(selected[..i], hostnames);
      buckets', index' := FileEntry(buckets, index, DayOf(t.value), EntryOf(selected[i], hostnames));
    }
  }

  /**
   * The grouping loop of `get_calendar_data`: reading `urgency_level` on the
   * first dated schedule raises when the class lacks it (None); otherwise
   * the schedules are filed by day.
   */
  method FileByDay(selected: seq<Schedule>, hostnames: map<int, string>, hasUrgency: bool)
    returns (r: Option<seq<DayBucket>>)
    ensures r == if !hasUrgency && AnyDated(selected) then None else Some(Calendar(selected, hostnames))
  {
    var buckets: seq<DayBucket> := [];
    var index: map<int, nat> := map[];
    var i := 0;
    while i < |selected|
      invariant 0 <= i <= |selected|
      invariant !hasUrgency ==> !AnyDated(selected[..i])
      invariant buckets == Calendar(selected[..i], hostnames)
      invariant IndexMirrors(index, buckets)
    {
      CalendarStep(selected, i, hostnames);
      if !hasUrgency && ResolvedTime(selected[i]).Some? {
        PrefixDated(selected, i + 1);
        return None;
      }
      buckets, index := FileOne(selected, i, hostnames, buckets, index);
      i := i + 1;
    }
    assert selected[..i] == selected;
    return Some(buckets);
  }

  class MaintenanceTable {
    /** The columns the mapped class declares: only these pass `hasattr`. */
    const columns: set<string>
    var rows: seq<Schedule>
    var nextId: int

    ghost predicate Valid()
      reads this`rows, this`nextId
    {
      KeysDistinct(rows) && forall i :: 0 <= i < |rows| ==> rows[i].alertId < nextId
    }

    constructor (columns: set<string>)
      ensures this.columns == columns && rows == [] && nextId == 1 && Valid()
    {
      this.columns := columns;
      rows := [];
      nextId := 1;
    }

    /** The position of a key, when some row holds it. */
    method IndexOf(alertId: int) returns (found: Option<nat>)
      ensures found.Some? ==> found.value < |rows| && rows[found.value].alertId == alertId
      ensures found.None? ==> !HasKey(rows, alertId)
    {
      var i := 0;
      while i < |rows|
        invariant 0 <= i <= |rows|
        invariant forall j :: 0 <= j < i ==> rows[j].alertId != alertId
      {
        if rows[i].alertId == alertId {
          return Some(i);
        }
        i := i + 1;
      }
      return None;
    }

    /**
     * The `setattr` loop of `update_maintenance_schedule`: a value is written
     * when it is not None and the class has the attribute.
     */
    method SetPresentAttrs(row: Record, kwargs: Record) returns (out: Record)
      ensures out == row + Settable(kwargs, columns)
    {
      out := row;
      var pending := kwargs.Keys;
      while pending != {}
        invariant pending <= kwargs.Keys
        invariant forall k :: k in out <==> k in row || (k in kwargs && k !in pending && kwargs[k] != SqlNull && k in columns)
        invariant forall k :: k in out ==>
          out[k] == (if k in kwargs && k !in pending && kwargs[k] != SqlNull && k in columns then kwargs[k] else row[k])
        decreases pending
      {
        var key :| key in pending;
        if kwargs[key] != SqlNull && key in columns {
          out := out[key := kwargs[key]];
        }
        pending := pending - {key};
      }
      assert out == row + Settable(kwargs, columns);
    }

    /**
     * `update_maintenance_schedule`: False for an unknown key, which then
     * changes nothing; otherwise the settable values and the update time are
     * written onto that row alone.
     */
    method UpdateMaintenanceSchedule(alertId: int, kwargs: Record, now: int) returns (ok: bool)
      requires Valid()
      modifies this`rows
      ensures ok <==> HasKey(old(rows), alertId)
      ensures !ok ==> rows == old(rows)
      ensures rows == UpdatedRows(old(rows), {alertId}, kwargs, columns, now)
      ensures Valid()
    {
      var found := IndexOf(alertId);
      if found.None? {
        assert rows == UpdatedRows(rows, {alertId}, kwargs, columns, now);
        return false;
      }
      var i := found.value;
      var out := SetPresentAttrs(rows[i].columns, kwargs);
      var updated := Schedule(alertId, out["update_time" := Number(now)]);
      assert updated == Updated(rows[i], kwargs, columns, now);
      ghost var before := rows;
      rows := rows[i := updated];
      forall k | 0 <= k < |before|
        ensures rows[k] == UpdatedRows(before, {alertId}, kwargs, columns, now)[k]
      {
        if k != i {
          assert before[k].alertId != before[i].alertId;
        }
      }
      return true;
    }

    /**
     * `batch_update_schedules`: every listed key is updated in turn; the
     * count is the number of listed keys a row holds, repeats included.
     */
    method BatchUpdateSchedules(alertIds: seq<int>, kwargs: Record, now: int) returns (count: nat)
      requires Valid()
      modifies this`rows
      ensures count == KnownCount(old(rows), alertIds)
      ensures rows == UpdatedRows(old(rows), IdSet(alertIds), kwargs, columns, now)
      ensures Valid()
    {
      count := 0;
      var i := 0;
      while i < |alertIds|
        invariant 0 <= i <= |alertIds|
        invariant Valid()
        invariant rows == UpdatedRows(old(rows), IdSet(alertIds[..i]), kwargs, columns, now)
        invariant count == KnownCount(old(rows), alertIds[..i])
      {
        ghost var before := rows;
        assert HasKey(before, alertIds[i]) == HasKey(old(rows), alertIds[i]) by {
          assert forall k :: 0 <= k < |before| ==> before[k].alertId == old(rows)[k].alertId;
        }
        var ok := UpdateMaintenanceSchedule(alertIds[i], kwargs, now);
        if ok {
          count := count + 1;
        }
        UpdatedRowsUnion(old(rows), IdSet(alertIds[..i]), {alertIds[i]}, kwargs, columns, now);
        assert alertIds[..i + 1] == alertIds[..i] + [alertIds[i]];
        assert IdSet(alertIds[..i + 1]) == IdSet(alertIds[..i]) + {alertIds[i]};
        assert alertIds[..i + 1][..i] == alertIds[..i];
        i := i + 1;
      }
      assert alertIds[..i] == alertIds;
    }

    /** `delete_maintenance_schedule`: False for an unknown key; otherwise that row alone goes. */
    method DeleteMaintenanceSchedule(alertId: int) returns (ok: bool)
      requires Valid()
      modifies this`rows
      ensures ok <==> HasKey(old(rows), alertId)
      ensures forall s :: s in rows <==> s in old(rows) && s.alertId != alertId
      ensures |rows| == |old(rows)| - (if ok then 1 else 0)
      ensures Valid()
    {
      var found := IndexOf(alertId);
      if found.None? {
        return false;
      }
      var i := found.value;
      RemoveAt(rows, i, nextId);
      rows := rows[..i] + rows[i + 1..];
      return true;
    }

    /**
     * `create_maintenance_schedule`: `AlertInfo(...)` raises for a keyword
     * the class lacks (None, nothing stored); otherwise the new row is stored
     * under the next key.
     */
    /**
     * `db.add(AlertInfo(**f))` and the commit: the row is appended under the
     * next key when `f` is storable, and otherwise the call raises (None)
     * and nothing changes.
     */
    method Store(f: Record) returns (created: Option<Schedule>)
      modifies this`rows, this`nextId
      ensures if Storable(columns, f) then
          created == Some(Schedule(old(nextId), f)) && rows == old(rows) + [created.value] && nextId == old(nextId) + 1
        else
          created.None? && rows == old(rows) && nextId == old(nextId)
      ensures old(Valid()) ==> Valid()
    {
      if !Storable(columns, f) {
        return None;
      }
      var s := Schedule(nextId, f);
      rows := rows + [s];
      nextId := nextId + 1;
      return Some(s);
    }

    /**
     * `create_maintenance_schedule` as written: the row lacks `alert_level`
     * (`CreateFieldsLackLevel`), so the create raises whatever the class
     * declares, and the table is unchanged.
     */
    method CreateMaintenanceSchedule(deviceId: int, componentType: string, componentName: Option<string>, urgency: string,
                                     responsible: Option<string>, description: Option<string>, scheduledDate: Option<int>,
                                     now: int) returns (created: Option<Schedule>)
      modifies this`rows, this`nextId
      ensures !Storable(columns, CreateFields(deviceId, componentType, componentName, urgency, responsible, description, scheduledDate, now))
      ensures created.None? && rows == old(rows) && nextId == old(nextId)
      ensures old(Valid()) ==> Valid()
    {
      var f := CreateFields(deviceId, componentType, componentName, urgency, responsible, description, scheduledDate, now);
      CreateFieldsLackLevel(deviceId, componentType, componentName, urgency, responsible, description, scheduledDate, now);
      created := Store(f);
    }

    /**
     * The corrected create: the row is filed at the level of its urgency, so
     * it is stored exactly when the class declares `urgency_level`.
     */
    method CorrectedCreateMaintenanceSchedule(deviceId: int, componentType: string, componentName: Option<string>,
                                              urgency: string, responsible: Option<string>, description: Option<string>,
                                              scheduledDate: Option<int>, now: int) returns (created: Option<Schedule>)
      modifies this`rows, this`nextId
      ensures var f := CorrectedCreateFields(deviceId, componentType, componentName, urgency, responsible, description,
                                             scheduledDate, now);
        if f.Keys <= columns then
          created == Some(Schedule(old(nextId), f)) && rows == old(rows) + [created.value] && nextId == old(nextId) + 1
        else
          created.None? && rows == old(rows) && nextId == old(nextId)
      ensures columns == CorrectedColumns ==> created.Some?
      ensures columns == AlertInfoColumns ==> created.None?
      ensures old(Valid()) ==> Valid()
    {
      var f := CorrectedCreateFields(deviceId, componentType, componentName, urgency, responsible, description, scheduledDate, now);
      created := Store(f);
    }

    /**
     * `get_calendar_data` over the rows in `resolved_time` order: reading
     * `urgency_level` raises when the class lacks it and some schedule is
     * selected (None); otherwise the selected schedules are filed by day.
     */
    method GetCalendarData(ordered: seq<Schedule>, hostnames: map<int, string>, start: int, end: int)
      returns (r: Option<seq<DayBucket>>)
      requires InDateOrder(ordered, rows)
      ensures var selected := CalendarRows(ordered, start, end);
        r == if "urgency_level" !in columns && selected != [] then None else Some(Calendar(selected, hostnames))
    {
      var selected := CalendarRows(ordered, start, end);
      SelectedAreDated(ordered, start, end);
      r := FileByDay(selected, hostnames, "urgency_level" in columns);
    }

  }
}
