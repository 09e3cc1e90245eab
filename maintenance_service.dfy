/**
 * The maintenance service: creation with the owner and date fallbacks,
 * the update-field mapping with the `负责人:` note, deletion, the
 * statistics fallback, the calendar month range, the batch update and
 * the automatic schedule built from an alert and the urgency rules.
 */
module MaintenanceService {
  import opened Basics
  import opened Records
  import opened DeviceDao
  import opened MaintenanceDao
  import opened BusinessRuleDao
  import opened Dates

  /** The device's `system_owner` column. */
  function OwnerOf(d: Device): Cell {
    ColumnOf(d.columns, "system_owner")
  }

  /** A table unchanged by a call. */
  ghost predicate Unchanged(table: MaintenanceTable, rows: seq<Schedule>, nextId: int)
    reads table
  {
    table.rows == rows && table.nextId == nextId
  }

  // ---------------------------------------------------------------- create

  /** The fields `create_maintenance_schedule_services` reads from its request. */
  datatype CreateRequest = CreateRequest(deviceId: int, componentType: string, componentName: Option<string>,
                                         urgencyLevel: string, responsiblePerson: Option<string>,
                                         scheduledDate: Option<int>, description: Option<string>)

  /** An untruthy person gives way to a truthy device owner. */
  function ChosenPerson(person: Option<string>, owner: Cell): Option<string> {
    if !Present(person) && NonEmptyText(owner) then Some(owner.s) else person
  }

  /** A missing date is the one the urgency calls for. */
  function ChosenDate(req: CreateRequest, now: int): int {
    if req.scheduledDate.Some? then req.scheduledDate.value else ScheduledDate(req.urgencyLevel, now)
  }

  /** The keywords the service has the DAO build the new row from. */
  function CreatedFields(req: CreateRequest, device: Device, now: int): Record {
    CreateFields(req.deviceId, req.componentType, req.componentName, req.urgencyLevel,
                 ChosenPerson(req.responsiblePerson, OwnerOf(device)), req.description, Some(ChosenDate(req, now)), now)
  }

  /**
   * The created row names its person: a supplied person, else the device
   * owner, is what the calendar reads back from the note.
   */
  lemma CreatedNoteNamesPerson(req: CreateRequest, device: Device, now: int, alertId: int)
    requires var p := PersonText(ChosenPerson(req.responsiblePerson, OwnerOf(device)));
      !Contains(p, Marker) && !Contains(p, "\n")
    ensures var person := ChosenPerson(req.responsiblePerson, OwnerOf(device));
      && (Present(req.responsiblePerson) ==> person == req.responsiblePerson)
      && (!Present(req.responsiblePerson) && NonEmptyText(OwnerOf(device)) ==> person == Some(OwnerOf(device).s))
      && ExtractResponsiblePerson(NoteOf(Schedule(alertId, CreatedFields(req, device, now)))) == Some(Strip(PersonText(person)))
  {
    var person := PersonText(ChosenPerson(req.responsiblePerson, OwnerOf(device)));
    ExtractAfterNote(person, None);
  }

  /** An unchosen date follows the urgency: the next day when urgent, otherwise the Saturday 02:00 slot. */
  lemma ChosenDateFollowsUrgency(req: CreateRequest, now: int)
    requires req.scheduledDate.None?
    ensures req.urgencyLevel == "urgent" ==> ChosenDate(req, now) == now + SecondsPerDay
    ensures req.urgencyLevel != "urgent" && req.urgencyLevel != "immediate" ==>
      Weekday(ChosenDate(req, now)) == Saturday && ChosenDate(req, now) % SecondsPerDay == WindowOpens
  {
  }

  /** The keywords the corrected DAO create builds the new row from. */
  function CorrectedCreatedFields(req: CreateRequest, device: Device, now: int): Record {
    CorrectedCreateFields(req.deviceId, req.componentType, req.componentName, req.urgencyLevel,
                          ChosenPerson(req.responsiblePerson, OwnerOf(device)), req.description, Some(ChosenDate(req, now)), now)
  }

  /**
   * `create_maintenance_schedule_services`: an unknown device is refused;
   * otherwise the row is built with the chosen person and date, and the
   * exception of the create (a lookup that raises, a keyword the class
   * lacks, the unset `alert_level`) is caught as a generic failure. As
   * written, creation never succeeds.
   */
  method CreateMaintenanceScheduleServices(devices: seq<Device>, table: MaintenanceTable, req: CreateRequest, now: int)
    returns (reply: Reply)
    modifies table
    ensures var found := DeviceById(devices, req.deviceId);
      && (found.Raised? ==> reply == Failure("创建维护排期失败") && Unchanged(table, old(table.rows), old(table.nextId)))
      && (found.NoRow? ==> reply == Failure("设备不存在") && Unchanged(table, old(table.rows), old(table.nextId)))
      && (found.Found? ==>
            !Storable(table.columns, CreatedFields(req, found.row, now)) &&
            reply == Failure("创建维护排期失败") && Unchanged(table, old(table.rows), old(table.nextId)))
    ensures table.columns == AlertInfoColumns ==> !reply.Success?
    ensures !reply.Success?
    ensures old(table.Valid()) ==> table.Valid()
  {
    var found := DeviceById(devices, req.deviceId);
    if found.Raised? {
      return Failure("创建维护排期失败");
    }
    if found.NoRow? {
      return Failure("设备不存在");
    }
    var device := found.row;
    var person := ChosenPerson(req.responsiblePerson, OwnerOf(device));
    var date := ChosenDate(req, now);
    var created := table.CreateMaintenanceSchedule(req.deviceId, req.componentType, req.componentName, req.urgencyLevel,
                                                  person, req.description, Some(date), now);
    match created {
      case None => reply := Failure("创建维护排期失败");
      case Some(s) => reply := Success("创建维护排期成功", map["alertId" := Number(s.alertId)]);
    }
  }

  /**
   * The service over the corrected create: an unknown device is refused;
   * otherwise the row is stored when the class declares every keyword.
   * With the class as declared creation never succeeds, and with the
   * `urgency_level` column added it succeeds for every known device.
   */
  method CorrectedCreateMaintenanceScheduleServices(devices: seq<Device>, table: MaintenanceTable, req: CreateRequest,
                                                    now: int)
    returns (reply: Reply)
    modifies table
    ensures var found := DeviceById(devices, req.deviceId);
      && (found.Raised? ==> reply == Failure("创建维护排期失败") && Unchanged(table, old(table.rows), old(table.nextId)))
      && (found.NoRow? ==> reply == Failure("设备不存在") && Unchanged(table, old(table.rows), old(table.nextId)))
      && (found.Found? && CorrectedCreatedFields(req, found.row, now).Keys <= table.columns ==>
            reply == Success("创建维护排期成功", map["alertId" := Number(old(table.nextId))]) &&
            table.rows == old(table.rows) + [Schedule(old(table.nextId), CorrectedCreatedFields(req, found.row, now))] &&
            table.nextId == old(table.nextId) + 1)
      && (found.Found? && !(CorrectedCreatedFields(req, found.row, now).Keys <= table.columns) ==>
            reply == Failure("创建维护排期失败") && Unchanged(table, old(table.rows), old(table.nextId)))
    ensures table.columns == AlertInfoColumns ==> !reply.Success?
    ensures table.columns == CorrectedColumns && DeviceById(devices, req.deviceId).Found? ==> reply.Success?
    ensures old(table.Valid()) ==> table.Valid()
  {
    var found := DeviceById(devices, req.deviceId);
    if found.Raised? {
      return Failure("创建维护排期失败");
    }
    if found.NoRow? {
      return Failure("设备不存在");
    }
    var device := found.row;
    var person := ChosenPerson(req.responsiblePerson, OwnerOf(device));
    var date := ChosenDate(req, now);
    var created := table.CorrectedCreateMaintenanceSchedule(req.deviceId, req.componentType, req.componentName,
                                                           req.urgencyLevel, person, req.description, Some(date), now);
    if created.None? {
      return Failure("创建维护排期失败");
    }
    reply := Success("创建维护排期成功", map["alertId" := Number(created.value.alertId)]);
  }

  // ---------------------------------------------------------------- update

  /** The fields `update_maintenance_schedule_services` reads from its request. */
  datatype UpdateRequest = UpdateRequest(alertId: int, deviceId: Option<int>, componentType: Option<string>,
                                         componentName: Option<string>, urgencyLevel: Option<string>,
                                         scheduledDate: Option<int>, responsiblePerson: Option<string>,
                                         description: Option<string>, status: Option<string>)

  predicate IdTruthy(v: Option<int>) {
    v.Some? && v.value != 0
  }

  /** A device change without a person adopts the new device's truthy owner. */
  function UpdatePerson(req: UpdateRequest, device: Option<Device>): Option<string> {
    if IdTruthy(req.deviceId) && device.Some? && NonEmptyText(OwnerOf(device.value)) && !Present(req.responsiblePerson)
    then Some(OwnerOf(device.value).s)
    else req.responsiblePerson
  }

  /** The keys an update can carry. */
  const UpdateKeys: set<string> := {"device_id", "component_type", "component_name", "urgency_level", "resolved_time",
                                    "resolution_note", "alert_message", "alert_status"}

  /** The value the update dictionary holds under a key, when the input for it is truthy. */
  function UpdateValue(req: UpdateRequest, device: Option<Device>, k: string): Option<Cell> {
    var person := UpdatePerson(req, device);
    if k == "device_id" then (if IdTruthy(req.deviceId) then Some(Number(req.deviceId.value)) else None)
    else if k == "component_type" then (if Present(req.componentType) then Some(Text(req.componentType.value)) else None)
    else if k == "component_name" then (if Present(req.componentName) then Some(Text(req.componentName.value)) else None)
    else if k == "urgency_level" then (if Present(req.urgencyLevel) then Some(Text(req.urgencyLevel.value)) else None)
    else if k == "resolved_time" then (if req.scheduledDate.Some? then Some(Number(req.scheduledDate.value)) else None)
    else if k == "resolution_note" then
      (if Present(person) then Some(Text(ResolutionNote(person.value, if Present(req.description) then req.description else None)))
       else None)
    else if k == "alert_message" then
      (if !Present(person) && Present(req.description) then Some(Text(req.description.value)) else None)
    else if k == "alert_status" then (if Present(req.status) then Some(Text(req.status.value)) else None)
    else None
  }

  /**
   * The update dictionary: only truthy inputs become fields; the date is
   * stored as `resolved_time` and the status as `alert_status`; a person
   * makes the note (with the description line when there is one), and
   * without a person the description becomes the message.
   */
  function UpdateFields(req: UpdateRequest, device: Option<Device>): (f: Record)
    ensures f.Keys <= UpdateKeys
    ensures forall k :: k in f ==> f[k] != SqlNull
    ensures "device_id" in f <==> IdTruthy(req.deviceId)
    ensures "component_type" in f <==> Present(req.componentType)
    ensures "component_name" in f <==> Present(req.componentName)
    ensures "urgency_level" in f <==> Present(req.urgencyLevel)
    ensures "resolved_time" in f <==> req.scheduledDate.Some?
    ensures "alert_status" in f <==> Present(req.status)
    ensures "resolution_note" in f <==> Present(UpdatePerson(req, device))
    ensures "alert_message" in f <==> !Present(UpdatePerson(req, device)) && Present(req.description)
    ensures "resolved_time" in f ==> f["resolved_time"] == Number(req.scheduledDate.value)
    ensures "alert_status" in f ==> f["alert_status"] == Text(req.status.value)
    ensures "alert_message" in f ==> f["alert_message"] == Text(req.description.value)
    ensures "resolution_note" in f ==>
      f["resolution_note"] == Text(ResolutionNote(UpdatePerson(req, device).value,
                                                  if Present(req.description) then req.description else None))
  {
    map k | k in UpdateKeys && UpdateValue(req, device, k).Some? :: UpdateValue(req, device, k).value
  }

  /** The note an update writes names its person, whatever description follows. */
  lemma UpdateNoteNamesPerson(req: UpdateRequest, device: Option<Device>)
    requires Present(UpdatePerson(req, device))
    requires !Contains(UpdatePerson(req, device).value, Marker) && !Contains(UpdatePerson(req, device).value, "\n")
    ensures var f := UpdateFields(req, device);
      ExtractResponsiblePerson(Some(f["resolution_note"].s)) == Some(Strip(UpdatePerson(req, device).value))
  {
    ExtractAfterNote(UpdatePerson(req, device).value, if Present(req.description) then req.description else None);
  }

  /** A column the class lacks never changes through an update. */
  lemma UpdatedKeepsMissingColumn(s: Schedule, kwargs: Record, columns: set<string>, now: int, k: string)
    requires k !in columns && k != "update_time"
    ensures ColumnOf(Updated(s, kwargs, columns, now).columns, k) == ColumnOf(s.columns, k)
  {
  }

  /** The device an update refers to, when it names one. */
  function UpdateDevice(devices: seq<Device>, req: UpdateRequest): Option<Lookup<Device>> {
    if IdTruthy(req.deviceId) then Some(DeviceById(devices, req.deviceId.value)) else None
  }

  /**
   * `update_maintenance_schedule_services`: a named device must exist;
   * then the DAO writes the update dictionary onto the row, and an unknown
   * row is reported. With the class as declared the urgency never changes.
   */
  method UpdateMaintenanceScheduleServices(devices: seq<Device>, table: MaintenanceTable, req: UpdateRequest, now: int)
    returns (reply: Reply)
    requires table.Valid()
    modifies table
    ensures table.Valid() && table.nextId == old(table.nextId)
    ensures var lookup := UpdateDevice(devices, req);
      && (lookup == Some(Raised) ==> reply == Failure("更新维护排期失败") && table.rows == old(table.rows))
      && (lookup == Some(NoRow) ==> reply == Failure("设备不存在") && table.rows == old(table.rows))
      && (lookup.None? || lookup.value.Found? ==>
            var device := if lookup.Some? then Some(lookup.value.row) else None;
            && table.rows == UpdatedRows(old(table.rows), {req.alertId}, UpdateFields(req, device), table.columns, now)
            && reply == if HasKey(old(table.rows), req.alertId) then Success("更新维护排期成功", map[])
                        else Failure("维护排期不存在或更新失败"))
    ensures "urgency_level" !in table.columns ==>
      |table.rows| == |old(table.rows)| &&
      forall k :: 0 <= k < |table.rows| ==> UrgencyOf(table.rows[k]) == UrgencyOf(old(table.rows)[k])
  {
    var device: Option<Device> := None;
    if IdTruthy(req.deviceId) {
      var found := DeviceById(devices, req.deviceId.value);
      if found.Raised? {
        return Failure("更新维护排期失败");
      }
      if found.NoRow? {
        return Failure("设备不存在");
      }
      device := Some(found.row);
    }
    ghost var before := table.rows;
    var ok := table.UpdateMaintenanceSchedule(req.alertId, UpdateFields(req, device), now);
    reply := if ok then Success("更新维护排期成功", map[]) else Failure("维护排期不存在或更新失败");
    if "urgency_level" !in table.columns {
      forall k | 0 <= k < |table.rows|
        ensures UrgencyOf(table.rows[k]) == UrgencyOf(before[k])
      {
        UpdatedKeepsMissingColumn(before[k], UpdateFields(req, device), table.columns, now, "urgency_level");
      }
    }
  }

  // ---------------------------------------------------------------- delete

  /** `delete_maintenance_schedule_services`: the DAO's verdict as a reply. */
  method DeleteMaintenanceScheduleServices(table: MaintenanceTable, alertId: int) returns (reply: Reply)
    requires table.Valid()
    modifies table
    ensures table.Valid() && table.nextId == old(table.nextId)
    ensures reply == if HasKey(old(table.rows), alertId) then Success("删除维护排期成功", map[])
                     else Failure("维护排期不存在或删除失败")
    ensures forall s :: s in table.rows <==> s in old(table.rows) && s.alertId != alertId
  {
    var ok := table.DeleteMaintenanceSchedule(alertId);
    reply := if ok then Success("删除维护排期成功", map[]) else Failure("维护排期不存在或删除失败");
  }

  // ---------------------------------------------------------------- statistics

  /**
   * `get_maintenance_statistics_services`: the DAO's figures, or all zeros
   * when it raises, which the class as declared always makes it do.
   */
  function MaintenanceStatisticsServices(rows: seq<Schedule>, columns: set<string>, now: int): (s: Statistics)
    ensures s.total == s.pending + s.inProgress + s.completed
    ensures s.immediate + s.urgent + s.scheduled <= s.total
    ensures s.overdue <= s.pending + s.inProgress
    ensures "urgency_level" in columns ==> s.total == CountIn(rows, CountedStatuses) && s.overdue == CountOverdue(rows, now)
    ensures columns == AlertInfoColumns ==> s == Statistics(0, 0, 0, 0, 0, 0, 0, 0)
  {
    match MaintenanceStatistics(rows, columns, now)
    case Some(stats) => stats
    case None => Statistics(0, 0, 0, 0, 0, 0, 0, 0)
  }

  // ---------------------------------------------------------------- the calendar month

  /**
   * The month bounds `get_maintenance_calendar_services` computes: midnight
   * at the first day, and the first of the next month minus one day.
   * `datetime` refuses a month outside 1..12 and a year outside 1..9999
   * (None, caught as an empty calendar), December 9999 included.
   */
  function MonthBounds(year: int, month: int): (r: Option<(int, int)>)
    ensures r.None? <==> !(1 <= year <= 9999 && 1 <= month <= 12) || (year == 9999 && month == 12)
    ensures r.Some? ==> r.value.0 == Midnight(year, month, 1) &&
                        r.value.1 == Midnight(year, month, DaysInMonth(year, month))
  {
    if !(1 <= year <= 9999 && 1 <= month <= 12) then None
    else if month == 12 then
      if year + 1 > 9999 then None
      else
        NextMonthFollows(year, month);
        Some((Midnight(year, 12, 1), Midnight(year + 1, 1, 1) - SecondsPerDay))
    else
      NextMonthFollows(year, month);
      Some((Midnight(year, month, 1), Midnight(year, month + 1, 1) - SecondsPerDay))
  }

  /** The bounds as intended: the end is the last second of the month's last day. */
  function CorrectedMonthBounds(year: int, month: int): (r: Option<(int, int)>)
    ensures r.None? <==> MonthBounds(year, month).None?
  {
    match MonthBounds(year, month)
    case None => None
    case Some((start, end)) => Some((start, end + SecondsPerDay - 1))
  }

  /** Seconds within the corrected bounds are exactly those falling on a day of the month. */
  lemma CorrectedBoundsCoverMonth(year: int, month: int, t: int)
    requires CorrectedMonthBounds(year, month).Some?
    ensures var (start, end) := CorrectedMonthBounds(year, month).value;
      start <= t <= end <==>
        Ordinal(year, month, 1) <= DayOf(t) + EpochOrdinal <= Ordinal(year, month, DaysInMonth(year, month))
  {
    var first := Ordinal(year, month, 1) - EpochOrdinal;
    var last := Ordinal(year, month, DaysInMonth(year, month)) - EpochOrdinal;
    var d := DayOf(t);
    assert d * SecondsPerDay <= t < d * SecondsPerDay + SecondsPerDay;
    if first <= d {
      assert first * SecondsPerDay <= d * SecondsPerDay;
    } else {
      assert d * SecondsPerDay + SecondsPerDay <= first * SecondsPerDay;
    }
    if d <= last {
      assert d * SecondsPerDay <= last * SecondsPerDay;
    } else {
      assert (last + 1) * SecondsPerDay <= d * SecondsPerDay;
    }
  }

  /**
   * The bounds as written leave out all of the month's last day but its
   * first second: 02:00 on that day, the Saturday slot, falls outside.
   */
  lemma LastDayMissed(year: int, month: int)
    requires MonthBounds(year, month).Some?
    ensures var (start, end) := MonthBounds(year, month).value;
      && DayOf(end + WindowOpens) + EpochOrdinal == Ordinal(year, month, DaysInMonth(year, month))
      && !(start <= end + WindowOpens <= end)
  {
  }

  /**
   * `get_maintenance_calendar_services`: invalid months and a raising DAO
   * give an empty calendar; otherwise the DAO's calendar between the bounds.
   */
  method MaintenanceCalendarServices(table: MaintenanceTable, ordered: seq<Schedule>, hostnames: map<int, string>,
                                     year: int, month: int) returns (r: seq<DayBucket>)
    requires InDateOrder(ordered, table.rows)
    ensures r == match MonthBounds(year, month)
      case None => []
      case Some((start, end)) =>
        var selected := CalendarRows(ordered, start, end);
        if "urgency_level" !in table.columns && selected != [] then [] else Calendar(selected, hostnames)
  {
    var bounds := MonthBounds(year, month);
    if bounds.None? {
      return [];
    }
    var data := table.GetCalendarData(ordered, hostnames, bounds.value.0, bounds.value.1);
    r := if data.Some? then data.value else [];
  }

  /** The calendar with the corrected bounds: every schedule dated within the month is listed. */
  method CorrectedMaintenanceCalendarServices(table: MaintenanceTable, ordered: seq<Schedule>, hostnames: map<int, string>,
                                              year: int, month: int) returns (r: seq<DayBucket>)
    requires InDateOrder(ordered, table.rows)
    ensures r == match CorrectedMonthBounds(year, month)
      case None => []
      case Some((start, end)) =>
        var selected := CalendarRows(ordered, start, end);
        if "urgency_level" !in table.columns && selected != [] then [] else Calendar(selected, hostnames)
  {
    var bounds := CorrectedMonthBounds(year, month);
    if bounds.None? {
      return [];
    }
    var data := table.GetCalendarData(ordered, hostnames, bounds.value.0, bounds.value.1);
    r := if data.Some? then data.value else [];
  }

  // ---------------------------------------------------------------- batch update

  /** The keywords `batch_update_schedules_services` passes: request names, none of them a column. */
  function BatchFields(person: Option<string>, date: Option<int>, status: Option<string>): (f: Record)
    ensures f.Keys <= {"responsible_person", "scheduled_date", "status"}
  {
    var keys := (if Present(person) then {"responsible_person"} else {}) + (if date.Some? then {"scheduled_date"} else {}) +
                (if Present(status) then {"status"} else {});
    map k | k in keys :: if k == "responsible_person" then Text(person.value)
                         else if k == "scheduled_date" then Number(date.value)
                         else Text(status.value)
  }

  /** The keywords as the single update maps them: the note, `resolved_time` and `alert_status`. */
  function CorrectedBatchFields(person: Option<string>, date: Option<int>, status: Option<string>): (f: Record)
    ensures "resolution_note" in f <==> Present(person)
    ensures "resolved_time" in f <==> date.Some?
    ensures "alert_status" in f <==> Present(status)
    ensures "resolution_note" in f ==> f["resolution_note"] == Text(ResolutionNote(person.value, None))
    ensures "resolved_time" in f ==> f["resolved_time"] == Number(date.value)
    ensures "alert_status" in f ==> f["alert_status"] == Text(status.value)
  {
    var keys := (if Present(person) then {"resolution_note"} else {}) + (if date.Some? then {"resolved_time"} else {}) +
                (if Present(status) then {"alert_status"} else {});
    map k | k in keys :: if k == "resolution_note" then Text(ResolutionNote(person.value, None))
                         else if k == "resolved_time" then Number(date.value)
                         else Text(status.value)
  }

  /** As written, a batch update changes nothing on a row but its update time. */
  lemma BatchTouchesOnlyUpdateTime(s: Schedule, person: Option<string>, date: Option<int>, status: Option<string>,
                                   columns: set<string>, now: int)
    requires columns <= CorrectedColumns
    ensures Updated(s, BatchFields(person, date, status), columns, now) ==
            Schedule(s.alertId, s.columns["update_time" := Number(now)])
  {
    var f := BatchFields(person, date, status);
    assert forall k :: k in f ==> k !in columns;
    assert Settable(f, columns) == map[];
    assert s.columns + map[] == s.columns;
  }

  /** With the mapped keywords, a batch update writes the status, the date and the person's note. */
  lemma CorrectedBatchApplies(s: Schedule, person: Option<string>, date: Option<int>, status: Option<string>,
                              columns: set<string>, now: int)
    requires {"resolution_note", "resolved_time", "alert_status"} <= columns
    ensures var u := Updated(s, CorrectedBatchFields(person, date, status), columns, now);
      && StatusOf(u) == (if Present(status) then Text(status.value) else StatusOf(s))
      && ResolvedTime(u) == (if date.Some? then date else ResolvedTime(s))
      && (Present(person) && !Contains(person.value, Marker) && !Contains(person.value, "\n") ==>
            ExtractResponsiblePerson(NoteOf(u)) == Some(Strip(person.value)))
  {
    var f := CorrectedBatchFields(person, date, status);
    UpdatedColumn(s, f, columns, now, "alert_status");
    UpdatedColumn(s, f, columns, now, "resolved_time");
    UpdatedColumn(s, f, columns, now, "resolution_note");
    if Present(person) && !Contains(person.value, Marker) && !Contains(person.value, "\n") {
      ExtractAfterNote(person.value, None);
    }
  }

  function BatchMessage(count: int, total: int): string {
    "批量更新成功：" + IntToString(count) + "/" + IntToString(total) + "条"
  }

  /** The batch update through the DAO, with the keywords given. */
  method UpdateBatch(table: MaintenanceTable, alertIds: seq<int>, fields: Record, now: int) returns (reply: Reply)
    requires table.Valid()
    modifies table
    ensures table.Valid() && table.nextId == old(table.nextId)
    ensures table.rows == UpdatedRows(old(table.rows), IdSet(alertIds), fields, table.columns, now)
    ensures var count := KnownCount(old(table.rows), alertIds);
      reply == Success(BatchMessage(count, |alertIds|), map["successCount" := Number(count), "totalCount" := Number(|alertIds|)])
  {
    var count := table.BatchUpdateSchedules(alertIds, fields, now);
    reply := Success(BatchMessage(count, |alertIds|), map["successCount" := Number(count), "totalCount" := Number(|alertIds|)]);
  }

  /**
   * `batch_update_schedules_services`: every known listed row counts as a
   * success, so the success count reaches the total exactly when every id
   * is known, yet only the update time changes.
   */
  method BatchUpdateSchedulesServices(table: MaintenanceTable, alertIds: seq<int>, person: Option<string>, date: Option<int>,
                                      status: Option<string>, now: int) returns (reply: Reply)
    requires table.Valid()
    modifies table
    ensures table.Valid() && table.nextId == old(table.nextId)
    ensures table.rows == UpdatedRows(old(table.rows), IdSet(alertIds), BatchFields(person, date, status), table.columns, now)
    ensures var count := KnownCount(old(table.rows), alertIds);
      && reply == Success(BatchMessage(count, |alertIds|), map["successCount" := Number(count), "totalCount" := Number(|alertIds|)])
      && (count == |alertIds| <==> forall id :: id in alertIds ==> HasKey(old(table.rows), id))
  {
    KnownCountAll(table.rows, alertIds);
    reply := UpdateBatch(table, alertIds, BatchFields(person, date, status), now);
  }

  /** The batch update with the mapped keywords. */
  method CorrectedBatchUpdateSchedulesServices(table: MaintenanceTable, alertIds: seq<int>, person: Option<string>,
                                               date: Option<int>, status: Option<string>, now: int) returns (reply: Reply)
    requires table.Valid()
    modifies table
    ensures table.Valid() && table.nextId == old(table.nextId)
    ensures table.rows == UpdatedRows(old(table.rows), IdSet(alertIds), CorrectedBatchFields(person, date, status), table.columns, now)
    ensures var count := KnownCount(old(table.rows), alertIds);
      && reply == Success(BatchMessage(count, |alertIds|), map["successCount" := Number(count), "totalCount" := Number(|alertIds|)])
      && (count == |alertIds| <==> forall id :: id in alertIds ==> HasKey(old(table.rows), id))
  {
    KnownCountAll(table.rows, alertIds);
    reply := UpdateBatch(table, alertIds, CorrectedBatchFields(person, date, status), now);
  }

  // ---------------------------------------------------------------- automatic schedule

  /** `get_maintenance_schedule_by_id`: the row holding the key. */
  function ScheduleById(rows: seq<Schedule>, alertId: int): (r: Option<Schedule>)
    ensures r.Some? <==> HasKey(rows, alertId)
    ensures r.Some? ==> r.value in rows && r.value.alertId == alertId
  {
    if rows == [] then None
    else if rows[0].alertId == alertId then Some(rows[0])
    else
      var rest := ScheduleById(rows[1..], alertId);
      assert HasKey(rows, alertId) <==> HasKey(rows[1..], alertId) by {
        if HasKey(rows, alertId) {
          var i :| 0 <= i < |rows| && rows[i].alertId == alertId;
          assert rows[1..][i - 1] == rows[i];
        }
        if HasKey(rows[1..], alertId) {
          var i :| 0 <= i < |rows[1..]| && rows[1..][i].alertId == alertId;
          assert rows[i + 1] == rows[1..][i];
        }
      }
      rest
  }

  /** The level a rule lookup decides: the rule's, else 'scheduled'; a NULL level is no known level. */
  function AutoUrgency(lookup: Lookup<Rule>): string {
    if lookup.Found? then (if UrgencyLevel(lookup.row).Text? then UrgencyLevel(lookup.row).s else "") else "scheduled"
  }

  /** The fields the automatic schedule writes. */
  function AutoFields(device: Device, urgency: string, now: int): Record {
    map["alert_status" := Text("scheduled"),
        "resolved_time" := Number(ScheduledDate(urgency, now)),
        "resolution_note" := Text(ResolutionNote(if NonEmptyText(OwnerOf(device)) then OwnerOf(device).s else "系统自动分配", None))]
  }

  /** Without a matching active rule the automatic schedule takes the Saturday 02:00 slot. */
  lemma AutoDefaultIsSaturday(lookup: Lookup<Rule>, now: int)
    requires !lookup.Found?
    ensures var t := ScheduledDate(AutoUrgency(lookup), now);
      Weekday(t) == Saturday && t % SecondsPerDay == WindowOpens && 0 <= DayOf(t) - DayOf(now) <= 7
  {
  }

  /**
   * `auto_create_schedule_from_alert_services`: only a stored alert that is
   * not already a maintenance schedule and has a device qualifies; it is
   * then marked scheduled at the date its rule's urgency calls for, with the
   * device owner (or the system) as responsible person.
   */
  method AutoCreateScheduleFromAlertServices(table: MaintenanceTable, devices: seq<Device>, rules: seq<Rule>,
                                             alertId: int, now: int) returns (reply: Reply)
    requires table.Valid()
    modifies table
    ensures table.Valid() && table.nextId == old(table.nextId)
    ensures var alert := ScheduleById(old(table.rows), alertId);
      && (alert.None? || (alert.Some? && ColumnOf(alert.value.columns, "alert_source") == Text("maintenance")) ==>
            reply == Failure("告警不存在或已是维护排期") && table.rows == old(table.rows))
      && (alert.Some? && ColumnOf(alert.value.columns, "alert_source") != Text("maintenance") ==>
            var device := match ColumnOf(alert.value.columns, "device_id")
                          case Number(d) => DeviceById(devices, d)
                          case _ => NoRow;
            && (device.NoRow? ==> reply == Failure("设备信息不存在") && table.rows == old(table.rows))
            && (device.Raised? ==> reply == Failure("自动创建排期失败") && table.rows == old(table.rows))
            && (device.Found? ==>
                  var lookup := ActiveRuleFor(rules, ColumnOf(device.row.columns, "business_type"),
                                        ColumnOf(alert.value.columns, "component_type"));
                  && (lookup.Raised? ==> reply == Failure("自动创建排期失败") && table.rows == old(table.rows))
                  && (!lookup.Raised? ==>
                        reply == Success("自动创建排期成功", map[]) &&
                        table.rows == UpdatedRows(old(table.rows), {alertId},
                                                  AutoFields(device.row, AutoUrgency(lookup), now), table.columns, now))))
  {
    var alert := ScheduleById(table.rows, alertId);
    if alert.None? || ColumnOf(alert.value.columns, "alert_source") == Text("maintenance") {
      return Failure("告警不存在或已是维护排期");
    }
    var device := match ColumnOf(alert.value.columns, "device_id")
                  case Number(d) => DeviceById(devices, d)
                  case _ => NoRow;
    if device.NoRow? {
      return Failure("设备信息不存在");
    }
    if device.Raised? {
      return Failure("自动创建排期失败");
    }
    var lookup := ActiveRuleFor(rules, ColumnOf(device.row.columns, "business_type"), ColumnOf(alert.value.columns, "component_type"));
    if lookup.Raised? {
      return Failure("自动创建排期失败");
    }
    var ok := table.UpdateMaintenanceSchedule(alertId, AutoFields(device.row, AutoUrgency(lookup), now), now);
    reply := if ok then Success("自动创建排期成功", map[]) else Failure("创建排期失败");
  }
}
