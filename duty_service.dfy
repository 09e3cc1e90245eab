/**
 * The duty roster service: the person and schedule views with their code
 * labels, the name-uniqueness guards on persons, the person/status/conflict
 * guards on schedules, the future-schedule guard on deleting persons, the
 * month calendar grouped by day, and the current primary and backup duty.
 */
module DutyService {
  import opened Basics
  import opened Records
  import opened Dates
  import opened DutyDao

  /** A read-only service's answer: the data, an error message, or an exception re-raised. */
  datatype Answer<T> = Answered(data: T) | Refused(msg: string) | Thrown

  // ---------------------------------------------------------------- labels

  /** `{"1": "正常", "0": "停用"}.get(status, "未知")`. */
  function StatusLabel(status: Option<string>): (text: string)
    ensures text == "正常" <==> status == Some("1")
    ensures text == "停用" <==> status == Some("0")
    ensures text == "未知" <==> status != Some("1") && status != Some("0")
  {
    if status == Some("1") then "正常" else if status == Some("0") then "停用" else "未知"
  }

  /** The duty type names; any other code reads "未知". */
  function DutyTypeLabel(dutyType: string): (text: string)
    ensures text == "主值班" <==> dutyType == "primary"
    ensures text == "备值班" <==> dutyType == "backup"
    ensures text == "应急值班" <==> dutyType == "emergency"
    ensures text == "未知" <==> dutyType !in {"primary", "backup", "emergency"}
  {
    if dutyType == "primary" then "主值班"
    else if dutyType == "backup" then "备值班"
    else if dutyType == "emergency" then "应急值班"
    else "未知"
  }

  /** The shift names; any other code reads "未知". */
  function ShiftLabel(shiftType: string): (text: string)
    ensures text == "白班" <==> shiftType == "day"
    ensures text == "夜班" <==> shiftType == "night"
    ensures text == "全天" <==> shiftType == "all"
    ensures text == "未知" <==> shiftType !in {"day", "night", "all"}
  {
    if shiftType == "day" then "白班" else if shiftType == "night" then "夜班" else if shiftType == "all" then "全天" else "未知"
  }

  // ---------------------------------------------------------------- persons

  /** `DutyPersonModel`: the row with its status label. */
  datatype PersonView = PersonView(personId: int, fields: PersonFields, statusDict: string, createTime: int, updateTime: int)

  /** `DutyPersonQueryModel`: the unpaged list's columns. */
  datatype PersonBrief = PersonBrief(personId: int, personName: string, department: Option<string>, position: Option<string>,
                                     phone: Option<string>, email: Option<string>, status: Option<string>)

  function ViewOfPerson(p: Person): PersonView {
    PersonView(p.personId, p.fields, StatusLabel(p.fields.status), p.createTime, p.updateTime)
  }

  function BriefOfPerson(p: Person): PersonBrief {
    PersonBrief(p.personId, p.fields.personName, p.fields.department, p.fields.position, p.fields.phone, p.fields.email,
                p.fields.status)
  }

  /** A paged list (`PageResponseModel`) or the plain rows. */
  datatype PersonListing = PersonPage(rows: seq<PersonView>, total: nat) | PersonRows(persons: seq<PersonBrief>)

  /**
   * `get_duty_person_list_service`: the page of matching persons as views
   * with the full match count, or every matching person in brief.
   */
  function GetDutyPersonListService(ordered: seq<Person>, q: PersonQuery, isPage: bool): (r: Answer<PersonListing>)
    ensures r.Thrown? <==> isPage && (q.pageNum < 0 || q.pageSize < 0)
    ensures r.Answered? && isPage ==> r.data.PersonPage? && r.data.total == |MatchingPersons(ordered, q)|
    ensures r.Answered? && isPage ==> forall k :: 0 <= k < |r.data.rows| ==>
      q.pageNum + k < |MatchingPersons(ordered, q)| && r.data.rows[k] == ViewOfPerson(MatchingPersons(ordered, q)[q.pageNum + k])
    ensures !isPage ==> r.Answered? && r.data.PersonRows? && |r.data.persons| == |MatchingPersons(ordered, q)|
    ensures !isPage ==> forall k :: 0 <= k < |r.data.persons| ==> r.data.persons[k] == BriefOfPerson(MatchingPersons(ordered, q)[k])
  {
    match GetDutyPersonList(ordered, q, isPage)
    case None => Thrown
    case Some(listing) =>
      if isPage then Answered(PersonPage(seq(|listing.rows|, k requires 0 <= k < |listing.rows| => ViewOfPerson(listing.rows[k])), listing.total))
      else Answered(PersonRows(seq(|listing.rows|, k requires 0 <= k < |listing.rows| => BriefOfPerson(listing.rows[k]))))
  }

  /** `get_duty_person_detail_service`. */
  function GetDutyPersonDetailService(persons: seq<Person>, personId: int): (r: Answer<PersonView>)
    ensures r == Refused("值班人员不存在") <==> forall x :: x in persons ==> x.personId != personId
    ensures r.Answered? ==> exists p :: p in persons && p.personId == personId && r.data == ViewOfPerson(p)
    ensures r.Thrown? ==> !PersonKeysUnique(persons)
    ensures !r.Answered? ==> r.Thrown? || r == Refused("值班人员不存在")
  {
    match PersonById(persons, personId)
    case Found(p) => Answered(ViewOfPerson(p))
    case NoRow => Refused("值班人员不存在")
    case Raised => Thrown
  }

  /** Two persons holding one name are the same person. */
  lemma NamedIsUnique(persons: seq<Person>, x: Person, y: Person)
    requires NamesUnique(persons) && x in persons && y in persons && x.fields.personName == y.fields.personName
    ensures x == y
  {
    var i :| 0 <= i < |persons| && persons[i] == x;
    var j :| 0 <= j < |persons| && persons[j] == y;
    assert !(i < j) && !(j < i);
  }

  /** Appending a person whose name nobody holds keeps the names unique. */
  lemma AddKeepsNamesUnique(persons: seq<Person>, p: Person)
    requires NamesUnique(persons)
    requires forall x :: x in persons ==> x.fields.personName != p.fields.personName
    ensures NamesUnique(persons + [p])
  {
    var r := persons + [p];
    forall i, j | 0 <= i < j < |r|
      ensures r[i].fields.personName != r[j].fields.personName
    {
      assert r[i] == persons[i];
      if j == |persons| {
        assert r[i] in persons;
      } else {
        assert r[j] == persons[j];
      }
    }
  }

  /** Renaming a person to a name nobody else holds keeps the names unique. */
  lemma EditKeepsNamesUnique(persons: seq<Person>, personId: int, fields: PersonFields, now: int)
    requires NamesUnique(persons) && PersonKeysUnique(persons)
    requires forall x :: x in persons && x.fields.personName == fields.personName ==> x.personId == personId
    ensures NamesUnique(PersonsEdited(persons, personId, fields, now))
  {
    var r := PersonsEdited(persons, personId, fields, now);
    forall i, j | 0 <= i < j < |r|
      ensures r[i].fields.personName != r[j].fields.personName
    {
      assert persons[i] in persons && persons[j] in persons;
      assert persons[i].personId != persons[j].personId;
    }
  }

  /**
   * `add_duty_person_service`: a name already stored is refused; otherwise
   * the person is added with the next key and that key returned.
   */
  method AddDutyPersonService(tables: DutyTables, fields: PersonFields, now: int) returns (reply: Reply)
    requires tables.Valid()
    modifies tables
    ensures tables.Valid()
    ensures tables.schedules == old(tables.schedules) && tables.nextScheduleId == old(tables.nextScheduleId)
    ensures match PersonByName(old(tables.persons), fields.personName)
      case Raised => reply == Propagated && tables.persons == old(tables.persons) && tables.nextPersonId == old(tables.nextPersonId)
      case Found(_) => reply == Failure("值班人员姓名已存在") && tables.persons == old(tables.persons) &&
                       tables.nextPersonId == old(tables.nextPersonId)
      case NoRow => reply == Success("值班人员添加成功", map["person_id" := Number(old(tables.nextPersonId))]) &&
                    tables.persons == old(tables.persons) + [Person(old(tables.nextPersonId), fields, now, now)] &&
                    tables.nextPersonId == old(tables.nextPersonId) + 1
    ensures old(NamesUnique(tables.persons)) ==> NamesUnique(tables.persons)
  {
    var existing := PersonByName(tables.persons, fields.personName);
    if existing.Raised? {
      return Propagated;
    }
    if existing.Found? {
      return Failure("值班人员姓名已存在");
    }
    ghost var before := tables.persons;
    var person := tables.AddDutyPerson(fields, now);
    if NamesUnique(before) {
      AddKeepsNamesUnique(before, person);
    }
    reply := Success("值班人员添加成功", map["person_id" := Number(person.personId)]);
  }

  /**
   * `edit_duty_person_service`: an unknown key is refused, then a name held
   * by a different person; otherwise the row takes the request's columns.
   */
  method EditDutyPersonService(tables: DutyTables, personId: int, fields: PersonFields, now: int) returns (reply: Reply)
    requires tables.Valid()
    modifies tables
    ensures tables.Valid()
    ensures tables.schedules == old(tables.schedules) && tables.nextScheduleId == old(tables.nextScheduleId)
    ensures tables.nextPersonId == old(tables.nextPersonId)
    ensures PersonById(old(tables.persons), personId).NoRow? ==>
      reply == Failure("值班人员不存在") && tables.persons == old(tables.persons)
    ensures PersonById(old(tables.persons), personId).Found? ==>
      match PersonByName(old(tables.persons), fields.personName)
      case Raised => reply == Propagated && tables.persons == old(tables.persons)
      case Found(other) =>
        if other.personId != personId then reply == Failure("值班人员姓名已存在") && tables.persons == old(tables.persons)
        else reply == Success("值班人员编辑成功", map[]) && tables.persons == PersonsEdited(old(tables.persons), personId, fields, now)
      case NoRow => reply == Success("值班人员编辑成功", map[]) && tables.persons == PersonsEdited(old(tables.persons), personId, fields, now)
    ensures old(NamesUnique(tables.persons)) ==> NamesUnique(tables.persons)
  {
    var existing := PersonById(tables.persons, personId);
    if existing.NoRow? {
      return Failure("值班人员不存在");
    }
    var sameName := PersonByName(tables.persons, fields.personName);
    if sameName.Raised? {
      return Propagated;
    }
    if sameName.Found? && sameName.row.personId != personId {
      return Failure("值班人员姓名已存在");
    }
    ghost var before := tables.persons;
    if NamesUnique(before) {
      forall x | x in before && x.fields.personName == fields.personName
        ensures x.personId == personId
      {
        NamedIsUnique(before, x, sameName.row);
      }
      EditKeepsNamesUnique(before, personId, fields, now);
    }
    var ok := tables.EditDutyPerson(personId, fields, now);
    reply := Success("值班人员编辑成功", map[]);
  }

  /** The person has a schedule dated from today to a year ahead, both included. */
  predicate HasFutureSchedule(schedules: seq<Schedule>, personId: int, today: int) {
    exists s :: s in schedules && today <= s.fields.dutyDate <= today + 365 && s.fields.personId == personId
  }

  /** The first listed person with a future schedule: the one the delete guard names. */
  function FirstBlocked(schedules: seq<Schedule>, personIds: seq<int>, today: int): (r: Option<nat>)
    ensures r.Some? ==> r.value < |personIds| && HasFutureSchedule(schedules, personIds[r.value], today)
    ensures r.Some? ==> forall j :: 0 <= j < r.value ==> !HasFutureSchedule(schedules, personIds[j], today)
    ensures r.None? <==> forall j :: 0 <= j < |personIds| ==> !HasFutureSchedule(schedules, personIds[j], today)
  {
    FirstWhere(personIds, pid => HasFutureSchedule(schedules, pid, today))
  }

  /** A blocked key with no blocked key before it is the one named. */
  lemma FirstBlockedIs(schedules: seq<Schedule>, personIds: seq<int>, today: int, i: nat)
    requires i < |personIds| && HasFutureSchedule(schedules, personIds[i], today)
    requires forall j :: 0 <= j < i ==> !HasFutureSchedule(schedules, personIds[j], today)
    ensures FirstBlocked(schedules, personIds, today) == Some(i)
  {
    var r := FirstBlocked(schedules, personIds, today);
    assert r.Some?;
    assert !(r.value < i);
  }

  lemma FirstBlockedNone(schedules: seq<Schedule>, personIds: seq<int>, today: int)
    requires forall j :: 0 <= j < |personIds| ==> !HasFutureSchedule(schedules, personIds[j], today)
    ensures FirstBlocked(schedules, personIds, today) == None
  {
  }

  /** The refusal naming the person, or "未知" for a key no row holds. */
  function BlockedMessage(persons: seq<Person>, personId: int): string {
    var name := match PersonById(persons, personId) case Found(p) => p.fields.personName case _ => "未知";
    "值班人员 " + name + " 存在未来的值班排期，无法删除"
  }

  /** Every schedule of the coming year has its person stored. */
  ghost predicate FutureStaffed(persons: seq<Person>, schedules: seq<Schedule>, today: int) {
    forall s :: s in schedules && today <= s.fields.dutyDate <= today + 365 ==> PersonOf(persons, s.fields.personId).Some?
  }

  /** Deleting persons none of whom has a future schedule leaves every future schedule staffed. */
  lemma DeleteKeepsFutureStaffed(persons: seq<Person>, schedules: seq<Schedule>, personIds: seq<int>, today: int)
    requires FutureStaffed(persons, schedules, today)
    requires forall j :: 0 <= j < |personIds| ==> !HasFutureSchedule(schedules, personIds[j], today)
    ensures FutureStaffed(PersonsWithout(persons, personIds), schedules, today)
  {
    forall s | s in schedules && today <= s.fields.dutyDate <= today + 365
      ensures PersonOf(PersonsWithout(persons, personIds), s.fields.personId).Some?
    {
      var x := PersonOf(persons, s.fields.personId).value;
      assert HasFutureSchedule(schedules, x.personId, today);
      assert x.personId !in personIds;
      assert x in PersonsWithout(persons, personIds);
    }
  }

  /** The person's schedules among the coming year's, as the guard's comprehension collects them. */
  function PersonFuture(schedules: seq<Schedule>, personId: int, today: int): (r: seq<Schedule>)
    ensures r != [] <==> HasFutureSchedule(schedules, personId, today)
  {
    var future := ScheduleByDateRange(schedules, today, today + 365);
    var mine := (s: Schedule) => s.fields.personId == personId;
    FilterSeqMembers(future, mine);
    var r := FilterSeq(future, mine);
    assert r != [] ==> r[0] in r;
    assert HasFutureSchedule(schedules, personId, today) ==> r != [] by {
      if HasFutureSchedule(schedules, personId, today) {
        var s :| s in schedules && today <= s.fields.dutyDate <= today + 365 && s.fields.personId == personId;
        assert s in future && mine(s);
      }
    }
    r
  }

  /**
   * `delete_duty_person_service`: the listed keys are checked in order; the
   * first with a schedule in the coming year stops the delete and is named,
   * and nothing is removed. Otherwise every listed person is removed.
   */
  method DeleteDutyPersonsService(tables: DutyTables, personIds: seq<int>, today: int) returns (reply: Reply)
    requires tables.Valid()
    modifies tables
    ensures tables.Valid()
    ensures tables.schedules == old(tables.schedules) && tables.nextScheduleId == old(tables.nextScheduleId)
    ensures tables.nextPersonId == old(tables.nextPersonId)
    ensures match FirstBlocked(old(tables.schedules), personIds, today)
      case Some(k) => reply == Failure(BlockedMessage(old(tables.persons), personIds[k])) && tables.persons == old(tables.persons)
      case None => reply == Success("值班人员删除成功", map[]) && tables.persons == PersonsWithout(old(tables.persons), personIds)
    ensures old(FutureStaffed(tables.persons, tables.schedules, today)) ==> FutureStaffed(tables.persons, tables.schedules, today)
    ensures old(NamesUnique(tables.persons)) ==> NamesUnique(tables.persons)
  {
    var blocked := FindBlocked(tables.schedules, personIds, today);
    if blocked.Some? {
      return Failure(BlockedMessage(tables.persons, personIds[blocked.value]));
    }
    if FutureStaffed(tables.persons, tables.schedules, today) {
      DeleteKeepsFutureStaffed(tables.persons, tables.schedules, personIds, today);
    }
    var ok := tables.DeleteDutyPersons(personIds);
    reply := Success("值班人员删除成功", map[]);
  }

  /** The guard's loop: each listed key in turn, stopping at the first with a schedule in the coming year. */
  method FindBlocked(schedules: seq<Schedule>, personIds: seq<int>, today: int) returns (blocked: Option<nat>)
    ensures blocked == FirstBlocked(schedules, personIds, today)
  {
    var i := 0;
    while i < |personIds|
      invariant 0 <= i <= |personIds|
      invariant forall j :: 0 <= j < i ==> !HasFutureSchedule(schedules, personIds[j], today)
    {
      var mine := PersonFuture(schedules, personIds[i], today);
      if mine != [] {
        FirstBlockedIs(schedules, personIds, today, i);
        return Some(i);
      }
      i := i + 1;
    }
    FirstBlockedNone(schedules, personIds, today);
    return None;
  }

  // ---------------------------------------------------------------- schedules

  /** `DutyScheduleModel`: the row with its person's name and department ("未知" without one) and the labels. */
  datatype ScheduleView = ScheduleView(scheduleId: int, personId: int, personName: string, department: Option<string>,
                                       dutyDate: int, dutyType: string, dutyTypeDict: string, shiftType: string,
                                       shiftTypeDict: string, createTime: int, updateTime: int, remarks: Option<string>)

  /** `DutyScheduleQueryModel`: the unpaged list's columns. */
  datatype ScheduleBrief = ScheduleBrief(scheduleId: int, personId: int, personName: string, dutyDate: int,
                                         dutyType: string, shiftType: string)

  function NameOf(person: Option<Person>): string {
    if person.Some? then person.value.fields.personName else "未知"
  }

  function ViewOfSchedule(s: Schedule, person: Option<Person>): ScheduleView {
    ScheduleView(s.scheduleId, s.fields.personId, NameOf(person),
                 if person.Some? then person.value.fields.department else Some("未知"),
                 s.fields.dutyDate, s.fields.dutyType, DutyTypeLabel(s.fields.dutyType), s.fields.shiftType,
                 ShiftLabel(s.fields.shiftType), s.createTime, s.updateTime, s.fields.remarks)
  }

  function BriefOfSchedule(s: Schedule, person: Option<Person>): ScheduleBrief {
    ScheduleBrief(s.scheduleId, s.fields.personId, NameOf(person), s.fields.dutyDate, s.fields.dutyType, s.fields.shiftType)
  }

  /**
   * `persons.get(person_id)` after the lookups by key: a found row, else
   * nothing. A lookup that raised also leaves nothing, so its schedule is
   * shown with the person name 未知 (unknown).
   */
  function Prefetched(persons: seq<Person>, personId: int): (r: Option<Person>)
    ensures PersonKeysUnique(persons) ==> r == PersonOf(persons, personId)
  {
    assert PersonKeysUnique(persons) ==>
      PersonById(persons, personId) == (if PersonOf(persons, personId).Some? then Found(PersonOf(persons, personId).value) else NoRow) by {
      if PersonKeysUnique(persons) {
        PersonOfIsLookup(persons, personId);
      }
    }
    match PersonById(persons, personId) case Found(p) => Some(p) case _ => None
  }

  /** Some listed schedule's person lookup raises. */
  predicate AnyLookupRaises(rows: seq<Schedule>, persons: seq<Person>) {
    exists k :: 0 <= k < |rows| && PersonById(persons, rows[k].fields.personId).Raised?
  }

  datatype ScheduleListing = SchedulePage(rows: seq<ScheduleView>, total: nat) | ScheduleRows(schedules: seq<ScheduleBrief>)

  /** A view of a schedule the join and the conditions keep, showing its person's own name when person keys are unique. */
  ghost predicate ListedView(ordered: seq<Schedule>, persons: seq<Person>, q: ScheduleQuery, v: ScheduleView) {
    exists s :: s in ordered && JoinedMatch(q, persons, s) && v.scheduleId == s.scheduleId &&
      (PersonKeysUnique(persons) ==> v.personName == PersonOf(persons, s.fields.personId).value.fields.personName)
  }

  lemma ViewsListed(ordered: seq<Schedule>, persons: seq<Person>, q: ScheduleQuery, rows: seq<Schedule>)
    requires forall k :: 0 <= k < |rows| ==> rows[k] in MatchingSchedules(ordered, persons, q)
    ensures forall k :: 0 <= k < |rows| ==>
      ListedView(ordered, persons, q, ViewOfSchedule(rows[k], Prefetched(persons, rows[k].fields.personId)))
  {
    forall k | 0 <= k < |rows|
      ensures ListedView(ordered, persons, q, ViewOfSchedule(rows[k], Prefetched(persons, rows[k].fields.personId)))
    {
      var s := rows[k];
      assert s in ordered && JoinedMatch(q, persons, s);
    }
  }

  /**
   * `get_duty_schedule_list_service`: the listed schedules as views. The
   * join keeps only schedules with a person, so with a primary key on
   * persons every listed schedule shows its person's own name.
   */
  function GetDutyScheduleListService(ordered: seq<Schedule>, persons: seq<Person>, q: ScheduleQuery, isPage: bool)
    : (r: Answer<ScheduleListing>)
    ensures PersonKeysUnique(persons) ==> (r.Thrown? <==> isPage && (q.pageNum < 0 || q.pageSize < 0))
    ensures r.Answered? ==> (isPage <==> r.data.SchedulePage?)
    ensures r.Answered? && isPage ==> r.data.total == |MatchingSchedules(ordered, persons, q)|
    ensures r.Answered? && isPage ==> forall k :: 0 <= k < |r.data.rows| ==> ListedView(ordered, persons, q, r.data.rows[k])
    ensures r.Answered? && !isPage ==> |r.data.schedules| == |MatchingSchedules(ordered, persons, q)|
  {
    match GetDutyScheduleList(ordered, persons, q, isPage)
    case None => Thrown
    case Some(listing) =>
      var rows := listing.rows;
      if AnyLookupRaises(rows, persons) then Thrown
      else if isPage then
        var views := seq(|rows|, k requires 0 <= k < |rows| => ViewOfSchedule(rows[k], Prefetched(persons, rows[k].fields.personId)));
        ViewsListed(ordered, persons, q, rows);
        Answered(SchedulePage(views, listing.total))
      else
        Answered(ScheduleRows(seq(|rows|, k requires 0 <= k < |rows| => BriefOfSchedule(rows[k], Prefetched(persons, rows[k].fields.personId)))))
  }

  /** `get_duty_schedule_detail_service`. */
  function GetDutyScheduleDetailService(schedules: seq<Schedule>, persons: seq<Person>, scheduleId: int)
    : (r: Answer<ScheduleView>)
    ensures r == Refused("值班排期不存在") <==> forall x :: x in schedules ==> x.scheduleId != scheduleId
    ensures r.Answered? ==> exists s :: (s in schedules && s.scheduleId == scheduleId &&
                                         r.data == ViewOfSchedule(s, PersonOf(persons, s.fields.personId)))
    ensures r.Answered? ==> (r.data.personName == "未知" <==> PersonOf(persons, r.data.personId).None? ||
                                                             PersonOf(persons, r.data.personId).value.fields.personName == "未知")
    ensures r.Thrown? ==> (!PersonKeysUnique(persons) ||
                           !(forall i, j :: 0 <= i < j < |schedules| ==> schedules[i].scheduleId != schedules[j].scheduleId))
  {
    match ScheduleById(schedules, scheduleId)
    case NoRow => Refused("值班排期不存在")
    case Raised => Thrown
    case Found(s) =>
      match PersonById(persons, s.fields.personId)
      case Raised => Thrown
      case Found(p) =>
        PersonOfIsLookupFound(persons, s.fields.personId);
        Answered(ViewOfSchedule(s, Some(p)))
      case NoRow => Answered(ViewOfSchedule(s, None))
  }

  /** A lookup that finds exactly one row finds the first row with that key. */
  lemma PersonOfIsLookupFound(persons: seq<Person>, personId: int)
    requires PersonById(persons, personId).Found?
    ensures PersonOf(persons, personId) == Some(PersonById(persons, personId).row)
  {
    var p := (x: Person) => x.personId == personId;
    var r := PersonById(persons, personId).row;
    var x := PersonOf(persons, personId).value;
    assert CountIf(persons, p) == 1;
    TwoMatches(persons, p, x, r);
  }

  /** Two different passing rows count twice. */
  lemma {:induction false} TwoMatches<T>(rows: seq<T>, p: T -> bool, x: T, y: T)
    requires x in rows && y in rows && p(x) && p(y)
    ensures x != y ==> CountIf(rows, p) >= 2
  {
    var rest := rows[1..];
    if x != y && rows[0] == x {
      assert y in rest;
      CountZero(rest, p);
    } else if x != y && rows[0] == y {
      assert x in rest;
      CountZero(rest, p);
    } else if x != y {
      assert x in rest && y in rest;
      TwoMatches(rest, p, x, y);
    }
  }

  /** Every schedule has its person stored. */
  ghost predicate Staffed(persons: seq<Person>, schedules: seq<Schedule>) {
    forall s :: s in schedules ==> PersonOf(persons, s.fields.personId).Some?
  }

  /**
   * The guards shared by adding and editing a schedule, None when they all
   * pass: the person must exist, be active, and hold no other schedule in
   * the same slot.
   */
  function ScheduleRefusal(persons: seq<Person>, schedules: seq<Schedule>, fields: ScheduleFields, exclude: Option<int>)
    : (r: Option<string>)
    requires PersonKeysUnique(persons)
    ensures r == Some("值班人员不存在") <==> PersonOf(persons, fields.personId).None?
    ensures r == Some("值班人员状态异常，无法安排值班") <==>
      PersonOf(persons, fields.personId).Some? && !Active(PersonOf(persons, fields.personId).value)
    ensures r == Some("该人员在此时间段已有值班安排") <==>
      PersonOf(persons, fields.personId).Some? && Active(PersonOf(persons, fields.personId).value) &&
      exists s :: s in schedules && SameSlot(s, fields.personId, fields.dutyDate, fields.shiftType) && !Excluded(exclude, s)
    ensures r.None? <==>
      PersonOf(persons, fields.personId).Some? && Active(PersonOf(persons, fields.personId).value) &&
      forall s :: s in schedules && SameSlot(s, fields.personId, fields.dutyDate, fields.shiftType) ==> Excluded(exclude, s)
  {
    PersonOfIsLookup(persons, fields.personId);
    match PersonById(persons, fields.personId)
    case Found(p) =>
      if p.fields.status != Some("1") then Some("值班人员状态异常，无法安排值班")
      else
        var conflicts := Conflicts(schedules, fields.personId, fields.dutyDate, fields.shiftType, exclude);
        if conflicts != [] then
          assert conflicts[0] in conflicts;
          Some("该人员在此时间段已有值班安排")
        else None
    case _ => Some("值班人员不存在")
  }

  /** Appending a schedule in a free slot keeps the slots unique. */
  lemma AddKeepsSlotsUnique(schedules: seq<Schedule>, s: Schedule)
    requires SlotsUnique(schedules)
    requires forall x :: x in schedules ==> !SameSlot(x, s.fields.personId, s.fields.dutyDate, s.fields.shiftType)
    ensures SlotsUnique(schedules + [s])
  {
    var r := schedules + [s];
    forall i, j | 0 <= i < j < |r|
      ensures !SameSlot(r[j], r[i].fields.personId, r[i].fields.dutyDate, r[i].fields.shiftType)
    {
      assert r[i] == schedules[i];
      if j == |schedules| {
        assert r[i] in schedules;
      } else {
        assert r[j] == schedules[j];
      }
    }
  }

  /** Moving a schedule to a slot no other schedule holds keeps the slots unique. */
  lemma EditKeepsSlotsUnique(schedules: seq<Schedule>, nextId: int, scheduleId: int, fields: ScheduleFields, now: int)
    requires ScheduleIdsValid(schedules, nextId) && SlotsUnique(schedules)
    requires forall x :: x in schedules && SameSlot(x, fields.personId, fields.dutyDate, fields.shiftType) ==> x.scheduleId == scheduleId
    ensures SlotsUnique(SchedulesEdited(schedules, scheduleId, fields, now))
    ensures ScheduleIdsValid(SchedulesEdited(schedules, scheduleId, fields, now), nextId)
  {
    var r := SchedulesEdited(schedules, scheduleId, fields, now);
    forall i, j | 0 <= i < j < |r|
      ensures !SameSlot(r[j], r[i].fields.personId, r[i].fields.dutyDate, r[i].fields.shiftType)
    {
      assert schedules[i] in schedules && schedules[j] in schedules;
      assert schedules[i].scheduleId != schedules[j].scheduleId;
    }
  }

  lemma AddKeepsStaffed(persons: seq<Person>, schedules: seq<Schedule>, s: Schedule)
    requires Staffed(persons, schedules) && PersonOf(persons, s.fields.personId).Some?
    ensures Staffed(persons, schedules + [s])
  {
  }

  lemma EditKeepsStaffed(persons: seq<Person>, schedules: seq<Schedule>, scheduleId: int, fields: ScheduleFields, now: int)
    requires Staffed(persons, schedules) && PersonOf(persons, fields.personId).Some?
    ensures Staffed(persons, SchedulesEdited(schedules, scheduleId, fields, now))
  {
    var r := SchedulesEdited(schedules, scheduleId, fields, now);
    forall s | s in r
      ensures PersonOf(persons, s.fields.personId).Some?
    {
      var k :| 0 <= k < |r| && r[k] == s;
      assert schedules[k] in schedules;
    }
  }

  /**
   * `add_duty_schedule_service`: the person, status and slot guards, then
   * the schedule is added with the next key and that key returned.
   */
  method AddDutyScheduleService(tables: DutyTables, fields: ScheduleFields, now: int) returns (reply: Reply)
    requires tables.Valid()
    modifies tables
    ensures tables.Valid()
    ensures tables.persons == old(tables.persons) && tables.nextPersonId == old(tables.nextPersonId)
    ensures var refusal := ScheduleRefusal(old(tables.persons), old(tables.schedules), fields, None);
      && (refusal.Some? ==> (reply == Failure(refusal.value) && tables.schedules == old(tables.schedules) &&
                             tables.nextScheduleId == old(tables.nextScheduleId)))
      && (refusal.None? ==>
            reply == Success("值班排期添加成功", map["schedule_id" := Number(old(tables.nextScheduleId))]) &&
            tables.schedules == old(tables.schedules) + [Schedule(old(tables.nextScheduleId), fields, now, now)] &&
            tables.nextScheduleId == old(tables.nextScheduleId) + 1)
    ensures old(SlotsUnique(tables.schedules)) ==> SlotsUnique(tables.schedules)
    ensures old(Staffed(tables.persons, tables.schedules)) ==> Staffed(tables.persons, tables.schedules)
  {
    var refusal := ScheduleRefusal(tables.persons, tables.schedules, fields, None);
    if refusal.Some? {
      return Failure(refusal.value);
    }
    ghost var before := tables.schedules;
    var schedule := tables.AddDutySchedule(fields, now);
    if SlotsUnique(before) {
      AddKeepsSlotsUnique(before, schedule);
    }
    if Staffed(tables.persons, before) {
      AddKeepsStaffed(tables.persons, before, schedule);
    }
    reply := Success("值班排期添加成功", map["schedule_id" := Number(schedule.scheduleId)]);
  }

  /**
   * `edit_duty_schedule_service`: an unknown schedule is refused, then the
   * add guards with the schedule itself left out of the slot check.
   */
  method EditDutyScheduleService(tables: DutyTables, scheduleId: int, fields: ScheduleFields, now: int) returns (reply: Reply)
    requires tables.Valid()
    modifies tables
    ensures tables.Valid()
    ensures tables.persons == old(tables.persons) && tables.nextPersonId == old(tables.nextPersonId)
    ensures tables.nextScheduleId == old(tables.nextScheduleId)
    ensures ScheduleById(old(tables.schedules), scheduleId).NoRow? ==>
      reply == Failure("值班排期不存在") && tables.schedules == old(tables.schedules)
    ensures ScheduleById(old(tables.schedules), scheduleId).Found? ==>
      var refusal := ScheduleRefusal(old(tables.persons), old(tables.schedules), fields, Some(scheduleId));
      && (refusal.Some? ==> reply == Failure(refusal.value) && tables.schedules == old(tables.schedules))
      && (refusal.None? ==> (reply == Success("值班排期编辑成功", map[]) &&
                             tables.schedules == SchedulesEdited(old(tables.schedules), scheduleId, fields, now)))
    ensures old(SlotsUnique(tables.schedules)) ==> SlotsUnique(tables.schedules)
    ensures old(Staffed(tables.persons, tables.schedules)) ==> Staffed(tables.persons, tables.schedules)
  {
    var existing := ScheduleById(tables.schedules, scheduleId);
    if existing.NoRow? {
      return Failure("值班排期不存在");
    }
    var refusal := ScheduleRefusal(tables.persons, tables.schedules, fields, Some(scheduleId));
    if refusal.Some? {
      return Failure(refusal.value);
    }
    ghost var before := tables.schedules;
    // the stored key is at least 1, so the exclusion applies
    assert existing.row in before;
    if SlotsUnique(before) {
      EditKeepsSlotsUnique(before, tables.nextScheduleId, scheduleId, fields, now);
    }
    if Staffed(tables.persons, before) {
      EditKeepsStaffed(tables.persons, before, scheduleId, fields, now);
    }
    var ok := tables.EditDutySchedule(scheduleId, fields, now);
    reply := Success("值班排期编辑成功", map[]);
  }

  /** `delete_duty_schedule_service`: every listed schedule goes. */
  method DeleteDutySchedulesService(tables: DutyTables, scheduleIds: seq<int>) returns (reply: Reply)
    requires tables.Valid()
    modifies tables
    ensures tables.Valid()
    ensures reply == Success("值班排期删除成功", map[])
    ensures tables.persons == old(tables.persons) && tables.nextPersonId == old(tables.nextPersonId)
    ensures tables.schedules == SchedulesWithout(old(tables.schedules), scheduleIds)
    ensures tables.nextScheduleId == old(tables.nextScheduleId)
    ensures old(SlotsUnique(tables.schedules)) ==> SlotsUnique(tables.schedules)
    ensures old(Staffed(tables.persons, tables.schedules)) ==> Staffed(tables.persons, tables.schedules)
  {
    var ok := tables.DeleteDutySchedules(scheduleIds);
    reply := Success("值班排期删除成功", map[]);
  }

  // ---------------------------------------------------------------- calendar

  /** One entry of a calendar day. */
  datatype CalendarItem = CalendarItem(scheduleId: int, personId: int, personName: string, department: Option<string>,
                                       dutyType: string, dutyTypeName: string, shiftType: string, shiftTypeName: string,
                                       remarks: Option<string>)

  function ItemOf(s: Schedule, persons: seq<Person>): (item: CalendarItem)
    ensures item.scheduleId == s.scheduleId
  {
    var person := Prefetched(persons, s.fields.personId);
    CalendarItem(s.scheduleId, s.fields.personId, NameOf(person),
                 if person.Some? then person.value.fields.department else Some("未知"),
                 s.fields.dutyType, DutyTypeLabel(s.fields.dutyType), s.fields.shiftType, ShiftLabel(s.fields.shiftType),
                 s.fields.remarks)
  }

  /** The entries of one day, in the order of the rows. */
  function DayItems(rows: seq<Schedule>, persons: seq<Person>, day: int): (r: seq<CalendarItem>)
    ensures |r| <= |rows|
    decreases |rows|
  {
    if rows == [] then []
    else
      var last := rows[|rows| - 1];
      var front := DayItems(rows[..|rows| - 1], persons, day);
      front + (if last.fields.dutyDate == day then [ItemOf(last, persons)] else [])
  }

  /** Every entry of a day comes from a row of that day. */
  lemma {:induction false} DayItemsFrom(rows: seq<Schedule>, persons: seq<Person>, day: int, k: nat)
    requires k < |DayItems(rows, persons, day)|
    ensures exists s :: s in rows && s.fields.dutyDate == day && DayItems(rows, persons, day)[k] == ItemOf(s, persons)
    decreases |rows|
  {
    var front := rows[..|rows| - 1];
    var last := rows[|rows| - 1];
    assert last in rows;
    if k < |DayItems(front, persons, day)| {
      DayItemsFrom(front, persons, day, k);
      var s :| s in front && s.fields.dutyDate == day && DayItems(front, persons, day)[k] == ItemOf(s, persons);
      assert s in rows;
    }
  }

  /** A row is filed under its own day. */
  lemma {:induction false} DayItemsHold(rows: seq<Schedule>, persons: seq<Person>, s: Schedule)
    requires s in rows
    ensures ItemOf(s, persons) in DayItems(rows, persons, s.fields.dutyDate)
    decreases |rows|
  {
    var front := rows[..|rows| - 1];
    if s != rows[|rows| - 1] {
      assert rows == front + [rows[|rows| - 1]];
      assert s in front;
      DayItemsHold(front, persons, s);
    }
  }

  function DaysIn(rows: seq<Schedule>): set<int> {
    set s | s in rows :: s.fields.dutyDate
  }

  /** The calendar dictionary: each day with a row, mapped to that day's entries. */
  function CalendarOf(rows: seq<Schedule>, persons: seq<Person>): map<int, seq<CalendarItem>> {
    map day | day in DaysIn(rows) :: DayItems(rows, persons, day)
  }

  /** One more row appends its entry to its day, opening the day if it has none. */
  lemma DutyCalendarStep(rows: seq<Schedule>, persons: seq<Person>, i: nat)
    requires i < |rows|
    ensures var c := CalendarOf(rows[..i], persons); var d := rows[i].fields.dutyDate;
      CalendarOf(rows[..i + 1], persons) == c[d := (if d in c then c[d] else []) + [ItemOf(rows[i], persons)]]
  {
    var c := CalendarOf(rows[..i], persons);
    var d := rows[i].fields.dutyDate;
    var front := rows[..i + 1][..i];
    assert front == rows[..i];
    assert DaysIn(rows[..i + 1]) == DaysIn(rows[..i]) + {d} by {
      assert rows[..i + 1] == rows[..i] + [rows[i]];
    }
    assert d !in c ==> DayItems(rows[..i], persons, d) == [] by {
      var r := DayItems(rows[..i], persons, d);
      if r != [] {
        DayItemsFrom(rows[..i], persons, d, 0);
      }
    }
    var lhs := CalendarOf(rows[..i + 1], persons);
    var rhs := c[d := (if d in c then c[d] else []) + [ItemOf(rows[i], persons)]];
    assert lhs.Keys == rhs.Keys;
    forall day | day in lhs
      ensures lhs[day] == rhs[day]
    {
      assert DayItems(rows[..i + 1], persons, day) ==
        DayItems(rows[..i], persons, day) + (if d == day then [ItemOf(rows[i], persons)] else []);
    }
    assert lhs == rhs;
  }

  /**
   * Every schedule of the month is filed under its own day and under no
   * other: with distinct keys its entry is found in a day's list exactly
   * when that day is its date.
   */
  lemma CalendarFilesOnce(rows: seq<Schedule>, persons: seq<Person>, s: Schedule, day: int)
    requires s in rows
    requires forall i, j :: 0 <= i < j < |rows| ==> rows[i].scheduleId != rows[j].scheduleId
    ensures var cal := CalendarOf(rows, persons); day in cal && ItemOf(s, persons) in cal[day] <==> day == s.fields.dutyDate
  {
    DayItemsHold(rows, persons, s);
    var cal := CalendarOf(rows, persons);
    if day in cal && ItemOf(s, persons) in cal[day] {
      var k :| 0 <= k < |cal[day]| && cal[day][k] == ItemOf(s, persons);
      DayItemsFrom(rows, persons, day, k);
      var t :| t in rows && t.fields.dutyDate == day && cal[day][k] == ItemOf(t, persons);
      var a :| 0 <= a < |rows| && rows[a] == s;
      var b :| 0 <= b < |rows| && rows[b] == t;
      assert ItemOf(t, persons).scheduleId == ItemOf(s, persons).scheduleId;
      assert a == b;
    }
  }

  /** The calendar's days for a range are the days in the range that have a schedule. */
  lemma CalendarDays(schedules: seq<Schedule>, persons: seq<Person>, first: int, last: int)
    ensures forall day :: day in CalendarOf(ScheduleByDateRange(schedules, first, last), persons) <==>
      exists s :: s in schedules && first <= s.fields.dutyDate <= last && s.fields.dutyDate == day
  {
    var rows := ScheduleByDateRange(schedules, first, last);
    assert forall day :: day in CalendarOf(rows, persons) <==> day in DaysIn(rows);
  }

  /**
   * `get_duty_calendar_service`: an impossible month is the `date` error
   * re-raised; otherwise the month's schedules, taken in date-range order,
   * grouped by day. The days are exactly the days in the month that have a
   * schedule.
   */
  method GetDutyCalendarService(tables: DutyTables, year: int, month: int) returns (r: Answer<map<int, seq<CalendarItem>>>)
    ensures MonthDays(year, month).None? <==> r.Thrown?
    ensures MonthDays(year, month).Some? ==> var (first, last) := MonthDays(year, month).value;
      r == Answered(CalendarOf(ScheduleByDateRange(tables.schedules, first, last), tables.persons))
    ensures r.Answered? ==> var (first, last) := MonthDays(year, month).value;
      forall day :: day in r.data <==> exists s :: s in tables.schedules && first <= s.fields.dutyDate <= last && s.fields.dutyDate == day
  {
    var bounds := MonthDays(year, month);
    if bounds.None? {
      return Thrown;
    }
    var (first, last) := bounds.value;
    var rows := ScheduleByDateRange(tables.schedules, first, last);
    var calendar: map<int, seq<CalendarItem>> := map[];
    var i := 0;
    while i < |rows|
      invariant 0 <= i <= |rows|
      invariant calendar == CalendarOf(rows[..i], tables.persons)
    {
      var schedule := rows[i];
      var day := schedule.fields.dutyDate;
      DutyCalendarStep(rows, tables.persons, i);
      var items := if day in calendar then calendar[day] else [];
      calendar := calendar[day := items + [ItemOf(schedule, tables.persons)]];
      i := i + 1;
    }
    assert rows[..|rows|] == rows;
    CalendarDays(tables.schedules, tables.persons, first, last);
    r := Answered(calendar);
  }

  // ---------------------------------------------------------------- current duty and statistics

  datatype CurrentDuties = CurrentDuties(primaryDuty: Option<CurrentDuty>, backupDuty: Option<CurrentDuty>)

  /** `get_current_duty_person_service`: the primary and the backup on duty now. */
  function GetCurrentDutyPersonService(schedules: seq<Schedule>, persons: seq<Person>, today: int, hour: int)
    : (r: CurrentDuties)
    ensures r.primaryDuty.None? <==> forall s :: s in schedules ==> !OnDuty(s, persons, today, "primary", ShiftAt(hour))
    ensures r.backupDuty.None? <==> forall s :: s in schedules ==> !OnDuty(s, persons, today, "backup", ShiftAt(hour))
    ensures r.primaryDuty.Some? ==> r.primaryDuty.value.dutyType == "primary" && r.primaryDuty.value.dutyDate == today
    ensures r.backupDuty.Some? ==> r.backupDuty.value.dutyType == "backup" && r.backupDuty.value.dutyDate == today
  {
    CurrentDuties(GetCurrentDutyPerson(schedules, persons, today, hour, "primary"),
                  GetCurrentDutyPerson(schedules, persons, today, hour, "backup"))
  }

  /** `get_duty_statistics_service`: the statistics over the default 30 days. */
  function GetDutyStatisticsService(persons: seq<Person>, schedules: seq<Schedule>, today: int): (r: DutyStatistics)
    ensures r.periodDays == 30
    ensures r.scheduledCount == |InRange(schedules, today - 30, today)|
    ensures r.totalPersons == CountIf(persons, Active)
  {
    GetDutyStatistics(persons, schedules, today, 30)
  }
}
