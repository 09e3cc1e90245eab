/**
 * The duty roster tables (`duty_person`, `duty_schedule`): the lookups by
 * key and by name, the conflict and date-range queries, the shift on duty
 * now, the paged lists, the statistics, and the add/edit/delete statements.
 * Duty dates are day numbers; the column is a DATETIME holding the midnight
 * of the requested date, so comparing it with a date compares days.
 */
module DutyDao {
  import opened Basics
  import opened Records

  // ---------------------------------------------------------------- rows

  /** The `duty_person` columns a request sets (`DutyPersonAddModel`, `DutyPersonEditModel`). */
  datatype PersonFields = PersonFields(personName: string, department: Option<string>, position: Option<string>,
                                       phone: Option<string>, email: Option<string>, status: Option<string>,
                                       remarks: Option<string>)

  /** A `duty_person` row with its key and its creation and update times. */
  datatype Person = Person(personId: int, fields: PersonFields, createTime: int, updateTime: int)

  /** The `duty_schedule` columns a request sets (`DutyScheduleAddModel`, `DutyScheduleEditModel`). */
  datatype ScheduleFields = ScheduleFields(personId: int, dutyDate: int, dutyType: string, shiftType: string,
                                           remarks: Option<string>)

  datatype Schedule = Schedule(scheduleId: int, fields: ScheduleFields, createTime: int, updateTime: int)

  /** Auto-increment keys: distinct, at least 1, and below the next key. */
  ghost predicate PersonIdsValid(persons: seq<Person>, nextId: int) {
    && nextId >= 1
    && PersonKeysUnique(persons)
    && (forall i :: 0 <= i < |persons| ==> 1 <= persons[i].personId < nextId)
  }

  ghost predicate ScheduleIdsValid(schedules: seq<Schedule>, nextId: int) {
    && nextId >= 1
    && (forall i, j :: 0 <= i < j < |schedules| ==> schedules[i].scheduleId != schedules[j].scheduleId)
    && (forall i :: 0 <= i < |schedules| ==> 1 <= schedules[i].scheduleId < nextId)
  }

  /** Person keys are a primary key. */
  predicate PersonKeysUnique(persons: seq<Person>) {
    forall i, j :: 0 <= i < j < |persons| ==> persons[i].personId != persons[j].personId
  }

  /** No two persons share a name. */
  ghost predicate NamesUnique(persons: seq<Person>) {
    forall i, j :: 0 <= i < j < |persons| ==> persons[i].fields.personName != persons[j].fields.personName
  }

  // ---------------------------------------------------------------- lookups

  /** `get_duty_person_by_id`: `scalar_one_or_none` over the rows with that key. */
  function PersonById(persons: seq<Person>, personId: int): (r: Lookup<Person>)
    ensures r.Found? ==> r.row in persons && r.row.personId == personId
    ensures r.NoRow? <==> forall x :: x in persons ==> x.personId != personId
    ensures PersonKeysUnique(persons) ==> !r.Raised?
  {
    var p := (x: Person) => x.personId == personId;
    var key := (x: Person) => x.personId;
    CountZero(persons, p);
    UniqueKeyLookup(persons, key, personId, p);
    assert PersonKeysUnique(persons) ==> (forall i, j :: 0 <= i < j < |persons| ==> key(persons[i]) != key(persons[j]));
    ScalarOneOrNone(persons, p)
  }

  /** `get_duty_person_by_name`: raises when two persons share the name. */
  function PersonByName(persons: seq<Person>, personName: string): (r: Lookup<Person>)
    ensures r.Found? ==> r.row in persons && r.row.fields.personName == personName
    ensures r.NoRow? <==> forall x :: x in persons ==> x.fields.personName != personName
    ensures NamesUnique(persons) ==> !r.Raised?
  {
    var p := (x: Person) => x.fields.personName == personName;
    var key := (x: Person) => x.fields.personName;
    CountZero(persons, p);
    UniqueKeyLookup(persons, key, personName, p);
    assert NamesUnique(persons) ==> (forall i, j :: 0 <= i < j < |persons| ==> key(persons[i]) != key(persons[j]));
    ScalarOneOrNone(persons, p)
  }

  /** `get_duty_schedule_by_id`. */
  function ScheduleById(schedules: seq<Schedule>, scheduleId: int): (r: Lookup<Schedule>)
    ensures r.Found? ==> r.row in schedules && r.row.scheduleId == scheduleId
    ensures r.NoRow? <==> forall x :: x in schedules ==> x.scheduleId != scheduleId
    ensures (forall i, j :: 0 <= i < j < |schedules| ==> schedules[i].scheduleId != schedules[j].scheduleId) ==> !r.Raised?
  {
    var p := (x: Schedule) => x.scheduleId == scheduleId;
    var key := (x: Schedule) => x.scheduleId;
    CountZero(schedules, p);
    UniqueKeyLookup(schedules, key, scheduleId, p);
    assert (forall i, j :: 0 <= i < j < |schedules| ==> schedules[i].scheduleId != schedules[j].scheduleId) ==>
           (forall i, j :: 0 <= i < j < |schedules| ==> key(schedules[i]) != key(schedules[j]));
    ScalarOneOrNone(schedules, p)
  }

  /** The first person with a key, as an inner join on `person_id` pairs it. */
  function PersonOf(persons: seq<Person>, personId: int): (r: Option<Person>)
    ensures r.Some? ==> r.value in persons && r.value.personId == personId
    ensures r.None? <==> forall x :: x in persons ==> x.personId != personId
  {
    if persons == [] then None
    else if persons[0].personId == personId then Some(persons[0])
    else PersonOf(persons[1..], personId)
  }

  /** With distinct keys, the joined person is the one the key lookup finds. */
  lemma PersonOfIsLookup(persons: seq<Person>, personId: int)
    requires PersonKeysUnique(persons)
    ensures PersonById(persons, personId) == (if PersonOf(persons, personId).Some? then Found(PersonOf(persons, personId).value) else NoRow)
  {
    var r := PersonById(persons, personId);
    if PersonOf(persons, personId).Some? {
      var x := PersonOf(persons, personId).value;
      var i :| 0 <= i < |persons| && persons[i] == x;
      var k :| 0 <= k < |persons| && persons[k] == r.row;
      assert i == k;
    }
  }

  // ---------------------------------------------------------------- conflicts

  /** A schedule for this person, day and shift. */
  predicate SameSlot(s: Schedule, personId: int, dutyDate: int, shiftType: string) {
    s.fields.personId == personId && s.fields.dutyDate == dutyDate && s.fields.shiftType == shiftType
  }

  /** The `exclude_schedule_id` condition: applied only when the key is given and truthy (not 0). */
  predicate Excluded(exclude: Option<int>, s: Schedule) {
    exclude.Some? && exclude.value != 0 && s.scheduleId == exclude.value
  }

  /** `get_duty_schedule_conflicts`: the schedules in the slot, less the excluded one. */
  function Conflicts(schedules: seq<Schedule>, personId: int, dutyDate: int, shiftType: string, exclude: Option<int>)
    : (r: seq<Schedule>)
    ensures forall s :: s in r <==> s in schedules && SameSlot(s, personId, dutyDate, shiftType) && !Excluded(exclude, s)
  {
    if schedules == [] then []
    else
      var s := schedules[0];
      (if SameSlot(s, personId, dutyDate, shiftType) && !Excluded(exclude, s) then [s] else []) +
      Conflicts(schedules[1..], personId, dutyDate, shiftType, exclude)
  }

  /** No two schedules share a (person, day, shift) slot. */
  ghost predicate SlotsUnique(schedules: seq<Schedule>) {
    forall i, j :: 0 <= i < j < |schedules| ==>
      !SameSlot(schedules[j], schedules[i].fields.personId, schedules[i].fields.dutyDate, schedules[i].fields.shiftType)
  }

  // ---------------------------------------------------------------- the date range

  /** The `order_by(duty_date, shift_type)` order: by day, then by shift text. */
  predicate SlotBefore(a: Schedule, b: Schedule) {
    a.fields.dutyDate < b.fields.dutyDate || (a.fields.dutyDate == b.fields.dutyDate && TextLe(a.fields.shiftType, b.fields.shiftType))
  }

  ghost predicate ByDateThenShift(s: seq<Schedule>) {
    forall i, j :: 0 <= i < j < |s| ==> SlotBefore(s[i], s[j])
  }

  /** Any two schedules are ordered one way or the other. */
  lemma SlotTotal(a: Schedule, b: Schedule)
    ensures SlotBefore(a, b) || SlotBefore(b, a)
  {
    TextLeTotal(a.fields.shiftType, b.fields.shiftType);
  }

  lemma SlotTrans(a: Schedule, b: Schedule, c: Schedule)
    requires SlotBefore(a, b) && SlotBefore(b, c)
    ensures SlotBefore(a, c)
  {
    if a.fields.dutyDate == b.fields.dutyDate == c.fields.dutyDate {
      TextLeTrans(a.fields.shiftType, b.fields.shiftType, c.fields.shiftType);
    }
  }

  /** Places `e` before the first schedule it does not follow. */
  function InsertBySlot(e: Schedule, s: seq<Schedule>): seq<Schedule> {
    if s == [] || SlotBefore(e, s[0]) then [e] + s else [s[0]] + InsertBySlot(e, s[1..])
  }

  lemma {:induction false} InsertKeepsSlotOrder(e: Schedule, s: seq<Schedule>)
    requires ByDateThenShift(s)
    ensures ByDateThenShift(InsertBySlot(e, s))
    ensures multiset(InsertBySlot(e, s)) == multiset(s) + multiset{e}
  {
    InsertBySlotPermutes(e, s);
    if s == [] || SlotBefore(e, s[0]) {
      forall x | x in s
        ensures SlotBefore(e, x)
      {
        var j :| 0 <= j < |s| && s[j] == x;
        if j > 0 {
          SlotTrans(e, s[0], s[j]);
        }
      }
      ConsKeepsSlotOrder(e, s);
    } else {
      SlotTotal(e, s[0]);
      var t := InsertBySlot(e, s[1..]);
      InsertKeepsSlotOrder(e, s[1..]);
      forall x | x in t
        ensures SlotBefore(s[0], x)
      {
        assert x in multiset(t);
        if x != e {
          assert x in s[1..];
        }
      }
      ConsKeepsSlotOrder(s[0], t);
    }
  }

  /** Inserting adds exactly the one schedule. */
  lemma {:induction false} InsertBySlotPermutes(e: Schedule, s: seq<Schedule>)
    ensures multiset(InsertBySlot(e, s)) == multiset(s) + multiset{e}
  {
    if s != [] && !SlotBefore(e, s[0]) {
      InsertBySlotPermutes(e, s[1..]);
      assert s == [s[0]] + s[1..];
    }
  }

  /** A schedule before every schedule of an ordered list can lead it. */
  lemma ConsKeepsSlotOrder(h: Schedule, t: seq<Schedule>)
    requires ByDateThenShift(t)
    requires forall x :: x in t ==> SlotBefore(h, x)
    ensures ByDateThenShift([h] + t)
  {
    var r := [h] + t;
    forall i, j | 0 <= i < j < |r|
      ensures SlotBefore(r[i], r[j])
    {
      assert r[j] == t[j - 1];
      if i > 0 {
        assert r[i] == t[i - 1];
      }
    }
  }

  function SortBySlot(s: seq<Schedule>): (r: seq<Schedule>)
    ensures ByDateThenShift(r)
    ensures multiset(r) == multiset(s)
  {
    if s == [] then []
    else
      var rest := SortBySlot(s[1..]);
      InsertKeepsSlotOrder(s[0], rest);
      assert s == [s[0]] + s[1..];
      InsertBySlot(s[0], rest)
  }

  /** The schedules dated from `start` to `end`, both included, in table order. */
  function InRange(schedules: seq<Schedule>, start: int, end: int): (r: seq<Schedule>)
    ensures forall s :: s in r <==> s in schedules && start <= s.fields.dutyDate <= end
    ensures multiset(r) <= multiset(schedules)
  {
    if schedules == [] then []
    else
      var rest := InRange(schedules[1..], start, end);
      assert schedules == [schedules[0]] + schedules[1..];
      (if start <= schedules[0].fields.dutyDate <= end then [schedules[0]] else []) + rest
  }

  /**
   * `get_duty_schedule_by_date_range`: exactly the schedules dated within the
   * range, both ends included, each as often as it is stored, ordered by day
   * and then by shift.
   */
  function ScheduleByDateRange(schedules: seq<Schedule>, start: int, end: int): (r: seq<Schedule>)
    ensures ByDateThenShift(r)
    ensures multiset(r) == multiset(InRange(schedules, start, end))
    ensures forall s :: s in r <==> s in schedules && start <= s.fields.dutyDate <= end
  {
    var r := SortBySlot(InRange(schedules, start, end));
    assert forall s :: s in r <==> s in multiset(r);
    r
  }

  /** In the range, days never decrease. */
  lemma RangeDaysAscend(schedules: seq<Schedule>, start: int, end: int, i: nat, j: nat)
    requires i <= j < |ScheduleByDateRange(schedules, start, end)|
    ensures var r := ScheduleByDateRange(schedules, start, end); r[i].fields.dutyDate <= r[j].fields.dutyDate
  {
    var r := ScheduleByDateRange(schedules, start, end);
    if i < j {
      assert SlotBefore(r[i], r[j]);
    }
  }

  // ---------------------------------------------------------------- on duty now

  /** The shift of the current hour: "day" from 8:00 to 19:59, "night" otherwise. */
  function ShiftAt(hour: int): (shift: string)
    ensures shift == "day" <==> 8 <= hour < 20
    ensures shift == "night" <==> !(8 <= hour < 20)
  {
    if 8 <= hour < 20 then "day" else "night"
  }

  /** The dictionary `get_current_duty_person` returns. */
  datatype CurrentDuty = CurrentDuty(scheduleId: int, personId: int, personName: string, department: Option<string>,
                                     position: Option<string>, phone: Option<string>, email: Option<string>,
                                     dutyDate: int, dutyType: string, shiftType: string, remarks: Option<string>)

  predicate OnDuty(s: Schedule, persons: seq<Person>, today: int, dutyType: string, shift: string) {
    s.fields.dutyDate == today && s.fields.dutyType == dutyType && s.fields.shiftType == shift &&
    PersonOf(persons, s.fields.personId).Some?
  }

  /** The position of the first joined row, taking the join in schedule order. */
  function FirstOnDuty(schedules: seq<Schedule>, persons: seq<Person>, today: int, dutyType: string, shift: string)
    : (r: Option<nat>)
    ensures r.Some? ==> r.value < |schedules| && OnDuty(schedules[r.value], persons, today, dutyType, shift)
    ensures r.Some? ==> forall j :: 0 <= j < r.value ==> !OnDuty(schedules[j], persons, today, dutyType, shift)
    ensures r.None? <==> forall j :: 0 <= j < |schedules| ==> !OnDuty(schedules[j], persons, today, dutyType, shift)
  {
    FirstWhere(schedules, s => OnDuty(s, persons, today, dutyType, shift))
  }

  function DutyOf(s: Schedule, p: Person): CurrentDuty {
    CurrentDuty(s.scheduleId, p.personId, p.fields.personName, p.fields.department, p.fields.position,
                p.fields.phone, p.fields.email, s.fields.dutyDate, s.fields.dutyType, s.fields.shiftType, s.fields.remarks)
  }

  /** Schedule `i` is the first on duty, and `d` is it joined with its person. */
  predicate FirstDutyAt(schedules: seq<Schedule>, persons: seq<Person>, today: int, dutyType: string, shift: string,
                        i: int, d: CurrentDuty)
  {
    && 0 <= i < |schedules|
    && OnDuty(schedules[i], persons, today, dutyType, shift)
    && (forall j :: 0 <= j < i ==> !OnDuty(schedules[j], persons, today, dutyType, shift))
    && d == DutyOf(schedules[i], PersonOf(persons, schedules[i].fields.personId).value)
  }

  /**
   * `get_current_duty_person`: None when no schedule of today, of the type,
   * in the current shift has a person; otherwise the first such schedule
   * with its person. A schedule whose shift is "all" never matches.
   */
  function GetCurrentDutyPerson(schedules: seq<Schedule>, persons: seq<Person>, today: int, hour: int, dutyType: string)
    : (r: Option<CurrentDuty>)
    ensures r.None? <==> forall s :: s in schedules ==> !OnDuty(s, persons, today, dutyType, ShiftAt(hour))
    ensures r.Some? ==> exists i :: FirstDutyAt(schedules, persons, today, dutyType, ShiftAt(hour), i, r.value)
    ensures r.Some? ==> r.value.dutyDate == today && r.value.dutyType == dutyType && r.value.shiftType != "all"
    ensures r.Some? ==> (r.value.shiftType == "day" <==> 8 <= hour < 20)
  {
    var shift := ShiftAt(hour);
    match FirstOnDuty(schedules, persons, today, dutyType, shift)
    case None => None
    case Some(i) =>
      var s := schedules[i];
      var d := DutyOf(s, PersonOf(persons, s.fields.personId).value);
      assert FirstDutyAt(schedules, persons, today, dutyType, shift, i, d);
      Some(d)
  }

  // ---------------------------------------------------------------- lists

  /** `DutyPersonPageQueryModel`: the text filters, the status, and the page. */
  datatype PersonQuery = PersonQuery(personName: Option<string>, department: Option<string>, position: Option<string>,
                                     phone: Option<string>, email: Option<string>, status: Option<string>,
                                     pageNum: int, pageSize: int)

  /** SQL `column LIKE '%text%'` on a nullable column. */
  predicate LikeOpt(c: Option<string>, text: string) {
    c.Some? && Contains(c.value, text)
  }

  /** The conditions of `get_duty_person_list`: each truthy filter applies. */
  predicate PersonMatches(q: PersonQuery, p: Person) {
    && (Present(q.personName) ==> Contains(p.fields.personName, q.personName.value))
    && (Present(q.department) ==> LikeOpt(p.fields.department, q.department.value))
    && (Present(q.position) ==> LikeOpt(p.fields.position, q.position.value))
    && (Present(q.phone) ==> LikeOpt(p.fields.phone, q.phone.value))
    && (Present(q.email) ==> LikeOpt(p.fields.email, q.email.value))
    && (Present(q.status) ==> p.fields.status == q.status)
  }

  /** The matching persons, in the order the query sorts them (newest first). */
  function MatchingPersons(ordered: seq<Person>, q: PersonQuery): (r: seq<Person>)
    ensures forall p :: p in r <==> p in ordered && PersonMatches(q, p)
    ensures |r| <= |ordered|
  {
    if ordered == [] then []
    else (if PersonMatches(q, ordered[0]) then [ordered[0]] else []) + MatchingPersons(ordered[1..], q)
  }

  /** `DutySchedulePageQueryModel`: the filters and the page. */
  datatype ScheduleQuery = ScheduleQuery(personId: Option<int>, personName: Option<string>, dutyType: Option<string>,
                                         shiftType: Option<string>, startDate: Option<int>, endDate: Option<int>,
                                         department: Option<string>, pageNum: int, pageSize: int)

  /**
   * The conditions of `get_duty_schedule_list` over a schedule joined with
   * its person; a given date is always truthy.
   */
  predicate ScheduleMatches(q: ScheduleQuery, s: Schedule, p: Person) {
    && (q.personId.Some? && q.personId.value != 0 ==> s.fields.personId == q.personId.value)
    && (Present(q.personName) ==> Contains(p.fields.personName, q.personName.value))
    && (Present(q.dutyType) ==> s.fields.dutyType == q.dutyType.value)
    && (Present(q.shiftType) ==> s.fields.shiftType == q.shiftType.value)
    && (q.startDate.Some? ==> s.fields.dutyDate >= q.startDate.value)
    && (q.endDate.Some? ==> s.fields.dutyDate <= q.endDate.value)
    && (Present(q.department) ==> p.fields.department == q.department)
  }

  predicate JoinedMatch(q: ScheduleQuery, persons: seq<Person>, s: Schedule) {
    PersonOf(persons, s.fields.personId).Some? && ScheduleMatches(q, s, PersonOf(persons, s.fields.personId).value)
  }

  /**
   * The schedules the join keeps and the conditions accept, in the order the
   * query sorts them (day descending, shift ascending). Person keys are a
   * primary key, so a schedule joins at most one person.
   */
  function MatchingSchedules(ordered: seq<Schedule>, persons: seq<Person>, q: ScheduleQuery): (r: seq<Schedule>)
    ensures forall s :: s in r <==> s in ordered && JoinedMatch(q, persons, s)
    ensures |r| <= |ordered|
  {
    if ordered == [] then []
    else (if JoinedMatch(q, persons, ordered[0]) then [ordered[0]] else []) + MatchingSchedules(ordered[1..], persons, q)
  }

  /** A list result: the rows and the total. */
  datatype Listing<T> = Listing(rows: seq<T>, total: nat)

  /**
   * The paging of both duty lists as written: `offset(page_num)`, so the
   * page number is used as a row offset; unpaged, everything with its count.
   * A negative offset or limit is a database error (None).
   */
  function DutyPage<T>(matching: seq<T>, isPage: bool, pageNum: int, pageSize: int): (r: Option<Listing<T>>)
    ensures r.Some? ==> r.value.total == |matching|
    ensures !isPage ==> r == Some(Listing(matching, |matching|))
    ensures isPage ==> (r.None? <==> pageNum < 0 || pageSize < 0)
    ensures isPage && r.Some? ==> forall k :: 0 <= k < |r.value.rows| ==> pageNum + k < |matching| && r.value.rows[k] == matching[pageNum + k]
  {
    if !isPage then Some(Listing(matching, |matching|))
    else match SqlPage(matching, pageNum, pageSize)
      case None => None
      case Some(rows) => Some(Listing(rows, |matching|))
  }

  /** `get_duty_person_list`. */
  function GetDutyPersonList(ordered: seq<Person>, q: PersonQuery, isPage: bool): Option<Listing<Person>> {
    DutyPage(MatchingPersons(ordered, q), isPage, q.pageNum, q.pageSize)
  }

  /** `get_duty_schedule_list`. */
  function GetDutyScheduleList(ordered: seq<Schedule>, persons: seq<Person>, q: ScheduleQuery, isPage: bool)
    : Option<Listing<Schedule>>
  {
    DutyPage(MatchingSchedules(ordered, persons, q), isPage, q.pageNum, q.pageSize)
  }

  /**
   * As written, the first page (page_num 1) starts at the second matching
   * row: the first matching row is on no page the route can ask for, since
   * page numbers start at 1.
   */
  lemma FirstDutyRowOnNoPage<T>(matching: seq<T>, pageNum: int, pageSize: int)
    requires pageNum >= 1 && pageSize >= 1 && |matching| >= 1
    requires forall i :: 1 <= i < |matching| ==> matching[i] != matching[0]
    ensures DutyPage(matching, true, pageNum, pageSize).Some?
    ensures matching[0] !in DutyPage(matching, true, pageNum, pageSize).value.rows
  {
    var rows := DutyPage(matching, true, pageNum, pageSize).value.rows;
    forall k | 0 <= k < |rows|
      ensures rows[k] != matching[0]
    {
      assert rows[k] == matching[pageNum + k];
    }
  }

  /** The paging the other lists use: offset `(page_num - 1) * page_size`. */
  function CorrectedDutyPage<T>(matching: seq<T>, isPage: bool, pageNum: int, pageSize: int): (r: Option<Listing<T>>)
    ensures r.Some? ==> r.value.total == |matching|
    ensures !isPage ==> r == Some(Listing(matching, |matching|))
  {
    if !isPage then Some(Listing(matching, |matching|))
    else match SqlPage(matching, PageOffset(pageNum, pageSize), pageSize)
      case None => None
      case Some(rows) => Some(Listing(rows, |matching|))
  }

  /**
   * With the corrected offset, page n holds the rows from (n-1)*size on, so
   * page 1 starts at the first matching row and every row is on some page.
   */
  lemma CorrectedDutyPagesCover<T>(matching: seq<T>, pageSize: int, i: nat)
    requires pageSize >= 1 && i < |matching|
    ensures var n := i / pageSize + 1;
      CorrectedDutyPage(matching, true, n, pageSize).Some? &&
      i - PageOffset(n, pageSize) < |CorrectedDutyPage(matching, true, n, pageSize).value.rows| &&
      CorrectedDutyPage(matching, true, n, pageSize).value.rows[i - PageOffset(n, pageSize)] == matching[i]
  {
    var n := i / pageSize + 1;
    var offset := PageOffset(n, pageSize);
    assert offset == (i / pageSize) * pageSize;
    assert offset <= i < offset + pageSize;
  }

  function CorrectedDutyPersonList(ordered: seq<Person>, q: PersonQuery, isPage: bool): Option<Listing<Person>> {
    CorrectedDutyPage(MatchingPersons(ordered, q), isPage, q.pageNum, q.pageSize)
  }

  function CorrectedDutyScheduleList(ordered: seq<Schedule>, persons: seq<Person>, q: ScheduleQuery, isPage: bool)
    : Option<Listing<Schedule>>
  {
    CorrectedDutyPage(MatchingSchedules(ordered, persons, q), isPage, q.pageNum, q.pageSize)
  }

  // ---------------------------------------------------------------- statistics

  /** The dictionary `get_duty_statistics` returns. */
  datatype DutyStatistics = DutyStatistics(totalPersons: nat, scheduledCount: nat, periodDays: int,
                                           deptDistribution: map<Option<string>, nat>,
                                           dutyTypeDistribution: map<string, nat>)

  predicate Active(p: Person) {
    p.fields.status == Some("1")
  }

  /**
   * `get_duty_statistics`: active persons, schedules of the last `days` days
   * (both ends included), and the two grouped counts. A department or duty
   * type is a key exactly when some counted row has it, and its count is
   * positive and within the total.
   */
  function GetDutyStatistics(persons: seq<Person>, schedules: seq<Schedule>, today: int, days: int)
    : (r: DutyStatistics)
    ensures r.totalPersons == CountIf(persons, Active)
    ensures r.scheduledCount == |InRange(schedules, today - days, today)|
    ensures r.periodDays == days
    ensures forall d :: d in r.deptDistribution <==> exists p :: p in persons && Active(p) && p.fields.department == d
    ensures forall d :: d in r.deptDistribution ==> 1 <= r.deptDistribution[d] <= r.totalPersons
    ensures forall t :: t in r.dutyTypeDistribution <==>
      exists s :: s in schedules && today - days <= s.fields.dutyDate <= today && s.fields.dutyType == t
    ensures forall t :: t in r.dutyTypeDistribution ==> 1 <= r.dutyTypeDistribution[t] <= r.scheduledCount
  {
    var inRange := InRange(schedules, today - days, today);
    var depts := set p | p in persons && Active(p) :: p.fields.department;
    var types := set s | s in inRange :: s.fields.dutyType;
    var dept := map d | d in depts :: CountIf(persons, (p: Person) => Active(p) && p.fields.department == d);
    var byType := map t | t in types :: CountIf(inRange, (s: Schedule) => s.fields.dutyType == t);
    DeptCounts(persons, depts, dept);
    TypeCounts(inRange, types, byType);
    DutyStatistics(CountIf(persons, Active), |inRange|, days, dept, byType)
  }

  lemma DeptCounts(persons: seq<Person>, depts: set<Option<string>>, dept: map<Option<string>, nat>)
    requires depts == set p | p in persons && Active(p) :: p.fields.department
    requires dept == map d | d in depts :: CountIf(persons, (p: Person) => Active(p) && p.fields.department == d)
    ensures forall d :: d in dept ==> 1 <= dept[d] <= CountIf(persons, Active)
  {
    forall d | d in dept
      ensures 1 <= dept[d] <= CountIf(persons, Active)
    {
      var q := (p: Person) => Active(p) && p.fields.department == d;
      var x :| x in persons && Active(x) && x.fields.department == d;
      assert q(x);
      CountZero(persons, q);
      CountIfMono(persons, q, Active);
    }
  }

  lemma TypeCounts(inRange: seq<Schedule>, types: set<string>, byType: map<string, nat>)
    requires types == set s | s in inRange :: s.fields.dutyType
    requires byType == map t | t in types :: CountIf(inRange, (s: Schedule) => s.fields.dutyType == t)
    ensures forall t :: t in byType ==> 1 <= byType[t] <= |inRange|
  {
    forall t | t in byType
      ensures 1 <= byType[t] <= |inRange|
    {
      var q := (s: Schedule) => s.fields.dutyType == t;
      var x :| x in inRange && x.fields.dutyType == t;
      assert q(x);
      CountZero(inRange, q);
    }
  }

  // ---------------------------------------------------------------- statements

  /** The persons after `edit_duty_person`: every supplied column of the keyed row replaced, its update time set. */
  function PersonsEdited(persons: seq<Person>, personId: int, fields: PersonFields, now: int): (r: seq<Person>)
    ensures |r| == |persons|
    ensures forall k :: 0 <= k < |persons| ==> r[k].personId == persons[k].personId && r[k].createTime == persons[k].createTime
    ensures forall k :: 0 <= k < |persons| ==>
      r[k] == if persons[k].personId == personId then persons[k].(fields := fields, updateTime := now) else persons[k]
  {
    seq(|persons|, k requires 0 <= k < |persons| =>
      if persons[k].personId == personId then persons[k].(fields := fields, updateTime := now) else persons[k])
  }

  /** After an edit, the key reads back the new columns; other keys read what they did. */
  lemma EditedPersonReadsBack(persons: seq<Person>, nextId: int, personId: int, fields: PersonFields, now: int, other: int)
    requires PersonIdsValid(persons, nextId)
    ensures PersonIdsValid(PersonsEdited(persons, personId, fields, now), nextId)
    ensures var after := PersonsEdited(persons, personId, fields, now);
      match PersonById(persons, personId)
      case Found(p) => PersonById(after, personId) == Found(p.(fields := fields, updateTime := now))
      case _ => PersonById(after, personId).NoRow?
    ensures other != personId ==> PersonById(PersonsEdited(persons, personId, fields, now), other) == PersonById(persons, other)
  {
    var after := PersonsEdited(persons, personId, fields, now);
    PersonOfIsLookup(persons, personId);
    PersonOfIsLookup(after, personId);
    PersonOfIsLookup(persons, other);
    PersonOfIsLookup(after, other);
    EditedPersonOf(persons, personId, fields, now, personId);
    EditedPersonOf(persons, personId, fields, now, other);
  }

  lemma {:induction false} EditedPersonOf(persons: seq<Person>, personId: int, fields: PersonFields, now: int, key: int)
    ensures PersonOf(PersonsEdited(persons, personId, fields, now), key) ==
      match PersonOf(persons, key)
      case None => None
      case Some(p) => Some(if key == personId then p.(fields := fields, updateTime := now) else p)
  {
    if persons != [] {
      var after := PersonsEdited(persons, personId, fields, now);
      assert after[1..] == PersonsEdited(persons[1..], personId, fields, now);
      EditedPersonOf(persons[1..], personId, fields, now, key);
    }
  }

  /** The schedules after `edit_duty_schedule`. */
  function SchedulesEdited(schedules: seq<Schedule>, scheduleId: int, fields: ScheduleFields, now: int): (r: seq<Schedule>)
    ensures |r| == |schedules|
    ensures forall k :: 0 <= k < |schedules| ==> r[k].scheduleId == schedules[k].scheduleId && r[k].createTime == schedules[k].createTime
    ensures forall k :: 0 <= k < |schedules| ==>
      r[k] == if schedules[k].scheduleId == scheduleId then schedules[k].(fields := fields, updateTime := now) else schedules[k]
  {
    seq(|schedules|, k requires 0 <= k < |schedules| =>
      if schedules[k].scheduleId == scheduleId then schedules[k].(fields := fields, updateTime := now) else schedules[k])
  }

  /** The rows `delete ... where person_id in ids` leaves, in order. */
  function PersonsWithout(persons: seq<Person>, personIds: seq<int>): (r: seq<Person>)
    ensures forall p :: p in r <==> p in persons && p.personId !in personIds
    ensures |r| <= |persons|
  {
    var keep := (p: Person) => p.personId !in personIds;
    FilterSeqMembers(persons, keep);
    FilterSeq(persons, keep)
  }

  function SchedulesWithout(schedules: seq<Schedule>, scheduleIds: seq<int>): (r: seq<Schedule>)
    ensures forall s :: s in r <==> s in schedules && s.scheduleId !in scheduleIds
    ensures |r| <= |schedules|
  {
    var keep := (s: Schedule) => s.scheduleId !in scheduleIds;
    FilterSeqMembers(schedules, keep);
    FilterSeq(schedules, keep)
  }

  /** Deleting keeps the keys valid and the names unique. */
  lemma PersonsWithoutValid(persons: seq<Person>, personIds: seq<int>, nextId: int)
    requires PersonIdsValid(persons, nextId)
    ensures PersonIdsValid(PersonsWithout(persons, personIds), nextId)
    ensures NamesUnique(persons) ==> NamesUnique(PersonsWithout(persons, personIds))
  {
    var keep := (p: Person) => p.personId !in personIds;
    var r := PersonsWithout(persons, personIds);
    assert r == FilterSeq(persons, keep);
    var distinct := (a: Person, b: Person) => a.personId != b.personId;
    FilterSeqPairwise(persons, keep, distinct);
    assert PersonKeysUnique(r);
    assert forall k :: 0 <= k < |r| ==> r[k] in persons;
    if NamesUnique(persons) {
      var named := (a: Person, b: Person) => a.fields.personName != b.fields.personName;
      FilterSeqPairwise(persons, keep, named);
    }
  }

  /** Deleting keeps the keys valid and the slots unique. */
  lemma SchedulesWithoutValid(schedules: seq<Schedule>, scheduleIds: seq<int>, nextId: int)
    requires ScheduleIdsValid(schedules, nextId)
    ensures ScheduleIdsValid(SchedulesWithout(schedules, scheduleIds), nextId)
    ensures SlotsUnique(schedules) ==> SlotsUnique(SchedulesWithout(schedules, scheduleIds))
  {
    var keep := (s: Schedule) => s.scheduleId !in scheduleIds;
    var r := SchedulesWithout(schedules, scheduleIds);
    assert r == FilterSeq(schedules, keep);
    var distinct := (a: Schedule, b: Schedule) => a.scheduleId != b.scheduleId;
    FilterSeqPairwise(schedules, keep, distinct);
    assert forall k :: 0 <= k < |r| ==> r[k] in schedules;
    if SlotsUnique(schedules) {
      var apart := (a: Schedule, b: Schedule) => !SameSlot(b, a.fields.personId, a.fields.dutyDate, a.fields.shiftType);
      FilterSeqPairwise(schedules, keep, apart);
    }
  }

  /** The two tables with their next keys. */
  class DutyTables {
    var persons: seq<Person>
    var nextPersonId: int
    var schedules: seq<Schedule>
    var nextScheduleId: int

    ghost predicate Valid()
      reads this
    {
      PersonIdsValid(persons, nextPersonId) && ScheduleIdsValid(schedules, nextScheduleId)
    }

    constructor ()
      ensures persons == [] && schedules == [] && nextPersonId == 1 && nextScheduleId == 1 && Valid()
    {
      persons, schedules := [], [];
      nextPersonId, nextScheduleId := 1, 1;
    }

    /** `add_duty_person`: a new row with the next key, refreshed and returned. */
    method AddDutyPerson(fields: PersonFields, now: int) returns (person: Person)
      requires Valid()
      modifies this`persons, this`nextPersonId
      ensures person == Person(old(nextPersonId), fields, now, now)
      ensures persons == old(persons) + [person] && nextPersonId == old(nextPersonId) + 1
      ensures Valid()
    {
      person := Person(nextPersonId, fields, now, now);
      persons := persons + [person];
      nextPersonId := nextPersonId + 1;
    }

    /** `edit_duty_person`: the keyed row takes every supplied column; always True. */
    method EditDutyPerson(personId: int, fields: PersonFields, now: int) returns (ok: bool)
      requires Valid()
      modifies this`persons
      ensures ok
      ensures persons == PersonsEdited(old(persons), personId, fields, now)
      ensures Valid()
    {
      EditedPersonReadsBack(persons, nextPersonId, personId, fields, now, personId);
      persons := PersonsEdited(persons, personId, fields, now);
      ok := true;
    }

    /** `delete_duty_person`: every row whose key is listed goes; always True. */
    method DeleteDutyPersons(personIds: seq<int>) returns (ok: bool)
      requires Valid()
      modifies this`persons
      ensures ok
      ensures persons == PersonsWithout(old(persons), personIds)
      ensures Valid()
      ensures old(NamesUnique(persons)) ==> NamesUnique(persons)
    {
      PersonsWithoutValid(persons, personIds, nextPersonId);
      persons := PersonsWithout(persons, personIds);
      ok := true;
    }

    method AddDutySchedule(fields: ScheduleFields, now: int) returns (schedule: Schedule)
      requires Valid()
      modifies this`schedules, this`nextScheduleId
      ensures schedule == Schedule(old(nextScheduleId), fields, now, now)
      ensures schedules == old(schedules) + [schedule] && nextScheduleId == old(nextScheduleId) + 1
      ensures Valid()
    {
      schedule := Schedule(nextScheduleId, fields, now, now);
      schedules := schedules + [schedule];
      nextScheduleId := nextScheduleId + 1;
    }

    /** `edit_duty_schedule`: the keyed row takes every supplied column; always True. */
    method EditDutySchedule(scheduleId: int, fields: ScheduleFields, now: int) returns (ok: bool)
      requires Valid()
      modifies this`schedules
      ensures ok
      ensures schedules == SchedulesEdited(old(schedules), scheduleId, fields, now)
      ensures Valid()
    {
      schedules := SchedulesEdited(schedules, scheduleId, fields, now);
      ok := true;
    }

    method DeleteDutySchedules(scheduleIds: seq<int>) returns (ok: bool)
      requires Valid()
      modifies this`schedules
      ensures ok
      ensures schedules == SchedulesWithout(old(schedules), scheduleIds)
      ensures Valid()
      ensures old(SlotsUnique(schedules)) ==> SlotsUnique(schedules)
    {
      SchedulesWithoutValid(schedules, scheduleIds, nextScheduleId);
      schedules := SchedulesWithout(schedules, scheduleIds);
      ok := true;
    }
  }
}
