/**
 * Table rows as the data-access layer sees them: a record of named
 * columns, the `setattr` loops that edit one, and the one-row lookup
 * (`scalar_one_or_none`) the DAOs use.
 */
module Records {
  import opened Basics

  /** A column value: SQL NULL, a text or an integer. */
  datatype Cell = SqlNull | Text(s: string) | Number(n: int)

  /** A row or a `model_dump()` dictionary: column name to value. */
  type Record = map<string, Cell>

  /**
   * The non-key columns `models.py` declares for `AlertInfo`, the class the
   * alert and maintenance DAOs map; there is no `hostname`, `business_ip`,
   * `health_status`, `resolved_by`, `resolved_note` or `urgency_level`.
   */
  const AlertInfoColumns: set<string> := {
    "device_id", "alert_source", "component_type", "component_name", "alert_level", "alert_type",
    "alert_type_original", "alert_message", "alert_status", "first_occurrence", "last_occurrence",
    "occurrence_count", "acknowledged_time", "resolved_time", "resolution_note", "auto_resolved",
    "notification_sent", "is_manual_override", "override_reason", "override_by", "override_time",
    "raw_data", "create_time", "update_time"}

  /**
   * The `AlertInfo` columns declared NOT NULL without a default
   * (models.py:51-60): an INSERT that leaves one of them unset fails.
   */
  const AlertInfoRequired: set<string> := {
    "device_id", "alert_source", "component_type", "alert_level", "alert_type", "first_occurrence"}

  /** `getattr(row, k)`, NULL for a column the record does not hold. */
  function ColumnOf(r: Record, k: string): (c: Cell)
    ensures k !in r ==> c == SqlNull
    ensures k in r ==> c == r[k]
  {
    if k in r then r[k] else SqlNull
  }

  /** `model_dump(exclude=exclude, exclude_none=True)`. */
  function NonNone(fields: Record, exclude: set<string>): (u: Record)
    ensures forall k :: k in u <==> k in fields && k !in exclude && fields[k] != SqlNull
    ensures forall k :: k in u ==> u[k] == fields[k]
  {
    map k | k in fields && k !in exclude && fields[k] != SqlNull :: fields[k]
  }

  /**
   * `for field, value in updates.items(): setattr(row, field, value)`:
   * every updated column takes the new value, every other column keeps its own.
   */
  method SetAttrs(row: Record, updates: Record) returns (out: Record)
    ensures out.Keys == row.Keys + updates.Keys
    ensures forall k :: k in updates ==> out[k] == updates[k]
    ensures forall k :: k in row && k !in updates ==> out[k] == row[k]
    ensures out == row + updates
  {
    out := row;
    var pending := updates.Keys;
    while pending != {}
      invariant pending <= updates.Keys
      invariant out.Keys == row.Keys + (updates.Keys - pending)
      invariant forall k :: k in updates && k !in pending ==> out[k] == updates[k]
      invariant forall k :: k in row && (k !in updates || k in pending) ==> out[k] == row[k]
      decreases pending
    {
      var field :| field in pending;
      out := out[field := updates[field]];
      pending := pending - {field};
    }
    assert out == row + updates;
  }

  /** An edited record reads back the new value where one was given and the old one elsewhere. */
  lemma ColumnOfEdited(row: Record, updates: Record, k: string)
    ensures ColumnOf(row + updates, k) == (if k in updates then updates[k] else ColumnOf(row, k))
  {
  }

  /** Python truthiness of a text column: a non-empty string. */
  predicate NonEmptyText(c: Cell) {
    c.Text? && c.s != ""
  }

  /** Python truthiness of any column value: NULL, '' and 0 are falsy. */
  predicate CellTruthy(c: Cell) {
    c != SqlNull && c != Text("") && c != Number(0)
  }

  /** SQL `column LIKE '%text%'`: a NULL column never matches. */
  predicate Like(c: Cell, text: string) {
    c.Text? && Contains(c.s, text)
  }

  /** SQL `column = value` on a text column: a NULL column never matches. */
  predicate TextEquals(c: Cell, value: string) {
    c == Text(value)
  }

  /** Result of `scalar_one_or_none()`: the single row, no row, or `MultipleResultsFound`. */
  datatype Lookup<T> = Found(row: T) | NoRow | Raised

  function ScalarOneOrNone<T>(rows: seq<T>, p: T -> bool): (r: Lookup<T>)
    ensures r.Found? <==> CountIf(rows, p) == 1
    ensures r.NoRow? <==> CountIf(rows, p) == 0
    ensures r.Raised? <==> CountIf(rows, p) >= 2
    ensures r.Found? ==> r.row in rows && p(r.row)
    ensures r.NoRow? ==> forall x :: x in rows ==> !p(x)
  {
    CountIsFilterLength(rows, p);
    var hits := FilterSeq(rows, p);
    if |hits| == 0 then
      NoneMatch(rows, p);
      NoRow
    else if |hits| == 1 then
      assert hits[0] in hits;
      Found(hits[0])
    else Raised
  }

  /** `.first()` without `order_by`: the position of the first row, in table order, that passes the test. */
  function FirstWhere<T>(rows: seq<T>, p: T -> bool): (r: Option<nat>)
    ensures r.Some? ==> r.value < |rows| && p(rows[r.value]) && forall j :: 0 <= j < r.value ==> !p(rows[j])
    ensures r.None? <==> forall j :: 0 <= j < |rows| ==> !p(rows[j])
  {
    if rows == [] then None
    else if p(rows[0]) then Some(0)
    else
      match FirstWhere(rows[1..], p)
      case None => None
      case Some(i) => Some(i + 1)
  }

  /** A passing row with no passing row before it is the one `.first()` returns. */
  lemma FirstWhereIs<T>(rows: seq<T>, p: T -> bool, i: nat)
    requires i < |rows| && p(rows[i])
    requires forall j :: 0 <= j < i ==> !p(rows[j])
    ensures FirstWhere(rows, p) == Some(i)
  {
    assert FirstWhere(rows, p).Some?;
  }

  /** No element passes the test exactly when the count is zero. */
  lemma {:induction false} CountZero<T>(s: seq<T>, p: T -> bool)
    ensures CountIf(s, p) == 0 <==> forall x :: x in s ==> !p(x)
  {
    if s != [] {
      CountZero(s[1..], p);
      assert forall x :: x in s <==> x == s[0] || x in s[1..];
    }
  }

  /** With keys unique over the rows, at most one row passes a test that fixes the key. */
  lemma {:induction false} UniqueKeyLookup<T, K>(rows: seq<T>, key: T -> K, k: K, p: T -> bool)
    requires forall x :: p(x) <==> key(x) == k
    ensures (forall i, j :: 0 <= i < j < |rows| ==> key(rows[i]) != key(rows[j])) ==> CountIf(rows, p) <= 1
  {
    if rows != [] && forall i, j :: 0 <= i < j < |rows| ==> key(rows[i]) != key(rows[j]) {
      var tail := rows[1..];
      assert forall i, j :: 0 <= i < j < |tail| ==> key(tail[i]) != key(tail[j]) by {
        forall i, j | 0 <= i < j < |tail| ensures key(tail[i]) != key(tail[j]) {
          assert tail[i] == rows[i + 1] && tail[j] == rows[j + 1];
        }
      }
      UniqueKeyLookup(tail, key, k, p);
      if p(rows[0]) {
        forall x | x in tail
          ensures !p(x)
        {
          var j :| 0 <= j < |tail| && tail[j] == x;
          assert rows[j + 1] == x;
        }
        CountZero(tail, p);
      }
    }
  }

  /** An empty filter result means no row satisfies the test. */
  lemma {:induction false} NoneMatch<T>(rows: seq<T>, p: T -> bool)
    requires FilterSeq(rows, p) == []
    ensures forall x :: x in rows ==> !p(x)
  {
    if rows != [] {
      assert FilterSeq(rows[1..], p) == [];
      NoneMatch(rows[1..], p);
      assert forall x :: x in rows ==> x == rows[0] || x in rows[1..];
    }
  }

  /**
   * What a service hands back: `ResponseUtil.success` with its message and
   * data, `ResponseUtil.failure` with its message, or an exception the
   * service does not catch.
   */
  datatype Reply = Success(msg: string, data: Record) | Failure(msg: string) | Propagated
}
