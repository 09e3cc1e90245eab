/**
 * The urgency-rule table (`business_hardware_urgency_rules`) and its
 * data-access operations. A rule maps a (business type, hardware type)
 * pair to an urgency level. The operations are the active-rule lookup,
 * the existence check, add, edit, delete, the batch status switch and the
 * statistics.
 */
module BusinessRuleDao {
  import opened Basics
  import opened Records

  /** A rule row: the auto-increment key and the other columns by name. */
  datatype Rule = Rule(ruleId: int, columns: Record)

  function BusinessType(r: Rule): Cell {
    ColumnOf(r.columns, "business_type")
  }

  function HardwareType(r: Rule): Cell {
    ColumnOf(r.columns, "hardware_type")
  }

  function UrgencyLevel(r: Rule): Cell {
    ColumnOf(r.columns, "urgency_level")
  }

  predicate Active(r: Rule) {
    ColumnOf(r.columns, "is_active") == Number(1)
  }

  ghost predicate IdsValid(rules: seq<Rule>, nextId: int) {
    (forall i, j :: 0 <= i < j < |rules| ==> rules[i].ruleId != rules[j].ruleId) &&
    (forall i :: 0 <= i < |rules| ==> rules[i].ruleId < nextId)
  }

  /** No two rules share a (business type, hardware type) pair. */
  ghost predicate PairsUnique(rules: seq<Rule>) {
    forall i, j :: 0 <= i < j < |rules| ==>
      BusinessType(rules[i]) != BusinessType(rules[j]) || HardwareType(rules[i]) != HardwareType(rules[j])
  }

  predicate HasRule(rules: seq<Rule>, ruleId: int) {
    exists i :: 0 <= i < |rules| && rules[i].ruleId == ruleId
  }

  predicate IsPair(r: Rule, businessType: Cell, hardwareType: Cell) {
    BusinessType(r) == businessType && HardwareType(r) == hardwareType
  }

  /** With unique pairs, at most one rule passes a test that fixes the pair. */
  lemma {:induction false} AtMostOnePair(rules: seq<Rule>, businessType: Cell, hardwareType: Cell, p: Rule -> bool)
    requires PairsUnique(rules)
    requires forall x :: p(x) ==> IsPair(x, businessType, hardwareType)
    ensures CountIf(rules, p) <= 1
  {
    if rules != [] {
      var tail := rules[1..];
      assert PairsUnique(tail) by {
        forall i, j | 0 <= i < j < |tail|
          ensures BusinessType(tail[i]) != BusinessType(tail[j]) || HardwareType(tail[i]) != HardwareType(tail[j])
        {
          assert tail[i] == rules[i + 1] && tail[j] == rules[j + 1];
        }
      }
      AtMostOnePair(tail, businessType, hardwareType, p);
      if p(rules[0]) {
        forall x | x in tail
          ensures !p(x)
        {
          var j :| 0 <= j < |tail| && tail[j] == x;
          assert rules[j + 1] == x;
        }
        CountZero(tail, p);
      }
    }
  }

  lemma UniquePairLookup(rules: seq<Rule>, businessType: Cell, hardwareType: Cell, p: Rule -> bool)
    requires forall x :: p(x) ==> IsPair(x, businessType, hardwareType)
    ensures PairsUnique(rules) ==> CountIf(rules, p) <= 1
  {
    if PairsUnique(rules) {
      AtMostOnePair(rules, businessType, hardwareType, p);
    }
  }

  /** `get_rule_by_id`: distinct keys make the lookup find the one rule or none. */
  function GetRuleById(rules: seq<Rule>, ruleId: int): (r: Lookup<Rule>)
    ensures r.Found? ==> r.row in rules && r.row.ruleId == ruleId
    ensures r.NoRow? <==> !HasRule(rules, ruleId)
    ensures (forall i, j :: 0 <= i < j < |rules| ==> rules[i].ruleId != rules[j].ruleId) ==> !r.Raised?
  {
    var p := (x: Rule) => x.ruleId == ruleId;
    CountZero(rules, p);
    var key := (x: Rule) => x.ruleId;
    HasRuleMeans(rules, ruleId, p);
    UniqueKeyLookup(rules, key, ruleId, p);
    assert (forall i, j :: 0 <= i < j < |rules| ==> rules[i].ruleId != rules[j].ruleId) ==>
           (forall i, j :: 0 <= i < j < |rules| ==> key(rules[i]) != key(rules[j]));
    ScalarOneOrNone(rules, p)
  }

  lemma HasRuleMeans(rules: seq<Rule>, ruleId: int, p: Rule -> bool)
    requires forall x :: p(x) <==> x.ruleId == ruleId
    ensures HasRule(rules, ruleId) <==> exists x :: x in rules && p(x)
  {
    if HasRule(rules, ruleId) {
      var i :| 0 <= i < |rules| && rules[i].ruleId == ruleId;
      assert rules[i] in rules && p(rules[i]);
    }
    if exists x :: x in rules && p(x) {
      var x :| x in rules && p(x);
      var i :| 0 <= i < |rules| && rules[i] == x;
      assert rules[i].ruleId == ruleId;
    }
  }

  /**
   * `get_rule_by_type`: the single active rule for exactly that pair; none
   * found when no active rule has it, and never more than one under unique pairs.
   */
  function GetRuleByType(rules: seq<Rule>, businessType: string, hardwareType: string): (r: Lookup<Rule>)
    ensures r.Found? ==> r.row in rules && IsPair(r.row, Text(businessType), Text(hardwareType)) && Active(r.row)
    ensures r.NoRow? <==> forall x :: x in rules ==> !(IsPair(x, Text(businessType), Text(hardwareType)) && Active(x))
    ensures PairsUnique(rules) ==> !r.Raised?
  {
    var p := (x: Rule) => IsPair(x, Text(businessType), Text(hardwareType)) && Active(x);
    CountZero(rules, p);
    UniquePairLookup(rules, Text(businessType), Text(hardwareType), p);
    ScalarOneOrNone(rules, p)
  }

  /**
   * The same query with column values as arguments. A NULL type becomes
   * an `IS NULL` test, which no stored rule passes because both type
   * columns are NOT NULL (models.py:107-108), so it finds nothing.
   */
  function ActiveRuleFor(rules: seq<Rule>, businessType: Cell, hardwareType: Cell): (r: Lookup<Rule>)
    ensures !(businessType.Text? && hardwareType.Text?) ==> r.NoRow?
    ensures businessType.Text? && hardwareType.Text? ==> r == GetRuleByType(rules, businessType.s, hardwareType.s)
  {
    if businessType.Text? && hardwareType.Text? then GetRuleByType(rules, businessType.s, hardwareType.s) else NoRow
  }

  /** `exclude_rule_id` takes effect only when it is truthy. */
  predicate Excluded(r: Rule, excludeRuleId: Option<int>) {
    excludeRuleId.Some? && excludeRuleId.value != 0 && r.ruleId == excludeRuleId.value
  }

  /**
   * `check_rule_exists`: whether another rule holds the pair, whatever its
   * status; None when `scalar_one_or_none` raises on several rows, which
   * unique pairs rule out.
   */
  function CheckRuleExists(rules: seq<Rule>, businessType: Cell, hardwareType: Cell, excludeRuleId: Option<int>): (r: Option<bool>)
    ensures r.Some? && r.value <==> exists x :: x in rules && IsPair(x, businessType, hardwareType) && !Excluded(x, excludeRuleId) && r.Some?
    ensures r == Some(false) <==> forall x :: x in rules ==> !(IsPair(x, businessType, hardwareType) && !Excluded(x, excludeRuleId))
    ensures PairsUnique(rules) ==> r.Some?
  {
    var p := (x: Rule) => IsPair(x, businessType, hardwareType) && !Excluded(x, excludeRuleId);
    CountZero(rules, p);
    UniquePairLookup(rules, businessType, hardwareType, p);
    match ScalarOneOrNone(rules, p)
    case Found(_) => Some(true)
    case NoRow => Some(false)
    case Raised => None
  }

  // ---------------------------------------------------------------- statistics

  /** The counts of `get_rule_statistics`. */
  function CountActive(rules: seq<Rule>): (n: nat)
    ensures n <= |rules|
  {
    if rules == [] then 0 else (if Active(rules[0]) then 1 else 0) + CountActive(rules[1..])
  }

  function CountActiveLevel(rules: seq<Rule>, level: string): (n: nat) {
    if rules == [] then 0
    else (if Active(rules[0]) && UrgencyLevel(rules[0]) == Text(level) then 1 else 0) + CountActiveLevel(rules[1..], level)
  }

  /** An active rule is urgent or scheduled at most once, so the two counts fit in the active count. */
  lemma {:induction false} LevelsBounded(rules: seq<Rule>)
    ensures CountActiveLevel(rules, "urgent") + CountActiveLevel(rules, "scheduled") <= CountActive(rules)
  {
    if rules != [] {
      LevelsBounded(rules[1..]);
    }
  }

  ghost predicate NoDuplicates<T>(s: seq<T>) {
    forall i, j :: 0 <= i < j < |s| ==> s[i] != s[j]
  }

  /** `SELECT DISTINCT`: each value once, in order of first appearance. */
  function DistinctValues(s: seq<Cell>): (r: seq<Cell>)
    ensures forall x :: x in r <==> x in s
    ensures NoDuplicates(r)
  {
    if s == [] then []
    else
      var before := DistinctValues(s[..|s| - 1]);
      assert forall x :: x in s <==> x in s[..|s| - 1] || x == s[|s| - 1] by {
        assert s == s[..|s| - 1] + [s[|s| - 1]];
      }
      if s[|s| - 1] in before then before else before + [s[|s| - 1]]
  }

  datatype RuleStatistics = RuleStatistics(total: nat, active: nat, urgent: nat, scheduled: nat,
                                           businessTypes: seq<Cell>, hardwareTypes: seq<Cell>)

  /**
   * `get_rule_statistics`: urgent and scheduled count active rules only, so
   * together they fit in the active count, which fits in the total; the type
   * lists hold every stored type once.
   */
  function GetRuleStatistics(rules: seq<Rule>): (s: RuleStatistics)
    ensures s.total == |rules|
    ensures s.urgent + s.scheduled <= s.active <= s.total
    ensures forall c :: c in s.businessTypes <==> exists r :: r in rules && BusinessType(r) == c
    ensures forall c :: c in s.hardwareTypes <==> exists r :: r in rules && HardwareType(r) == c
    ensures NoDuplicates(s.businessTypes) && NoDuplicates(s.hardwareTypes)
  {
    LevelsBounded(rules);
    var business := seq(|rules|, k requires 0 <= k < |rules| => BusinessType(rules[k]));
    var hardware := seq(|rules|, k requires 0 <= k < |rules| => HardwareType(rules[k]));
    assert forall c :: c in business <==> exists r :: r in rules && BusinessType(r) == c by {
      forall c ensures c in business <==> exists r :: r in rules && BusinessType(r) == c {
        if exists r :: r in rules && BusinessType(r) == c {
          var r :| r in rules && BusinessType(r) == c;
          var k :| 0 <= k < |rules| && rules[k] == r;
          assert business[k] == c;
        }
      }
    }
    assert forall c :: c in hardware <==> exists r :: r in rules && HardwareType(r) == c by {
      forall c ensures c in hardware <==> exists r :: r in rules && HardwareType(r) == c {
        if exists r :: r in rules && HardwareType(r) == c {
          var r :| r in rules && HardwareType(r) == c;
          var k :| 0 <= k < |rules| && rules[k] == r;
          assert hardware[k] == c;
        }
      }
    }
    RuleStatistics(|rules|, CountActive(rules), CountActiveLevel(rules, "urgent"), CountActiveLevel(rules, "scheduled"),
                   DistinctValues(business), DistinctValues(hardware))
  }

  /** A rule after `edit_rule`: every non-None field except the key is written onto it. */
  function Edited(r: Rule, fields: Record): Rule {
    Rule(r.ruleId, r.columns + NonNone(fields, {"rule_id"}))
  }

  /** A rule after the batch status switch. */
  function WithStatus(r: Rule, isActive: int, now: int): Rule {
    Rule(r.ruleId, r.columns["is_active" := Number(isActive)]["update_time" := Number(now)])
  }

  // ---------------------------------------------------------------- the table

  class RuleTable {
    var rules: seq<Rule>
    var nextId: int

    ghost predicate Valid()
      reads this`rules, this`nextId
    {
      IdsValid(rules, nextId)
    }

    constructor ()
      ensures rules == [] && nextId == 1 && Valid()
    {
      rules := [];
      nextId := 1;
    }

    /** `add_rule`: a new row with the next key and the dumped fields as columns. */
    method AddRule(fields: Record) returns (rule: Rule)
      modifies this`rules, this`nextId
      ensures rule == Rule(old(nextId), fields)
      ensures rules == old(rules) + [rule] && nextId == old(nextId) + 1
      ensures old(Valid()) ==> Valid()
    {
      rule := Rule(nextId, fields);
      rules := rules + [rule];
      nextId := nextId + 1;
    }

    /** The position of a key, when some rule holds it. */
    method IndexOf(ruleId: int) returns (found: Option<nat>)
      ensures found.Some? ==> found.value < |rules| && rules[found.value].ruleId == ruleId
      ensures found.None? ==> !HasRule(rules, ruleId)
    {
      var i := 0;
      while i < |rules|
        invariant 0 <= i <= |rules|
        invariant forall j :: 0 <= j < i ==> rules[j].ruleId != ruleId
      {
        if rules[i].ruleId == ruleId {
          return Some(i);
        }
        i := i + 1;
      }
      return None;
    }

    /**
     * `edit_rule`: False for an unknown key, which changes nothing; otherwise
     * every non-None field except `rule_id` is written onto that rule.
     */
    method EditRule(ruleId: int, fields: Record) returns (ok: bool)
      requires Valid()
      modifies this`rules
      ensures ok <==> HasRule(old(rules), ruleId)
      ensures |rules| == |old(rules)|
      ensures forall k :: 0 <= k < |rules| ==>
        rules[k] == (if ok && old(rules)[k].ruleId == ruleId then Edited(old(rules)[k], fields) else old(rules)[k])
      ensures Valid()
    {
      var found := IndexOf(ruleId);
      if found.None? {
        return false;
      }
      var i := found.value;
      var columns := SetAttrs(rules[i].columns, NonNone(fields, {"rule_id"}));
      rules := rules[i := Rule(ruleId, columns)];
      return true;
    }

    /** `delete_rule`: every rule whose key is listed goes; always True. */
    method DeleteRule(ruleIds: seq<int>) returns (ok: bool)
      modifies this`rules
      ensures ok
      ensures forall r :: r in rules <==> r in old(rules) && r.ruleId !in ruleIds
      ensures old(Valid()) ==> Valid()
      ensures old(PairsUnique(rules)) ==> PairsUnique(rules)
    {
      var kept: seq<Rule> := [];
      ghost var from: seq<int> := [];
      var i := 0;
      while i < |rules|
        invariant 0 <= i <= |rules|
        invariant forall r :: r in kept <==> r in rules[..i] && r.ruleId !in ruleIds
        invariant |from| == |kept|
        invariant forall a :: 0 <= a < |from| ==> 0 <= from[a] < i && kept[a] == rules[from[a]]
        invariant forall a, b :: 0 <= a < b < |from| ==> from[a] < from[b]
      {
        assert rules[..i + 1] == rules[..i] + [rules[i]];
        if rules[i].ruleId !in ruleIds {
          kept := kept + [rules[i]];
          from := from + [i];
        }
        i := i + 1;
      }
      assert rules[..i] == rules;
      if Valid() {
        forall a, b | 0 <= a < b < |kept|
          ensures kept[a].ruleId != kept[b].ruleId
        {
          assert kept[a] == rules[from[a]] && kept[b] == rules[from[b]];
        }
        forall a | 0 <= a < |kept|
          ensures kept[a].ruleId < nextId
        {
          assert kept[a] == rules[from[a]];
        }
      }
      if PairsUnique(rules) {
        forall a, b | 0 <= a < b < |kept|
          ensures BusinessType(kept[a]) != BusinessType(kept[b]) || HardwareType(kept[a]) != HardwareType(kept[b])
        {
          assert kept[a] == rules[from[a]] && kept[b] == rules[from[b]];
        }
      }
      rules := kept;
      return true;
    }

    /**
     * `batch_update_status`: every stored rule whose key is listed gets the
     * new status and update time; unlisted keys are ignored; always True.
     */
    method BatchUpdateStatus(ruleIds: seq<int>, isActive: int, now: int) returns (ok: bool)
      requires Valid()
      modifies this`rules
      ensures ok
      ensures |rules| == |old(rules)|
      ensures forall k :: 0 <= k < |rules| ==>
        rules[k] == (if old(rules)[k].ruleId in ruleIds then WithStatus(old(rules)[k], isActive, now) else old(rules)[k])
      ensures Valid()
      ensures old(PairsUnique(rules)) ==> PairsUnique(rules)
    {
      var i := 0;
      while i < |rules|
        invariant 0 <= i <= |rules| == |old(rules)|
        invariant forall k :: 0 <= k < |rules| ==> rules[k].ruleId == old(rules)[k].ruleId
        invariant forall k :: 0 <= k < i ==>
          rules[k] == (if old(rules)[k].ruleId in ruleIds then WithStatus(old(rules)[k], isActive, now) else old(rules)[k])
        invariant forall k :: i <= k < |rules| ==> rules[k] == old(rules)[k]
        invariant forall k :: 0 <= k < |rules| ==>
          BusinessType(rules[k]) == BusinessType(old(rules)[k]) && HardwareType(rules[k]) == HardwareType(old(rules)[k])
      {
        if rules[i].ruleId in ruleIds {
          rules := rules[i := WithStatus(rules[i], isActive, now)];
        }
        i := i + 1;
      }
      ok := true;
    }
  }
}
