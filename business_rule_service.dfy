/**
 * The urgency-rule service: add and edit guarded by the pair-uniqueness
 * check, delete by a comma-separated id list, the batch status switch,
 * the rule match with its 'scheduled' default, and the grouping of
 * hardware types by category.
 */
module BusinessRuleService {
  import opened Basics
  import opened Records
  import opened BusinessRuleDao

  // ---------------------------------------------------------------- add

  /** The fields of an add request (`AddBusinessRuleModel`). */
  datatype AddRequest = AddRequest(businessType: string, hardwareType: string, urgencyLevel: string,
                                   description: Option<string>, isActive: int, createBy: Option<string>)

  function OptionalText(v: Option<string>): Cell {
    if v.Some? then Text(v.value) else SqlNull
  }

  function OptionalNumber(v: Option<int>): Cell {
    if v.Some? then Number(v.value) else SqlNull
  }

  /** `rule.model_dump()`: every field, None included. */
  function AddFields(req: AddRequest): (f: Record)
    ensures BusinessType(Rule(0, f)) == Text(req.businessType) && HardwareType(Rule(0, f)) == Text(req.hardwareType)
  {
    map["business_type" := Text(req.businessType), "hardware_type" := Text(req.hardwareType),
        "urgency_level" := Text(req.urgencyLevel), "description" := OptionalText(req.description),
        "is_active" := Number(req.isActive), "create_by" := OptionalText(req.createBy)]
  }

  /** A rule whose pair no stored rule holds keeps the pairs unique when appended. */
  lemma AppendKeepsUnique(rules: seq<Rule>, r: Rule)
    requires PairsUnique(rules)
    requires forall x :: x in rules ==> !IsPair(x, BusinessType(r), HardwareType(r))
    ensures PairsUnique(rules + [r])
  {
    var after := rules + [r];
    forall i, j | 0 <= i < j < |after|
      ensures BusinessType(after[i]) != BusinessType(after[j]) || HardwareType(after[i]) != HardwareType(after[j])
    {
      if j == |rules| {
        assert after[i] in rules;
      } else {
        assert after[i] == rules[i] && after[j] == rules[j];
      }
    }
  }

  /**
   * `add_rule_services`: a pair another rule already holds is refused and
   * nothing changes; otherwise the rule is added. Either way the pairs stay
   * unique, and unique pairs keep the existence check from raising.
   */
  method AddRuleServices(table: RuleTable, req: AddRequest) returns (reply: Reply)
    requires table.Valid()
    modifies table
    ensures table.Valid()
    ensures var check := CheckRuleExists(old(table.rules), Text(req.businessType), Text(req.hardwareType), None);
      && (check == None ==> reply == Propagated)
      && (check == Some(true) ==> reply == Failure("该业务类型和硬件类型的规则已存在"))
      && (!reply.Success? ==> table.rules == old(table.rules) && table.nextId == old(table.nextId))
      && (check == Some(false) ==>
            reply == Success("添加规则成功", map[]) &&
            table.rules == old(table.rules) + [Rule(old(table.nextId), AddFields(req))])
    ensures old(PairsUnique(table.rules)) ==> PairsUnique(table.rules)
  {
    var check := CheckRuleExists(table.rules, Text(req.businessType), Text(req.hardwareType), None);
    if check == None {
      return Propagated;
    }
    if check.value {
      return Failure("该业务类型和硬件类型的规则已存在");
    }
    ghost var before := table.rules;
    var rule := table.AddRule(AddFields(req));
    if PairsUnique(before) {
      AppendKeepsUnique(before, rule);
    }
    reply := Success("添加规则成功", map[]);
  }

  // ---------------------------------------------------------------- edit

  /** The fields of an edit request (`EditBusinessRuleModel`). */
  datatype EditRequest = EditRequest(ruleId: int, businessType: Option<string>, hardwareType: Option<string>,
                                     urgencyLevel: Option<string>, description: Option<string>,
                                     isActive: Option<int>, updateBy: Option<string>)

  /** The edit request as a dictionary; `edit_rule` drops the key and the None values. */
  function EditFields(req: EditRequest): Record {
    map["rule_id" := Number(req.ruleId), "business_type" := OptionalText(req.businessType),
        "hardware_type" := OptionalText(req.hardwareType), "urgency_level" := OptionalText(req.urgencyLevel),
        "description" := OptionalText(req.description), "is_active" := OptionalNumber(req.isActive),
        "update_by" := OptionalText(req.updateBy)]
  }

  /** The pair the edited rule ends up holding: a supplied type, even an empty one, replaces the stored one. */
  lemma StoredPair(r: Rule, req: EditRequest)
    ensures BusinessType(Edited(r, EditFields(req))) ==
      (if req.businessType.Some? then Text(req.businessType.value) else BusinessType(r))
    ensures HardwareType(Edited(r, EditFields(req))) ==
      (if req.hardwareType.Some? then Text(req.hardwareType.value) else HardwareType(r))
  {
    var f := EditFields(req);
    var u := NonNone(f, {"rule_id"});
    assert f["business_type"] == OptionalText(req.businessType) && f["hardware_type"] == OptionalText(req.hardwareType);
    assert "business_type" in u <==> req.businessType.Some?;
    assert "hardware_type" in u <==> req.hardwareType.Some?;
    ColumnOfEdited(r.columns, u, "business_type");
    ColumnOfEdited(r.columns, u, "hardware_type");
  }

  /**
   * The clash check of `edit_rule_services`: skipped unless a type is
   * truthy; an untruthy type falls back to the stored one (Python `or`).
   * Some(true) is a clash, None an exception.
   */
  function EditCheck(rules: seq<Rule>, existing: Rule, req: EditRequest): Option<bool> {
    if Present(req.businessType) || Present(req.hardwareType) then
      CheckRuleExists(rules,
        if Present(req.businessType) then Text(req.businessType.value) else BusinessType(existing),
        if Present(req.hardwareType) then Text(req.hardwareType.value) else HardwareType(existing),
        Some(req.ruleId))
    else Some(false)
  }

  /** The clash check as intended: run whenever a type is supplied, on the pair the rule will hold. */
  function CorrectedEditCheck(rules: seq<Rule>, existing: Rule, req: EditRequest): Option<bool> {
    if req.businessType.Some? || req.hardwareType.Some? then
      CheckRuleExists(rules,
        if req.businessType.Some? then Text(req.businessType.value) else BusinessType(existing),
        if req.hardwareType.Some? then Text(req.hardwareType.value) else HardwareType(existing),
        Some(req.ruleId))
    else Some(false)
  }

  /** An edit whose new pair no other rule holds keeps the pairs unique. */
  lemma EditedKeepsUnique(rules: seq<Rule>, i: nat, fields: Record)
    requires i < |rules| && PairsUnique(rules)
    requires forall j :: 0 <= j < |rules| && j != i ==>
      !IsPair(rules[j], BusinessType(Edited(rules[i], fields)), HardwareType(Edited(rules[i], fields)))
    ensures PairsUnique(rules[i := Edited(rules[i], fields)])
  {
  }

  /** The corrected check passing means the edited pair clashes with no other rule. */
  lemma CorrectedCheckKeepsUnique(rules: seq<Rule>, i: nat, req: EditRequest)
    requires i < |rules| && PairsUnique(rules) && rules[i].ruleId == req.ruleId
    requires forall a, b :: 0 <= a < b < |rules| ==> rules[a].ruleId != rules[b].ruleId
    requires CorrectedEditCheck(rules, rules[i], req) == Some(false)
    ensures PairsUnique(rules[i := Edited(rules[i], EditFields(req))])
  {
    StoredPair(rules[i], req);
    var e := Edited(rules[i], EditFields(req));
    forall j | 0 <= j < |rules| && j != i
      ensures !IsPair(rules[j], BusinessType(e), HardwareType(e))
    {
      if req.businessType.Some? || req.hardwareType.Some? {
        assert rules[j] in rules;
        assert rules[j].ruleId != req.ruleId;
      } else {
        assert BusinessType(e) == BusinessType(rules[i]) && HardwareType(e) == HardwareType(rules[i]);
        if i < j {
          assert BusinessType(rules[i]) != BusinessType(rules[j]) || HardwareType(rules[i]) != HardwareType(rules[j]);
        } else {
          assert BusinessType(rules[j]) != BusinessType(rules[i]) || HardwareType(rules[j]) != HardwareType(rules[i]);
        }
      }
    }
    EditedKeepsUnique(rules, i, EditFields(req));
  }

  /** Without empty types the check as written coincides with the corrected one. */
  lemma CheckAgreesWithoutEmptyTypes(rules: seq<Rule>, existing: Rule, req: EditRequest)
    requires req.businessType != Some("") && req.hardwareType != Some("")
    ensures EditCheck(rules, existing, req) == CorrectedEditCheck(rules, existing, req)
  {
  }

  /**
   * The edit as written lets a rule take a pair another rule holds: an
   * edit that supplies an empty business type is checked against the
   * stored business type but stores the empty one.
   */
  lemma EditAdmitsDuplicatePair()
    ensures var rules := [Rule(1, map["business_type" := Text(""), "hardware_type" := Text("X")]),
                          Rule(2, map["business_type" := Text("b"), "hardware_type" := Text("Y")])];
            var req := EditRequest(2, Some(""), Some("X"), None, None, None, None);
            && PairsUnique(rules)
            && EditCheck(rules, rules[1], req) == Some(false)
            && !PairsUnique(rules[1 := Edited(rules[1], EditFields(req))])
  {
    var rules := [Rule(1, map["business_type" := Text(""), "hardware_type" := Text("X")]),
                  Rule(2, map["business_type" := Text("b"), "hardware_type" := Text("Y")])];
    var req := EditRequest(2, Some(""), Some("X"), None, None, None, None);
    assert forall x :: x in rules ==> x == rules[0] || x == rules[1];
    var after := rules[1 := Edited(rules[1], EditFields(req))];
    StoredPair(rules[1], req);
    assert BusinessType(after[0]) == BusinessType(after[1]) && HardwareType(after[0]) == HardwareType(after[1]);
  }

  /** The part of an edit after its check: a clash or an exception leaves the table alone. */
  method EditAfterCheck(table: RuleTable, req: EditRequest, check: Option<bool>) returns (reply: Reply)
    requires table.Valid() && HasRule(table.rules, req.ruleId)
    modifies table
    ensures table.Valid() && table.nextId == old(table.nextId)
    ensures check == None ==> reply == Propagated
    ensures check == Some(true) ==> reply == Failure("该业务类型和硬件类型的规则已存在")
    ensures check == Some(false) ==> reply == Success("编辑规则成功", map[])
    ensures |table.rules| == |old(table.rules)|
    ensures forall k :: 0 <= k < |table.rules| ==>
      table.rules[k] == (if reply.Success? && old(table.rules)[k].ruleId == req.ruleId
                         then Edited(old(table.rules)[k], EditFields(req)) else old(table.rules)[k])
  {
    if check == None {
      return Propagated;
    }
    if check.value {
      return Failure("该业务类型和硬件类型的规则已存在");
    }
    var ok := table.EditRule(req.ruleId, EditFields(req));
    reply := Success("编辑规则成功", map[]);
  }

  /**
   * `edit_rule_services`: an unknown id is refused; otherwise the clash
   * check decides, and a passing edit writes the supplied fields. The pairs
   * stay unique whenever no supplied type is the empty string.
   */
  method EditRuleServices(table: RuleTable, req: EditRequest) returns (reply: Reply)
    requires table.Valid()
    modifies table
    ensures table.Valid() && table.nextId == old(table.nextId)
    ensures var found := GetRuleById(old(table.rules), req.ruleId);
      && (found.NoRow? ==> reply == Failure("规则不存在"))
      && (found.Found? ==> reply == match EditCheck(old(table.rules), found.row, req)
                                  case None => Propagated
                                  case Some(true) => Failure("该业务类型和硬件类型的规则已存在")
                                  case Some(false) => Success("编辑规则成功", map[]))
    ensures |table.rules| == |old(table.rules)|
    ensures forall k :: 0 <= k < |table.rules| ==>
      table.rules[k] == (if reply.Success? && old(table.rules)[k].ruleId == req.ruleId
                         then Edited(old(table.rules)[k], EditFields(req)) else old(table.rules)[k])
    ensures old(PairsUnique(table.rules)) && req.businessType != Some("") && req.hardwareType != Some("") ==>
      PairsUnique(table.rules)
  {
    var found := table.IndexOf(req.ruleId);
    if found.None? {
      return Failure("规则不存在");
    }
    var i := found.value;
    ghost var before := table.rules;
    assert before[i] in before;
    assert GetRuleById(before, req.ruleId) == Found(before[i]);
    var check := EditCheck(table.rules, table.rules[i], req);
    reply := EditAfterCheck(table, req, check);
    if PairsUnique(before) && req.businessType != Some("") && req.hardwareType != Some("") && reply.Success? {
      CheckAgreesWithoutEmptyTypes(before, before[i], req);
      CorrectedCheckKeepsUnique(before, i, req);
      assert table.rules == before[i := Edited(before[i], EditFields(req))];
    }
  }

  /** `edit_rule_services` with the corrected check: every accepted edit keeps the pairs unique. */
  method CorrectedEditRuleServices(table: RuleTable, req: EditRequest) returns (reply: Reply)
    requires table.Valid()
    modifies table
    ensures table.Valid() && table.nextId == old(table.nextId)
    ensures var found := GetRuleById(old(table.rules), req.ruleId);
      && (found.NoRow? ==> reply == Failure("规则不存在"))
      && (found.Found? ==> reply == match CorrectedEditCheck(old(table.rules), found.row, req)
                                  case None => Propagated
                                  case Some(true) => Failure("该业务类型和硬件类型的规则已存在")
                                  case Some(false) => Success("编辑规则成功", map[]))
    ensures |table.rules| == |old(table.rules)|
    ensures forall k :: 0 <= k < |table.rules| ==>
      table.rules[k] == (if reply.Success? && old(table.rules)[k].ruleId == req.ruleId
                         then Edited(old(table.rules)[k], EditFields(req)) else old(table.rules)[k])
    ensures old(PairsUnique(table.rules)) ==> PairsUnique(table.rules)
  {
    var found := table.IndexOf(req.ruleId);
    if found.None? {
      return Failure("规则不存在");
    }
    var i := found.value;
    ghost var before := table.rules;
    assert before[i] in before;
    assert GetRuleById(before, req.ruleId) == Found(before[i]);
    var check := CorrectedEditCheck(table.rules, table.rules[i], req);
    reply := EditAfterCheck(table, req, check);
    if PairsUnique(before) && reply.Success? {
      CorrectedCheckKeepsUnique(before, i, req);
      assert table.rules == before[i := Edited(before[i], EditFields(req))];
    }
  }

  // ---------------------------------------------------------------- delete

  /**
   * `[int(s) for s in pieces if s]`: empty pieces are skipped, and a piece
   * `int()` refuses raises (None).
   */
  function ParseIds(pieces: seq<string>): (r: Option<seq<int>>)
    ensures r.Some? <==> forall k :: 0 <= k < |pieces| && pieces[k] != "" ==> PyInt(pieces[k]).Some?
    ensures r == Some([]) <==> forall k :: 0 <= k < |pieces| ==> pieces[k] == ""
  {
    if pieces == [] then Some([])
    else
      var rest := ParseIds(pieces[1..]);
      assert forall k :: 1 <= k < |pieces| ==> pieces[k] == pieces[1..][k - 1];
      if pieces[0] == "" then rest
      else match PyInt(pieces[0])
        case None => None
        case Some(n) => if rest.Some? then Some([n] + rest.value) else None
  }

  /** The ids printed one per piece, as a client builds the comma list. */
  function PrintedIds(ids: seq<int>): (r: seq<string>)
    ensures |r| == |ids|
  {
    if ids == [] then [] else [IntToString(ids[0])] + PrintedIds(ids[1..])
  }

  /** Printed ids parse back to themselves. */
  lemma {:induction false} ParseIdsOfPrinted(ids: seq<int>)
    ensures ParseIds(PrintedIds(ids)) == Some(ids)
  {
    if ids != [] {
      var pieces := PrintedIds(ids);
      ParseIdsOfPrinted(ids[1..]);
      assert pieces[1..] == PrintedIds(ids[1..]);
      PyIntOfIntToString(ids[0]);
      assert pieces[0] != "";
      assert [ids[0]] + ids[1..] == ids;
    }
  }

  /**
   * `delete_rule_services`: a piece that is not an integer raises before
   * the handler; a list with no id is refused without deleting; otherwise
   * the listed rules go.
   */
  method DeleteRuleServices(table: RuleTable, ruleIds: string) returns (reply: Reply)
    modifies table
    ensures var ids := ParseIds(Split(ruleIds, ","));
      && (ids.None? ==> reply == Propagated)
      && (ids == Some([]) ==> reply == Failure("请选择要删除的规则"))
      && (ids.Some? && ids.value != [] ==>
            reply == Success("删除规则成功", map[]) &&
            forall r :: r in table.rules <==> r in old(table.rules) && r.ruleId !in ids.value)
      && (!reply.Success? ==> table.rules == old(table.rules))
    ensures table.nextId == old(table.nextId)
    ensures old(table.Valid()) ==> table.Valid()
    ensures old(PairsUnique(table.rules)) ==> PairsUnique(table.rules)
  {
    var ids := ParseIds(Split(ruleIds, ","));
    if ids.None? {
      return Propagated;
    }
    if ids.value == [] {
      return Failure("请选择要删除的规则");
    }
    var ok := table.DeleteRule(ids.value);
    reply := Success("删除规则成功", map[]);
  }

  // ---------------------------------------------------------------- batch status

  /** `batch_update_status_services`: the DAO always succeeds, and the message names the new status. */
  method BatchUpdateStatusServices(table: RuleTable, ruleIds: seq<int>, isActive: int, now: int) returns (reply: Reply)
    requires table.Valid()
    modifies table
    ensures reply == Success(if isActive != 0 then "批量启用规则成功" else "批量禁用规则成功", map[])
    ensures |table.rules| == |old(table.rules)|
    ensures forall k :: 0 <= k < |table.rules| ==>
      table.rules[k] == (if old(table.rules)[k].ruleId in ruleIds then WithStatus(old(table.rules)[k], isActive, now)
                         else old(table.rules)[k])
    ensures table.Valid() && table.nextId == old(table.nextId)
    ensures old(PairsUnique(table.rules)) ==> PairsUnique(table.rules)
  {
    var ok := table.BatchUpdateStatus(ruleIds, isActive, now);
    reply := Success(if isActive != 0 then "批量启用规则成功" else "批量禁用规则成功", map[]);
  }

  // ---------------------------------------------------------------- match

  /** `UrgencyRuleResultModel`. */
  datatype MatchResult = MatchResult(matched: bool, urgencyLevel: Cell, description: Cell, ruleId: Option<int>)

  /**
   * `match_urgency_rule_services`: the active rule of the pair gives its
   * level and id; no rule, or an exception, gives 'scheduled' unmatched.
   */
  function MatchUrgencyRule(rules: seq<Rule>, businessType: string, hardwareType: string): (m: MatchResult)
    ensures m.matched ==> exists x :: (x in rules && IsPair(x, Text(businessType), Text(hardwareType)) && Active(x) &&
                                       m.urgencyLevel == UrgencyLevel(x) && m.ruleId == Some(x.ruleId))
    ensures !m.matched ==> m.urgencyLevel == Text("scheduled") && m.ruleId == None
    ensures (forall x :: x in rules ==> !(IsPair(x, Text(businessType), Text(hardwareType)) && Active(x))) ==>
      m == MatchResult(false, Text("scheduled"), Text("未匹配到规则，默认为择期"), None)
    ensures PairsUnique(rules) ==>
      (m.matched <==> exists x :: x in rules && IsPair(x, Text(businessType), Text(hardwareType)) && Active(x))
  {
    match GetRuleByType(rules, businessType, hardwareType)
    case Found(rule) => MatchResult(true, UrgencyLevel(rule), ColumnOf(rule.columns, "description"), Some(rule.ruleId))
    case NoRow => MatchResult(false, Text("scheduled"), Text("未匹配到规则，默认为择期"), None)
    case Raised => MatchResult(false, Text("scheduled"), Text("规则匹配异常，默认为择期"), None)
  }

  // ---------------------------------------------------------------- grouping by category

  /** One category and its hardware types, in input order. */
  datatype Group = Group(category: Val, items: seq<Dict>)

  /** `ht.get('category', 'other')`. */
  function CategoryOf(ht: Dict): Val {
    GetOr(ht, "category", Str("other"))
  }

  function FindGroup(groups: seq<Group>, category: Val): (r: Option<nat>)
    ensures r.Some? ==> r.value < |groups| && groups[r.value].category == category
    ensures r.None? ==> forall k :: 0 <= k < |groups| ==> groups[k].category != category
  {
    if groups == [] then None
    else if groups[0].category == category then Some(0)
    else match FindGroup(groups[1..], category)
      case None => None
      case Some(k) => Some(k + 1)
  }

  /** One step of the grouping loop: the item joins its category's list, new categories go last. */
  function AddToGroups(groups: seq<Group>, ht: Dict): seq<Group> {
    match FindGroup(groups, CategoryOf(ht))
    case None => groups + [Group(CategoryOf(ht), [ht])]
    case Some(k) => groups[k := Group(CategoryOf(ht), groups[k].items + [ht])]
  }

  /** The dictionary `get_hardware_types_by_category_services` builds, in insertion order. */
  function Grouped(types: seq<Dict>): seq<Group> {
    if types == [] then [] else AddToGroups(Grouped(types[..|types| - 1]), types[|types| - 1])
  }

  function Flatten(groups: seq<Group>): seq<Dict> {
    if groups == [] then [] else groups[0].items + Flatten(groups[1..])
  }

  ghost predicate WellGrouped(groups: seq<Group>) {
    && (forall a, b :: 0 <= a < b < |groups| ==> groups[a].category != groups[b].category)
    && (forall k, x :: 0 <= k < |groups| && x in groups[k].items ==> CategoryOf(x) == groups[k].category)
  }

  lemma {:induction false} FlattenAppend(groups: seq<Group>, g: Group)
    ensures Flatten(groups + [g]) == Flatten(groups) + g.items
  {
    if groups == [] {
      assert [g][1..] == [];
    } else {
      assert (groups + [g])[1..] == groups[1..] + [g];
      FlattenAppend(groups[1..], g);
    }
  }

  lemma {:induction false} FlattenUpdate(groups: seq<Group>, k: nat, g: Group)
    requires k < |groups|
    ensures multiset(Flatten(groups[k := g])) == multiset(Flatten(groups)) - multiset(groups[k].items) + multiset(g.items)
    ensures multiset(groups[k].items) <= multiset(Flatten(groups))
  {
    if k == 0 {
      assert groups[k := g][1..] == groups[1..];
    } else {
      assert groups[k := g][1..] == groups[1..][k - 1 := g];
      FlattenUpdate(groups[1..], k - 1, g);
    }
  }

  /**
   * Grouping is a partition: categories are distinct, each list holds
   * only its category's items, and together the lists hold exactly the
   * input, each item as often as it occurs.
   */
  lemma {:induction false} GroupedPartition(types: seq<Dict>)
    ensures WellGrouped(Grouped(types))
    ensures multiset(Flatten(Grouped(types))) == multiset(types)
  {
    if types != [] {
      var init := types[..|types| - 1];
      var ht := types[|types| - 1];
      GroupedPartition(init);
      assert types == init + [ht];
      AddKeepsWellGrouped(Grouped(init), ht);
      AddKeepsContents(Grouped(init), ht);
    }
  }

  /** Adding an item keeps categories distinct and each list to its category. */
  lemma AddKeepsWellGrouped(groups: seq<Group>, ht: Dict)
    requires WellGrouped(groups)
    ensures WellGrouped(AddToGroups(groups, ht))
  {
    var r := AddToGroups(groups, ht);
    match FindGroup(groups, CategoryOf(ht))
    case None =>
      assert forall k :: 0 <= k < |groups| ==> r[k] == groups[k];
    case Some(k) =>
      assert forall j :: 0 <= j < |groups| ==> r[j].category == groups[j].category;
  }

  /** Adding an item adds exactly that item to the lists' contents. */
  lemma AddKeepsContents(groups: seq<Group>, ht: Dict)
    ensures multiset(Flatten(AddToGroups(groups, ht))) == multiset(Flatten(groups)) + multiset{ht}
  {
    match FindGroup(groups, CategoryOf(ht))
    case None =>
      FlattenAppend(groups, Group(CategoryOf(ht), [ht]));
    case Some(k) =>
      var g := Group(CategoryOf(ht), groups[k].items + [ht]);
      FlattenUpdate(groups, k, g);
      assert multiset(g.items) == multiset(groups[k].items) + multiset{ht};
  }

  /** The grouping loop of `get_hardware_types_by_category_services`. */
  method GroupByCategory(types: seq<Dict>) returns (groups: seq<Group>)
    ensures groups == Grouped(types)
    ensures WellGrouped(groups) && multiset(Flatten(groups)) == multiset(types)
  {
    groups := [];
    var i := 0;
    while i < |types|
      invariant 0 <= i <= |types|
      invariant groups == Grouped(types[..i])
    {
      var ht := types[i];
      var category := CategoryOf(ht);
      var k := 0;
      while k < |groups| && groups[k].category != category
        invariant 0 <= k <= |groups|
        invariant forall j :: 0 <= j < k ==> groups[j].category != category
      {
        k := k + 1;
      }
      assert types[..i + 1][..i] == types[..i];
      FindGroupFirst(groups, category, k);
      if k == |groups| {
        groups := groups + [Group(category, [ht])];
      } else {
        groups := groups[k := Group(category, groups[k].items + [ht])];
      }
      i := i + 1;
    }
    assert types[..i] == types;
    GroupedPartition(types);
  }

  /** The first position holding a category is the one `FindGroup` returns. */
  lemma {:induction false} FindGroupFirst(groups: seq<Group>, category: Val, k: nat)
    requires k <= |groups|
    requires forall j :: 0 <= j < k ==> groups[j].category != category
    requires k < |groups| ==> groups[k].category == category
    ensures FindGroup(groups, category) == if k == |groups| then None else Some(k)
  {
    if groups != [] && k > 0 {
      FindGroupFirst(groups[1..], category, k - 1);
    }
  }
}
