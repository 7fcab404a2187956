/**
 * The approval rules engine of the tool server (mcp_server.py): the employee
 * directory, the level ladder, the threshold ladder of
 * `check_approval_threshold` and the advisory recommendation text.
 *
 * The directory and the rule set are parameters: they stand for the parsed
 * contents of data/employees.json and data/rules.json.
 */
module Approval {
  import opened Wrappers
  import opened Text

  // ---------------------------------------------------------------------------
  // Employee directory
  // ---------------------------------------------------------------------------

  datatype Employee = Employee(
    id: string,
    name: string,
    level: int,
    title: string,
    department: string,
    managerId: Option<string>)

  /** The `employees` list of the data file, in file order. */
  type Directory = seq<Employee>

  /**
   * `{emp["id"]: emp for emp in employees}.get(id)`: a later record with the
   * same id overwrites an earlier one, so the LAST record with that id wins.
   */
  function Lookup(dir: Directory, id: string): (r: Option<Employee>)
    ensures r.Some? ==> r.value in dir && r.value.id == id
    ensures r.Some? <==> exists k :: 0 <= k < |dir| && dir[k].id == id
    ensures r.Some? ==> exists k :: 0 <= k < |dir| && dir[k] == r.value
                                    && forall j :: k < j < |dir| ==> dir[j].id != id
  {
    if dir == [] then None
    else if dir[|dir| - 1].id == id then Some(dir[|dir| - 1])
    else Lookup(dir[..|dir| - 1], id)
  }

  /** `list(employee_db.keys())`: the ids in order of first appearance, each once. */
  function Keys(dir: Directory): (ks: seq<string>)
    ensures forall k :: 0 <= k < |dir| ==> dir[k].id in ks
    ensures forall x :: x in ks ==> exists k :: 0 <= k < |dir| && dir[k].id == x
    ensures forall i, j :: 0 <= i < j < |ks| ==> ks[i] != ks[j]
  {
    if dir == [] then []
    else
      var prefix := Keys(dir[..|dir| - 1]);
      var id := dir[|dir| - 1].id;
      assert forall k :: 0 <= k < |dir| - 1 ==> dir[k] == dir[..|dir| - 1][k];
      if id in prefix then prefix else prefix + [id]
  }

  /** The not-found answer lists exactly the ids the lookup can find. */
  lemma {:induction false} LookupFindsExactlyKeys(dir: Directory, id: string)
    ensures Lookup(dir, id).Some? <==> id in Keys(dir)
  {
  }

  // ---------------------------------------------------------------------------
  // Level categories
  // ---------------------------------------------------------------------------

  /** The six category names, from the lowest band to the highest. */
  const CategoryNames: seq<string> := [
    "Individual Contributor",
    "Senior Individual Contributor",
    "Senior Manager",
    "Director",
    "Vice President",
    "Senior Vice President+"
  ]

  /** Inclusive upper bounds of the first five bands. */
  const BandTops: seq<int> := [3, 6, 8, 10, 12]

  /** `_level_to_category`: a first-match ladder over `level <= 3`, `<= 6`, `<= 8`, `<= 10`, `<= 12`. */
  function LevelToCategory(level: int): (c: string)
    ensures c in CategoryNames
  {
    if level <= 3 then "Individual Contributor"
    else if level <= 6 then "Senior Individual Contributor"
    else if level <= 8 then "Senior Manager"
    else if level <= 10 then "Director"
    else if level <= 12 then "Vice President"
    else "Senior Vice President+"
  }

  /** How many band tops lie strictly below `level`: the index of the band that holds it. */
  function BandIndex(tops: seq<int>, level: int): (n: nat)
    ensures n <= |tops|
  {
    if tops == [] then 0 else (if tops[0] < level then 1 else 0) + BandIndex(tops[1..], level)
  }

  /**
   * The ladder agrees with a table-driven reading: a level falls in the band
   * whose index is the number of band tops below it, so every integer (zero
   * and negative levels included) has exactly one category.
   */
  lemma LevelToCategoryByTable(level: int)
    ensures LevelToCategory(level) == CategoryNames[BandIndex(BandTops, level)]
  {
    assert BandTops[1..] == [6, 8, 10, 12];
    assert BandIndex([12], level) == (if 12 < level then 1 else 0) + BandIndex([], level);
    assert BandIndex([10, 12], level) == (if 10 < level then 1 else 0) + BandIndex([12], level) by {
      assert [10, 12][1..] == [12];
    }
    assert BandIndex([8, 10, 12], level) == (if 8 < level then 1 else 0) + BandIndex([10, 12], level) by {
      assert [8, 10, 12][1..] == [10, 12];
    }
    assert BandIndex([6, 8, 10, 12], level) == (if 6 < level then 1 else 0) + BandIndex([8, 10, 12], level) by {
      assert [6, 8, 10, 12][1..] == [8, 10, 12];
    }
  }

  /** Higher levels never fall in a lower band. */
  lemma {:induction false} BandIndexMonotone(tops: seq<int>, lo: int, hi: int)
    requires lo <= hi
    ensures BandIndex(tops, lo) <= BandIndex(tops, hi)
  {
    if tops != [] {
      BandIndexMonotone(tops[1..], lo, hi);
    }
  }

  // ---------------------------------------------------------------------------
  // Rule set
  // ---------------------------------------------------------------------------

  /** One entry of `thresholds`; an entry may carry an offset, an absolute level, both or neither. */
  datatype Threshold = Threshold(
    amountLimit: real,
    role: string,
    minLevelOffset: Option<int>,
    minLevelAbsolute: Option<int>)

  /** The `default_threshold` entry; either key may be missing from the file. */
  datatype DefaultRule = DefaultRule(role: Option<string>, minLevelAbsolute: Option<int>)

  /** The `general` entry. */
  datatype GeneralRules = GeneralRules(selfApprovalAllowed: Option<bool>, reasonSelfApproval: Option<string>)

  /** `approval_rules`; a missing rules file reads as `RuleSet([], None, None)`. */
  datatype RuleSet = RuleSet(
    thresholds: seq<Threshold>,
    defaultThreshold: Option<DefaultRule>,
    general: Option<GeneralRules>)

  /** The catch-all the code falls back on when the rules name none. */
  const BuiltInDefault: DefaultRule := DefaultRule(Some("CFO"), Some(13))

  /** Approver level used when an entry has neither an offset nor an absolute level. */
  const MissingLevel: int := 99

  predicate SortedByLimit(ts: seq<Threshold>) {
    forall i, j :: 0 <= i < j < |ts| ==> ts[i].amountLimit <= ts[j].amountLimit
  }

  /** Places `t` before the first entry whose limit is not below its own (keeps earlier entries first on ties). */
  function InsertByLimit(t: Threshold, ts: seq<Threshold>): (r: seq<Threshold>)
    requires SortedByLimit(ts)
    ensures SortedByLimit(r)
    ensures multiset(r) == multiset(ts) + multiset{t}
    ensures r[0] == t || (ts != [] && r[0] == ts[0])
  {
    if ts == [] || t.amountLimit <= ts[0].amountLimit then
      [t] + ts
    else
      var rest := InsertByLimit(t, ts[1..]);
      assert ts == [ts[0]] + ts[1..];
      ConsKeepsSorted(ts[0], rest);
      [ts[0]] + rest
  }

  /** An entry no larger than the head of a sorted list can go in front of it. */
  lemma ConsKeepsSorted(x: Threshold, ts: seq<Threshold>)
    requires SortedByLimit(ts) && (ts == [] || x.amountLimit <= ts[0].amountLimit)
    ensures SortedByLimit([x] + ts)
  {
    var r := [x] + ts;
    forall i, j | 0 <= i < j < |r| ensures r[i].amountLimit <= r[j].amountLimit {
      if i > 0 {
        assert r[i] == ts[i - 1] && r[j] == ts[j - 1];
      } else {
        assert r[j] == ts[j - 1];
      }
    }
  }

  /** `sorted(thresholds, key=lambda x: x["amount_limit"])`: a stable ascending sort. */
  function SortByLimit(ts: seq<Threshold>): (r: seq<Threshold>)
    ensures SortedByLimit(r)
    ensures multiset(r) == multiset(ts)
  {
    if ts == [] then []
    else
      assert ts == [ts[0]] + ts[1..];
      InsertByLimit(ts[0], SortByLimit(ts[1..]))
  }

  /** The entries whose limit is `limit`, in their order in `ts`. */
  function WithLimit(ts: seq<Threshold>, limit: real): seq<Threshold> {
    if ts == [] then []
    else (if ts[0].amountLimit == limit then [ts[0]] else []) + WithLimit(ts[1..], limit)
  }

  /** Filtering a list with a given head. */
  lemma WithLimitCons(x: Threshold, ts: seq<Threshold>, limit: real)
    ensures WithLimit([x] + ts, limit) == (if x.amountLimit == limit then [x] else []) + WithLimit(ts, limit)
  {
    assert ([x] + ts)[1..] == ts;
  }

  /** Inserting puts the new entry ahead of every entry with the same limit. */
  lemma {:induction false} InsertGoesFirstAmongEqual(t: Threshold, ts: seq<Threshold>, limit: real)
    requires SortedByLimit(ts)
    ensures WithLimit(InsertByLimit(t, ts), limit) ==
      (if t.amountLimit == limit then [t] else []) + WithLimit(ts, limit)
  {
    if ts == [] || t.amountLimit <= ts[0].amountLimit {
      WithLimitCons(t, ts, limit);
    } else {
      var tail := ts[1..];
      assert SortedByLimit(tail) by {
        forall i, j | 0 <= i < j < |tail| ensures tail[i].amountLimit <= tail[j].amountLimit {
          assert tail[i] == ts[i + 1] && tail[j] == ts[j + 1];
        }
      }
      InsertGoesFirstAmongEqual(t, tail, limit);
      WithLimitCons(ts[0], InsertByLimit(t, tail), limit);
      WithLimitCons(ts[0], tail, limit);
      assert ts == [ts[0]] + tail;
    }
  }

  /**
   * The sort is stable: entries with equal limits keep the order they have in
   * the rules file, so on a tie the entry listed first is the one tried first.
   */
  lemma {:induction false} SortKeepsOrderOfEqualLimits(ts: seq<Threshold>, limit: real)
    ensures WithLimit(SortByLimit(ts), limit) == WithLimit(ts, limit)
  {
    if ts != [] {
      SortKeepsOrderOfEqualLimits(ts[1..], limit);
      InsertGoesFirstAmongEqual(ts[0], SortByLimit(ts[1..]), limit);
    }
  }

  /** The first entry, in the given order, whose limit the amount is strictly below. */
  function FirstBelow(ts: seq<Threshold>, amount: real): (r: Option<Threshold>)
    ensures r.Some? ==> r.value in ts && amount < r.value.amountLimit
    ensures r.None? <==> forall k :: 0 <= k < |ts| ==> ts[k].amountLimit <= amount
  {
    if ts == [] then None
    else if amount < ts[0].amountLimit then Some(ts[0])
    else FirstBelow(ts[1..], amount)
  }

  /** In an ascending list the first match has the smallest limit among all matches. */
  lemma {:induction false} FirstBelowIsSmallest(ts: seq<Threshold>, amount: real, u: Threshold)
    requires SortedByLimit(ts) && FirstBelow(ts, amount).Some?
    requires u in ts && amount < u.amountLimit
    ensures FirstBelow(ts, amount).value.amountLimit <= u.amountLimit
  {
    if amount < ts[0].amountLimit {
      assert ts[0] == ts[0];
    } else {
      assert u != ts[0];
      assert u in ts[1..] by { assert ts == [ts[0]] + ts[1..]; }
      FirstBelowIsSmallest(ts[1..], amount, u);
    }
  }

  /**
   * The threshold ladder, independently of the sort: the winning entry is one
   * of the configured entries, the amount is strictly below its limit and no
   * other entry the amount is below has a smaller limit; with no winner every
   * limit is at most the amount (so an amount equal to a limit moves on to the
   * next band).
   */
  lemma LadderPicksSmallestLimitAbove(ts: seq<Threshold>, amount: real)
    ensures var w := FirstBelow(SortByLimit(ts), amount);
      && (w.Some? ==> w.value in ts && amount < w.value.amountLimit
                      && forall u :: u in ts && amount < u.amountLimit ==> w.value.amountLimit <= u.amountLimit)
      && (w.None? <==> forall u :: u in ts ==> u.amountLimit <= amount)
  {
    var s := SortByLimit(ts);
    var w := FirstBelow(s, amount);
    assert forall u :: u in ts <==> u in s by {
      forall u ensures u in ts <==> u in s {
        assert u in ts <==> u in multiset(ts);
        assert u in s <==> u in multiset(s);
      }
    }
    if w.Some? {
      forall u | u in ts && amount < u.amountLimit
        ensures w.value.amountLimit <= u.amountLimit
      {
        FirstBelowIsSmallest(s, amount, u);
      }
    }
    if w.None? {
      forall u | u in ts ensures u.amountLimit <= amount {
        var k :| 0 <= k < |s| && s[k] == u;
      }
    }
  }

  /** The approver level an entry asks for: the offset wins over the absolute level, 99 when neither is given. */
  function ApproverLevel(t: Threshold, employee: Employee): (lvl: int)
    ensures t.minLevelOffset.Some? ==> lvl == employee.level + t.minLevelOffset.value
    ensures t.minLevelOffset.None? && t.minLevelAbsolute.Some? ==> lvl == t.minLevelAbsolute.value
    ensures t.minLevelOffset.None? && t.minLevelAbsolute.None? ==> lvl == MissingLevel
  {
    match t.minLevelOffset
    case Some(offset) => employee.level + offset
    case None => t.minLevelAbsolute.GetOr(MissingLevel)
  }

  // ---------------------------------------------------------------------------
  // check_approval_threshold
  // ---------------------------------------------------------------------------

  /** The validated tool input (see `Tools.CheckApprovalInput`). */
  datatype CheckApprovalParams = CheckApprovalParams(employeeId: string, amount: real, expenseType: string)

  /** The `approval_requirements` object; either of the first two is JSON null when the default rule lacks the key. */
  datatype Requirements = Requirements(
    requiredApproverLevel: Option<string>,
    minimumApproverLevel: Option<int>,
    canSelfApprove: bool,
    reason: string)

  /** The advisory recommendation, one constructor per text of `_get_approval_recommendation`. */
  datatype Recommendation =
    | StandardProcess                              // no thresholds configured
    | AboveHighestLimit(amount: real, role: string) // requires <role> approval, talk to your VP
    | HighLevel(amount: real)                       // over 10000
    | TravelPortal
    | ApprovedVendors
    | StandardWithReceipts

  datatype ApprovalReport = ApprovalReport(
    employee: Employee,
    levelCategory: string,
    amount: real,
    expenseType: string,
    requirements: Requirements,
    recommendation: Recommendation)

  datatype ApprovalReply =
    | EmployeeUnknown(error: string, validIds: seq<string>)
    | Report(report: ApprovalReport)

  /** The default rule actually applied: the file's `default_threshold`, or CFO/13 when the file has none. */
  function DefaultApplied(rules: RuleSet): DefaultRule {
    rules.defaultThreshold.GetOr(BuiltInDefault)
  }

  /** The requirements for an employee, an amount and a rule set (the specification of the ladder loop). */
  function RequirementsFor(employee: Employee, amount: real, rules: RuleSet): (req: Requirements)
    ensures req.canSelfApprove == (rules.general.Some? && rules.general.value.selfApprovalAllowed == Some(true))
  {
    var general := rules.general.GetOr(GeneralRules(None, None));
    var canSelf := general.selfApprovalAllowed.GetOr(false);
    var reason := general.reasonSelfApproval.GetOr("Self-approval prohibited");
    match FirstBelow(SortByLimit(rules.thresholds), amount)
    case Some(t) => Requirements(Some(t.role), Some(ApproverLevel(t, employee)), canSelf, reason)
    case None => Requirements(DefaultApplied(rules).role, DefaultApplied(rules).minLevelAbsolute, canSelf, reason)
  }

  /** `_get_approval_recommendation`; the employee level it receives is unused. */
  function Recommend(amount: real, expenseType: string, rules: RuleSet): (r: Recommendation)
    ensures r == StandardProcess <==> rules.thresholds == []
    ensures r.AboveHighestLimit? ==> r.amount == amount
    ensures r.HighLevel? ==> r.amount == amount && amount > 10000.0
    ensures r.TravelPortal? || r.ApprovedVendors? || r.StandardWithReceipts? ==> amount <= 10000.0
  {
    if rules.thresholds == [] then StandardProcess
    else
      var sorted := SortByLimit(rules.thresholds);
      var highest := sorted[|sorted| - 1].amountLimit;
      if amount > highest then
        AboveHighestLimit(amount, rules.defaultThreshold.GetOr(DefaultRule(None, None)).role.GetOr("CFO"))
      else if amount > 10000.0 then HighLevel(amount)
      else if Lower(expenseType) in ["travel", "flight", "hotel"] then TravelPortal
      else if Lower(expenseType) in ["software", "equipment"] then ApprovedVendors
      else StandardWithReceipts
  }

  function NotFoundError(id: string): string {
    "Employee '" + id + "' not found"
  }

  /** What `check_approval_threshold` answers for validated parameters. */
  function ApprovalCheck(dir: Directory, rules: RuleSet, params: CheckApprovalParams): (reply: ApprovalReply)
    ensures reply.EmployeeUnknown? <==> (forall k :: 0 <= k < |dir| ==> dir[k].id != params.employeeId)
    ensures reply.EmployeeUnknown? ==> reply.validIds == Keys(dir)
    ensures reply.Report? ==>
      && reply.report.employee in dir && reply.report.employee.id == params.employeeId
      && reply.report.levelCategory in CategoryNames
      && reply.report.amount == params.amount && reply.report.expenseType == params.expenseType
      && reply.report.requirements == RequirementsFor(reply.report.employee, params.amount, rules)
  {
    match Lookup(dir, params.employeeId)
    case None => EmployeeUnknown(NotFoundError(params.employeeId), Keys(dir))
    case Some(e) =>
      Report(ApprovalReport(e, LevelToCategory(e.level), params.amount, params.expenseType,
                            RequirementsFor(e, params.amount, rules),
                            Recommend(params.amount, params.expenseType, rules)))
  }

  /**
   * The loop of `check_approval_threshold`: start from the default rule, walk
   * the ascending thresholds and stop at the first whose limit the amount is
   * strictly below.
   */
  method WalkLadder(thresholds: seq<Threshold>, employee: Employee, amount: real, defaultRule: DefaultRule)
    returns (requiredLevel: Option<string>, minApproverLevel: Option<int>)
    ensures FirstBelow(thresholds, amount).Some? ==>
      requiredLevel == Some(FirstBelow(thresholds, amount).value.role)
      && minApproverLevel == Some(ApproverLevel(FirstBelow(thresholds, amount).value, employee))
    ensures FirstBelow(thresholds, amount).None? ==>
      requiredLevel == defaultRule.role && minApproverLevel == defaultRule.minLevelAbsolute
  {
    requiredLevel := defaultRule.role;
    minApproverLevel := defaultRule.minLevelAbsolute;
    var i := 0;
    while i < |thresholds|
      invariant 0 <= i <= |thresholds|
      invariant FirstBelow(thresholds, amount) == FirstBelow(thresholds[i..], amount)
      invariant requiredLevel == defaultRule.role && minApproverLevel == defaultRule.minLevelAbsolute
    {
      var t := thresholds[i];
      FirstBelowStep(thresholds, i, amount);
      if amount < t.amountLimit {
        requiredLevel := Some(t.role);
        if t.minLevelOffset.Some? {
          minApproverLevel := Some(employee.level + t.minLevelOffset.value);
        } else {
          minApproverLevel := Some(t.minLevelAbsolute.GetOr(MissingLevel));
        }
        return;
      }
      i := i + 1;
    }
    assert thresholds[i..] == [];
  }

  /** One step of the search: the entry at `i` matches, or the search goes on after it. */
  lemma FirstBelowStep(ts: seq<Threshold>, i: nat, amount: real)
    requires i < |ts|
    ensures FirstBelow(ts[i..], amount) ==
      if amount < ts[i].amountLimit then Some(ts[i]) else FirstBelow(ts[i + 1..], amount)
  {
    assert ts[i..][1..] == ts[i + 1..];
  }

  /**
   * `check_approval_threshold`: look the employee up, find the approver on the
   * ladder (the default rule when no threshold applies), read the self-approval
   * rule and attach the recommendation.
   */
  method CheckApprovalThreshold(dir: Directory, rules: RuleSet, params: CheckApprovalParams)
    returns (reply: ApprovalReply)
    ensures reply == ApprovalCheck(dir, rules, params)
  {
    var found := Lookup(dir, params.employeeId);
    if found.None? {
      return EmployeeUnknown(NotFoundError(params.employeeId), Keys(dir));
    }
    var employee := found.value;

    var defaultRule := rules.defaultThreshold.GetOr(BuiltInDefault);
    var thresholds := SortByLimit(rules.thresholds);
    var requiredLevel, minApproverLevel := WalkLadder(thresholds, employee, params.amount, defaultRule);

    var general := rules.general.GetOr(GeneralRules(None, None));
    var canSelfApprove := general.selfApprovalAllowed.GetOr(false);
    var reason := general.reasonSelfApproval.GetOr("Self-approval prohibited");

    var requirements := Requirements(requiredLevel, minApproverLevel, canSelfApprove, reason);
    var recommendation := Recommend(params.amount, params.expenseType, rules);
    reply := Report(ApprovalReport(employee, LevelToCategory(employee.level), params.amount,
                                   params.expenseType, requirements, recommendation));
  }

  // ---------------------------------------------------------------------------
  // Properties of the engine
  // ---------------------------------------------------------------------------

  /**
   * With no threshold the amount is below (none configured, every limit at or
   * under the amount, or no rules file at all) the default rule decides, and it
   * is CFO with level 13 when the rules give no default.
   */
  lemma DefaultRuleWhenNoThresholdMatches(employee: Employee, amount: real, rules: RuleSet)
    requires forall t :: t in rules.thresholds ==> t.amountLimit <= amount
    ensures RequirementsFor(employee, amount, rules).requiredApproverLevel == DefaultApplied(rules).role
    ensures RequirementsFor(employee, amount, rules).minimumApproverLevel == DefaultApplied(rules).minLevelAbsolute
    ensures rules.defaultThreshold.None? ==>
      RequirementsFor(employee, amount, rules).requiredApproverLevel == Some("CFO")
      && RequirementsFor(employee, amount, rules).minimumApproverLevel == Some(13)
  {
    LadderPicksSmallestLimitAbove(rules.thresholds, amount);
  }

  /** Self-approval and its reason come from the `general` rules alone: neither the amount nor the employee matters. */
  lemma SelfApprovalIgnoresAmountAndLevel(e1: Employee, e2: Employee, a1: real, a2: real, rules: RuleSet)
    ensures RequirementsFor(e1, a1, rules).canSelfApprove == RequirementsFor(e2, a2, rules).canSelfApprove
    ensures RequirementsFor(e1, a1, rules).reason == RequirementsFor(e2, a2, rules).reason
    ensures rules.general.None? ==>
      !RequirementsFor(e1, a1, rules).canSelfApprove && RequirementsFor(e1, a1, rules).reason == "Self-approval prohibited"
  {
  }

  /** The recommendation is advisory: the expense type never changes the requirements. */
  lemma ExpenseTypeNeverChangesRequirements(dir: Directory, rules: RuleSet, id: string, amount: real, type1: string, type2: string)
    ensures var r1 := ApprovalCheck(dir, rules, CheckApprovalParams(id, amount, type1));
            var r2 := ApprovalCheck(dir, rules, CheckApprovalParams(id, amount, type2));
            (r1.Report? <==> r2.Report?) && (r1.Report? ==> r1.report.requirements == r2.report.requirements)
  {
  }

  /** An unknown employee gets only the error and the list of known ids. */
  lemma UnknownEmployeeListsValidIds(dir: Directory, rules: RuleSet, params: CheckApprovalParams)
    requires forall k :: 0 <= k < |dir| ==> dir[k].id != params.employeeId
    ensures ApprovalCheck(dir, rules, params)
         == EmployeeUnknown("Employee '" + params.employeeId + "' not found", Keys(dir))
  {
  }

  /** The last entry of the ascending list is a configured entry with the highest limit. */
  lemma SortedLastIsHighest(ts: seq<Threshold>)
    requires ts != []
    ensures |SortByLimit(ts)| == |ts|
    ensures SortByLimit(ts)[|ts| - 1] in ts
    ensures forall t :: t in ts ==> t.amountLimit <= SortByLimit(ts)[|ts| - 1].amountLimit
  {
    var s := SortByLimit(ts);
    assert |s| == |ts| by { assert |multiset(s)| == |multiset(ts)|; }
    var top := s[|s| - 1];
    assert top in multiset(s);
    forall t | t in ts ensures t.amountLimit <= top.amountLimit {
      assert t in multiset(s);
      var k :| 0 <= k < |s| && s[k] == t;
    }
  }

  /**
   * The recommendation's "requires the default role" text appears exactly when
   * the amount exceeds every limit; the ladder then falls through to the default
   * rule as well, so the two never disagree on that band.
   */
  lemma AboveHighestMeansDefaultRule(employee: Employee, amount: real, expenseType: string, rules: RuleSet)
    ensures Recommend(amount, expenseType, rules).AboveHighestLimit?
        <==> (rules.thresholds != [] && forall t :: t in rules.thresholds ==> t.amountLimit < amount)
    ensures Recommend(amount, expenseType, rules).AboveHighestLimit? ==>
      RequirementsFor(employee, amount, rules).requiredApproverLevel == DefaultApplied(rules).role
  {
    var ts := rules.thresholds;
    if ts != [] {
      SortedLastIsHighest(ts);
      var top := SortByLimit(ts)[|ts| - 1];
      assert Recommend(amount, expenseType, rules).AboveHighestLimit? <==> amount > top.amountLimit;
      if amount > top.amountLimit {
        DefaultRuleWhenNoThresholdMatches(employee, amount, rules);
      }
    }
  }

  /**
   * An illustrative rule set (the rules data file is not part of this model):
   * a department-head band below 2000 at absolute level 8, listed first, a
   * direct-manager band below 500 one level above the requester, and no
   * default or general rules.
   */
  const SampleRules: RuleSet := RuleSet(
    [Threshold(2000.0, "Department Head", None, Some(8)), Threshold(500.0, "Direct Manager", Some(1), None)],
    None, None)

  /**
   * The ladder on the sample rules: 100 goes to the direct manager one level
   * up, 500 (equal to that limit) and 1500 to the department head, and 15000,
   * above every limit, to the built-in CFO at level 13; self-approval is off.
   */
  lemma SampleLadder(e: Employee)
    ensures RequirementsFor(e, 100.0, SampleRules).requiredApproverLevel == Some("Direct Manager")
    ensures RequirementsFor(e, 100.0, SampleRules).minimumApproverLevel == Some(e.level + 1)
    ensures RequirementsFor(e, 500.0, SampleRules).requiredApproverLevel == Some("Department Head")
    ensures RequirementsFor(e, 1500.0, SampleRules).requiredApproverLevel == Some("Department Head")
    ensures RequirementsFor(e, 1500.0, SampleRules).minimumApproverLevel == Some(8)
    ensures RequirementsFor(e, 15000.0, SampleRules).requiredApproverLevel == Some("CFO")
    ensures RequirementsFor(e, 15000.0, SampleRules).minimumApproverLevel == Some(13)
    ensures !RequirementsFor(e, 100.0, SampleRules).canSelfApprove
  {
    var head := Threshold(2000.0, "Department Head", None, Some(8));
    var manager := Threshold(500.0, "Direct Manager", Some(1), None);
    var ts := SampleRules.thresholds;
    assert ts[1..] == [manager];
    assert SortByLimit([manager]) == [manager] by {
      assert [manager][1..] == [];
    }
    assert InsertByLimit(head, [manager]) == [manager, head] by {
      assert [manager][1..] == [];
    }
    assert SortByLimit(ts) == [manager, head];
    assert [manager, head][1..] == [head];
    assert [head][1..] == [];
  }

  /**
   * The top of the recommendation ladder: no thresholds gives the standard
   * process, and an amount above every configured limit is sent to the
   * default role.
   */
  lemma RecommendationLadder(amount: real, expenseType: string, rules: RuleSet)
    ensures var r := Recommend(amount, expenseType, rules);
      && (r == StandardProcess <==> rules.thresholds == [])
      && (rules.thresholds != [] ==>
            (r.AboveHighestLimit? <==> forall t :: t in rules.thresholds ==> t.amountLimit < amount))
      && (r.AboveHighestLimit? ==> r.amount == amount)
  {
    if rules.thresholds != [] {
      SortedLastIsHighest(rules.thresholds);
      var sorted := SortByLimit(rules.thresholds);
      var top := sorted[|sorted| - 1];
      var r := Recommend(amount, expenseType, rules);
      if top.amountLimit < amount {
        assert r.AboveHighestLimit?;
      } else {
        assert !r.AboveHighestLimit? && r != StandardProcess;
        assert top in rules.thresholds && amount <= top.amountLimit;
      }
    }
  }

  /**
   * The rest of the ladder, for an amount within some limit: over
   * 10000 is high-level; otherwise travel words, then purchase words, then
   * receipts, each exactly for its expense types.
   */
  lemma RecommendationByExpenseType(amount: real, expenseType: string, rules: RuleSet)
    requires rules.thresholds != []
    requires exists t :: t in rules.thresholds && amount <= t.amountLimit
    ensures amount > 10000.0 ==> Recommend(amount, expenseType, rules) == HighLevel(amount)
    ensures amount <= 10000.0 ==>
      var r := Recommend(amount, expenseType, rules);
      var kind := Lower(expenseType);
      && (r == TravelPortal <==> kind in ["travel", "flight", "hotel"])
      && (r == ApprovedVendors <==> kind in ["software", "equipment"])
      && (r == StandardWithReceipts <==> kind !in ["travel", "flight", "hotel", "software", "equipment"])
  {
    SortedLastIsHighest(rules.thresholds);
    assert !(amount > SortByLimit(rules.thresholds)[|rules.thresholds| - 1].amountLimit);
  }
}
