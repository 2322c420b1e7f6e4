/** applyPlan: the ordered list of actions that takes a server to a configuration (cmd/routineops/apply.go). */
module Planner {
  import opened Ordering
  import opened Fleet
  import Changes

  // ---- The configuration file ----

  datatype WantScript = WantScript(name: string, platform: string, content: string)
  datatype WantPolicy = WantPolicy(name: string, script: string, trigger: string, schedule: Fields, event: Fields,
      active: bool)
  datatype WantRule = WantRule(name: string, ruleType: string)

  /** None: the key is absent from the file and the aspect is not managed. Some([]): it must be empty. */
  datatype WantGroup = WantGroup(name: string, color: string, software: Option<seq<WantRule>>,
      policies: Option<seq<string>>)

  datatype Config = Config(groups: seq<WantGroup>, scripts: seq<WantScript>, policies: seq<WantPolicy>)

  // ---- What the four GETs show ----

  datatype GroupRow = GroupRow(id: Id, name: string, color: string)
  datatype ScriptRow = ScriptRow(id: Id, name: string, platform: string, content: string)
  datatype RuleRow = RuleRow(id: Id, software: string, ruleType: string, device: Option<Id>, group: Option<Id>)
  datatype PolicyRow = PolicyRow(id: Id, name: string, script: Id, scriptName: string, trigger: string,
                                 schedule: Raw, event: Raw, active: bool, groupNames: seq<string>)

  function GroupRowKey(r: GroupRow): string { Key(r.name) }
  function ScriptRowKey(r: ScriptRow): string { Key(r.name) }
  function PolicyRowKey(r: PolicyRow): string { Key(r.name) }
  function RuleRowKey(r: RuleRow): string { Key(r.software) }

  datatype Seen = Seen(groups: map<string, GroupRow>, rules: seq<RuleRow>, scripts: map<string, ScriptRow>,
                       policies: map<string, PolicyRow>, policyRows: seq<PolicyRow>)

  // ---- Actions ----

  datatype Action =
    | CreateScript(script: WantScript)
    | UpdateScript(scriptId: Id, script: WantScript)
    | CreatePolicy(policy: WantPolicy)
    | UpdatePolicy(policyId: Id, policy: WantPolicy)
    | TogglePolicy(policyId: Id, policyName: string, active: bool)
    | CreateGroup(group: string, color: string)
    | RecolorGroup(groupId: Id, group: string, color: string)
    | ReplaceRule(group: string, ruleId: Id, software: string, ruleType: string)
    | AddRule(group: string, software: string, ruleType: string)
    | DropRule(group: string, ruleId: Id, software: string)
    | AssignTo(group: string, policyName: string)
    | UnassignFrom(group: string, policyKey: string)

  // ---- Scripts ----

  function ScriptActions(seen: Seen, w: WantScript): seq<Action> {
    var k := Key(w.name);
    if k !in seen.scripts then [CreateScript(w)]
    else if seen.scripts[k].platform == w.platform && seen.scripts[k].content == w.content then []
    else [UpdateScript(seen.scripts[k].id, w)]
  }

  function ScriptPlan(seen: Seen, list: seq<WantScript>): seq<Action> {
    if list == [] then [] else ScriptPlan(seen, list[..|list| - 1]) + ScriptActions(seen, list[|list| - 1])
  }

  // ---- Policies ----

  predicate PolicyChanged(cur: PolicyRow, want: WantPolicy, scripts: map<string, ScriptRow>) {
    || cur.trigger != want.trigger
    || Key(cur.scriptName) != Key(want.script)
    || (Key(want.script) in scripts && cur.script != scripts[Key(want.script)].id)
    || !SameJSON(cur.schedule, want.schedule) || !SameJSON(cur.event, want.event)
  }

  function PolicyActions(seen: Seen, w: WantPolicy): seq<Action> {
    var k := Key(w.name);
    if k !in seen.policies then [CreatePolicy(w)]
    else
      var cur := seen.policies[k];
      (if PolicyChanged(cur, w, seen.scripts) then [UpdatePolicy(cur.id, w)] else [])
      + (if cur.active != w.active then [TogglePolicy(cur.id, w.name, w.active)] else [])
  }

  function PolicyPlan(seen: Seen, list: seq<WantPolicy>): seq<Action> {
    if list == [] then [] else PolicyPlan(seen, list[..|list| - 1]) + PolicyActions(seen, list[|list| - 1])
  }

  // ---- Groups ----

  function HeaderActions(seen: Seen, g: WantGroup): seq<Action> {
    var k := Key(g.name);
    if k !in seen.groups then [CreateGroup(g.name, g.color)]
    else if g.color != "" && !EqualFold(g.color, seen.groups[k].color)
        then [RecolorGroup(seen.groups[k].id, g.name, g.color)]
    else []
  }

  predicate OwnRule(r: RuleRow, gid: Id) { r.group == Some(gid) && r.device.None? }

  function RulesOf(rules: seq<RuleRow>, gid: Id): (r: seq<RuleRow>)
    ensures forall x :: x in r <==> x in rules && OwnRule(x, gid)
  {
    if rules == [] then []
    else RulesOf(rules[..|rules| - 1], gid) + (if OwnRule(rules[|rules| - 1], gid) then [rules[|rules| - 1]] else [])
  }

  /** curRules: the rules bound to the group itself, by software key. */
  function CurrentRules(seen: Seen, g: WantGroup): map<string, RuleRow> {
    if Key(g.name) in seen.groups then Changes.Index(RuleRowKey, RulesOf(seen.rules, seen.groups[Key(g.name)].id))
        else map[]
  }

  function RuleKeys(list: seq<WantRule>): set<string> { set w | w in list :: Key(w.name) }

  function RuleActions(g: WantGroup, w: WantRule, cur: map<string, RuleRow>): seq<Action> {
    var k := Key(w.name);
    if k !in cur then [AddRule(g.name, w.name, w.ruleType)]
    else if cur[k].ruleType == w.ruleType then []
    else [ReplaceRule(g.name, cur[k].id, w.name, w.ruleType)]
  }

  /** A rule met twice finds its entry gone the second time. */
  function ListedRules(g: WantGroup, list: seq<WantRule>, cur: map<string, RuleRow>): seq<Action> {
    if list == [] then []
    else
      var front := list[..|list| - 1];
      ListedRules(g, front, cur) + RuleActions(g, list[|list| - 1], cur - RuleKeys(front))
  }

  function BySoftware(r: RuleRow): seq<string> { [r.software] }

  function Drops(g: WantGroup, rows: seq<RuleRow>): (r: seq<Action>)
    ensures |r| == |rows|
    ensures forall i :: 0 <= i < |r| ==> r[i] == DropRule(g.name, rows[i].id, rows[i].software)
  {
    if rows == [] then []
    else Drops(g, rows[..|rows| - 1]) + [DropRule(g.name, rows[|rows| - 1].id, rows[|rows| - 1].software)]
  }

  ghost function SoftwarePlan(seen: Seen, g: WantGroup): seq<Action> {
    if g.software.None? then []
    else
      var cur := CurrentRules(seen, g);
      ListedRules(g, g.software.value, cur)
      + Drops(g, Arrange(BySoftware, (cur - RuleKeys(g.software.value)).Values))
  }

  predicate AssignedTo(r: PolicyRow, g: WantGroup) {
    exists gn :: gn in r.groupNames && Key(gn) == Key(g.name)
  }

  /** curAssigned: the keys of the policies the group already has. */
  function CurrentPolicies(seen: Seen, g: WantGroup): set<string> {
    set r | r in seen.policyRows && AssignedTo(r, g) :: Key(r.name)
  }

  function NameKeys(list: seq<string>): set<string> { set n | n in list :: Key(n) }

  function ListedPolicies(g: WantGroup, list: seq<string>, cur: set<string>): seq<Action> {
    if list == [] then []
    else
      var front, last := list[..|list| - 1], list[|list| - 1];
      ListedPolicies(g, front, cur) + if Key(last) in cur - NameKeys(front) then [] else [AssignTo(g.name, last)]
  }

  function Unassigns(g: WantGroup, keys: seq<string>): (r: seq<Action>)
    ensures |r| == |keys|
    ensures forall i :: 0 <= i < |r| ==> r[i] == UnassignFrom(g.name, keys[i])
  {
    if keys == [] then [] else Unassigns(g, keys[..|keys| - 1]) + [UnassignFrom(g.name, keys[|keys| - 1])]
  }

  ghost function AssignmentPlan(seen: Seen, g: WantGroup): seq<Action> {
    if g.policies.None? then []
    else
      var cur := CurrentPolicies(seen, g);
      ListedPolicies(g, g.policies.value, cur) + Unassigns(g, Arrange(ByItself, cur - NameKeys(g.policies.value)))
  }

  ghost function GroupActions(seen: Seen, g: WantGroup): seq<Action> {
    HeaderActions(seen, g) + SoftwarePlan(seen, g) + AssignmentPlan(seen, g)
  }

  ghost function GroupPlan(seen: Seen, list: seq<WantGroup>): seq<Action> {
    if list == [] then [] else GroupPlan(seen, list[..|list| - 1]) + GroupActions(seen, list[|list| - 1])
  }

  /** Scripts first, then policies, then groups: references point backwards. */
  ghost function PlanFor(seen: Seen, cfg: Config): seq<Action> {
    ScriptPlan(seen, cfg.scripts) + PolicyPlan(seen, cfg.policies) + GroupPlan(seen, cfg.groups)
  }

  // ---- The loops ----

  method PlanScripts(seen: Seen, list: seq<WantScript>) returns (plan: seq<Action>)
    ensures plan == ScriptPlan(seen, list)
  {
    plan := [];
    for i := 0 to |list|
      invariant plan == ScriptPlan(seen, list[..i])
    {
      assert list[..i + 1][..i] == list[..i];
      var want := list[i];
      if Key(want.name) !in seen.scripts {
        plan := plan + [CreateScript(want)];
      } else {
        var cur := seen.scripts[Key(want.name)];
        if !(cur.platform == want.platform && cur.content == want.content) {
          plan := plan + [UpdateScript(cur.id, want)];
        }
      }
    }
    assert list[..|list|] == list;
  }

  method PlanPolicies(seen: Seen, list: seq<WantPolicy>) returns (plan: seq<Action>)
    ensures plan == PolicyPlan(seen, list)
  {
    hide PolicyChanged, Key;
    plan := [];
    for i := 0 to |list|
      invariant plan == PolicyPlan(seen, list[..i])
    {
      assert list[..i + 1][..i] == list[..i];
      var want := list[i];
      ghost var before := plan;
      if Key(want.name) !in seen.policies {
        plan := plan + [CreatePolicy(want)];
      } else {
        var cur := seen.policies[Key(want.name)];
        if PolicyChanged(cur, want, seen.scripts) {
          plan := plan + [UpdatePolicy(cur.id, want)];
        }
        if cur.active != want.active {
          plan := plan + [TogglePolicy(cur.id, want.name, want.active)];
        }
      }
      assert plan == before + PolicyActions(seen, want);
    }
    assert list[..|list|] == list;
  }

  method RulesOfGroup(rules: seq<RuleRow>, gid: Id) returns (r: seq<RuleRow>)
    ensures r == RulesOf(rules, gid)
  {
    r := [];
    for i := 0 to |rules|
      invariant r == RulesOf(rules[..i], gid)
    {
      assert rules[..i + 1][..i] == rules[..i];
      if OwnRule(rules[i], gid) {
        r := r + [rules[i]];
      }
    }
    assert rules[..|rules|] == rules;
  }

  /** The values of a map, in some order. */
  method RowsOf(m: map<string, RuleRow>) returns (rows: seq<RuleRow>)
    requires forall k :: k in m ==> RuleRowKey(m[k]) == k
    ensures forall r :: r in rows <==> r in m.Values
    ensures forall i, j :: 0 <= i < j < |rows| ==> RuleRowKey(rows[i]) != RuleRowKey(rows[j])
  {
    hide Key;
    rows := [];
    var todo := m.Keys;
    while todo != {}
      invariant todo <= m.Keys
      invariant forall i :: 0 <= i < |rows| ==>
          RuleRowKey(rows[i]) in m && RuleRowKey(rows[i]) !in todo && m[RuleRowKey(rows[i])] == rows[i]
      invariant forall i, j :: 0 <= i < j < |rows| ==> RuleRowKey(rows[i]) != RuleRowKey(rows[j])
      invariant forall k :: k in m && k !in todo ==> m[k] in rows
    {
      var k :| k in todo;
      todo := todo - {k};
      rows := rows + [m[k]];
    }
  }

  method SortedRules(m: map<string, RuleRow>) returns (r: seq<RuleRow>)
    requires forall k :: k in m ==> RuleRowKey(m[k]) == k
    ensures r == Arrange(BySoftware, m.Values)
  {
    var rows := RowsOf(m);
    r := SortBy(BySoftware, rows);
    forall i, j | 0 <= i < j < |rows| ensures BySoftware(rows[i]) != BySoftware(rows[j]) {
      assert BySoftware(rows[i])[0] == rows[i].software && BySoftware(rows[j])[0] == rows[j].software;
    }
    SortedDistinct(BySoftware, rows, r);
    ArrangeIs(BySoftware, m.Values, r);
  }

  lemma RuleKeysGrow(list: seq<WantRule>, i: nat)
    requires i < |list|
    ensures RuleKeys(list[..i + 1]) == RuleKeys(list[..i]) + {Key(list[i].name)}
  {
    assert list[..i + 1] == list[..i] + [list[i]];
  }

  method PlanListedRules(g: WantGroup, list: seq<WantRule>, cur: map<string, RuleRow>)
    returns (plan: seq<Action>, rest: map<string, RuleRow>)
    ensures plan == ListedRules(g, list, cur)
    ensures rest == cur - RuleKeys(list)
  {
    hide RuleKeys;
    plan, rest := [], cur;
    assert RuleKeys([]) == {} by { NoRuleKeys(); }
    for i := 0 to |list|
      invariant plan == ListedRules(g, list[..i], cur)
      invariant rest == cur - RuleKeys(list[..i])
    {
      assert list[..i + 1][..i] == list[..i];
      RuleKeysGrow(list, i);
      var w := list[i];
      if Key(w.name) in rest {
        var have := rest[Key(w.name)];
        if have.ruleType != w.ruleType {
          plan := plan + [ReplaceRule(g.name, have.id, w.name, w.ruleType)];
        }
        rest := rest - {Key(w.name)};
      } else {
        plan := plan + [AddRule(g.name, w.name, w.ruleType)];
      }
    }
    assert list[..|list|] == list;
  }

  lemma NoRuleKeys()
    ensures RuleKeys([]) == {}
  {
  }

  method PlanDrops(g: WantGroup, extras: seq<RuleRow>) returns (plan: seq<Action>)
    ensures plan == Drops(g, extras)
  {
    plan := [];
    for i := 0 to |extras|
      invariant plan == Drops(g, extras[..i])
    {
      assert extras[..i + 1][..i] == extras[..i];
      plan := plan + [DropRule(g.name, extras[i].id, extras[i].software)];
    }
    assert extras[..|extras|] == extras;
  }

  method PlanSoftware(seen: Seen, g: WantGroup) returns (plan: seq<Action>)
    ensures plan == SoftwarePlan(seen, g)
  {
    hide RuleKeys, ListedRules;
    plan := [];
    if g.software.None? { return; }
    var curRules: map<string, RuleRow> := map[];
    if Key(g.name) in seen.groups {
      var own := RulesOfGroup(seen.rules, seen.groups[Key(g.name)].id);
      curRules := Changes.IndexBy(RuleRowKey, own);
    }
    var listed, rest := PlanListedRules(g, g.software.value, curRules);
    var extras := SortedRules(rest);
    var drops := PlanDrops(g, extras);
    plan := listed + drops;
  }

  method IsAssigned(row: PolicyRow, g: WantGroup) returns (found: bool)
    ensures found == AssignedTo(row, g)
  {
    hide Key;
    found := false;
    for j := 0 to |row.groupNames|
      invariant found == exists gn :: gn in row.groupNames[..j] && Key(gn) == Key(g.name)
    {
      assert row.groupNames[..j + 1] == row.groupNames[..j] + [row.groupNames[j]];
      if Key(row.groupNames[j]) == Key(g.name) { found := true; }
    }
    assert row.groupNames[..|row.groupNames|] == row.groupNames;
  }

  method AssignedKeys(rows: seq<PolicyRow>, g: WantGroup) returns (cur: set<string>)
    ensures cur == set r | r in rows && AssignedTo(r, g) :: Key(r.name)
  {
    hide AssignedTo;
    cur := {};
    for i := 0 to |rows|
      invariant cur == set r | r in rows[..i] && AssignedTo(r, g) :: Key(r.name)
    {
      assert rows[..i + 1] == rows[..i] + [rows[i]];
      var found := IsAssigned(rows[i], g);
      if found {
        cur := cur + {Key(rows[i].name)};
      }
    }
    assert rows[..|rows|] == rows;
  }

  lemma NameKeysGrow(list: seq<string>, i: nat)
    requires i < |list|
    ensures NameKeys(list[..i + 1]) == NameKeys(list[..i]) + {Key(list[i])}
  {
    assert list[..i + 1] == list[..i] + [list[i]];
  }

  lemma NoNameKeys()
    ensures NameKeys([]) == {}
  {
  }

  method PlanListedPolicies(g: WantGroup, list: seq<string>, cur: set<string>)
    returns (plan: seq<Action>, rest: set<string>)
    ensures plan == ListedPolicies(g, list, cur)
    ensures rest == cur - NameKeys(list)
  {
    hide NameKeys;
    plan, rest := [], cur;
    NoNameKeys();
    for i := 0 to |list|
      invariant plan == ListedPolicies(g, list[..i], cur)
      invariant rest == cur - NameKeys(list[..i])
    {
      assert list[..i + 1][..i] == list[..i];
      NameKeysGrow(list, i);
      if Key(list[i]) in rest {
        rest := rest - {Key(list[i])};
      } else {
        plan := plan + [AssignTo(g.name, list[i])];
      }
    }
    assert list[..|list|] == list;
  }

  method PlanUnassigns(g: WantGroup, extras: seq<string>) returns (plan: seq<Action>)
    ensures plan == Unassigns(g, extras)
  {
    plan := [];
    for i := 0 to |extras|
      invariant plan == Unassigns(g, extras[..i])
    {
      assert extras[..i + 1][..i] == extras[..i];
      plan := plan + [UnassignFrom(g.name, extras[i])];
    }
    assert extras[..|extras|] == extras;
  }

  method PlanAssignments(seen: Seen, g: WantGroup) returns (plan: seq<Action>)
    ensures plan == AssignmentPlan(seen, g)
  {
    hide NameKeys, ListedPolicies;
    plan := [];
    if g.policies.None? { return; }
    var curAssigned := AssignedKeys(seen.policyRows, g);
    var listed, rest := PlanListedPolicies(g, g.policies.value, curAssigned);
    var extras := SortedKeys(rest);
    var unassigns := PlanUnassigns(g, extras);
    plan := listed + unassigns;
  }

  method PlanHeader(seen: Seen, want: WantGroup) returns (plan: seq<Action>)
    ensures plan == HeaderActions(seen, want)
  {
    plan := [];
    if Key(want.name) !in seen.groups {
      plan := [CreateGroup(want.name, want.color)];
    } else if want.color != "" && !EqualFold(want.color, seen.groups[Key(want.name)].color) {
      plan := [RecolorGroup(seen.groups[Key(want.name)].id, want.name, want.color)];
    }
  }

  method PlanGroups(seen: Seen, list: seq<WantGroup>) returns (plan: seq<Action>)
    ensures plan == GroupPlan(seen, list)
  {
    hide SoftwarePlan, AssignmentPlan, HeaderActions;
    plan := [];
    for i := 0 to |list|
      invariant plan == GroupPlan(seen, list[..i])
    {
      assert list[..i + 1][..i] == list[..i];
      var header := PlanHeader(seen, list[i]);
      var software := PlanSoftware(seen, list[i]);
      var assignments := PlanAssignments(seen, list[i]);
      plan := plan + (header + software + assignments);
    }
    assert list[..|list|] == list;
  }

  /** applyPlan from the rows of the four GETs. */
  method ApplyPlan(groups: seq<GroupRow>, rules: seq<RuleRow>, scripts: seq<ScriptRow>, policies: seq<PolicyRow>,
                   cfg: Config)
    returns (plan: seq<Action>)
    ensures plan == PlanFor(Seen(Changes.Index(GroupRowKey, groups), rules, Changes.Index(ScriptRowKey, scripts),
                                 Changes.Index(PolicyRowKey, policies), policies), cfg)
  {
    var groupByName := Changes.IndexBy(GroupRowKey, groups);
    var scriptByName := Changes.IndexBy(ScriptRowKey, scripts);
    var policyByName := Changes.IndexBy(PolicyRowKey, policies);
    var seen := Seen(groupByName, rules, scriptByName, policyByName, policies);
    var first := PlanScripts(seen, cfg.scripts);
    var second := PlanPolicies(seen, cfg.policies);
    var third := PlanGroups(seen, cfg.groups);
    plan := first + second + third;
  }
}
