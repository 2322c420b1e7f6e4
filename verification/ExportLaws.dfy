/** Exporting a server and applying the result to it changes nothing, and the file is the same whatever
    order the server answers in. */
module ExportLaws {
  import opened Ordering
  import opened Fleet
  import opened Planner
  import opened Executor
  import opened Simulation
  import opened Goals
  import opened GroupGoals
  import opened Convergence
  import opened ExportConfig

  // ---- Groups ----

  /** A rule of the group itself is listed by its row, and only there. */
  lemma RuleListed(s: Server, rules: seq<RuleRow>, gid: Id, gk: string)
    requires OneRuleEach(s.rules) && ShowsRules(s, rules) && Holder(GroupName, s.groups, gk) == Some(gid)
    ensures forall r :: r in rules && OwnRule(r, gid) ==>
        RuleAt(s, gk, Key(r.software)) == Some(r.id) && s.rules[r.id].ruleType == r.ruleType
    ensures forall k :: RuleAt(s, gk, k).Some? ==>
        exists r :: r in rules && OwnRule(r, gid) && Key(r.software) == k && RuleAt(s, gk, k) == Some(r.id)
  {
    hide Key, RuleAt, Holder;
    forall r | r in rules && OwnRule(r, gid)
        ensures RuleAt(s, gk, Key(r.software)) == Some(r.id) && s.rules[r.id].ruleType == r.ruleType {
      assert Binds(s.rules[r.id], gid, Key(r.software));
      RuleAtIs(s, gk, Key(r.software), r.id);
    }
    forall k | RuleAt(s, gk, k).Some?
        ensures exists r :: r in rules && OwnRule(r, gid) && Key(r.software) == k && RuleAt(s, gk, k) == Some(r.id) {
      var i := RuleAt(s, gk, k).value;
      assert RuleRowOf(i, s.rules[i]) in rules && OwnRule(RuleRowOf(i, s.rules[i]), gid);
    }
  }

  lemma RulesExported(s: Server, rules: seq<RuleRow>, gid: Id, gk: string)
    requires OneRuleEach(s.rules) && ShowsRules(s, rules) && Holder(GroupName, s.groups, gk) == Some(gid)
    ensures RulesOk(s, gk, ExportedRules(rules, gid)) && DistinctRules(ExportedRules(rules, gid))
  {
    hide Key, RuleAt, Holder, Arrange, OneRuleEach, ShowsRules;
    RuleListed(s, rules, gid, gk);
    RulesTellApart(s, rules, gid, gk);
    var list := ExportedRules(rules, gid);
    forall w | w in list ensures At(s, SRule(gk, Key(w.name))) == Some(VRule(w.ruleType)) {
      var r :| r in rules && OwnRule(r, gid) && RuleWant(r) == w;
    }
    forall k | RuleAt(s, gk, k).Some? ensures k in RuleKeys(list) {
      var r :| r in rules && OwnRule(r, gid) && Key(r.software) == k && RuleAt(s, gk, k) == Some(r.id);
      assert RuleWant(r) in list;
    }
    AscendingIsDistinct(ByRule, list);
    forall i, j | 0 <= i < j < |list| ensures Apart2(list[i].name, list[j].name) {
      assert list[i] in list && list[j] in list;
      var a :| a in rules && OwnRule(a, gid) && RuleWant(a) == list[i];
      var b :| b in rules && OwnRule(b, gid) && RuleWant(b) == list[j];
    }
  }

  /** Own rules of one name are one rule. */
  lemma RulesTellApart(s: Server, rules: seq<RuleRow>, gid: Id, gk: string)
    requires OneRuleEach(s.rules) && ShowsRules(s, rules) && Holder(GroupName, s.groups, gk) == Some(gid)
    ensures forall a, b :: a in rules && b in rules && OwnRule(a, gid) && OwnRule(b, gid) ==>
              Key(a.software) == Key(b.software) ==> a == b
    ensures KeyedApart(ByRule, set r | r in rules && OwnRule(r, gid) :: RuleWant(r))
  {
    hide Key, RuleAt, Holder;
    RuleListed(s, rules, gid, gk);
    var all := set r | r in rules && OwnRule(r, gid) :: RuleWant(r);
    forall x, y | x in all && y in all && ByRule(x) == ByRule(y) ensures x == y {
      assert ByRule(x)[0] == x.name && ByRule(y)[0] == y.name;
    }
  }

  lemma NamesExported(s: Server, policies: seq<PolicyRow>, g: WantGroup, gid: Id)
    requires Consistent(s) && ListsPolicies(s, policies) && gid in s.groups && s.groups[gid].name == g.name
    ensures AssignmentsOk(s, Key(g.name), ExportedNames(policies, g.name))
        && DistinctNames(ExportedNames(policies, g.name))
  {
    hide Key, Consistent, ListsPolicies, IsPolicyRow, IsAssignedOn, Arrange;
    var gk, list := Key(g.name), ExportedNames(policies, g.name);
    PoliciesNamed(s, policies);
    forall r | r in policies ensures g.name in r.groupNames <==> IsAssignedOn(s, gk, Key(r.name)) {
      RowAssigned(s, r, g);
      RowNamesGroup(s, r, g, gid);
    }
    forall k ensures IsAssignedOn(s, gk, k) <==> k in NameKeys(list) {
      if IsAssignedOn(s, gk, k) {
        var r := RowOfAssigned(s, policies, gk, k);
        assert r.name in list;
      }
      if k in NameKeys(list) {
        var n :| n in list && Key(n) == k;
        var r :| r in policies && g.name in r.groupNames && r.name == n;
      }
    }
    KeysArranged(set r | r in policies && g.name in r.groupNames :: r.name, list);
    forall i, j | 0 <= i < j < |list| ensures Apart2(list[i], list[j]) {
      assert list[i] in list && list[j] in list;
      var a :| a in policies && g.name in a.groupNames && a.name == list[i];
      var b :| b in policies && g.name in b.groupNames && b.name == list[j];
      SamePolicyName(s, a.id, b.id);
    }
  }

  lemma SamePolicyName(s: Server, a: Id, b: Id)
    requires Consistent(s) && a in s.policies && b in s.policies
    ensures Key(s.policies[a].name) == Key(s.policies[b].name) ==> a == b
  {
    hide Key;
    assert Holds(PolicyName, s.policies, Key(s.policies[a].name), a);
    if Key(s.policies[a].name) == Key(s.policies[b].name) {
      assert Holds(PolicyName, s.policies, Key(s.policies[a].name), b);
    }
  }

  lemma RowOfAssigned(s: Server, policies: seq<PolicyRow>, gk: string, k: string) returns (r: PolicyRow)
    requires Consistent(s) && ListsPolicies(s, policies) && IsAssignedOn(s, gk, k)
    ensures r in policies && Key(r.name) == k
  {
    hide Key, Consistent, ListsPolicies;
    PoliciesNamed(s, policies);
    var i := Holder(PolicyName, s.policies, k).value;
    r :| r in policies && r.id == i;
  }

  /** Names in rows are spelled as on the server. */
  lemma RowNamesGroup(s: Server, r: PolicyRow, g: WantGroup, gid: Id)
    requires Consistent(s) && IsPolicyRow(s, r) && gid in s.groups && s.groups[gid].name == g.name
    ensures AssignedTo(r, g) <==> g.name in r.groupNames
  {
    ConsistentNames(s);
    hide Key, Consistent;
    if AssignedTo(r, g) {
      var n :| n in r.groupNames && Key(n) == Key(g.name);
      var i :| i in s.policies[r.id].groups && i in s.groups && s.groups[i].name == n;
      assert Holds(GroupName, s.groups, Key(n), i) && Holds(GroupName, s.groups, Key(n), gid);
    }
  }

  lemma GroupExported(s: Server, groups: seq<GroupRow>, rules: seq<RuleRow>, policies: seq<PolicyRow>, r: GroupRow)
    requires Consistent(s) && ListsGroups(s, groups) && ListsRules(s, rules) && ListsPolicies(s, policies)
        && r in groups
    ensures var g := ExportedGroup(r, rules, policies); GroupOk(s, g) && DistinctLists(g)
  {
    hide Key, Consistent, ListsPolicies, ShowsRules, RulesOk, AssignmentsOk, DistinctRules, DistinctNames,
        OneRuleEach, UniqueNames, ExportedRules, ExportedNames;
    var g := ExportedGroup(r, rules, policies);
    ConsistentNames(s);
    RulesOneEach(s);
    HolderIs(GroupName, s.groups, Key(r.name), r.id);
    RulesExported(s, rules, r.id, Key(r.name));
    NamesExported(s, policies, g, r.id);
  }

  lemma GroupsExported(s: Server, groups: seq<GroupRow>, rules: seq<RuleRow>, policies: seq<PolicyRow>)
    requires Consistent(s) && ListsGroups(s, groups) && ListsRules(s, rules) && ListsPolicies(s, policies)
    ensures var list := ExportedGroups(groups, rules, policies);
            DistinctGroups(list) && forall g :: g in list ==> GroupOk(s, g)
  {
    hide Key, Consistent, ListsPolicies, ListsRules, GroupOk, DistinctLists, Arrange, ExportedRules, ExportedNames;
    var list := ExportedGroups(groups, rules, policies);
    forall g | g in list
      ensures GroupOk(s, g) && DistinctLists(g)
      ensures exists r :: r in groups && ExportedGroup(r, rules, policies) == g
    {
      var r :| r in groups && ExportedGroup(r, rules, policies) == g;
      GroupExported(s, groups, rules, policies, r);
    }
    GroupNamesApart(s, groups);
    GroupsTellApart(groups, rules, policies);
    AscendingIsDistinct(ByGroup, list);
    forall i, j | 0 <= i < j < |list| ensures Apart2(list[i].name, list[j].name) {
      assert list[i] in list && list[j] in list;
      var a :| a in groups && ExportedGroup(a, rules, policies) == list[i];
      var b :| b in groups && ExportedGroup(b, rules, policies) == list[j];
    }
  }

  lemma GroupNamesApart(s: Server, groups: seq<GroupRow>)
    requires Consistent(s) && ListsGroups(s, groups)
    ensures forall a, b :: a in groups && b in groups && Key(a.name) == Key(b.name) ==> a == b
  {
    hide Key, Consistent;
    ConsistentNames(s);
    forall a, b | a in groups && b in groups && Key(a.name) == Key(b.name) ensures a == b {
      assert Holds(GroupName, s.groups, Key(a.name), a.id) && Holds(GroupName, s.groups, Key(a.name), b.id);
    }
  }

  lemma GroupsTellApart(groups: seq<GroupRow>, rules: seq<RuleRow>, policies: seq<PolicyRow>)
    requires forall a, b :: a in groups && b in groups && Key(a.name) == Key(b.name) ==> a == b
    ensures KeyedApart(ByGroup, set g | g in groups :: ExportedGroup(g, rules, policies))
  {
    hide Key, ExportedRules, ExportedNames;
    var all := set g | g in groups :: ExportedGroup(g, rules, policies);
    forall x, y | x in all && y in all && ByGroup(x) == ByGroup(y) ensures x == y {
      assert ByGroup(x)[0] == x.name && ByGroup(y)[0] == y.name;
    }
  }

  // ---- Policies ----

  lemma PolicyNamesApart(s: Server, policies: seq<PolicyRow>)
    requires Consistent(s) && ListsPolicies(s, policies)
    ensures forall a, b :: a in policies && b in policies && Key(a.name) == Key(b.name) ==>
        PolicyWant(a) == PolicyWant(b)
  {
    hide Key, Consistent, ListsPolicies;
    PoliciesNamed(s, policies);
    forall a, b | a in policies && b in policies && Key(a.name) == Key(b.name) ensures PolicyWant(a) == PolicyWant(b) {
      SamePolicyName(s, a.id, b.id);
    }
  }

  lemma PolicyExported(s: Server, r: PolicyRow)
    requires Consistent(s) && IsPolicyRow(s, r)
    ensures PolicyOk(s, PolicyWant(r))
  {
    hide Key, Consistent;
    PolicyOfKey(s, r.id);
  }

  lemma PoliciesTellApart(policies: seq<PolicyRow>)
    requires forall a, b :: a in policies && b in policies && Key(a.name) == Key(b.name) ==>
        PolicyWant(a) == PolicyWant(b)
    ensures KeyedApart(ByPolicy, set r | r in policies :: PolicyWant(r))
  {
    hide Key, DecodeMap;
    var all := set r | r in policies :: PolicyWant(r);
    forall x, y | x in all && y in all && ByPolicy(x) == ByPolicy(y) ensures x == y {
      assert ByPolicy(x)[0] == x.name && ByPolicy(y)[0] == y.name;
    }
  }

  lemma PoliciesExported(s: Server, policies: seq<PolicyRow>)
    requires Consistent(s) && ListsPolicies(s, policies)
    ensures var list := ExportedPolicies(policies); DistinctPolicies(list) && forall w :: w in list ==> PolicyOk(s, w)
  {
    hide Key, Consistent, ListsPolicies, PolicyOk, Arrange, IsPolicyRow, DecodeMap;
    var list := ExportedPolicies(policies);
    PoliciesNamed(s, policies);
    PolicyNamesApart(s, policies);
    PoliciesTellApart(policies);
    forall w | w in list ensures PolicyOk(s, w) {
      var r :| r in policies && PolicyWant(r) == w;
      PolicyExported(s, r);
    }
    AscendingIsDistinct(ByPolicy, list);
    forall i, j | 0 <= i < j < |list| ensures Apart2(list[i].name, list[j].name) {
      assert list[i] in list && list[j] in list;
      var a :| a in policies && PolicyWant(a) == list[i];
      var b :| b in policies && PolicyWant(b) == list[j];
    }
  }

  // ---- Scripts ----

  lemma ScriptNamesApart(s: Server, scripts: seq<ScriptRow>, layout: Layout)
    requires Consistent(s) && ListsScripts(s, scripts)
    ensures forall a, b :: a in scripts && b in scripts && Key(a.name) == Key(b.name) ==> a == b
    ensures KeyedApart(ByFileScript, set r | r in scripts :: FileOf(layout, r))
  {
    hide Key, Consistent;
    ConsistentNames(s);
    forall a, b | a in scripts && b in scripts && Key(a.name) == Key(b.name) ensures a == b {
      assert Holds(ScriptName, s.scripts, Key(a.name), a.id) && Holds(ScriptName, s.scripts, Key(a.name), b.id);
    }
    var all := set r | r in scripts :: FileOf(layout, r);
    forall x, y | x in all && y in all && ByFileScript(x) == ByFileScript(y) ensures x == y {
      assert ByFileScript(x)[0] == x.name && ByFileScript(y)[0] == y.name;
    }
  }

  /** The scripts got are those of the rows, with the bodies read back. */
  ghost predicate ReadBack(got: seq<WantScript>, scripts: seq<ScriptRow>, layout: Layout, disk: map<string, string>)
    requires forall r :: r in scripts ==> Body(FileOf(layout, r), disk).Some?
  {
    && (forall r :: r in scripts ==> WithBody(FileOf(layout, r), disk) in got)
    && (forall w :: w in got ==> exists r :: r in scripts && w == WithBody(FileOf(layout, r), disk))
  }

  lemma ExportedNamesApart(s: Server, scripts: seq<ScriptRow>, layout: Layout)
    requires Consistent(s) && ListsScripts(s, scripts)
    ensures var list := ExportedScripts(scripts, layout);
            && (forall f :: f in list <==> exists r :: r in scripts && FileOf(layout, r) == f)
            && (forall i, j :: 0 <= i < j < |list| ==> Apart2(list[i].name, list[j].name))
  {
    hide Key, Consistent, Arrange, ListsScripts;
    var list := ExportedScripts(scripts, layout);
    ScriptNamesApart(s, scripts, layout);
    AscendingIsDistinct(ByFileScript, list);
    hide Ascending, KeyedApart;
    forall i, j | 0 <= i < j < |list| ensures Apart2(list[i].name, list[j].name) {
      assert list[i] in list && list[j] in list;
      var a :| a in scripts && FileOf(layout, a) == list[i];
      var b :| b in scripts && FileOf(layout, b) == list[j];
    }
  }

  /** The exported scripts, read back: one per row, no name twice. */
  lemma ScriptsReadBack(s: Server, scripts: seq<ScriptRow>, layout: Layout, disk: map<string, string>)
    requires Consistent(s) && ListsScripts(s, scripts)
    ensures var got := Load(ExportedScripts(scripts, layout), disk);
            && (got.Some? <==> forall r :: r in scripts ==> Body(FileOf(layout, r), disk).Some?)
            && (got.Some? ==> DistinctScripts(got.value) && ReadBack(got.value, scripts, layout, disk))
  {
    hide Key, Consistent, Arrange, Body, ListsScripts, ExportedScripts, FileOf, Load, WithBody;
    var list := ExportedScripts(scripts, layout);
    ExportedNamesApart(s, scripts, layout);
    LoadIs(list, disk);
    assert Load(list, disk).Some? <==> forall r :: r in scripts ==> Body(FileOf(layout, r), disk).Some? by {
      forall r | r in scripts ensures FileOf(layout, r) in list {}
    }
    if Load(list, disk).Some? { LoadKeepsNames(list, disk); }
  }

  lemma FileKeepsName(scripts: seq<ScriptRow>, layout: Layout)
    ensures forall r :: r in scripts ==> FileOf(layout, r).name == r.name && FileOf(layout, r).platform == r.platform
  {
  }

  lemma ScriptExported(s: Server, scripts: seq<ScriptRow>, r: ScriptRow, content: string)
    requires Consistent(s) && ListsScripts(s, scripts) && r in scripts
    ensures ScriptOk(s, WantScript(r.name, r.platform, content)) <==> content == r.content
    ensures r.id in s.scripts && s.scripts[r.id].platform == r.platform
  {
    ConsistentNames(s);
    hide Key, Consistent;
    HolderIs(ScriptName, s.scripts, Key(r.name), r.id);
  }

  // ---- The round trip ----

  ghost predicate KnownPlatforms(s: Server) {
    forall i :: i in s.scripts ==> CanonicalPlatform(s.scripts[i].platform).Some?
  }

  ghost function ExportOf(groups: seq<GroupRow>, rules: seq<RuleRow>, scripts: seq<WantScript>,
                          policies: seq<PolicyRow>): Config {
    Config(ExportedGroups(groups, rules, policies), scripts, ExportedPolicies(policies))
  }

  /** Applying what was exported, bodies read back from wherever they went, plans nothing if and only if
      every body comes back as it was. */
  lemma ExportThenApply(s: Server, groups: seq<GroupRow>, rules: seq<RuleRow>, scripts: seq<ScriptRow>,
                        policies: seq<PolicyRow>,
                        layout: Layout, disk: map<string, string>, seen: Seen)
    requires Consistent(s) && KnownPlatforms(s) && Listed(s, groups, rules, scripts, policies) && Shown(s, seen)
    requires Load(ExportedScripts(scripts, layout), disk).Some?
    ensures PlanFor(seen, ExportOf(groups, rules, Load(ExportedScripts(scripts, layout), disk).value, policies)) == []
            <==> forall r :: r in scripts ==> Body(FileOf(layout, r), disk) == Some(r.content)
  {
    hide Consistent, Shown, ListsPolicies, ListsRules, ListsGroups, ListsScripts, Body, Load, DistinctScripts,
        DistinctPolicies, DistinctGroups, ExportedGroups, ExportedPolicies, ExportedScripts, ScriptOk, PolicyOk,
        GroupOk, PlanFor, CanonicalPlatform, FileOf;
    var got := Load(ExportedScripts(scripts, layout), disk).value;
    var cfg := ExportOf(groups, rules, got, policies);
    GroupsExported(s, groups, rules, policies);
    PoliciesExported(s, policies);
    ScriptsReadBack(s, scripts, layout, disk);
    FileKeepsName(scripts, layout);
    forall w | w in got ensures CanonicalPlatform(w.platform).Some? {
      var r :| r in scripts && w == WithBody(FileOf(layout, r), disk);
      ScriptExported(s, scripts, r, w.content);
    }
    NothingToDoExactly(s, seen, cfg);
    forall r | r in scripts ensures ScriptOk(s, WithBody(FileOf(layout, r), disk)) <==>
        Body(FileOf(layout, r), disk) == Some(r.content) {
      ScriptExported(s, scripts, r, Body(FileOf(layout, r), disk).value);
    }
    if Satisfies(s, cfg) {
      forall r | r in scripts ensures Body(FileOf(layout, r), disk) == Some(r.content) {
        assert WithBody(FileOf(layout, r), disk) in got;
      }
    }
  }

  /** With bodies inline: the file can be read back if and only if no body is empty, and
      then applying it plans nothing. */
  lemma InlineExportIsNoOp(s: Server, groups: seq<GroupRow>, rules: seq<RuleRow>, scripts: seq<ScriptRow>,
                           policies: seq<PolicyRow>,
                           disk: map<string, string>, seen: Seen)
    requires Consistent(s) && KnownPlatforms(s) && Listed(s, groups, rules, scripts, policies) && Shown(s, seen)
    ensures var got := Load(ExportedScripts(scripts, Inline), disk);
            && (got.Some? <==> forall r :: r in scripts ==> r.content != "")
            && (got.Some? ==> PlanFor(seen, ExportOf(groups, rules, got.value, policies)) == [])
  {
    hide Consistent, Shown, ListsPolicies, ListsRules, ListsGroups, ListsScripts, Load, ExportedScripts,
        KnownPlatforms, ExportOf, PlanFor;
    ScriptsReadBack(s, scripts, Inline, disk);
    if Load(ExportedScripts(scripts, Inline), disk).Some? {
      ExportThenApply(s, groups, rules, scripts, policies, Inline, disk, seen);
    }
  }

  lemma {:induction false} FilesHold(scripts: seq<ScriptRow>, layout: Layout)
    requires layout.Files?
    ensures forall r :: r in scripts ==> layout.pathOf(r.name, r.platform) in FilesOf(scripts, layout)
    ensures forall p :: p in FilesOf(scripts, layout) ==>
        exists r :: r in scripts && layout.pathOf(r.name, r.platform) == p && FilesOf(scripts, layout)[p] == r.content
  {
    if scripts != [] {
      var front, last := scripts[..|scripts| - 1], scripts[|scripts| - 1];
      FilesHold(front, layout);
      assert scripts == front + [last];
    }
  }

  /** Two scripts share a file without sharing a body. */
  ghost predicate Collide(scripts: seq<ScriptRow>, layout: Layout)
    requires layout.Files?
  {
    exists a, b :: a in scripts && b in scripts
        && layout.pathOf(a.name, a.platform) == layout.pathOf(b.name, b.platform) && a.content != b.content
  }

  /** The path apply accepts for a script body. */
  predicate Reachable(layout: Layout, r: ScriptRow)
    requires layout.Files?
  {
    var p := layout.pathOf(r.name, r.platform);
    p != "" && !Escapes(p)
  }

  /** With bodies in files: the file can be read back if and only if every path stays below it, and then
      applying it plans nothing if and only if no two scripts with different bodies are given the same path. */
  lemma FileExportIsNoOp(s: Server, groups: seq<GroupRow>, rules: seq<RuleRow>, scripts: seq<ScriptRow>,
                         policies: seq<PolicyRow>, layout: Layout, seen: Seen)
    requires Consistent(s) && KnownPlatforms(s) && Listed(s, groups, rules, scripts, policies) && Shown(s, seen)
    requires layout.Files?
    ensures var got := Load(ExportedScripts(scripts, layout), FilesOf(scripts, layout));
            && (got.Some? <==> forall r :: r in scripts ==> Reachable(layout, r))
            && (got.Some? ==>
                  (PlanFor(seen, ExportOf(groups, rules, got.value, policies)) == [] <==> !Collide(scripts, layout)))
  {
    hide Consistent, Shown, ListsPolicies, ListsRules, ListsGroups, ListsScripts, Load, ExportedScripts, KnownPlatforms;
    hide ExportOf, PlanFor, FilesOf, Escapes, Collide, Reachable, FileOf, Body;
    var disk := FilesOf(scripts, layout);
    BodiesStored(scripts, layout);
    ScriptsReadBack(s, scripts, layout, disk);
    if Load(ExportedScripts(scripts, layout), disk).Some? {
      ExportThenApply(s, groups, rules, scripts, policies, layout, disk, seen);
      CollidingBodies(scripts, layout, disk);
    }
  }

  lemma BodiesStored(scripts: seq<ScriptRow>, layout: Layout)
    requires layout.Files?
    ensures var disk := FilesOf(scripts, layout);
            forall r :: r in scripts ==>
              && Body(FileOf(layout, r), disk) == StoredBody(layout, r, disk)
              && (Body(FileOf(layout, r), disk).Some? <==> Reachable(layout, r))
  {
    hide Body, FileOf, StoredBody, Reachable, FilesOf;
    FilesHold(scripts, layout);
    forall r | r in scripts
      ensures Body(FileOf(layout, r), FilesOf(scripts, layout)) == StoredBody(layout, r, FilesOf(scripts, layout))
      ensures Body(FileOf(layout, r), FilesOf(scripts, layout)).Some? <==> Reachable(layout, r)
    {
      BodyStored(scripts, layout, r, FilesOf(scripts, layout));
    }
  }

  function StoredBody(layout: Layout, r: ScriptRow, disk: map<string, string>): Option<string>
    requires layout.Files?
  {
    var p := layout.pathOf(r.name, r.platform);
    if Reachable(layout, r) && p in disk then Some(disk[p]) else None
  }

  lemma BodyStored(scripts: seq<ScriptRow>, layout: Layout, r: ScriptRow, disk: map<string, string>)
    requires layout.Files? && r in scripts && layout.pathOf(r.name, r.platform) in disk
    ensures Body(FileOf(layout, r), disk) == StoredBody(layout, r, disk)
    ensures Body(FileOf(layout, r), disk).Some? <==> Reachable(layout, r)
  {
  }

  /** Every body comes back as it was if and only if no two bodies meet in one file. */
  lemma CollidingBodies(scripts: seq<ScriptRow>, layout: Layout, disk: map<string, string>)
    requires layout.Files? && disk == FilesOf(scripts, layout)
    requires forall r :: r in scripts ==> Reachable(layout, r)
    requires forall r :: r in scripts ==> Body(FileOf(layout, r), disk) == StoredBody(layout, r, disk)
    ensures (forall r :: r in scripts ==> Body(FileOf(layout, r), disk) == Some(r.content)) <==>
        !Collide(scripts, layout)
  {
    hide FilesOf, Reachable, Body, FileOf;
    FilesHold(scripts, layout);
    if forall r :: r in scripts ==> Body(FileOf(layout, r), disk) == Some(r.content) {
      forall a, b | a in scripts && b in scripts
          && layout.pathOf(a.name, a.platform) == layout.pathOf(b.name, b.platform)
        ensures a.content == b.content
      {
        assert Body(FileOf(layout, a), disk) == Body(FileOf(layout, b), disk);
      }
    }
    if !Collide(scripts, layout) {
      forall r | r in scripts ensures Body(FileOf(layout, r), disk) == Some(r.content) {
        var p := layout.pathOf(r.name, r.platform);
        var q :| q in scripts && layout.pathOf(q.name, q.platform) == p && disk[p] == q.content;
      }
    }
  }

  // ---- A collision ----

  const TWINS := Server(map[], map[], map[0 := Script("a b", "Linux", "one"), 1 := Script("a-b", "Linux", "two")],
      map[], 2, CLI_TOGGLE_FIELD)

  const TWIN_ROWS := [ScriptRow(0, "a b", "Linux", "one"), ScriptRow(1, "a-b", "Linux", "two")]

  /** Two names that a file-name rule cannot tell apart: the server is consistent, the export succeeds, and
      applying it to the very same server plans a change. */
  lemma TwinsCollide(layout: Layout, seen: Seen)
    requires layout.Files? && layout.pathOf("a b", "Linux") == layout.pathOf("a-b", "Linux") && Shown(TWINS, seen)
    requires layout.pathOf("a b", "Linux") != "" && !Escapes(layout.pathOf("a b", "Linux"))
    ensures Consistent(TWINS) && Listed(TWINS, [], [], TWIN_ROWS, [])
    ensures var got := Load(ExportedScripts(TWIN_ROWS, layout), FilesOf(TWIN_ROWS, layout));
            got.Some? && PlanFor(seen, ExportOf([], [], got.value, [])) != []
  {
    TwinsAreListed();
    hide Consistent, Shown, Listed, Load, ExportedScripts, FilesOf, Escapes, ExportOf, PlanFor, KnownPlatforms;
    assert TWIN_ROWS[0] in TWIN_ROWS && TWIN_ROWS[1] in TWIN_ROWS && "one"[0] != "two"[0];
    assert Collide(TWIN_ROWS, layout);
    FileExportIsNoOp(TWINS, [], [], TWIN_ROWS, [], layout, seen);
  }

  lemma TwinsAreListed()
    ensures Consistent(TWINS) && KnownPlatforms(TWINS) && Listed(TWINS, [], [], TWIN_ROWS, [])
  {
    TwinKeys();
    hide Key, CanonicalPlatform;
    assert TWIN_ROWS[0] in TWIN_ROWS && TWIN_ROWS[1] in TWIN_ROWS;
    assert forall i :: i in TWINS.scripts ==> i == 0 || i == 1;
  }

  lemma TwinKeys()
    ensures Key("a b") != Key("a-b") && CanonicalPlatform("Linux").Some?
  {
    assert Trim("a b") == "a b" && Trim("a-b") == "a-b" && Trim("Linux") == "Linux";
    assert Lower("a b")[1] != Lower("a-b")[1];
    var l := Lower("Linux");
    assert l[0] == 'l' && l[1] == 'i' && l[2] == 'n' && l[3] == 'u' && l[4] == 'x';
    assert l == "linux";
  }
}
