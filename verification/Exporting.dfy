/** The loops of exportConfig and of reading the bodies back. */
module Exporting {
  import opened Ordering
  import opened Fleet
  import opened Planner
  import opened Executor
  import opened Simulation
  import opened Goals
  import opened GroupGoals
  import opened ExportConfig
  import opened ExportLaws
  import Changes

  function Bucket<K, T>(m: map<K, seq<T>>, k: K): seq<T> { if k in m then m[k] else [] }

  lemma SortedIsArranged<T(!new)>(rank: T -> seq<string>, list: seq<T>, out: seq<T>, s: set<T>)
    requires multiset(out) == multiset(list) && Sorted(rank, out)
    requires forall i, j :: 0 <= i < j < |list| ==> rank(list[i]) != rank(list[j])
    requires forall x :: x in list <==> x in s
    ensures out == Arrange(rank, s)
  {
    SortedDistinct(rank, list, out);
    ArrangeIs(rank, s, out);
  }

  // ---- Rules by group ----

  function Wants(rows: seq<RuleRow>): (r: seq<WantRule>)
    ensures |r| == |rows| && forall i :: 0 <= i < |r| ==> r[i] == RuleWant(rows[i])
  {
    if rows == [] then [] else Wants(rows[..|rows| - 1]) + [RuleWant(rows[|rows| - 1])]
  }

  method GroupRules(rules: seq<RuleRow>) returns (byGroup: map<Id, seq<WantRule>>)
    ensures forall g :: Bucket(byGroup, g) == Wants(RulesOf(rules, g))
  {
    byGroup := map[];
    for i := 0 to |rules|
      invariant forall g :: Bucket(byGroup, g) == Wants(RulesOf(rules[..i], g))
    {
      var r := rules[i];
      RulesOfGrows(rules, i);
      if r.group.Some? && r.device.None? {
        byGroup := byGroup[r.group.value := Bucket(byGroup, r.group.value) + [RuleWant(r)]];
      }
    }
    assert rules[..|rules|] == rules;
  }

  lemma RulesOfGrows(rules: seq<RuleRow>, i: nat)
    requires i < |rules|
    ensures forall g :: Wants(RulesOf(rules[..i + 1], g))
                        == Wants(RulesOf(rules[..i], g)) + if OwnRule(rules[i], g) then [RuleWant(rules[i])] else []
  {
    assert rules[..i + 1][..i] == rules[..i];
    forall g
      ensures Wants(RulesOf(rules[..i + 1], g))
              == Wants(RulesOf(rules[..i], g)) + if OwnRule(rules[i], g) then [RuleWant(rules[i])] else []
    {
      if OwnRule(rules[i], g) {
        assert RulesOf(rules[..i + 1], g) == RulesOf(rules[..i], g) + [rules[i]];
      }
    }
  }

  ghost predicate IdsApart(rows: seq<RuleRow>) { forall i, j :: 0 <= i < j < |rows| ==> rows[i].id != rows[j].id }

  lemma {:induction false} RulesOfApart(rules: seq<RuleRow>, g: Id)
    requires forall i, j :: 0 <= i < j < |rules| ==> rules[i].id != rules[j].id
    ensures IdsApart(RulesOf(rules, g))
  {
    if rules != [] {
      var front, last := rules[..|rules| - 1], rules[|rules| - 1];
      RulesOfApart(front, g);
      forall r | r in RulesOf(front, g) ensures r.id != last.id {
        assert r in front;
        var i :| 0 <= i < |front| && front[i] == r;
        assert rules[i] == r && rules[|rules| - 1] == last;
      }
      var own, o := RulesOf(rules, g), RulesOf(front, g);
      assert own == o + if OwnRule(last, g) then [last] else [];
      forall i, j | 0 <= i < j < |own| ensures own[i].id != own[j].id {
        assert own[i] == o[i] && o[i] in o;
        if j < |o| {
          assert own[j] == o[j] && o[i].id != o[j].id;
        } else {
          assert own[j] == last && o[i].id != last.id;
        }
      }
    }
  }

  lemma {:induction false} WantsHas(rows: seq<RuleRow>)
    ensures forall r :: r in rows ==> RuleWant(r) in Wants(rows)
    ensures forall w :: w in Wants(rows) ==> exists r :: r in rows && RuleWant(r) == w
  {
    if rows != [] {
      var front, last := rows[..|rows| - 1], rows[|rows| - 1];
      WantsHas(front);
      assert rows == front + [last];
    }
  }

  lemma BucketArranged(s: Server, rules: seq<RuleRow>, gid: Id, gk: string, out: seq<WantRule>)
    requires OneRuleEach(s.rules) && ListsRules(s, rules) && Holder(GroupName, s.groups, gk) == Some(gid)
    requires multiset(out) == multiset(Wants(RulesOf(rules, gid))) && Sorted(ByRule, out)
    ensures out == ExportedRules(rules, gid)
  {
    hide Key, Holder, OneRuleEach, ShowsRules, RulesOf, Sorted, Wants;
    var own := RulesOf(rules, gid);
    RulesOfApart(rules, gid);
    RulesTellApart(s, rules, gid, gk);
    var list := Wants(own);
    forall i, j | 0 <= i < j < |list| ensures ByRule(list[i]) != ByRule(list[j]) {
      assert own[i] in own && own[j] in own;
      assert ByRule(list[i])[0] == own[i].software && ByRule(list[j])[0] == own[j].software;
    }
    WantsHas(own);
    var all := set r | r in rules && OwnRule(r, gid) :: RuleWant(r);
    assert forall w :: w in list <==> w in all;
    SortedIsArranged(ByRule, list, out, all);
  }

  // ---- Policy names by group ----

  function NamesOf(rows: seq<PolicyRow>, group: string): (r: seq<string>)
    ensures forall n :: n in r <==> exists p :: p in rows && group in p.groupNames && p.name == n
  {
    if rows == [] then []
    else
      var front, last := rows[..|rows| - 1], rows[|rows| - 1];
      assert rows == front + [last];
      NamesOf(front, group) + if group in last.groupNames then [last.name] else []
  }

  method GroupPolicies(policies: seq<PolicyRow>) returns (byGroup: map<string, seq<string>>)
    requires forall r :: r in policies ==> forall m, n :: 0 <= m < n < |r.groupNames| ==>
        r.groupNames[m] != r.groupNames[n]
    ensures forall g :: Bucket(byGroup, g) == NamesOf(policies, g)
  {
    hide NamesOf;
    byGroup := map[];
    NoNames();
    for i := 0 to |policies|
      invariant forall g :: Bucket(byGroup, g) == NamesOf(policies[..i], g)
    {
      var p := policies[i];
      for j := 0 to |p.groupNames|
        invariant forall g :: Bucket(byGroup, g)
                              == NamesOf(policies[..i], g) + if g in p.groupNames[..j] then [p.name] else []
      {
        assert p.groupNames[..j + 1] == p.groupNames[..j] + [p.groupNames[j]];
        assert p.groupNames[j] !in p.groupNames[..j];
        byGroup := byGroup[p.groupNames[j] := Bucket(byGroup, p.groupNames[j]) + [p.name]];
      }
      assert p.groupNames[..|p.groupNames|] == p.groupNames;
      forall g
        ensures NamesOf(policies[..i + 1], g) == NamesOf(policies[..i], g) + if g in p.groupNames then [p.name] else []
      {
        NamesGrow(policies, i, g);
      }
    }
    assert policies[..|policies|] == policies;
  }

  lemma NoNames()
    ensures forall g :: NamesOf([], g) == []
  {
  }

  lemma NamesGrow(policies: seq<PolicyRow>, i: nat, g: string)
    requires i < |policies|
    ensures NamesOf(policies[..i + 1], g)
            == NamesOf(policies[..i], g) + if g in policies[i].groupNames then [policies[i].name] else []
  {
    assert policies[..i + 1][..i] == policies[..i];
  }

  lemma {:induction false} NamesOfApart(rows: seq<PolicyRow>, group: string)
    requires forall i, j :: 0 <= i < j < |rows| ==> rows[i].name != rows[j].name
    ensures var r := NamesOf(rows, group); forall i, j :: 0 <= i < j < |r| ==> r[i] != r[j]
  {
    if rows != [] {
      var front, last := rows[..|rows| - 1], rows[|rows| - 1];
      NamesOfApart(front, group);
      assert last.name !in NamesOf(front, group);
    }
  }

  lemma NamesArranged(rows: seq<PolicyRow>, group: string, out: seq<string>)
    requires forall i, j :: 0 <= i < j < |rows| ==> rows[i].name != rows[j].name
    requires multiset(out) == multiset(NamesOf(rows, group)) && Sorted(ByItself, out)
    ensures out == ExportedNames(rows, group)
  {
    hide Sorted;
    NamesOfApart(rows, group);
    var list := NamesOf(rows, group);
    forall i, j | 0 <= i < j < |list| ensures ByItself(list[i]) != ByItself(list[j]) {
      assert ByItself(list[i])[0] == list[i] && ByItself(list[j])[0] == list[j];
    }
    SortedIsArranged(ByItself, list, out, set r | r in rows && group in r.groupNames :: r.name);
  }

  /** No two rows of a listing share a name. */
  lemma RowNamesDiffer(s: Server, groups: seq<GroupRow>, scripts: seq<ScriptRow>, policies: seq<PolicyRow>)
    requires Consistent(s) && ListsGroups(s, groups) && ListsScripts(s, scripts) && ListsPolicies(s, policies)
    ensures forall i, j :: 0 <= i < j < |groups| ==> groups[i].name != groups[j].name
    ensures forall i, j :: 0 <= i < j < |scripts| ==> scripts[i].name != scripts[j].name
    ensures forall i, j :: 0 <= i < j < |policies| ==> policies[i].name != policies[j].name
  {
    hide Key, Consistent, IsPolicyRow;
    GroupNamesApart(s, groups);
    ScriptNamesApart(s, scripts, Inline);
    forall i, j | 0 <= i < j < |policies| ensures policies[i].name != policies[j].name {
      RowIsNamed(s, policies[i]);
      RowIsNamed(s, policies[j]);
      SamePolicyName(s, policies[i].id, policies[j].id);
    }
  }

  // ---- The lists ----

  method ExportGroups(groups: seq<GroupRow>, rules: seq<RuleRow>, policies: seq<PolicyRow>, ghost s: Server)
    returns (out: seq<WantGroup>)
    requires Consistent(s) && ListsGroups(s, groups) && ListsRules(s, rules) && ListsPolicies(s, policies)
    requires forall i, j :: 0 <= i < j < |groups| ==> groups[i].name != groups[j].name
    requires forall i, j :: 0 <= i < j < |policies| ==> policies[i].name != policies[j].name
    ensures out == ExportedGroups(groups, rules, policies)
  {
    hide Consistent, ListsRules, Key, IsPolicyRow, Holder, OneRuleEach, UniqueNames, Sorted, Arrange, RulesOf, Wants,
        NamesOf, ExportedRules, ExportedNames;
    RulesOneEach(s);
    ConsistentNames(s);
    var softByGroup := GroupRules(rules);
    var polsByGroup := GroupPolicies(policies);
    var list: seq<WantGroup> := [];
    for i := 0 to |groups|
      invariant |list| == i
      invariant forall j :: 0 <= j < i ==> list[j] == ExportedGroup(groups[j], rules, policies)
    {
      var g := groups[i];
      var soft := SortBy(ByRule, Bucket(softByGroup, g.id));
      var names := SortBy(ByItself, Bucket(polsByGroup, g.name));
      HolderIs(GroupName, s.groups, Key(g.name), g.id);
      BucketArranged(s, rules, g.id, Key(g.name), soft);
      NamesArranged(policies, g.name, names);
      list := list + [WantGroup(g.name, g.color, Slice(soft), Slice(names))];
    }
    out := SortBy(ByGroup, list);
    forall i, j | 0 <= i < j < |list| ensures ByGroup(list[i]) != ByGroup(list[j]) {
      assert ByGroup(list[i])[0] == groups[i].name && ByGroup(list[j])[0] == groups[j].name;
    }
    GroupsListed(groups, rules, policies, list);
    SortedIsArranged(ByGroup, list, out, set g | g in groups :: ExportedGroup(g, rules, policies));
  }

  lemma GroupsListed(groups: seq<GroupRow>, rules: seq<RuleRow>, policies: seq<PolicyRow>, list: seq<WantGroup>)
    requires |list| == |groups| && forall j :: 0 <= j < |list| ==> list[j] == ExportedGroup(groups[j], rules, policies)
    ensures forall w :: w in list <==> w in set g | g in groups :: ExportedGroup(g, rules, policies)
  {
    hide ExportedGroup;
    forall g | g in groups ensures ExportedGroup(g, rules, policies) in list {
      var i :| 0 <= i < |groups| && groups[i] == g;
      assert list[i] in list;
    }
    forall w | w in list ensures exists g :: g in groups && w == ExportedGroup(g, rules, policies) {
      var i :| 0 <= i < |list| && list[i] == w;
      assert groups[i] in groups;
    }
  }

  method ExportScripts(scripts: seq<ScriptRow>, layout: Layout)
    returns (out: seq<FileScript>, files: map<string, string>)
    requires forall i, j :: 0 <= i < j < |scripts| ==> scripts[i].name != scripts[j].name
    ensures out == ExportedScripts(scripts, layout)
    ensures files == FilesOf(scripts, layout)
  {
    hide Arrange;
    files := map[];
    var list: seq<FileScript> := [];
    for i := 0 to |scripts|
      invariant |list| == i
      invariant forall j :: 0 <= j < i ==> list[j] == FileOf(layout, scripts[j])
      invariant files == FilesOf(scripts[..i], layout)
    {
      assert scripts[..i + 1][..i] == scripts[..i];
      var r := scripts[i];
      match layout {
        case Inline => list := list + [FileScript(r.name, r.platform, "", r.content)];
        case Files(pathOf) =>
          files := files[pathOf(r.name, r.platform) := r.content];
          list := list + [FileScript(r.name, r.platform, pathOf(r.name, r.platform), "")];
      }
    }
    assert scripts[..|scripts|] == scripts;
    out := SortBy(ByFileScript, list);
    forall i, j | 0 <= i < j < |list| ensures ByFileScript(list[i]) != ByFileScript(list[j]) {
      assert ByFileScript(list[i])[0] == scripts[i].name && ByFileScript(list[j])[0] == scripts[j].name;
    }
    ScriptsOnList(scripts, layout, list);
    SortedIsArranged(ByFileScript, list, out, set r | r in scripts :: FileOf(layout, r));
  }

  lemma ScriptsOnList(scripts: seq<ScriptRow>, layout: Layout, list: seq<FileScript>)
    requires |list| == |scripts| && forall j :: 0 <= j < |list| ==> list[j] == FileOf(layout, scripts[j])
    ensures forall w :: w in list <==> w in set r | r in scripts :: FileOf(layout, r)
  {
    forall r | r in scripts ensures FileOf(layout, r) in list {
      var i :| 0 <= i < |scripts| && scripts[i] == r;
      assert list[i] in list;
    }
    forall w | w in list ensures exists r :: r in scripts && w == FileOf(layout, r) {
      var i :| 0 <= i < |list| && list[i] == w;
      assert scripts[i] in scripts;
    }
  }

  method ExportPolicies(policies: seq<PolicyRow>) returns (out: seq<WantPolicy>)
    requires forall i, j :: 0 <= i < j < |policies| ==> policies[i].name != policies[j].name
    ensures out == ExportedPolicies(policies)
  {
    hide Arrange;
    var list: seq<WantPolicy> := [];
    for i := 0 to |policies|
      invariant |list| == i
      invariant forall j :: 0 <= j < i ==> list[j] == PolicyWant(policies[j])
    {
      var p := policies[i];
      list := list + [WantPolicy(p.name, p.scriptName, p.trigger, DecodeMap(p.schedule), DecodeMap(p.event), p.active)];
    }
    out := SortBy(ByPolicy, list);
    forall i, j | 0 <= i < j < |list| ensures ByPolicy(list[i]) != ByPolicy(list[j]) {
      assert ByPolicy(list[i])[0] == policies[i].name && ByPolicy(list[j])[0] == policies[j].name;
    }
    PoliciesOnList(policies, list);
    SortedIsArranged(ByPolicy, list, out, set r | r in policies :: PolicyWant(r));
  }

  lemma PoliciesOnList(policies: seq<PolicyRow>, list: seq<WantPolicy>)
    requires |list| == |policies| && forall j :: 0 <= j < |list| ==> list[j] == PolicyWant(policies[j])
    ensures forall w :: w in list <==> w in set r | r in policies :: PolicyWant(r)
  {
    hide PolicyWant;
    forall r | r in policies ensures PolicyWant(r) in list {
      var i :| 0 <= i < |policies| && policies[i] == r;
      assert list[i] in list;
    }
    forall w | w in list ensures exists r :: r in policies && w == PolicyWant(r) {
      var i :| 0 <= i < |list| && list[i] == w;
      assert policies[i] in policies;
    }
  }

  /** exportConfig, on the rows of any consistent server in any order. */
  method Export(groups: seq<GroupRow>, rules: seq<RuleRow>, scripts: seq<ScriptRow>, policies: seq<PolicyRow>,
                layout: Layout, ghost s: Server)
    returns (outGroups: seq<WantGroup>, outScripts: seq<FileScript>, outPolicies: seq<WantPolicy>,
        files: map<string, string>)
    requires Consistent(s) && Listed(s, groups, rules, scripts, policies)
    ensures outGroups == ExportedGroups(groups, rules, policies)
    ensures outScripts == ExportedScripts(scripts, layout) && files == FilesOf(scripts, layout)
    ensures outPolicies == ExportedPolicies(policies)
  {
    hide Consistent, ListsGroups, ListsRules, ListsScripts, ListsPolicies, ExportedGroups, ExportedScripts,
        ExportedPolicies, FilesOf;
    RowNamesDiffer(s, groups, scripts, policies);
    outGroups := ExportGroups(groups, rules, policies, s);
    outScripts, files := ExportScripts(scripts, layout);
    outPolicies := ExportPolicies(policies);
  }

  /** Reading every body before planning. */
  method LoadScripts(list: seq<FileScript>, disk: map<string, string>) returns (got: Option<seq<WantScript>>)
    ensures got == Load(list, disk)
  {
    hide Body;
    var read: seq<WantScript> := [];
    for i := 0 to |list|
      invariant Load(list[..i], disk) == Some(read)
    {
      assert list[..i + 1][..i] == list[..i];
      var b := Body(list[i], disk);
      if b.None? {
        FirstFailureFails(list, i, disk);
        return None;
      }
      read := read + [WantScript(list[i].name, list[i].platform, b.value)];
    }
    assert list[..|list|] == list;
    return Some(read);
  }

  lemma FirstFailureFails(list: seq<FileScript>, i: nat, disk: map<string, string>)
    requires i < |list| && Body(list[i], disk).None?
    ensures Load(list, disk).None?
  {
    hide Body;
    LoadIs(list, disk);
    assert list[i] in list;
  }

  // ---- The file does not depend on the order of the answers ----

  lemma ExportIsStable(groups: seq<GroupRow>, rules: seq<RuleRow>, scripts: seq<ScriptRow>, policies: seq<PolicyRow>,
                       groups': seq<GroupRow>, rules': seq<RuleRow>, scripts': seq<ScriptRow>,
                       policies': seq<PolicyRow>, layout: Layout)
    requires multiset(groups) == multiset(groups') && multiset(rules) == multiset(rules')
    requires multiset(scripts) == multiset(scripts') && multiset(policies) == multiset(policies')
    ensures ExportedGroups(groups, rules, policies) == ExportedGroups(groups', rules', policies')
    ensures ExportedScripts(scripts, layout) == ExportedScripts(scripts', layout)
    ensures ExportedPolicies(policies) == ExportedPolicies(policies')
  {
    hide Arrange;
    Changes.SameMultisetSameElements(groups, groups');
    Changes.SameMultisetSameElements(rules, rules');
    Changes.SameMultisetSameElements(scripts, scripts');
    Changes.SameMultisetSameElements(policies, policies');
    forall g ensures ExportedGroup(g, rules, policies) == ExportedGroup(g, rules', policies') {
      assert (set r | r in rules && OwnRule(r, g.id) :: RuleWant(r))
             == (set r | r in rules' && OwnRule(r, g.id) :: RuleWant(r));
      assert (set r | r in policies && g.name in r.groupNames :: r.name)
             == (set r | r in policies' && g.name in r.groupNames :: r.name);
    }
    assert (set g | g in groups :: ExportedGroup(g, rules, policies))
           == (set g | g in groups' :: ExportedGroup(g, rules', policies'));
    assert (set r | r in scripts :: FileOf(layout, r)) == (set r | r in scripts' :: FileOf(layout, r));
    assert (set r | r in policies :: PolicyWant(r)) == (set r | r in policies' :: PolicyWant(r));
  }
}
