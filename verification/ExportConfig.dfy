/** exportConfig: the server as a configuration file,
    and applying that file to the same server (cmd/routineops/export.go). */
module ExportConfig {
  import opened Ordering
  import opened Fleet
  import opened Planner
  import opened Executor
  import opened Simulation
  import opened Goals
  import opened GroupGoals
  import Changes

  // ---- What the GETs answer ----

  ghost predicate Apart(ids: seq<Id>) { forall i, j :: 0 <= i < j < |ids| ==> ids[i] != ids[j] }

  function GroupRowOf(i: Id, g: Group): GroupRow { GroupRow(i, g.name, g.color) }
  function ScriptRowOf(i: Id, v: Script): ScriptRow { ScriptRow(i, v.name, v.platform, v.content) }

  ghost predicate ListsGroups(s: Server, rows: seq<GroupRow>) {
    && (forall r :: r in rows ==> r.id in s.groups && r == GroupRowOf(r.id, s.groups[r.id]))
    && (forall i :: i in s.groups ==> GroupRowOf(i, s.groups[i]) in rows)
    && (forall i, j :: 0 <= i < j < |rows| ==> rows[i].id != rows[j].id)
  }

  ghost predicate ListsScripts(s: Server, rows: seq<ScriptRow>) {
    && (forall r :: r in rows ==> r.id in s.scripts && r == ScriptRowOf(r.id, s.scripts[r.id]))
    && (forall i :: i in s.scripts ==> ScriptRowOf(i, s.scripts[i]) in rows)
    && (forall i, j :: 0 <= i < j < |rows| ==> rows[i].id != rows[j].id)
  }

  ghost predicate ListsRules(s: Server, rows: seq<RuleRow>) {
    ShowsRules(s, rows) && (forall i, j :: 0 <= i < j < |rows| ==> rows[i].id != rows[j].id)
  }

  ghost predicate ListsPolicies(s: Server, rows: seq<PolicyRow>) {
    && (forall r :: r in rows ==> IsPolicyRow(s, r) && forall m, n :: 0 <= m < n < |r.groupNames| ==>
        r.groupNames[m] != r.groupNames[n])
    && (forall i :: i in s.policies ==> exists r :: r in rows && r.id == i)
    && (forall i, j :: 0 <= i < j < |rows| ==> rows[i].id != rows[j].id)
  }

  /** Every object of the server once, in any order. */
  ghost predicate Listed(s: Server, groups: seq<GroupRow>, rules: seq<RuleRow>, scripts: seq<ScriptRow>,
                         policies: seq<PolicyRow>) {
    ListsGroups(s, groups) && ListsRules(s, rules) && ListsScripts(s, scripts) && ListsPolicies(s, policies)
  }

  function SeenFrom(groups: seq<GroupRow>, rules: seq<RuleRow>, scripts: seq<ScriptRow>,
                    policies: seq<PolicyRow>): Seen {
    Seen(Changes.Index(GroupRowKey, groups), rules, Changes.Index(ScriptRowKey, scripts),
        Changes.Index(PolicyRowKey, policies), policies)
  }

  lemma GroupsShown(s: Server, rows: seq<GroupRow>)
    requires UniqueNames(GroupName, s.groups) && ListsGroups(s, rows)
    ensures ShowsGroups(s, Changes.Index(GroupRowKey, rows))
  {
    hide Key, Holder, UniqueNames, Changes.Index;
    var m := Changes.Index(GroupRowKey, rows);
    forall k ensures (k in m <==> Holder(GroupName, s.groups, k).Some?)
        && (k in m ==> m[k] in rows && m[k].id == Holder(GroupName, s.groups, k).value) {
      GroupRowIndexed(s, rows, k);
    }
  }

  lemma GroupRowIndexed(s: Server, rows: seq<GroupRow>, k: string)
    requires UniqueNames(GroupName, s.groups) && ListsGroups(s, rows)
    ensures var m := Changes.Index(GroupRowKey, rows);
            && (k in m <==> Holder(GroupName, s.groups, k).Some?)
            && (k in m ==> m[k] in rows && m[k].id == Holder(GroupName, s.groups, k).value)
  {
    hide Key, Holder, UniqueNames, Changes.Index;
    var m, h := Changes.Index(GroupRowKey, rows), Holder(GroupName, s.groups, k);
    if h.Some? { assert GroupRowKey(GroupRowOf(h.value, s.groups[h.value])) in m; }
    if k in m {
      assert m[k] in rows && GroupRowKey(m[k]) == k;
      HolderIs(GroupName, s.groups, k, m[k].id);
    }
  }

  lemma ScriptsShown(s: Server, rows: seq<ScriptRow>)
    requires UniqueNames(ScriptName, s.scripts) && ListsScripts(s, rows)
    ensures ShowsScripts(s, Changes.Index(ScriptRowKey, rows))
  {
    hide Key, Holder, UniqueNames, Changes.Index;
    var m := Changes.Index(ScriptRowKey, rows);
    forall k ensures (k in m <==> Holder(ScriptName, s.scripts, k).Some?)
        && (k in m ==> m[k] in rows && m[k].id == Holder(ScriptName, s.scripts, k).value) {
      ScriptRowIndexed(s, rows, k);
    }
  }

  lemma ScriptRowIndexed(s: Server, rows: seq<ScriptRow>, k: string)
    requires UniqueNames(ScriptName, s.scripts) && ListsScripts(s, rows)
    ensures var m := Changes.Index(ScriptRowKey, rows);
            && (k in m <==> Holder(ScriptName, s.scripts, k).Some?)
            && (k in m ==> m[k] in rows && m[k].id == Holder(ScriptName, s.scripts, k).value)
  {
    hide Key, Holder, UniqueNames, Changes.Index;
    var m, h := Changes.Index(ScriptRowKey, rows), Holder(ScriptName, s.scripts, k);
    if h.Some? { assert ScriptRowKey(ScriptRowOf(h.value, s.scripts[h.value])) in m; }
    if k in m {
      assert m[k] in rows && ScriptRowKey(m[k]) == k;
      HolderIs(ScriptName, s.scripts, k, m[k].id);
    }
  }

  lemma PoliciesNamed(s: Server, rows: seq<PolicyRow>)
    requires ListsPolicies(s, rows)
    ensures forall r :: r in rows ==> IsPolicyRow(s, r) && r.id in s.policies && r.name == s.policies[r.id].name
    ensures forall i :: i in s.policies ==> exists r :: r in rows && r.id == i
  {
    hide IsPolicyRow;
    forall r | r in rows ensures r.id in s.policies && r.name == s.policies[r.id].name { RowIsNamed(s, r); }
  }

  lemma PoliciesShown(s: Server, rows: seq<PolicyRow>)
    requires UniqueNames(PolicyName, s.policies) && ListsPolicies(s, rows)
    ensures ShowsPolicies(s, Changes.Index(PolicyRowKey, rows), rows)
  {
    hide Key, IsPolicyRow, ListsPolicies, Holder, UniqueNames, Changes.Index;
    PoliciesNamed(s, rows);
    var m := Changes.Index(PolicyRowKey, rows);
    forall k ensures (k in m <==> Holder(PolicyName, s.policies, k).Some?)
        && (k in m ==> m[k] in rows && m[k].id == Holder(PolicyName, s.policies, k).value) {
      PolicyIndexed(s, rows, k);
    }
  }

  lemma PolicyIndexed(s: Server, rows: seq<PolicyRow>, k: string)
    requires UniqueNames(PolicyName, s.policies)
    requires forall r :: r in rows ==> r.id in s.policies && r.name == s.policies[r.id].name
    requires forall i :: i in s.policies ==> exists r :: r in rows && r.id == i
    ensures var m := Changes.Index(PolicyRowKey, rows);
            && (k in m <==> Holder(PolicyName, s.policies, k).Some?)
            && (k in m ==> m[k] in rows && m[k].id == Holder(PolicyName, s.policies, k).value)
  {
    hide Key, Holder, UniqueNames, Changes.Index;
    var m, h := Changes.Index(PolicyRowKey, rows), Holder(PolicyName, s.policies, k);
    if h.Some? {
      var r :| r in rows && r.id == h.value;
      assert PolicyRowKey(r) in m;
    }
    if k in m {
      assert m[k] in rows && PolicyRowKey(m[k]) == k;
      HolderIs(PolicyName, s.policies, k, m[k].id);
    }
  }

  /** The rows of a consistent server, in any order, index to what applyPlan needs to see. */
  lemma ListingShows(s: Server, groups: seq<GroupRow>, rules: seq<RuleRow>, scripts: seq<ScriptRow>,
                     policies: seq<PolicyRow>)
    requires Consistent(s) && Listed(s, groups, rules, scripts, policies)
    ensures Shown(s, SeenFrom(groups, rules, scripts, policies))
  {
    hide Consistent, UniqueNames, ListsGroups, ListsScripts, ListsPolicies, ShowsGroups, ShowsScripts, ShowsPolicies,
        ShowsRules;
    ConsistentNames(s);
    GroupsShown(s, groups);
    ScriptsShown(s, scripts);
    PoliciesShown(s, policies);
  }

  // ---- The exported configuration ----

  datatype FileScript = FileScript(name: string, platform: string, file: string, content: string)

  function ByGroup(g: WantGroup): seq<string> { [g.name] }
  function ByRule(w: WantRule): seq<string> { [w.name] }
  function ByPolicy(w: WantPolicy): seq<string> { [w.name] }
  function ByFileScript(w: FileScript): seq<string> { [w.name] }

  /** An empty Go slice stays nil: the aspect is then not managed by the file. */
  function Slice<T>(list: seq<T>): Option<seq<T>> { if list == [] then None else Some(list) }

  function RuleWant(r: RuleRow): WantRule { WantRule(r.software, r.ruleType) }
  function PolicyWant(r: PolicyRow): WantPolicy {
    WantPolicy(r.name, r.scriptName, r.trigger, DecodeMap(r.schedule), DecodeMap(r.event), r.active)
  }

  /** Where the body of a script goes: inline, or in the file that pathOf gives its name and platform. */
  datatype Layout = Inline | Files(pathOf: (string, string) -> string)

  function FileOf(layout: Layout, r: ScriptRow): FileScript {
    match layout
    case Inline => FileScript(r.name, r.platform, "", r.content)
    case Files(pathOf) => FileScript(r.name, r.platform, pathOf(r.name, r.platform), "")
  }

  ghost function ExportedRules(rules: seq<RuleRow>, gid: Id): seq<WantRule> {
    Arrange(ByRule, set r | r in rules && OwnRule(r, gid) :: RuleWant(r))
  }

  ghost function ExportedNames(policies: seq<PolicyRow>, group: string): seq<string> {
    Arrange(ByItself, set r | r in policies && group in r.groupNames :: r.name)
  }

  ghost function ExportedGroup(g: GroupRow, rules: seq<RuleRow>, policies: seq<PolicyRow>): WantGroup {
    WantGroup(g.name, g.color, Slice(ExportedRules(rules, g.id)), Slice(ExportedNames(policies, g.name)))
  }

  ghost function ExportedGroups(groups: seq<GroupRow>, rules: seq<RuleRow>, policies: seq<PolicyRow>): seq<WantGroup> {
    Arrange(ByGroup, set g | g in groups :: ExportedGroup(g, rules, policies))
  }

  ghost function ExportedScripts(scripts: seq<ScriptRow>, layout: Layout): seq<FileScript> {
    Arrange(ByFileScript, set r | r in scripts :: FileOf(layout, r))
  }

  ghost function ExportedPolicies(policies: seq<PolicyRow>): seq<WantPolicy> {
    Arrange(ByPolicy, set r | r in policies :: PolicyWant(r))
  }

  /** The script files, by path; of two scripts with one path the later row wins. */
  function FilesOf(scripts: seq<ScriptRow>, layout: Layout): map<string, string> {
    if scripts == [] || layout.Inline? then map[]
    else
      var r := scripts[|scripts| - 1];
      FilesOf(scripts[..|scripts| - 1], layout)[layout.pathOf(r.name, r.platform) := r.content]
  }

  // ---- Reading script bodies back ----

  predicate Climbs(path: string) {
    exists i {:trigger path[i]} :: 0 <= i && i + 1 < |path| && path[i] == '.' && path[i + 1] == '.'
  }

  predicate Escapes(path: string) { (path != "" && path[0] == '/') || Climbs(path) }

  /** scriptContent: exactly one of file and content; the path stays below the configuration file. */
  function Body(f: FileScript, disk: map<string, string>): Option<string> {
    if f.file != "" && f.content != "" then None
    else if f.file == "" then (if f.content == "" then None else Some(f.content))
    else if Escapes(f.file) || f.file !in disk then None
    else Some(disk[f.file])
  }

  /** The first body that cannot be read fails the whole plan. */
  function Load(list: seq<FileScript>, disk: map<string, string>): Option<seq<WantScript>> {
    if list == [] then Some([])
    else
      var front, last := Load(list[..|list| - 1], disk), list[|list| - 1];
      if front.None? || Body(last, disk).None? then None
      else Some(front.value + [WantScript(last.name, last.platform, Body(last, disk).value)])
  }

  function WithBody(f: FileScript, disk: map<string, string>): (w: WantScript)
    requires Body(f, disk).Some?
    ensures w.name == f.name && w.platform == f.platform
  {
    WantScript(f.name, f.platform, Body(f, disk).value)
  }

  lemma {:induction false} LoadIs(list: seq<FileScript>, disk: map<string, string>)
    ensures Load(list, disk).Some? <==> forall f :: f in list ==> Body(f, disk).Some?
    ensures Load(list, disk).Some? ==> forall f :: f in list ==> WithBody(f, disk) in Load(list, disk).value
    ensures Load(list, disk).Some? ==> forall w :: w in Load(list, disk).value ==>
        exists f :: f in list && w == WithBody(f, disk)
  {
    hide Body;
    if list != [] {
      var front, last := list[..|list| - 1], list[|list| - 1];
      LoadIs(front, disk);
      assert list == front + [last];
      if Load(list, disk).Some? {
        var got := Load(front, disk).value;
        assert Load(list, disk).value == got + [WithBody(last, disk)];
        forall f | f in list ensures WithBody(f, disk) in got + [WithBody(last, disk)] {
          assert f in front || f == last;
        }
      }
    }
  }

  lemma {:induction false} LoadKeepsNames(list: seq<FileScript>, disk: map<string, string>)
    requires Load(list, disk).Some?
    ensures |Load(list, disk).value| == |list|
    ensures forall i :: 0 <= i < |list| ==> Load(list, disk).value[i].name == list[i].name
  {
    hide Body;
    if list != [] {
      LoadKeepsNames(list[..|list| - 1], disk);
      assert forall i :: 0 <= i < |list| - 1 ==> list[..|list| - 1][i] == list[i];
    }
  }
}
