/** Running a plan: every action against the server, with ids resolved as the plan runs
    (cmd/routineops/apply.go, cmd/routineops/main.go). */
module Executor {
  import opened Ordering
  import opened Fleet
  import opened Planner

  /** The server and the name tables the actions share; a creation enters its new id. */
  datatype Exec = Exec(server: Server, scripts: map<string, Id>, policies: map<string, Id>, groups: map<string, Id>)

  ghost function OnServer(x: Exec, s: Option<Server>): Option<Exec> {
    if s.Some? then Some(x.(server := s.value)) else None
  }

  ghost function DoCreateScript(x: Exec, w: WantScript): Option<Exec> {
    var r := PostScript(x.server, w.name, w.platform, w.content);
    if r.None? then None else Some(x.(server := r.value.0, scripts := x.scripts[Key(w.name) := r.value.1]))
  }

  ghost function DoCreatePolicy(x: Exec, w: WantPolicy): Option<Exec> {
    if Key(w.script) !in x.scripts then None
    else
      var r := PostPolicy(x.server, w.name, x.scripts[Key(w.script)], w.trigger, w.schedule, w.event);
      if r.None? then None
      else
        var x1 := x.(server := r.value.0, policies := x.policies[Key(w.name) := r.value.1]);
        if w.active then Some(x1) else OnServer(x1, Toggle(x1.server, r.value.1, CLI_TOGGLE_FIELD, false))
  }

  ghost function DoUpdatePolicy(x: Exec, id: Id, w: WantPolicy): Option<Exec> {
    if Key(w.script) !in x.scripts then None
    else OnServer(x, PutPolicy(x.server, id, w.name, x.scripts[Key(w.script)], w.trigger, w.schedule, w.event))
  }

  ghost function DoCreateGroup(x: Exec, name: string, color: string): Option<Exec> {
    var r := PostGroup(x.server, name, color);
    if r.None? then None else Some(x.(server := r.value.0, groups := x.groups[Key(name) := r.value.1]))
  }

  ghost function DoRule(x: Exec, group: string, drop: Option<Id>, add: Option<WantRule>): Option<Exec> {
    if Key(group) !in x.groups then None
    else
      var id := x.groups[Key(group)];
      var s := if drop.Some? then DeleteRule(x.server, id, drop.value) else Some(x.server);
      if s.None? then None
      else if add.None? then Some(x.(server := s.value))
      else OnServer(x, PostRule(s.value, id, add.value.name, add.value.ruleType))
  }

  ghost function DoAssign(x: Exec, group: string, policyKey: string, assign: bool): Option<Exec> {
    if Key(group) !in x.groups || policyKey !in x.policies then None
    else
      var g, p := x.groups[Key(group)], x.policies[policyKey];
      OnServer(x, if assign then AssignPolicy(x.server, g, p) else UnassignPolicy(x.server, g, p))
  }

  ghost function Do(a: Action, x: Exec): Option<Exec> {
    match a
    case CreateScript(w) => DoCreateScript(x, w)
    case UpdateScript(id, w) => OnServer(x, PutScript(x.server, id, w.name, w.platform, w.content))
    case CreatePolicy(w) => DoCreatePolicy(x, w)
    case UpdatePolicy(id, w) => DoUpdatePolicy(x, id, w)
    case TogglePolicy(id, _, active) => OnServer(x, Toggle(x.server, id, CLI_TOGGLE_FIELD, active))
    case CreateGroup(name, color) => DoCreateGroup(x, name, color)
    case RecolorGroup(id, _, color) => OnServer(x, PatchColor(x.server, id, color))
    case ReplaceRule(g, id, software, ruleType) => DoRule(x, g, Some(id), Some(WantRule(software, ruleType)))
    case AddRule(g, software, ruleType) => DoRule(x, g, None, Some(WantRule(software, ruleType)))
    case DropRule(g, id, _) => DoRule(x, g, Some(id), None)
    case AssignTo(g, p) => DoAssign(x, g, Key(p), true)
    case UnassignFrom(g, k) => DoAssign(x, g, k, false)
  }

  /** runApply: in order, stopping at the first refusal. */
  ghost function RunAll(plan: seq<Action>, x: Exec): Option<Exec> {
    if plan == [] then Some(x)
    else
      var y := Do(plan[0], x);
      if y.None? then None else RunAll(plan[1..], y.value)
  }

  // ---- The server by slots: what each name is, whatever its id ----

  datatype Slot =
    | SScript(k: string) | SBody(k: string) | SSwitch(k: string)
    | SGroup(k: string) | SRule(g: string, k: string) | SAssign(g: string, k: string)

  datatype Val =
    | VScript(platform: string, content: string)
    | VBody(trigger: string, script: string, schedule: Fields, event: Fields)
    | VSwitch(active: bool)
    | VColor(color: string)
    | VRule(ruleType: string)
    | VAssigned

  ghost function RuleAt(s: Server, gk: string, sk: string): (r: Option<Id>)
    ensures r.Some? ==> r.value in s.rules && Holder(GroupName, s.groups, gk).Some?
                        && Binds(s.rules[r.value], Holder(GroupName, s.groups, gk).value, sk)
    ensures r.None? && Holder(GroupName, s.groups, gk).Some? ==>
              forall i :: i in s.rules ==> !Binds(s.rules[i], Holder(GroupName, s.groups, gk).value, sk)
  {
    var h := Holder(GroupName, s.groups, gk);
    if h.Some? && exists i :: i in s.rules && Binds(s.rules[i], h.value, sk) then
      var i :| i in s.rules && Binds(s.rules[i], h.value, sk);
      Some(i)
    else None
  }

  ghost function BodyOf(s: Server, p: Policy): Val {
    var script := if p.script in s.scripts then Key(s.scripts[p.script].name) else "";
    VBody(p.trigger, script, DecodeMap(p.schedule), DecodeMap(p.event))
  }

  ghost function At(s: Server, slot: Slot): Option<Val> {
    match slot
    case SScript(k) =>
      var h := Holder(ScriptName, s.scripts, k);
      if h.None? then None else Some(VScript(s.scripts[h.value].platform, s.scripts[h.value].content))
    case SBody(k) =>
      var h := Holder(PolicyName, s.policies, k);
      if h.None? then None else Some(BodyOf(s, s.policies[h.value]))
    case SSwitch(k) =>
      var h := Holder(PolicyName, s.policies, k);
      if h.None? then None else Some(VSwitch(s.policies[h.value].active))
    case SGroup(k) =>
      var h := Holder(GroupName, s.groups, k);
      if h.None? then None else Some(VColor(Lower(s.groups[h.value].color)))
    case SRule(g, k) =>
      var r := RuleAt(s, g, k);
      if r.None? then None else Some(VRule(s.rules[r.value].ruleType))
    case SAssign(g, k) =>
      var h, p := Holder(GroupName, s.groups, g), Holder(PolicyName, s.policies, k);
      if h.Some? && p.Some? && h.value in s.policies[p.value].groups then Some(VAssigned) else None
  }

  // ---- What an action writes ----

  function StoredScript(w: WantScript): Val {
    VScript(if CanonicalPlatform(w.platform).Some? then CanonicalPlatform(w.platform).value else w.platform, w.content)
  }

  function WantedBody(w: WantPolicy): Val { VBody(w.trigger, Key(w.script), w.schedule, w.event) }

  function Writes(a: Action, toggleField: string): map<Slot, Option<Val>> {
    match a
    case CreateScript(w) => map[SScript(Key(w.name)) := Some(StoredScript(w))]
    case UpdateScript(_, w) => map[SScript(Key(w.name)) := Some(StoredScript(w))]
    case CreatePolicy(w) => map[SBody(Key(w.name)) := Some(WantedBody(w)),
        SSwitch(Key(w.name)) := Some(VSwitch(w.active))]
    case UpdatePolicy(_, w) => map[SBody(Key(w.name)) := Some(WantedBody(w))]
    case TogglePolicy(_, n, active) =>
      map[SSwitch(Key(n)) := Some(VSwitch(active && toggleField == CLI_TOGGLE_FIELD))]
    case CreateGroup(n, c) => map[SGroup(Key(n)) := Some(VColor(Lower(StoredColor(c))))]
    case RecolorGroup(_, n, c) => map[SGroup(Key(n)) := Some(VColor(Lower(StoredColor(c))))]
    case ReplaceRule(g, _, n, t) => map[SRule(Key(g), Key(n)) := Some(VRule(t))]
    case AddRule(g, n, t) => map[SRule(Key(g), Key(n)) := Some(VRule(t))]
    case DropRule(g, _, n) => map[SRule(Key(g), Key(n)) := None]
    case AssignTo(g, p) => map[SAssign(Key(g), Key(p)) := Some(VAssigned)]
    case UnassignFrom(g, k) => map[SAssign(Key(g), k) := None]
  }

  ghost predicate Overwritten(s: Server, s': Server, w: map<Slot, Option<Val>>) {
    forall slot :: At(s', slot) == if slot in w then w[slot] else At(s, slot)
  }

  // ---- The frame: objects that no written slot names are the very same objects ----

  ghost predicate SameScripts(s: Server, s': Server, w: set<Slot>) {
    && (forall i :: i in s.scripts ==> i in s'.scripts && Key(s'.scripts[i].name) == Key(s.scripts[i].name))
    && (forall i :: i in s.scripts && SScript(Key(s.scripts[i].name)) !in w ==>
        i in s'.scripts && s'.scripts[i] == s.scripts[i])
    && (forall i :: i in s'.scripts && i !in s.scripts ==> SScript(Key(s'.scripts[i].name)) in w)
  }

  ghost predicate SameGroups(s: Server, s': Server, w: set<Slot>) {
    && (forall i :: i in s.groups ==> i in s'.groups && Key(s'.groups[i].name) == Key(s.groups[i].name))
    && (forall i :: i in s.groups && SGroup(Key(s.groups[i].name)) !in w ==>
        i in s'.groups && s'.groups[i] == s.groups[i])
    && (forall i :: i in s'.groups && i !in s.groups ==> SGroup(Key(s'.groups[i].name)) in w)
  }

  /** q is p but for what w writes of it; no group unknown to s is assigned unless w says so. */
  ghost predicate SamePolicy(s: Server, s': Server, w: set<Slot>, p: Policy, q: Policy) {
    && Key(q.name) == Key(p.name)
    && (SBody(Key(p.name)) !in w ==> q == p.(active := q.active, groups := q.groups))
    && (SSwitch(Key(p.name)) !in w ==> q.active == p.active)
    && (forall g :: g in s.groups ==>
        SAssign(Key(s.groups[g].name), Key(p.name)) in w || (g in q.groups <==> g in p.groups))
    && (forall g :: g in q.groups && g !in s.groups ==>
        g in s'.groups && SAssign(Key(s'.groups[g].name), Key(p.name)) in w)
  }

  ghost predicate SamePolicies(s: Server, s': Server, w: set<Slot>) {
    && (forall i :: i in s.policies ==> i in s'.policies && SamePolicy(s, s', w, s.policies[i], s'.policies[i]))
    && (forall i :: i in s'.policies && i !in s.policies ==> SBody(Key(s'.policies[i].name)) in w)
  }

  /** A rule bound to a group itself, named by a written slot. */
  ghost predicate RuleNamed(s: Server, r: Rule, w: set<Slot>) {
    r.device.None? && r.group.Some? && r.group.value in s.groups
        && SRule(Key(s.groups[r.group.value].name), Key(r.software)) in w
  }

  ghost predicate SameRules(s: Server, s': Server, w: set<Slot>) {
    && (forall i :: i in s.rules && !RuleNamed(s, s.rules[i], w) ==> i in s'.rules)
    && (forall i :: i in s.rules && i in s'.rules ==> s'.rules[i] == s.rules[i])
    && (forall i :: i in s'.rules && i !in s.rules ==> RuleNamed(s', s'.rules[i], w))
  }

  /** Only what the slots in w name may differ; ids keep their names; nothing but rules disappears. */
  ghost predicate Untouched(s: Server, s': Server, w: set<Slot>) {
    && SameScripts(s, s', w) && SameGroups(s, s', w) && SamePolicies(s, s', w) && SameRules(s, s', w)
    && s'.toggleField == s.toggleField && s.next <= s'.next
  }

  // ---- When an action is legal ----

  /** What the action presupposes about its own slot. */
  ghost predicate Own(a: Action, s: Server) {
    match a
    case CreateScript(w) => Holder(ScriptName, s.scripts, Key(w.name)).None? && CanonicalPlatform(w.platform).Some?
    case UpdateScript(id, w) => Holds(ScriptName, s.scripts, Key(w.name), id) && CanonicalPlatform(w.platform).Some?
    case CreatePolicy(w) => Holder(PolicyName, s.policies, Key(w.name)).None?
    case UpdatePolicy(id, w) => Holds(PolicyName, s.policies, Key(w.name), id)
    case TogglePolicy(id, n, _) => Holds(PolicyName, s.policies, Key(n), id)
    case CreateGroup(n, _) => Holder(GroupName, s.groups, Key(n)).None?
    case RecolorGroup(id, n, _) => Holds(GroupName, s.groups, Key(n), id)
    case ReplaceRule(g, id, n, _) => BoundTo(s, id, Key(g), Key(n))
    case AddRule(g, n, _) => RuleAt(s, Key(g), Key(n)).None?
    case DropRule(g, id, n) => BoundTo(s, id, Key(g), Key(n))
    case AssignTo(_, _) => true
    case UnassignFrom(_, _) => true
  }

  ghost predicate BoundTo(s: Server, id: Id, gk: string, sk: string) {
    var h := Holder(GroupName, s.groups, gk);
    h.Some? && id in s.rules && Binds(s.rules[id], h.value, sk)
  }

  datatype Need = NeedScript(k: string) | NeedPolicy(k: string) | NeedGroup(k: string)

  /** What it needs to find by name when it runs. */
  function Needs(a: Action): set<Need> {
    match a
    case CreatePolicy(w) => {NeedScript(Key(w.script))}
    case UpdatePolicy(_, w) => {NeedScript(Key(w.script))}
    case ReplaceRule(g, _, _, _) => {NeedGroup(Key(g))}
    case AddRule(g, _, _) => {NeedGroup(Key(g))}
    case DropRule(g, _, _) => {NeedGroup(Key(g))}
    case AssignTo(g, p) => {NeedGroup(Key(g)), NeedPolicy(Key(p))}
    case UnassignFrom(g, k) => {NeedGroup(Key(g)), NeedPolicy(k)}
    case _ => {}
  }

  function Provides(a: Action): set<Need> {
    match a
    case CreateScript(w) => {NeedScript(Key(w.name))}
    case CreatePolicy(w) => {NeedPolicy(Key(w.name))}
    case CreateGroup(n, _) => {NeedGroup(Key(n))}
    case _ => {}
  }

  ghost predicate Present(s: Server, n: Need) {
    match n
    case NeedScript(k) => Holder(ScriptName, s.scripts, k).Some?
    case NeedPolicy(k) => Holder(PolicyName, s.policies, k).Some?
    case NeedGroup(k) => Holder(GroupName, s.groups, k).Some?
  }

  ghost predicate Legal(a: Action, s: Server) {
    Own(a, s) && forall n :: n in Needs(a) ==> Present(s, n)
  }

  /** A name table that says what the server says. */
  ghost predicate MirrorsTable<T>(nameOf: T -> string, m: map<Id, T>, table: map<string, Id>) {
    forall k :: (k in table <==> Holder(nameOf, m, k).Some?) && (k in table ==> Holder(nameOf, m, k) == Some(table[k]))
  }

  ghost predicate Mirrors(x: Exec) {
    && MirrorsTable(ScriptName, x.server.scripts, x.scripts)
    && MirrorsTable(PolicyName, x.server.policies, x.policies)
    && MirrorsTable(GroupName, x.server.groups, x.groups)
  }

  // ---- Holders under updates ----

  lemma HolderIs<T>(nameOf: T -> string, m: map<Id, T>, k: string, i: Id)
    requires UniqueNames(nameOf, m) && Holds(nameOf, m, k, i)
    ensures Holder(nameOf, m, k) == Some(i)
  {
  }

  /** Adding an object under a new name. */
  lemma HolderAdded<T>(nameOf: T -> string, m: map<Id, T>, id: Id, v: T)
    requires UniqueNames(nameOf, m) && id !in m && Holder(nameOf, m, Key(nameOf(v))).None?
    ensures UniqueNames(nameOf, m[id := v])
    ensures forall k :: Holder(nameOf, m[id := v], k) == if k == Key(nameOf(v)) then Some(id) else Holder(nameOf, m, k)
  {
    var n := m[id := v];
    forall k, i, j | Holds(nameOf, n, k, i) && Holds(nameOf, n, k, j) ensures i == j {
      if i != id { assert Holds(nameOf, m, k, i); }
      if j != id { assert Holds(nameOf, m, k, j); }
    }
    forall k ensures Holder(nameOf, n, k) == if k == Key(nameOf(v)) then Some(id) else Holder(nameOf, m, k) {
      if k == Key(nameOf(v)) {
        assert Holds(nameOf, n, k, id);
      } else {
        var h := Holder(nameOf, m, k);
        if h.Some? { assert Holds(nameOf, n, k, h.value); }
        var g := Holder(nameOf, n, k);
        if g.Some? { assert Holds(nameOf, m, k, g.value); }
      }
    }
  }

  /** Replacing an object by one of the same key. */
  lemma HolderKept<T>(nameOf: T -> string, m: map<Id, T>, id: Id, v: T)
    requires UniqueNames(nameOf, m) && id in m && Key(nameOf(v)) == Key(nameOf(m[id]))
    ensures UniqueNames(nameOf, m[id := v])
    ensures forall k :: Holder(nameOf, m[id := v], k) == Holder(nameOf, m, k)
  {
    var n := m[id := v];
    assert forall k, i :: Holds(nameOf, n, k, i) <==> Holds(nameOf, m, k, i);
    forall k ensures Holder(nameOf, n, k) == Holder(nameOf, m, k) {
      var h := Holder(nameOf, m, k);
      if h.Some? { assert Holds(nameOf, n, k, h.value); }
      var g := Holder(nameOf, n, k);
      if g.Some? { assert Holds(nameOf, m, k, g.value); }
    }
  }
}
