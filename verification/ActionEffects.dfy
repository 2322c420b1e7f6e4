/** A legal action succeeds and does exactly what it is said to write; so does a whole plan. */
module ActionEffects {
  import opened Ordering
  import opened Fleet
  import opened Planner
  import opened Executor
  import opened Simulation

  // ---- Updates compose ----

  lemma SameScriptsTransitive(a: Server, b: Server, c: Server, v: set<Slot>, w: set<Slot>)
    requires SameScripts(a, b, v) && SameScripts(b, c, w)
    ensures SameScripts(a, c, v + w)
  {
  }

  lemma SameGroupsTransitive(a: Server, b: Server, c: Server, v: set<Slot>, w: set<Slot>)
    requires SameGroups(a, b, v) && SameGroups(b, c, w)
    ensures SameGroups(a, c, v + w)
  {
  }

  lemma SamePolicyTransitive(a: Server, b: Server, c: Server, v: set<Slot>, w: set<Slot>, p: Policy, q: Policy,
                             r: Policy)
    requires SameGroups(a, b, v) && SameGroups(b, c, w) && SamePolicy(a, b, v, p, q) && SamePolicy(b, c, w, q, r)
    ensures SamePolicy(a, c, v + w, p, r)
  {
  }

  lemma SamePoliciesTransitive(a: Server, b: Server, c: Server, v: set<Slot>, w: set<Slot>)
    requires SameGroups(a, b, v) && SameGroups(b, c, w) && SamePolicies(a, b, v) && SamePolicies(b, c, w)
    ensures SamePolicies(a, c, v + w)
  {
    assert forall i :: i in b.policies && i in c.policies ==> Key(c.policies[i].name) == Key(b.policies[i].name) by {
      forall i | i in b.policies && i in c.policies ensures Key(c.policies[i].name) == Key(b.policies[i].name) {
        assert SamePolicy(b, c, w, b.policies[i], c.policies[i]);
      }
    }
    forall i | i in a.policies ensures i in c.policies && SamePolicy(a, c, v + w, a.policies[i], c.policies[i]) {
      SamePolicyTransitive(a, b, c, v, w, a.policies[i], b.policies[i], c.policies[i]);
    }
  }

  lemma RuleNamedSteady(a: Server, b: Server, v: set<Slot>, w: set<Slot>, r: Rule)
    requires SameGroups(a, b, v)
    ensures RuleNamed(a, r, w) ==> RuleNamed(b, r, v + w) && RuleNamed(b, r, w + v) && RuleNamed(b, r, w)
  {
  }

  lemma SameRulesTransitive(a: Server, b: Server, c: Server, v: set<Slot>, w: set<Slot>)
    requires SameGroups(a, b, v) && SameGroups(b, c, w) && SameRules(a, b, v) && SameRules(b, c, w)
    requires forall i :: i in a.rules && a.rules[i].group.Some? ==> a.rules[i].group.value in a.groups
    requires forall i :: i in c.rules && i !in b.rules ==> i !in a.rules
    ensures SameRules(a, c, v + w)
  {
    forall i | i in a.rules && !RuleNamed(a, a.rules[i], v + w) ensures i in c.rules && c.rules[i] == a.rules[i] {
      assert !RuleNamed(a, a.rules[i], v);
      assert i in b.rules && b.rules[i] == a.rules[i];
      assert !RuleNamed(b, b.rules[i], w);
    }
    forall i | i in c.rules && i !in a.rules ensures RuleNamed(c, c.rules[i], v + w) {
      if i in b.rules {
        assert RuleNamed(b, b.rules[i], v);
        RuleNamedSteady(b, c, w, v, b.rules[i]);
      } else {
        assert RuleNamed(c, c.rules[i], w);
      }
    }
  }

  lemma UntouchedTransitive(a: Server, b: Server, c: Server, v: set<Slot>, w: set<Slot>)
    requires Consistent(a) && Untouched(a, b, v) && Untouched(b, c, w)
    requires forall i :: i in c.rules && i !in b.rules ==> i >= b.next
    ensures Untouched(a, c, v + w)
  {
    hide SameScripts, SameGroups, SamePolicies, SameRules;
    SameScriptsTransitive(a, b, c, v, w);
    SameGroupsTransitive(a, b, c, v, w);
    SamePoliciesTransitive(a, b, c, v, w);
    RuleBounds(a);
    SameRulesTransitive(a, b, c, v, w);
  }

  lemma RuleBounds(s: Server)
    requires Consistent(s)
    ensures forall i :: i in s.rules ==> i < s.next
    ensures forall i :: i in s.rules && s.rules[i].group.Some? ==> s.rules[i].group.value in s.groups
  {
  }

  // ---- One action ----

  /** What running an action promises. */
  ghost predicate Performs(x: Exec, y: Exec, w: map<Slot, Option<Val>>) {
    && Updates(x.server, y.server, w) && Mirrors(y)
    && (forall i :: i in y.server.rules && i !in x.server.rules ==> i >= x.server.next)
  }

  lemma TableGrows<T>(nameOf: T -> string, m: map<Id, T>, n: map<Id, T>, table: map<string, Id>, k: string, id: Id)
    requires MirrorsTable(nameOf, m, table)
    requires forall j :: Holder(nameOf, n, j) == if j == k then Some(id) else Holder(nameOf, m, j)
    ensures MirrorsTable(nameOf, n, table[k := id])
  {
  }

  lemma TableStays<T>(nameOf: T -> string, m: map<Id, T>, n: map<Id, T>, table: map<string, Id>)
    requires MirrorsTable(nameOf, m, table)
    requires forall j :: Holder(nameOf, n, j) == Holder(nameOf, m, j)
    ensures MirrorsTable(nameOf, n, table)
  {
  }

  lemma KeyOfTrimmed(s: string)
    ensures Key(Trim(s)) == Key(s)
  {
    TrimTwice(s);
  }

  lemma DoesCreateScript(x: Exec, w: WantScript)
    requires Consistent(x.server) && Mirrors(x) && Own(CreateScript(w), x.server)
    ensures var r := Do(CreateScript(w), x);
            r.Some? && Performs(x, r.value, Writes(CreateScript(w), x.server.toggleField))
                && Present(r.value.server, NeedScript(Key(w.name)))
  {
    hide Updates, Consistent, UniqueNames, MirrorsTable;
    var v := Script(w.name, CanonicalPlatform(w.platform).value, w.content);
    ScriptAdded(x.server, v);
    TableGrows(ScriptName, x.server.scripts, AddScript(x.server, v).scripts, x.scripts, Key(w.name), x.server.next);
  }

  lemma DoesUpdateScript(x: Exec, id: Id, w: WantScript)
    requires Consistent(x.server) && Mirrors(x) && Own(UpdateScript(id, w), x.server)
    ensures var r := Do(UpdateScript(id, w), x);
            r.Some? && Performs(x, r.value, Writes(UpdateScript(id, w), x.server.toggleField))
  {
    hide Updates, Consistent, UniqueNames, MirrorsTable, Holder, At;
    ConsistentNames(x.server);
    HolderIs(ScriptName, x.server.scripts, Key(w.name), id);
    var v := Script(w.name, CanonicalPlatform(w.platform).value, w.content);
    ScriptSet(x.server, id, v);
    TableStays(ScriptName, x.server.scripts, SetScript(x.server, id, v).scripts, x.scripts);
  }

  lemma StoredDecodes(f: Fields)
    ensures DecodeMap(Stored(f)) == f
  {
  }

  /** The script a policy refers to, found by name. */
  lemma ScriptFound(x: Exec, k: string)
    requires Mirrors(x) && Present(x.server, NeedScript(k))
    ensures k in x.scripts && x.scripts[k] in x.server.scripts && Key(x.server.scripts[x.scripts[k]].name) == k
  {
  }

  lemma DoesCreatePolicy(x: Exec, w: WantPolicy)
    requires Consistent(x.server) && Mirrors(x) && Legal(CreatePolicy(w), x.server)
    ensures var r := Do(CreatePolicy(w), x);
            r.Some? && Performs(x, r.value, Writes(CreatePolicy(w), x.server.toggleField))
                && Present(r.value.server, NeedPolicy(Key(w.name)))
  {
    hide Updates, Consistent, UniqueNames, MirrorsTable, Holder, At, Key;
    ConsistentNames(x.server);
    ScriptFound(x, Key(w.script));
    StoredDecodes(w.schedule);
    StoredDecodes(w.event);
    var v := Policy(w.name, x.scripts[Key(w.script)], w.trigger, Stored(w.schedule), Stored(w.event), w.active, {});
    PolicyAdded(x.server, v);
    TableGrows(PolicyName, x.server.policies, AddPolicy(x.server, v).policies, x.policies, Key(w.name), x.server.next);
    var all, id := x.server.policies, x.server.next;
    assert all[id := v.(active := true)][id := v] == all[id := v];
    assert PolicyWrite(x.server, v) == Writes(CreatePolicy(w), x.server.toggleField);
  }

  lemma DoesSetPolicy(x: Exec, id: Id, v: Policy, w: map<Slot, Option<Val>>)
    requires Consistent(x.server) && Mirrors(x) && MayReplace(x.server, id, v, w)
    ensures Performs(x, x.(server := SetPolicy(x.server, id, v)), w)
  {
    hide Updates, Consistent, MirrorsTable, MayReplace;
    PolicySet(x.server, id, v, w);
    TableStays(PolicyName, x.server.policies, SetPolicy(x.server, id, v).policies, x.policies);
  }

  lemma DoesUpdatePolicy(x: Exec, id: Id, w: WantPolicy)
    requires Consistent(x.server) && Mirrors(x) && Legal(UpdatePolicy(id, w), x.server)
    ensures var r := Do(UpdatePolicy(id, w), x);
            r.Some? && Performs(x, r.value, Writes(UpdatePolicy(id, w), x.server.toggleField))
  {
    hide Performs, Consistent, UniqueNames, Mirrors, Holder, At;
    ConsistentNames(x.server);
    PolicyGroupsKnown(x.server);
    ScriptFound(x, Key(w.script));
    HolderIs(PolicyName, x.server.policies, Key(w.name), id);
    StoredDecodes(w.schedule);
    StoredDecodes(w.event);
    var v := x.server.policies[id].(name := w.name, script := x.scripts[Key(w.script)], trigger := w.trigger,
                                    schedule := Stored(w.schedule), event := Stored(w.event));
    DoesSetPolicy(x, id, v, Writes(UpdatePolicy(id, w), x.server.toggleField));
  }

  lemma PolicyRefs(s: Server, id: Id)
    requires Consistent(s) && id in s.policies
    ensures s.policies[id].script in s.scripts && s.policies[id].groups <= s.groups.Keys
  {
  }

  lemma SwitchReplaces(s: Server, id: Id, active: bool, slot: Slot)
    requires Consistent(s) && id in s.policies && slot == SSwitch(Key(s.policies[id].name))
    ensures MayReplace(s, id, s.policies[id].(active := active), map[slot := Some(VSwitch(active))])
  {
    hide Consistent, At, BodyOf, Holder;
    PolicyRefs(s, id);
  }

  lemma DoesToggle(x: Exec, id: Id, n: string, active: bool)
    requires Consistent(x.server) && Mirrors(x) && Own(TogglePolicy(id, n, active), x.server)
    ensures var r := Do(TogglePolicy(id, n, active), x);
            r.Some? && Performs(x, r.value, Writes(TogglePolicy(id, n, active), x.server.toggleField))
  {
    hide Performs, Consistent, Mirrors, Holder, At, BodyOf, MayReplace;
    var v := x.server.policies[id].(active := active && x.server.toggleField == CLI_TOGGLE_FIELD);
    SwitchReplaces(x.server, id, v.active, SSwitch(Key(n)));
    DoesSetPolicy(x, id, v, Writes(TogglePolicy(id, n, active), x.server.toggleField));
  }

  lemma DoesCreateGroup(x: Exec, n: string, color: string)
    requires Consistent(x.server) && Mirrors(x) && Own(CreateGroup(n, color), x.server)
    ensures var r := Do(CreateGroup(n, color), x);
            r.Some? && Performs(x, r.value, Writes(CreateGroup(n, color), x.server.toggleField))
                && Present(r.value.server, NeedGroup(Key(n)))
  {
    hide Updates, Consistent, UniqueNames, MirrorsTable, Holder, Key, Lower, Trim;
    KeyOfTrimmed(n);
    var v := Group(Trim(n), StoredColor(color));
    GroupAdded(x.server, v);
    TableGrows(GroupName, x.server.groups, AddGroup(x.server, v).groups, x.groups, Key(n), x.server.next);
  }

  lemma DoesRecolor(x: Exec, id: Id, n: string, color: string)
    requires Consistent(x.server) && Mirrors(x) && Own(RecolorGroup(id, n, color), x.server)
    ensures var r := Do(RecolorGroup(id, n, color), x);
            r.Some? && Performs(x, r.value, Writes(RecolorGroup(id, n, color), x.server.toggleField))
  {
    hide Updates, Consistent, UniqueNames, MirrorsTable, Holder, Key, Lower;
    var v := x.server.groups[id].(color := StoredColor(color));
    GroupSet(x.server, id, v);
    TableStays(GroupName, x.server.groups, SetGroup(x.server, id, v).groups, x.groups);
  }

  lemma GroupFound(x: Exec, k: string)
    requires Mirrors(x) && Present(x.server, NeedGroup(k))
    ensures k in x.groups && Holder(GroupName, x.server.groups, k) == Some(x.groups[k])
        && x.groups[k] in x.server.groups
  {
  }

  lemma PolicyFound(x: Exec, k: string)
    requires Mirrors(x) && Present(x.server, NeedPolicy(k))
    ensures k in x.policies && Holds(PolicyName, x.server.policies, k, x.policies[k])
            && Holder(PolicyName, x.server.policies, k) == Some(x.policies[k])
  {
  }

  lemma DoesAddRule(x: Exec, g: string, n: string, t: string)
    requires Consistent(x.server) && Mirrors(x) && Legal(AddRule(g, n, t), x.server)
    ensures var r := Do(AddRule(g, n, t), x);
            r.Some? && Performs(x, r.value, Writes(AddRule(g, n, t), x.server.toggleField))
  {
    hide Mirrors, Holder, RuleAt, At, Updates, Consistent, Untouched, Present;
    assert NeedGroup(Key(g)) in Needs(AddRule(g, n, t));
    GroupFound(x, Key(g));
    KeyOfTrimmed(n);
    var v := Rule(Trim(n), t, None, Some(x.groups[Key(g)]));
    RuleAdded(x.server, v, Key(g));
    SameNames(x, AddOneRule(x.server, v));
  }

  lemma DoesDropRule(x: Exec, g: string, id: Id, n: string)
    requires Consistent(x.server) && Mirrors(x) && Legal(DropRule(g, id, n), x.server)
    ensures var r := Do(DropRule(g, id, n), x);
            r.Some? && Performs(x, r.value, Writes(DropRule(g, id, n), x.server.toggleField))
  {
    hide Mirrors, Holder, RuleAt, At, Updates, Consistent, Untouched, Present;
    assert NeedGroup(Key(g)) in Needs(DropRule(g, id, n));
    GroupFound(x, Key(g));
    RuleRemoved(x.server, id, Key(g), Key(n));
    SameNames(x, RemoveRule(x.server, id));
  }

  lemma DoesReplaceRule(x: Exec, g: string, id: Id, n: string, t: string)
    requires Consistent(x.server) && Mirrors(x) && Legal(ReplaceRule(g, id, n, t), x.server)
    ensures var r := Do(ReplaceRule(g, id, n, t), x);
            r.Some? && Performs(x, r.value, Writes(ReplaceRule(g, id, n, t), x.server.toggleField))
  {
    hide Mirrors, Holder, RuleAt, At, Updates, Consistent, Untouched, Present;
    assert NeedGroup(Key(g)) in Needs(ReplaceRule(g, id, n, t));
    GroupFound(x, Key(g));
    KeyOfTrimmed(n);
    var s := x.server;
    var v := Rule(Trim(n), t, None, Some(x.groups[Key(g)]));
    RuleReplaced(s, id, v, Key(g), Key(n));
    FreshRule(s, id, v);
    SameNames(x, AddOneRule(RemoveRule(s, id), v));
  }

  lemma SameNames(x: Exec, s: Server)
    requires Mirrors(x) && s.scripts == x.server.scripts && s.policies == x.server.policies
        && s.groups == x.server.groups
    ensures Mirrors(x.(server := s))
  {
  }

  lemma RuleReplaced(s: Server, id: Id, v: Rule, gk: string, sk: string)
    requires Consistent(s) && MayRemove(s, id, gk, sk)
    requires v.group.Some? && v.device.None? && Holder(GroupName, s.groups, gk) == v.group && Key(v.software) == sk
    ensures Updates(s, AddOneRule(RemoveRule(s, id), v), map[SRule(gk, sk) := Some(VRule(v.ruleType))])
  {
    hide Consistent, Updates, Holder, RuleAt, At, Untouched;
    var s1 := RemoveRule(s, id);
    RuleRemoved(s, id, gk, sk);
    NothingLeft(s, id, gk, sk);
    RuleAdded(s1, v, gk);
    ReplacementUpdates(s, s1, AddOneRule(s1, v), gk, sk, v.ruleType);
  }

  lemma FreshRule(s: Server, id: Id, v: Rule)
    ensures forall i :: i in AddOneRule(RemoveRule(s, id), v).rules && i !in s.rules ==> i >= s.next
  {
  }

  lemma ReplacementUpdates(s: Server, s1: Server, s2: Server, gk: string, sk: string, t: string)
    requires Consistent(s) && Updates(s, s1, map[SRule(gk, sk) := None])
        && Updates(s1, s2, map[SRule(gk, sk) := Some(VRule(t))])
    requires forall i :: i in s2.rules && i !in s1.rules ==> i >= s1.next
    ensures Updates(s, s2, map[SRule(gk, sk) := Some(VRule(t))])
  {
    hide At, Consistent, Untouched;
    var w := {SRule(gk, sk)};
    var gone: map<Slot, Option<Val>> := map[SRule(gk, sk) := None];
    assert gone.Keys == w && map[SRule(gk, sk) := Some(VRule(t))].Keys == w;
    UntouchedTransitive(s, s1, s2, w, w);
    assert w + w == w;
  }

  lemma DoesAssign(x: Exec, g: string, pk: string, assign: bool, a: Action)
    requires (a == UnassignFrom(g, pk) && !assign) || (a.AssignTo? && a.group == g && Key(a.policyName) == pk && assign)
    requires Consistent(x.server) && Mirrors(x) && Legal(a, x.server)
    ensures var r := Do(a, x);
            r.Some? && Performs(x, r.value, Writes(a, x.server.toggleField))
  {
    hide Performs, Consistent, Mirrors, Present, Holder, At, MayReplace, BodyOf, Key, Legal;
    AssignNeeds(a, x.server, g, pk);
    GroupFound(x, Key(g));
    PolicyFound(x, pk);
    var gid, id := x.groups[Key(g)], x.policies[pk];
    var p := x.server.policies[id];
    var v := p.(groups := if assign then p.groups + {gid} else p.groups - {gid});
    var w := Writes(a, x.server.toggleField);
    AssignReplaces(x.server, gid, Key(g), id, assign, SAssign(Key(g), pk));
    assert w == map[SAssign(Key(g), pk) := if assign then Some(VAssigned) else None];
    DoesSetPolicy(x, id, v, w);
  }

  lemma AssignNeeds(a: Action, s: Server, g: string, pk: string)
    requires a == UnassignFrom(g, pk) || (a.AssignTo? && a.group == g && Key(a.policyName) == pk)
    requires Legal(a, s)
    ensures Present(s, NeedGroup(Key(g))) && Present(s, NeedPolicy(pk))
  {
    hide Present, Key;
    assert NeedGroup(Key(g)) in Needs(a) && NeedPolicy(pk) in Needs(a);
  }

  lemma AssignReplaces(s: Server, gid: Id, gk: string, id: Id, assign: bool, slot: Slot)
    requires Consistent(s) && Holder(GroupName, s.groups, gk) == Some(gid) && id in s.policies
    requires slot == SAssign(gk, Key(s.policies[id].name))
    ensures MayReplace(s, id,
                       s.policies[id].(groups := if assign then s.policies[id].groups + {gid}
                                                 else s.policies[id].groups - {gid}),
                       map[slot := if assign then Some(VAssigned) else None])
  {
    hide Consistent, At, BodyOf, Key, UniqueNames;
    PolicyRefs(s, id);
    OneKeyPerGroup(s, gid, gk);
  }

  lemma OneKeyPerGroup(s: Server, gid: Id, k: string)
    requires Consistent(s) && Holder(GroupName, s.groups, k) == Some(gid)
    ensures forall g :: g in s.groups && Key(s.groups[g].name) == k ==> g == gid
  {
    forall g | g in s.groups && Key(s.groups[g].name) == k ensures g == gid {
      assert Holds(GroupName, s.groups, k, g);
    }
  }

  /** A legal action succeeds, writes what it says, and leaves the rest alone. */
  lemma LegalActionPerforms(a: Action, x: Exec)
    requires Consistent(x.server) && Mirrors(x) && Legal(a, x.server)
    ensures Do(a, x).Some? && Performs(x, Do(a, x).value, Writes(a, x.server.toggleField))
    ensures forall n :: n in Provides(a) ==> Present(Do(a, x).value.server, n)
  {
    hide Consistent, Performs, Mirrors, Do, Present;
    match a
    case CreateScript(w) => DoesCreateScript(x, w);
    case UpdateScript(id, w) => DoesUpdateScript(x, id, w);
    case CreatePolicy(w) => DoesCreatePolicy(x, w);
    case UpdatePolicy(id, w) => DoesUpdatePolicy(x, id, w);
    case TogglePolicy(id, n, b) => DoesToggle(x, id, n, b);
    case CreateGroup(n, c) => DoesCreateGroup(x, n, c);
    case RecolorGroup(id, n, c) => DoesRecolor(x, id, n, c);
    case ReplaceRule(g, id, n, t) => DoesReplaceRule(x, g, id, n, t);
    case AddRule(g, n, t) => DoesAddRule(x, g, n, t);
    case DropRule(g, id, n) => DoesDropRule(x, g, id, n);
    case AssignTo(g, p) => DoesAssign(x, g, Key(p), true, a);
    case UnassignFrom(g, k) => DoesAssign(x, g, k, false, a);
  }
}
