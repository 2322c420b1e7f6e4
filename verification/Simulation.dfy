/** Each action, run on a server that meets its needs, writes its slots and nothing else. */
module Simulation {
  import opened Ordering
  import opened Fleet
  import opened Executor

  /** One server update: consistency, the slots written, and the frame. */
  ghost predicate Updates(s: Server, s': Server, w: map<Slot, Option<Val>>) {
    Consistent(s') && Overwritten(s, s', w) && Untouched(s, s', w.Keys)
  }

  lemma SameRuleAt(s: Server, s': Server, gk: string, sk: string)
    requires s'.rules == s.rules && Holder(GroupName, s'.groups, gk) == Holder(GroupName, s.groups, gk)
        && OneRuleEach(s.rules)
    ensures RuleAt(s', gk, sk) == RuleAt(s, gk, sk)
  {
    var r := RuleAt(s, gk, sk);
    if r.Some? { RuleAtIs(s', gk, sk, r.value); }
  }

  lemma RuleAtIs(s: Server, gk: string, sk: string, id: Id)
    requires OneRuleEach(s.rules) && Holder(GroupName, s.groups, gk).Some?
    requires id in s.rules && Binds(s.rules[id], Holder(GroupName, s.groups, gk).value, sk)
    ensures RuleAt(s, gk, sk) == Some(id)
  {
  }

  lemma ConsistentNames(s: Server)
    requires Consistent(s)
    ensures UniqueNames(GroupName, s.groups) && UniqueNames(ScriptName, s.scripts)
        && UniqueNames(PolicyName, s.policies)
    ensures s.next !in s.groups && s.next !in s.scripts && s.next !in s.policies && s.next !in s.rules
  {
  }

  lemma SamePolicyItself(s: Server, s': Server, w: set<Slot>, p: Policy)
    requires p.groups <= s.groups.Keys
    ensures SamePolicy(s, s', w, p, p)
  {
  }

  lemma PoliciesUntouched(s: Server, s': Server, w: set<Slot>)
    requires Consistent(s) && s'.policies == s.policies
    ensures SamePolicies(s, s', w)
  {
    PolicyGroupsKnown(s);
    forall i | i in s.policies ensures SamePolicy(s, s', w, s.policies[i], s.policies[i]) {
      SamePolicyItself(s, s', w, s.policies[i]);
    }
  }

  lemma PolicyGroupsKnown(s: Server)
    requires Consistent(s)
    ensures forall i :: i in s.policies ==> s.policies[i].groups <= s.groups.Keys
  {
  }

  /** The collections an update leaves alone. */
  lemma RestUntouched(s: Server, s': Server, w: set<Slot>)
    requires Consistent(s)
    ensures s'.scripts == s.scripts ==> SameScripts(s, s', w)
    ensures s'.groups == s.groups ==> SameGroups(s, s', w)
    ensures s'.policies == s.policies ==> SamePolicies(s, s', w)
    ensures s'.rules == s.rules ==> SameRules(s, s', w)
  {
    hide Consistent, SamePolicies;
    if s'.policies == s.policies { PoliciesUntouched(s, s', w); }
  }

  // ---- Scripts ----

  function AddScript(s: Server, v: Script): Server { s.(scripts := s.scripts[s.next := v], next := s.next + 1) }
  function SetScript(s: Server, id: Id, v: Script): Server { s.(scripts := s.scripts[id := v]) }
  function ScriptWrite(v: Script): map<Slot, Option<Val>> {
    map[SScript(Key(v.name)) := Some(VScript(v.platform, v.content))]
  }

  lemma ScriptAddedFrame(s: Server, v: Script)
    requires Consistent(s) && Holder(ScriptName, s.scripts, Key(v.name)).None?
    ensures Untouched(s, AddScript(s, v), ScriptWrite(v).Keys)
  {
    hide Key, Consistent, UniqueNames, SameGroups, SamePolicies, SameRules, Holder, BodyOf;
    ConsistentNames(s);
    RestUntouched(s, AddScript(s, v), ScriptWrite(v).Keys);
  }

  lemma ScriptAddedConsistent(s: Server, v: Script)
    requires Consistent(s) && Holder(ScriptName, s.scripts, Key(v.name)).None?
    ensures Consistent(AddScript(s, v))
  {
    hide Holder, BodyOf;
    HolderAdded(ScriptName, s.scripts, s.next, v);
  }

  lemma ScriptAdded(s: Server, v: Script)
    requires Consistent(s) && Holder(ScriptName, s.scripts, Key(v.name)).None?
    ensures Updates(s, AddScript(s, v), ScriptWrite(v))
    ensures forall k :: Holder(ScriptName, AddScript(s, v).scripts, k) == if k == Key(v.name) then Some(s.next)
        else Holder(ScriptName, s.scripts, k)
  {
    hide At, Holder, BodyOf, Consistent, Untouched, PolicyVal, PolicySlot;
    ConsistentNames(s);
    ScriptAddedFrame(s, v);
    ScriptAddedConsistent(s, v);
    HolderAdded(ScriptName, s.scripts, s.next, v);
    forall slot ensures At(AddScript(s, v), slot) == if slot in ScriptWrite(v) then ScriptWrite(v)[slot]
        else At(s, slot) {
      ScriptAddedAt(s, v, slot);
    }
  }

  lemma ScriptAddedAt(s: Server, v: Script, slot: Slot)
    requires Consistent(s) && Holder(ScriptName, s.scripts, Key(v.name)).None?
    ensures At(AddScript(s, v), slot) == if slot in ScriptWrite(v) then ScriptWrite(v)[slot] else At(s, slot)
  {
    HolderAdded(ScriptName, s.scripts, s.next, v);
    if slot.SRule? { SameRuleAt(s, AddScript(s, v), slot.g, slot.k); }
  }

  lemma ScriptSetFrame(s: Server, id: Id, v: Script)
    requires Consistent(s) && Holds(ScriptName, s.scripts, Key(v.name), id)
    ensures Untouched(s, SetScript(s, id, v), ScriptWrite(v).Keys)
  {
    hide Key, Consistent, UniqueNames, SameGroups, SamePolicies, SameRules, Holder, BodyOf;
    ConsistentNames(s);
    RestUntouched(s, SetScript(s, id, v), ScriptWrite(v).Keys);
  }

  lemma ScriptSetConsistent(s: Server, id: Id, v: Script)
    requires Consistent(s) && Holds(ScriptName, s.scripts, Key(v.name), id)
    ensures Consistent(SetScript(s, id, v))
  {
    hide Holder, BodyOf;
    HolderKept(ScriptName, s.scripts, id, v);
  }

  lemma ScriptSet(s: Server, id: Id, v: Script)
    requires Consistent(s) && Holds(ScriptName, s.scripts, Key(v.name), id)
    ensures Updates(s, SetScript(s, id, v), ScriptWrite(v))
    ensures forall k :: Holder(ScriptName, SetScript(s, id, v).scripts, k) == Holder(ScriptName, s.scripts, k)
  {
    hide At, Holder, BodyOf, Consistent, Untouched, PolicyVal, PolicySlot;
    ConsistentNames(s);
    ScriptSetFrame(s, id, v);
    ScriptSetConsistent(s, id, v);
    HolderKept(ScriptName, s.scripts, id, v);
    forall slot ensures At(SetScript(s, id, v), slot) == if slot in ScriptWrite(v) then ScriptWrite(v)[slot]
        else At(s, slot) {
      ScriptSetAt(s, id, v, slot);
    }
  }

  lemma ScriptSetAt(s: Server, id: Id, v: Script, slot: Slot)
    requires Consistent(s) && Holds(ScriptName, s.scripts, Key(v.name), id)
    ensures At(SetScript(s, id, v), slot) == if slot in ScriptWrite(v) then ScriptWrite(v)[slot] else At(s, slot)
  {
    hide Key, RuleAt, UniqueNames;
    ConsistentNames(s);
    HolderKept(ScriptName, s.scripts, id, v);
    HolderIs(ScriptName, s.scripts, Key(v.name), id);
    if slot.SRule? { SameRuleAt(s, SetScript(s, id, v), slot.g, slot.k); }
  }

  // ---- Groups ----

  function AddGroup(s: Server, v: Group): Server { s.(groups := s.groups[s.next := v], next := s.next + 1) }
  function SetGroup(s: Server, id: Id, v: Group): Server { s.(groups := s.groups[id := v]) }
  function GroupWrite(v: Group): map<Slot, Option<Val>> { map[SGroup(Key(v.name)) := Some(VColor(Lower(v.color)))] }

  lemma GroupAddedFrame(s: Server, v: Group)
    requires Consistent(s) && Holder(GroupName, s.groups, Key(v.name)).None?
    ensures Untouched(s, AddGroup(s, v), GroupWrite(v).Keys)
  {
    hide Key, Consistent, UniqueNames, SameScripts, SamePolicies, SameRules, Holder, BodyOf;
    ConsistentNames(s);
    RestUntouched(s, AddGroup(s, v), GroupWrite(v).Keys);
  }

  lemma GroupAddedConsistent(s: Server, v: Group)
    requires Consistent(s) && Holder(GroupName, s.groups, Key(v.name)).None?
    ensures Consistent(AddGroup(s, v))
  {
    hide Holder, BodyOf;
    HolderAdded(GroupName, s.groups, s.next, v);
  }

  lemma GroupAdded(s: Server, v: Group)
    requires Consistent(s) && Holder(GroupName, s.groups, Key(v.name)).None?
    ensures Updates(s, AddGroup(s, v), GroupWrite(v))
    ensures forall k :: Holder(GroupName, AddGroup(s, v).groups, k) == if k == Key(v.name) then Some(s.next)
        else Holder(GroupName, s.groups, k)
  {
    hide At, Holder, BodyOf, Consistent, Untouched, PolicyVal, PolicySlot;
    ConsistentNames(s);
    GroupAddedFrame(s, v);
    GroupAddedConsistent(s, v);
    HolderAdded(GroupName, s.groups, s.next, v);
    forall slot ensures At(AddGroup(s, v), slot) == if slot in GroupWrite(v) then GroupWrite(v)[slot] else At(s, slot) {
      GroupAddedAt(s, v, slot);
    }
  }

  lemma GroupAddedAt(s: Server, v: Group, slot: Slot)
    requires Consistent(s) && Holder(GroupName, s.groups, Key(v.name)).None?
    ensures At(AddGroup(s, v), slot) == if slot in GroupWrite(v) then GroupWrite(v)[slot] else At(s, slot)
  {
    var s' := AddGroup(s, v);
    HolderAdded(GroupName, s.groups, s.next, v);
    if slot.SRule? {
      if slot.g == Key(v.name) {
        assert forall i :: i in s.rules ==> s.rules[i].group != Some(s.next);
      } else {
        SameRuleAt(s, s', slot.g, slot.k);
      }
    }
  }

  lemma GroupSetFrame(s: Server, id: Id, v: Group)
    requires Consistent(s) && Holds(GroupName, s.groups, Key(v.name), id)
    ensures Untouched(s, SetGroup(s, id, v), GroupWrite(v).Keys)
  {
    hide Key, Consistent, UniqueNames, SameScripts, SamePolicies, SameRules, Holder, BodyOf;
    ConsistentNames(s);
    RestUntouched(s, SetGroup(s, id, v), GroupWrite(v).Keys);
  }

  lemma GroupSetConsistent(s: Server, id: Id, v: Group)
    requires Consistent(s) && Holds(GroupName, s.groups, Key(v.name), id)
    ensures Consistent(SetGroup(s, id, v))
  {
    hide Holder, BodyOf;
    HolderKept(GroupName, s.groups, id, v);
  }

  lemma GroupSet(s: Server, id: Id, v: Group)
    requires Consistent(s) && Holds(GroupName, s.groups, Key(v.name), id)
    ensures Updates(s, SetGroup(s, id, v), GroupWrite(v))
    ensures forall k :: Holder(GroupName, SetGroup(s, id, v).groups, k) == Holder(GroupName, s.groups, k)
  {
    hide At, Holder, BodyOf, Consistent, Untouched, PolicyVal, PolicySlot;
    ConsistentNames(s);
    GroupSetFrame(s, id, v);
    GroupSetConsistent(s, id, v);
    HolderKept(GroupName, s.groups, id, v);
    forall slot ensures At(SetGroup(s, id, v), slot) == if slot in GroupWrite(v) then GroupWrite(v)[slot]
        else At(s, slot) {
      GroupSetAt(s, id, v, slot);
    }
  }

  lemma GroupSetAt(s: Server, id: Id, v: Group, slot: Slot)
    requires Consistent(s) && Holds(GroupName, s.groups, Key(v.name), id)
    ensures At(SetGroup(s, id, v), slot) == if slot in GroupWrite(v) then GroupWrite(v)[slot] else At(s, slot)
  {
    hide Key, RuleAt, UniqueNames;
    ConsistentNames(s);
    HolderKept(GroupName, s.groups, id, v);
    HolderIs(GroupName, s.groups, Key(v.name), id);
    if slot.SRule? { SameRuleAt(s, SetGroup(s, id, v), slot.g, slot.k); }
  }

  // ---- Policies ----

  function AddPolicy(s: Server, v: Policy): Server { s.(policies := s.policies[s.next := v], next := s.next + 1) }
  function SetPolicy(s: Server, id: Id, v: Policy): Server { s.(policies := s.policies[id := v]) }
  ghost function PolicyWrite(s: Server, v: Policy): map<Slot, Option<Val>> {
    map[SBody(Key(v.name)) := Some(BodyOf(s, v)), SSwitch(Key(v.name)) := Some(VSwitch(v.active))]
  }

  lemma PolicyAddedFrame(s: Server, v: Policy)
    requires Consistent(s) && Holder(PolicyName, s.policies, Key(v.name)).None? && v.script in s.scripts
        && v.groups == {}
    ensures Untouched(s, AddPolicy(s, v), PolicyWrite(s, v).Keys)
  {
    hide Key, Consistent, UniqueNames, SameScripts, SameGroups, SameRules, SamePolicy, Holder, BodyOf;
    ConsistentNames(s);
    var s', w := AddPolicy(s, v), PolicyWrite(s, v).Keys;
    PolicyGroupsKnown(s);
    RestUntouched(s, s', w);
    forall i | i in s.policies ensures SamePolicy(s, s', w, s.policies[i], s'.policies[i]) {
      SamePolicyItself(s, s', w, s.policies[i]);
    }
  }

  lemma PolicyAddedConsistent(s: Server, v: Policy)
    requires Consistent(s) && Holder(PolicyName, s.policies, Key(v.name)).None? && v.script in s.scripts
        && v.groups == {}
    ensures Consistent(AddPolicy(s, v))
  {
    hide Holder, BodyOf;
    HolderAdded(PolicyName, s.policies, s.next, v);
  }

  lemma PolicyAdded(s: Server, v: Policy)
    requires Consistent(s) && Holder(PolicyName, s.policies, Key(v.name)).None?
    requires v.script in s.scripts && v.groups == {}
    ensures Updates(s, AddPolicy(s, v), PolicyWrite(s, v))
    ensures forall k :: Holder(PolicyName, AddPolicy(s, v).policies, k) == if k == Key(v.name) then Some(s.next)
        else Holder(PolicyName, s.policies, k)
  {
    hide At, Holder, BodyOf, Consistent, Untouched, PolicyVal, PolicySlot;
    ConsistentNames(s);
    PolicyAddedFrame(s, v);
    PolicyAddedConsistent(s, v);
    HolderAdded(PolicyName, s.policies, s.next, v);
    forall slot ensures At(AddPolicy(s, v), slot) == if slot in PolicyWrite(s, v) then PolicyWrite(s, v)[slot]
        else At(s, slot) {
      PolicyAddedAt(s, v, slot);
    }
  }

  lemma PolicyAddedAt(s: Server, v: Policy, slot: Slot)
    requires Consistent(s) && Holder(PolicyName, s.policies, Key(v.name)).None?
    requires v.script in s.scripts && v.groups == {}
    ensures At(AddPolicy(s, v), slot) == if slot in PolicyWrite(s, v) then PolicyWrite(s, v)[slot] else At(s, slot)
  {
    hide RuleAt, Key, UniqueNames;
    ConsistentNames(s);
    HolderAdded(PolicyName, s.policies, s.next, v);
    if slot.SRule? { SameRuleAt(s, AddPolicy(s, v), slot.g, slot.k); }
  }

  /** v may replace policy id: it differs from it only in what w writes, and w writes what v says. */
  ghost predicate MayReplace(s: Server, id: Id, v: Policy, w: map<Slot, Option<Val>>) {
    && Holds(PolicyName, s.policies, Key(v.name), id) && v.script in s.scripts && v.groups <= s.groups.Keys
    && (forall slot :: slot in w ==> PolicySlot(s, v, slot) && w[slot] == PolicyVal(s, v, slot))
    && (SBody(Key(v.name)) !in w ==> v == s.policies[id].(active := v.active, groups := v.groups))
    && (SSwitch(Key(v.name)) !in w ==> v.active == s.policies[id].active)
    && (forall g :: g in s.groups ==>
          SAssign(Key(s.groups[g].name), Key(v.name)) in w || (g in v.groups <==> g in s.policies[id].groups))
  }

  ghost predicate PolicySlot(s: Server, v: Policy, slot: Slot) {
    slot == SBody(Key(v.name)) || slot == SSwitch(Key(v.name))
    || (slot.SAssign? && slot.k == Key(v.name) && Holder(GroupName, s.groups, slot.g).Some?)
  }

  ghost function PolicyVal(s: Server, v: Policy, slot: Slot): Option<Val>
    requires PolicySlot(s, v, slot)
  {
    if slot.SBody? then Some(BodyOf(s, v))
    else if slot.SSwitch? then Some(VSwitch(v.active))
    else if Holder(GroupName, s.groups, slot.g).value in v.groups then Some(VAssigned) else None
  }

  lemma PolicySetFrame(s: Server, id: Id, v: Policy, w: map<Slot, Option<Val>>)
    requires Consistent(s) && MayReplace(s, id, v, w)
    ensures Untouched(s, SetPolicy(s, id, v), w.Keys)
  {
    hide Consistent, SameScripts, SameGroups, SameRules, SamePolicy, Holder, BodyOf, PolicyVal, PolicySlot;
    var s' := SetPolicy(s, id, v);
    PolicyGroupsKnown(s);
    RestUntouched(s, s', w.Keys);
    forall i | i in s.policies ensures SamePolicy(s, s', w.Keys, s.policies[i], s'.policies[i]) {
      if i == id { ReplacedPolicy(s, id, v, w); } else { SamePolicyItself(s, s', w.Keys, s.policies[i]); }
    }
  }

  lemma ReplacedPolicy(s: Server, id: Id, v: Policy, w: map<Slot, Option<Val>>)
    requires MayReplace(s, id, v, w)
    ensures SamePolicy(s, SetPolicy(s, id, v), w.Keys, s.policies[id], v)
  {
    hide Holder, BodyOf, PolicyVal, PolicySlot;
  }

  lemma PolicySetConsistent(s: Server, id: Id, v: Policy, w: map<Slot, Option<Val>>)
    requires Consistent(s) && MayReplace(s, id, v, w)
    ensures Consistent(SetPolicy(s, id, v))
  {
    hide Holder, BodyOf;
    HolderKept(PolicyName, s.policies, id, v);
  }

  lemma PolicySet(s: Server, id: Id, v: Policy, w: map<Slot, Option<Val>>)
    requires Consistent(s) && MayReplace(s, id, v, w)
    ensures Updates(s, SetPolicy(s, id, v), w)
    ensures forall k :: Holder(PolicyName, SetPolicy(s, id, v).policies, k) == Holder(PolicyName, s.policies, k)
  {
    hide At, Holder, BodyOf, Consistent, Untouched, PolicyVal, PolicySlot;
    ConsistentNames(s);
    PolicySetFrame(s, id, v, w);
    PolicySetConsistent(s, id, v, w);
    HolderKept(PolicyName, s.policies, id, v);
    forall slot ensures At(SetPolicy(s, id, v), slot) == if slot in w then w[slot] else At(s, slot) {
      PolicySetAt(s, id, v, w, slot);
    }
  }

  lemma PolicySetAt(s: Server, id: Id, v: Policy, w: map<Slot, Option<Val>>, slot: Slot)
    requires Consistent(s) && MayReplace(s, id, v, w)
    ensures At(SetPolicy(s, id, v), slot) == if slot in w then w[slot] else At(s, slot)
  {
    ConsistentNames(s);
    HolderKept(PolicyName, s.policies, id, v);
    HolderIs(PolicyName, s.policies, Key(v.name), id);
    if slot.SRule? {
      SameRuleAt(s, SetPolicy(s, id, v), slot.g, slot.k);
    } else if slot.SAssign? {
      PolicySetAssign(s, id, v, w, slot.g, slot.k);
    } else {
      hide Consistent, UniqueNames, RuleAt;
    }
  }

  lemma PolicySetAssign(s: Server, id: Id, v: Policy, w: map<Slot, Option<Val>>, gk: string, pk: string)
    requires UniqueNames(PolicyName, s.policies) && MayReplace(s, id, v, w)
    ensures At(SetPolicy(s, id, v), SAssign(gk, pk)) == if SAssign(gk, pk) in w then w[SAssign(gk, pk)]
        else At(s, SAssign(gk, pk))
  {
    hide Key;
    HolderKept(PolicyName, s.policies, id, v);
    HolderIs(PolicyName, s.policies, Key(v.name), id);
    hide UniqueNames, RuleAt, BodyOf, Key;
    var h := Holder(GroupName, s.groups, gk);
    assert h.Some? ==> h.value in s.groups && SAssign(Key(s.groups[h.value].name), pk) == SAssign(gk, pk);
  }

  // ---- Rules ----

  function AddOneRule(s: Server, v: Rule): Server { s.(rules := s.rules[s.next := v], next := s.next + 1) }
  function RemoveRule(s: Server, id: Id): Server { s.(rules := s.rules - {id}) }
  function RuleWrite(gk: string, v: Rule): map<Slot, Option<Val>> {
    map[SRule(gk, Key(v.software)) := Some(VRule(v.ruleType))]
  }

  ghost predicate MayAdd(s: Server, v: Rule, gk: string) {
    v.group.Some? && v.device.None? && Holder(GroupName, s.groups, gk) == v.group
        && RuleAt(s, gk, Key(v.software)).None?
  }

  lemma RuleAdded(s: Server, v: Rule, gk: string)
    requires Consistent(s) && MayAdd(s, v, gk)
    ensures Updates(s, AddOneRule(s, v), RuleWrite(gk, v))
  {
    hide At, Holder, RuleAt, Consistent, Untouched, MayAdd;
    var w := RuleWrite(gk, v);
    forall slot ensures At(AddOneRule(s, v), slot) == if slot in w then w[slot] else At(s, slot) {
      RuleAddedAt(s, v, gk, slot);
    }
    RuleAddedConsistent(s, v, gk);
    RuleAddedFrame(s, v, gk);
  }

  lemma RuleAddedConsistent(s: Server, v: Rule, gk: string)
    requires Consistent(s) && MayAdd(s, v, gk)
    ensures Consistent(AddOneRule(s, v))
  {
    OneRuleAdded(s, v, gk);
    hide OneRuleEach, UniqueNames, Holder, Key;
  }

  lemma RuleAddedFrame(s: Server, v: Rule, gk: string)
    requires Consistent(s) && MayAdd(s, v, gk)
    ensures Untouched(s, AddOneRule(s, v), RuleWrite(gk, v).Keys)
  {
    hide Consistent, SameScripts, SameGroups, SamePolicies, Key, Holder, RuleAt;
    ConsistentNames(s);
    OneRuleAdded(s, v, gk);
    RestUntouched(s, AddOneRule(s, v), RuleWrite(gk, v).Keys);
    assert RuleNamed(AddOneRule(s, v), v, RuleWrite(gk, v).Keys);
  }

  lemma OneRuleAdded(s: Server, v: Rule, gk: string)
    requires Consistent(s) && MayAdd(s, v, gk)
    ensures OneRuleEach(AddOneRule(s, v).rules)
    ensures v.group.value in s.groups && Key(s.groups[v.group.value].name) == gk
  {
  }

  lemma RuleAddedAt(s: Server, v: Rule, gk: string, slot: Slot)
    requires Consistent(s) && MayAdd(s, v, gk)
    ensures At(AddOneRule(s, v), slot) == if slot in RuleWrite(gk, v) then RuleWrite(gk, v)[slot] else At(s, slot)
  {
    var s' := AddOneRule(s, v);
    OneRuleAdded(s, v, gk);
    if slot == SRule(gk, Key(v.software)) {
      RuleAtIs(s', gk, slot.k, s.next);
    } else if slot.SRule? {
      SameHolder(s, v, gk, slot.g);
      OtherRuleAt(s, s', s.next, slot.g, slot.k);
    }
  }

  /** Two keys with the same group are the same key. */
  lemma SameHolder(s: Server, v: Rule, gk: string, gk': string)
    requires Holder(GroupName, s.groups, gk) == v.group && v.group.Some?
    ensures Holder(GroupName, s.groups, gk') == v.group ==> gk == gk'
  {
  }

  ghost predicate MayRemove(s: Server, id: Id, gk: string, sk: string) {
    var h := Holder(GroupName, s.groups, gk);
    h.Some? && id in s.rules && Binds(s.rules[id], h.value, sk)
  }

  lemma RuleRemoved(s: Server, id: Id, gk: string, sk: string)
    requires Consistent(s) && MayRemove(s, id, gk, sk)
    ensures Updates(s, RemoveRule(s, id), map[SRule(gk, sk) := None])
  {
    hide At, RuleAt, Consistent, Untouched, MayRemove;
    var w: map<Slot, Option<Val>> := map[SRule(gk, sk) := None];
    forall slot ensures At(RemoveRule(s, id), slot) == if slot in w then w[slot] else At(s, slot) {
      RuleRemovedAt(s, id, gk, sk, slot);
    }
    NothingLeft(s, id, gk, sk);
    RuleRemovedFrame(s, id, gk, sk);
    assert w.Keys == {SRule(gk, sk)};
  }

  lemma RuleRemovedFrame(s: Server, id: Id, gk: string, sk: string)
    requires Consistent(s) && MayRemove(s, id, gk, sk)
    ensures Untouched(s, RemoveRule(s, id), {SRule(gk, sk)})
  {
    hide Consistent, SameScripts, SameGroups, SamePolicies, Key;
    RestUntouched(s, RemoveRule(s, id), {SRule(gk, sk)});
    assert RuleNamed(s, s.rules[id], {SRule(gk, sk)});
  }

  lemma NothingLeft(s: Server, id: Id, gk: string, sk: string)
    requires Consistent(s) && MayRemove(s, id, gk, sk)
    ensures RuleAt(RemoveRule(s, id), gk, sk).None?
    ensures Consistent(RemoveRule(s, id))
  {
    var h := Holder(GroupName, s.groups, gk).value;
    assert forall i :: i in s.rules && i != id ==> !Binds(s.rules[i], h, sk);
  }

  lemma RuleRemovedAt(s: Server, id: Id, gk: string, sk: string, slot: Slot)
    requires Consistent(s) && MayRemove(s, id, gk, sk)
    ensures At(RemoveRule(s, id), slot) == if slot == SRule(gk, sk) then None else At(s, slot)
  {
    NothingLeft(s, id, gk, sk);
    if slot.SRule? && slot != SRule(gk, sk) {
      SameHolder(s, s.rules[id], gk, slot.g);
      OtherRuleAt(RemoveRule(s, id), s, id, slot.g, slot.k);
    }
  }

  /** Rule id, present in `more` only, is bound under another slot. */
  lemma OtherRuleAt(less: Server, more: Server, id: Id, gk: string, sk: string)
    requires less.groups == more.groups && OneRuleEach(more.rules)
    requires id in more.rules && less.rules == more.rules - {id}
    requires var h := Holder(GroupName, more.groups, gk); h.Some? ==> !Binds(more.rules[id], h.value, sk)
    ensures RuleAt(less, gk, sk) == RuleAt(more, gk, sk)
  {
    var b := RuleAt(more, gk, sk);
    var a := RuleAt(less, gk, sk);
    if a.Some? { RuleAtIs(more, gk, sk, a.value); }
    assert b.Some? ==> b.value in less.rules && less.rules[b.value] == more.rules[b.value];
  }
}
