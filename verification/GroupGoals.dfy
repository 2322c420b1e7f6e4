/** What a configuration asks of its groups, and the part of the plan that answers it. */
module GroupGoals {
  import opened Ordering
  import opened Fleet
  import opened Planner
  import opened Executor
  import opened PlanRuns
  import opened Goals

  lemma MeetsWider(acts: seq<Action>, s: Server, a: Aims, b: Aims)
    requires Meets(acts, s, a)
    requires forall slot :: slot in a ==> slot in b && b[slot] == a[slot]
    requires forall slot :: slot in b && slot !in a ==> Hits(b[slot], At(s, slot))
    ensures Meets(acts, s, b)
  {
    hide At, Hits, Lands, Runnable;
  }

  // ---- The group itself ----

  ghost function HeaderAims(g: WantGroup): Aims {
    imap[SGroup(Key(g.name)) := if g.color == "" then Anything(VColor(Lower(DEFAULT_COLOR)))
        else Exactly(Some(VColor(Lower(g.color))))]
  }

  lemma HeaderMeets(s: Server, seen: Seen, g: WantGroup)
    requires ShowsGroups(s, seen.groups)
    ensures Meets(HeaderActions(seen, g), s, HeaderAims(g))
  {
    hide Meets, Holder, Key, Lower;
    LowerTwice(g.color);
    var acts := HeaderActions(seen, g);
    if acts == [] {
      MeetsNone(s, HeaderAims(g));
    } else {
      MeetsOne(acts[0], s, HeaderAims(g));
      assert acts == [acts[0]];
    }
  }

  // ---- Software rules ----

  /** curRules holds exactly the rules bound to the group itself. */
  ghost predicate ShowsCurrent(s: Server, gk: string, cur: map<string, RuleRow>) {
    forall k :: && (k in cur <==> RuleAt(s, gk, k).Some?)
                && (k in cur ==>
                      && cur[k] == RuleRowOf(RuleAt(s, gk, k).value, s.rules[RuleAt(s, gk, k).value])
                      && Key(cur[k].software) == k)
  }

  lemma CurrentRulesShow(s: Server, seen: Seen, g: WantGroup)
    requires OneRuleEach(s.rules) && ShowsGroups(s, seen.groups) && ShowsRules(s, seen.rules)
    ensures ShowsCurrent(s, Key(g.name), CurrentRules(seen, g))
  {
    var gk := Key(g.name);
    if gk in seen.groups {
      var cur, gid := CurrentRules(seen, g), seen.groups[gk].id;
      var list := RulesOf(seen.rules, gid);
      forall k ensures && (k in cur <==> RuleAt(s, gk, k).Some?)
                       && (k in cur ==>
                             && cur[k] == RuleRowOf(RuleAt(s, gk, k).value, s.rules[RuleAt(s, gk, k).value])
                             && Key(cur[k].software) == k)
      {
        var r := RuleAt(s, gk, k);
        if r.Some? {
          assert RuleRowOf(r.value, s.rules[r.value]) in list;
        }
        if k in cur {
          assert cur[k] in list && RuleRowKey(cur[k]) == k;
          assert Binds(s.rules[cur[k].id], gid, k);
        }
      }
    }
  }

  ghost function RuleAims(gk: string, w: WantRule): Aims {
    imap[SRule(gk, Key(w.name)) := Exactly(Some(VRule(w.ruleType)))]
  }

  ghost function ListedAims(gk: string, list: seq<WantRule>): Aims {
    if list == [] then imap[] else ListedAims(gk, list[..|list| - 1]) + RuleAims(gk, list[|list| - 1])
  }

  /** Whatever the list does not name must not be there. */
  ghost function OtherRuleAims(gk: string, keys: set<string>): Aims {
    imap slot: Slot | slot.SRule? && slot.g == gk && slot.k !in keys :: Exactly(None)
  }

  ghost function SoftwareAims(g: WantGroup): Aims {
    if g.software.None? then imap[]
    else ListedAims(Key(g.name), g.software.value) + OtherRuleAims(Key(g.name), RuleKeys(g.software.value))
  }

  ghost predicate DistinctRules(list: seq<WantRule>) {
    forall i, j :: 0 <= i < j < |list| ==> Apart2(list[i].name, list[j].name)
  }

  lemma RuleActionsMeet(s: Server, g: WantGroup, w: WantRule, cur: map<string, RuleRow>, rest: map<string, RuleRow>)
    requires ShowsCurrent(s, Key(g.name), cur)
    requires Key(w.name) in rest <==> Key(w.name) in cur
    requires Key(w.name) in rest ==> rest[Key(w.name)] == cur[Key(w.name)]
    ensures Meets(RuleActions(g, w, rest), s, RuleAims(Key(g.name), w))
  {
    hide Meets, Holder, RuleAt, Key;
    var acts := RuleActions(g, w, rest);
    if acts == [] {
      MeetsNone(s, RuleAims(Key(g.name), w));
    } else {
      MeetsOne(acts[0], s, RuleAims(Key(g.name), w));
      assert acts == [acts[0]];
    }
  }

  lemma {:induction false} ListedAimsAre(gk: string, list: seq<WantRule>, slot: Slot)
    ensures slot in ListedAims(gk, list) <==> slot.SRule? && slot.g == gk && slot.k in RuleKeys(list)
  {
    if list != [] {
      var front, w := list[..|list| - 1], list[|list| - 1];
      ListedAimsAre(gk, front, slot);
      assert list == front + [w];
    }
  }

  lemma LastIsNew(list: seq<WantRule>)
    requires list != [] && DistinctRules(list)
    ensures Key(list[|list| - 1].name) !in RuleKeys(list[..|list| - 1]) && DistinctRules(list[..|list| - 1])
  {
    hide Key;
    var front := list[..|list| - 1];
    assert forall i :: 0 <= i < |front| ==> Apart2(list[i].name, list[|list| - 1].name);
  }

  lemma {:induction false} ListedRulesMeet(s: Server, g: WantGroup, list: seq<WantRule>, cur: map<string, RuleRow>)
    requires ShowsCurrent(s, Key(g.name), cur) && DistinctRules(list)
    ensures Meets(ListedRules(g, list, cur), s, ListedAims(Key(g.name), list))
  {
    hide Meets, ShowsCurrent, RuleActions, RuleKeys, DistinctRules;
    if list == [] {
      MeetsNone(s, imap[]);
    } else {
      var front, w := list[..|list| - 1], list[|list| - 1];
      LastIsNew(list);
      ListedRulesMeet(s, g, front, cur);
      RuleActionsMeet(s, g, w, cur, cur - RuleKeys(front));
      ListedAimsAre(Key(g.name), front, SRule(Key(g.name), Key(w.name)));
      MeetsBoth(ListedRules(g, front, cur), RuleActions(g, w, cur - RuleKeys(front)), s,
          ListedAims(Key(g.name), front), RuleAims(Key(g.name), w));
    }
  }

  // ---- Rules to drop ----

  ghost predicate RowsOfMap(rows: seq<RuleRow>, cur: map<string, RuleRow>) {
    && (forall i :: 0 <= i < |rows| ==> Key(rows[i].software) in cur && cur[Key(rows[i].software)] == rows[i])
    && (forall i, j :: 0 <= i < j < |rows| ==> Apart2(rows[i].software, rows[j].software))
  }

  ghost predicate Names(rows: seq<RuleRow>, k: string) { exists i :: 0 <= i < |rows| && Key(rows[i].software) == k }

  ghost function DropAims(gk: string, rows: seq<RuleRow>): Aims {
    imap slot: Slot | slot.SRule? && slot.g == gk && Names(rows, slot.k) :: Exactly(None)
  }

  lemma DropMeets(s: Server, g: WantGroup, r: RuleRow, cur: map<string, RuleRow>)
    requires ShowsCurrent(s, Key(g.name), cur) && Key(r.software) in cur && cur[Key(r.software)] == r
    ensures Meets([DropRule(g.name, r.id, r.software)], s, imap[SRule(Key(g.name), Key(r.software)) := Exactly(None)])
  {
    hide Meets, Holder, RuleAt, Key;
    MeetsOne(DropRule(g.name, r.id, r.software), s, imap[SRule(Key(g.name), Key(r.software)) := Exactly(None)]);
  }

  lemma {:induction false} DropsMeet(s: Server, g: WantGroup, rows: seq<RuleRow>, cur: map<string, RuleRow>)
    requires ShowsCurrent(s, Key(g.name), cur) && RowsOfMap(rows, cur)
    ensures Meets(Drops(g, rows), s, DropAims(Key(g.name), rows))
  {
    hide Meets, ShowsCurrent, Key, At;
    if rows == [] {
      MeetsNone(s, DropAims(Key(g.name), rows));
    } else {
      var front, r := rows[..|rows| - 1], rows[|rows| - 1];
      var one: Aims := imap[SRule(Key(g.name), Key(r.software)) := Exactly(None)];
      DropsMeet(s, g, front, cur);
      DropMeets(s, g, r, cur);
      MeetsBoth(Drops(g, front), [DropRule(g.name, r.id, r.software)], s, DropAims(Key(g.name), front), one);
      DropAimsGrow(Key(g.name), rows);
    }
  }

  lemma DropAimsGrow(gk: string, rows: seq<RuleRow>)
    requires rows != []
    ensures var r := rows[|rows| - 1];
            DropAims(gk, rows) == DropAims(gk, rows[..|rows| - 1]) + imap[SRule(gk, Key(r.software)) := Exactly(None)]
  {
    hide Key;
    var front := rows[..|rows| - 1];
    assert rows == front + [rows[|rows| - 1]];
    forall k ensures Names(rows, k) <==> Names(front, k) || Key(rows[|rows| - 1].software) == k {
      if i :| 0 <= i < |front| && Key(front[i].software) == k { assert rows[i] == front[i]; }
    }
  }

  lemma SoftwareMeets(s: Server, seen: Seen, g: WantGroup)
    requires OneRuleEach(s.rules) && ShowsGroups(s, seen.groups) && ShowsRules(s, seen.rules)
    requires g.software.Some? ==> DistinctRules(g.software.value)
    ensures Meets(SoftwarePlan(seen, g), s, SoftwareAims(g))
  {
    hide Meets, ShowsCurrent, ShowsGroups, ShowsRules, CurrentRules, DistinctRules, RuleKeys, ListedRules, Drops,
        DropAims, At, Arrange;
    if g.software.None? {
      MeetsNone(s, imap[]);
    } else {
      var gk, list, cur := Key(g.name), g.software.value, CurrentRules(seen, g);
      CurrentRulesShow(s, seen, g);
      ListedRulesMeet(s, g, list, cur);
      var rest := cur - RuleKeys(list);
      var rows := Arrange(BySoftware, rest.Values);
      RestArranged(s, gk, cur, rest, rows);
      DropsMeet(s, g, rows, cur);
      DropsMeetRest(s, g, cur, RuleKeys(list), rows);
      assert forall slot :: slot in ListedAims(gk, list) ==> slot !in OtherRuleAims(gk, RuleKeys(list)) by {
        forall slot | slot in ListedAims(gk, list) ensures slot !in OtherRuleAims(gk, RuleKeys(list)) {
          ListedAimsAre(gk, list, slot);
        }
      }
      MeetsBoth(ListedRules(g, list, cur), Drops(g, rows), s, ListedAims(gk, list), OtherRuleAims(gk, RuleKeys(list)));
    }
  }

  lemma CurrentKeys(s: Server, gk: string, cur: map<string, RuleRow>)
    requires ShowsCurrent(s, gk, cur)
    ensures forall k :: k in cur ==> Key(cur[k].software) == k
    ensures forall k :: k in cur <==> At(s, SRule(gk, k)).Some?
  {
    hide RuleAt, Key;
  }

  lemma SoftwareTellsApart(m: map<string, RuleRow>)
    requires forall k :: k in m ==> Key(m[k].software) == k
    ensures KeyedApart(BySoftware, m.Values)
  {
    forall x, y | x in m.Values && y in m.Values && BySoftware(x) == BySoftware(y) ensures x == y {
      assert BySoftware(x)[0] == x.software && BySoftware(y)[0] == y.software;
    }
  }

  /** The rows are the values of m, each once. */
  ghost predicate Enumerates(rows: seq<RuleRow>, m: map<string, RuleRow>) {
    && (forall i :: 0 <= i < |rows| ==> Key(rows[i].software) in m && m[Key(rows[i].software)] == rows[i])
    && (forall k :: k in m ==> Key(m[k].software) == k && m[k] in rows)
    && (forall i, j :: 0 <= i < j < |rows| ==> rows[i] != rows[j])
  }

  lemma ArrangedEnumerates(m: map<string, RuleRow>, rows: seq<RuleRow>)
    requires rows == Arrange(BySoftware, m.Values) && forall k :: k in m ==> Key(m[k].software) == k
    ensures Enumerates(rows, m)
  {
    hide Key, Arrange;
    SoftwareTellsApart(m);
    AscendingIsDistinct(BySoftware, rows);
    hide Precedes, Ascending, KeyedApart;
    forall i | 0 <= i < |rows| ensures Key(rows[i].software) in m && m[Key(rows[i].software)] == rows[i] {
      assert rows[i] in m.Values;
    }
  }

  lemma EnumeratedApart(rows: seq<RuleRow>, m: map<string, RuleRow>)
    requires Enumerates(rows, m)
    ensures forall i, j :: 0 <= i < j < |rows| ==> Apart2(rows[i].software, rows[j].software)
  {
    hide Key;
  }

  lemma EnumeratedNames(rows: seq<RuleRow>, m: map<string, RuleRow>, k: string)
    requires Enumerates(rows, m)
    ensures k in m <==> Names(rows, k)
  {
    hide Key;
    if k in m {
      var i :| 0 <= i < |rows| && rows[i] == m[k];
    }
  }

  lemma RestArranged(s: Server, gk: string, cur: map<string, RuleRow>, rest: map<string, RuleRow>, rows: seq<RuleRow>)
    requires ShowsCurrent(s, gk, cur) && rest.Keys <= cur.Keys && (forall k :: k in rest ==> rest[k] == cur[k])
    requires rows == Arrange(BySoftware, rest.Values)
    ensures RowsOfMap(rows, cur)
    ensures forall k :: k in rest <==> Names(rows, k)
  {
    hide Key, Names, ShowsCurrent, Arrange;
    CurrentKeys(s, gk, cur);
    ArrangedEnumerates(rest, rows);
    EnumeratedApart(rows, rest);
    forall k ensures k in rest <==> Names(rows, k) { EnumeratedNames(rows, rest, k); }
  }

  lemma DropsMeetRest(s: Server, g: WantGroup, cur: map<string, RuleRow>, keys: set<string>, rows: seq<RuleRow>)
    requires ShowsCurrent(s, Key(g.name), cur) && Meets(Drops(g, rows), s, DropAims(Key(g.name), rows))
    requires forall k :: k in cur - keys <==> Names(rows, k)
    ensures Meets(Drops(g, rows), s, OtherRuleAims(Key(g.name), keys))
  {
    hide Meets, Drops, Key, At;
    CurrentKeys(s, Key(g.name), cur);
    hide ShowsCurrent;
    var a, b := DropAims(Key(g.name), rows), OtherRuleAims(Key(g.name), keys);
    forall slot | slot in b && slot !in a ensures Hits(b[slot], At(s, slot)) {
      assert slot.k !in cur - keys;
    }
    MeetsWider(Drops(g, rows), s, a, b);
  }

  // ---- Assignments ----

  ghost predicate IsAssignedOn(s: Server, gk: string, pk: string) { At(s, SAssign(gk, pk)) == Some(VAssigned) }

  lemma AssignedOrNot(s: Server, gk: string, pk: string)
    ensures At(s, SAssign(gk, pk)).Some? <==> IsAssignedOn(s, gk, pk)
    ensures IsAssignedOn(s, gk, pk) ==> Present(s, NeedGroup(gk)) && Present(s, NeedPolicy(pk))
  {
  }

  /** A group name in a policy's row is the name of a group the policy is assigned to. */
  lemma RowAssigned(s: Server, r: PolicyRow, g: WantGroup)
    requires Consistent(s) && IsPolicyRow(s, r)
    ensures AssignedTo(r, g) <==> IsAssignedOn(s, Key(g.name), Key(r.name))
  {
    var gk, p := Key(g.name), s.policies[r.id];
    PolicyOfKey(s, r.id);
    NamesGroups(s, r.id);
    hide Consistent, Key;
    var h := Holder(GroupName, s.groups, gk);
    if AssignedTo(r, g) {
      var n :| n in r.groupNames && Key(n) == gk;
      var i :| i in p.groups && i in s.groups && s.groups[i].name == n;
      assert Holds(GroupName, s.groups, gk, i);
    }
    if h.Some? && h.value in p.groups {
      assert s.groups[h.value].name in r.groupNames;
    }
  }

  lemma PolicyOfKey(s: Server, id: Id)
    requires Consistent(s) && id in s.policies
    ensures Holder(PolicyName, s.policies, Key(s.policies[id].name)) == Some(id)
  {
    assert Holds(PolicyName, s.policies, Key(s.policies[id].name), id);
  }

  lemma NamesGroups(s: Server, id: Id)
    requires Consistent(s) && id in s.policies
    ensures UniqueNames(GroupName, s.groups) && s.policies[id].groups <= s.groups.Keys
  {
  }

  lemma CurrentPoliciesShow(s: Server, seen: Seen, g: WantGroup, pk: string)
    requires Consistent(s) && ShowsPolicies(s, seen.policies, seen.policyRows)
    ensures pk in CurrentPolicies(seen, g) <==> IsAssignedOn(s, Key(g.name), pk)
  {
    hide Consistent, IsPolicyRow, AssignedTo, Key;
    if pk in CurrentPolicies(seen, g) {
      var r :| r in seen.policyRows && AssignedTo(r, g) && Key(r.name) == pk;
      RowAssigned(s, r, g);
    }
    if IsAssignedOn(s, Key(g.name), pk) {
      var i := Holder(PolicyName, s.policies, pk).value;
      var r :| r in seen.policyRows && r.id == i;
      RowIsNamed(s, r);
      RowAssigned(s, r, g);
    }
  }

  lemma RowIsNamed(s: Server, r: PolicyRow)
    requires IsPolicyRow(s, r)
    ensures r.id in s.policies && r.name == s.policies[r.id].name
  {
  }

  ghost predicate ShowsAssigned(s: Server, gk: string, cur: set<string>) {
    forall k :: k in cur <==> IsAssignedOn(s, gk, k)
  }

  ghost function AssignAims(gk: string, keys: iset<string>, v: Option<Val>): Aims {
    imap slot: Slot | slot.SAssign? && slot.g == gk && slot.k in keys :: Exactly(v)
  }

  ghost function PolicyListAims(g: WantGroup): Aims {
    if g.policies.None? then imap[]
    else
      var keys := NameKeys(g.policies.value);
      AssignAims(Key(g.name), (iset k | k in keys), Some(VAssigned))
      + AssignAims(Key(g.name), (iset k | k !in keys), None)
  }

  ghost predicate DistinctNames(list: seq<string>) { forall i, j :: 0 <= i < j < |list| ==> Apart2(list[i], list[j]) }

  lemma LastNameIsNew(list: seq<string>)
    requires list != [] && DistinctNames(list)
    ensures Key(list[|list| - 1]) !in NameKeys(list[..|list| - 1]) && DistinctNames(list[..|list| - 1])
    ensures NameKeys(list) == NameKeys(list[..|list| - 1]) + {Key(list[|list| - 1])}
  {
    hide Key;
    var front := list[..|list| - 1];
    assert forall i :: 0 <= i < |front| ==> Apart2(list[i], list[|list| - 1]);
    NameKeysGrow(list, |list| - 1);
    assert list[..|list|] == list;
  }

  lemma AssignOne(s: Server, g: WantGroup, p: string, cur: set<string>)
    requires ShowsAssigned(s, Key(g.name), cur)
    ensures Meets(if Key(p) in cur then [] else [AssignTo(g.name, p)], s,
                  imap[SAssign(Key(g.name), Key(p)) := Exactly(Some(VAssigned))])
  {
    hide Meets, At, Key;
    AssignedOrNot(s, Key(g.name), Key(p));
    var aims: Aims := imap[SAssign(Key(g.name), Key(p)) := Exactly(Some(VAssigned))];
    if Key(p) in cur { MeetsNone(s, aims); } else { MeetsOne(AssignTo(g.name, p), s, aims); }
  }

  lemma {:induction false} ListedPoliciesMeet(s: Server, g: WantGroup, list: seq<string>, cur: set<string>)
    requires ShowsAssigned(s, Key(g.name), cur) && DistinctNames(list)
    ensures Meets(ListedPolicies(g, list, cur), s,
        AssignAims(Key(g.name), (iset k | k in NameKeys(list)), Some(VAssigned)))
  {
    hide Meets, ShowsAssigned, NameKeys, DistinctNames, Key;
    if list == [] {
      NoNameKeys();
      MeetsNone(s, AssignAims(Key(g.name), (iset k | k in NameKeys(list)), Some(VAssigned)));
    } else {
      var front, p := list[..|list| - 1], list[|list| - 1];
      LastNameIsNew(list);
      ListedPoliciesMeet(s, g, front, cur);
      AssignOne(s, g, p, cur);
      var acts := if Key(p) in cur then [] else [AssignTo(g.name, p)];
      var a, b: Aims := AssignAims(Key(g.name), (iset k | k in NameKeys(front)), Some(VAssigned)),
          imap[SAssign(Key(g.name), Key(p)) := Exactly(Some(VAssigned))];
      MeetsBoth(ListedPolicies(g, front, cur), acts, s, a, b);
      assert a + b == AssignAims(Key(g.name), (iset k | k in NameKeys(list)), Some(VAssigned));
    }
  }

  lemma UnassignOne(s: Server, g: WantGroup, k: string)
    requires IsAssignedOn(s, Key(g.name), k)
    ensures Meets([UnassignFrom(g.name, k)], s, imap[SAssign(Key(g.name), k) := Exactly(None)])
  {
    hide Meets, At, Key;
    MeetsOne(UnassignFrom(g.name, k), s, imap[SAssign(Key(g.name), k) := Exactly(None)]);
  }

  lemma {:induction false} UnassignsMeet(s: Server, g: WantGroup, keys: seq<string>)
    requires forall i :: 0 <= i < |keys| ==> IsAssignedOn(s, Key(g.name), keys[i])
    requires forall i, j :: 0 <= i < j < |keys| ==> keys[i] != keys[j]
    ensures Meets(Unassigns(g, keys), s, AssignAims(Key(g.name), (iset k | k in keys), None))
  {
    hide Meets, IsAssignedOn, Key;
    if keys == [] {
      MeetsNone(s, AssignAims(Key(g.name), (iset k | k in keys), None));
    } else {
      var front, k := keys[..|keys| - 1], keys[|keys| - 1];
      UnassignsMeet(s, g, front);
      UnassignOne(s, g, k);
      var a, b: Aims := AssignAims(Key(g.name), (iset j | j in front), None),
          imap[SAssign(Key(g.name), k) := Exactly(None)];
      MeetsBoth(Unassigns(g, front), [UnassignFrom(g.name, k)], s, a, b);
      AssignAimsGrow(Key(g.name), front, k, keys);
    }
  }

  lemma AssignAimsGrow(gk: string, front: seq<string>, k: string, keys: seq<string>)
    requires keys == front + [k]
    ensures AssignAims(gk, (iset j | j in keys), None)
            == AssignAims(gk, (iset j | j in front), None) + imap[SAssign(gk, k) := Exactly(None)]
  {
  }

  lemma AssignmentsMeet(s: Server, seen: Seen, g: WantGroup)
    requires Consistent(s) && ShowsPolicies(s, seen.policies, seen.policyRows)
    requires g.policies.Some? ==> DistinctNames(g.policies.value)
    ensures Meets(AssignmentPlan(seen, g), s, PolicyListAims(g))
  {
    hide Meets, Consistent, ShowsPolicies, CurrentPolicies, DistinctNames, NameKeys, ListedPolicies, Unassigns, Key,
        IsAssignedOn;
    if g.policies.None? {
      MeetsNone(s, imap[]);
    } else {
      var gk, list, cur := Key(g.name), g.policies.value, CurrentPolicies(seen, g);
      forall k ensures k in cur <==> IsAssignedOn(s, gk, k) { CurrentPoliciesShow(s, seen, g, k); }
      ListedPoliciesMeet(s, g, list, cur);
      var keys := Arrange(ByItself, cur - NameKeys(list));
      KeysArranged(cur - NameKeys(list), keys);
      forall i | 0 <= i < |keys| ensures IsAssignedOn(s, gk, keys[i]) { assert keys[i] in keys; }
      UnassignsMeet(s, g, keys);
      var named := (iset k | k in NameKeys(list));
      var a, b, c := AssignAims(gk, (iset k | k in keys), None),
          AssignAims(gk, (iset k | k !in NameKeys(list)), None), AssignAims(gk, named, Some(VAssigned));
      forall slot | slot in b && slot !in a ensures Hits(b[slot], At(s, slot)) { AssignedOrNot(s, gk, slot.k); }
      MeetsWider(Unassigns(g, keys), s, a, b);
      MeetsBoth(ListedPolicies(g, list, cur), Unassigns(g, keys), s, c, b);
    }
  }

  lemma KeysArranged(keys: set<string>, r: seq<string>)
    requires r == Arrange(ByItself, keys)
    ensures forall k :: k in r <==> k in keys
    ensures forall i, j :: 0 <= i < j < |r| ==> r[i] != r[j]
  {
    assert KeyedApart(ByItself, keys) by {
      forall x, y | x in keys && y in keys && ByItself(x) == ByItself(y) ensures x == y {
        assert ByItself(x)[0] == x && ByItself(y)[0] == y;
      }
    }
    AscendingIsDistinct(ByItself, r);
  }

  // ---- A group, and all groups ----

  ghost function GroupAims(g: WantGroup): Aims { HeaderAims(g) + SoftwareAims(g) + PolicyListAims(g) }

  ghost function AllGroupAims(list: seq<WantGroup>): Aims {
    if list == [] then imap[] else AllGroupAims(list[..|list| - 1]) + GroupAims(list[|list| - 1])
  }

  /** Within a group no rule and no policy is listed twice. */
  ghost predicate DistinctLists(g: WantGroup) {
    (g.software.Some? ==> DistinctRules(g.software.value)) && (g.policies.Some? ==> DistinctNames(g.policies.value))
  }

  ghost predicate DistinctGroups(list: seq<WantGroup>) {
    && (forall i, j :: 0 <= i < j < |list| ==> Apart2(list[i].name, list[j].name))
    && (forall i :: 0 <= i < |list| ==> DistinctLists(list[i]))
  }

  lemma SoftwareAimsAre(g: WantGroup, slot: Slot)
    ensures slot in SoftwareAims(g) <==> g.software.Some? && slot.SRule? && slot.g == Key(g.name)
  {
    hide RuleKeys, Key;
    if g.software.Some? { ListedAimsAre(Key(g.name), g.software.value, slot); }
  }

  lemma PolicyListAimsAre(g: WantGroup, slot: Slot)
    ensures slot in PolicyListAims(g) <==> g.policies.Some? && slot.SAssign? && slot.g == Key(g.name)
  {
    hide NameKeys, Key;
  }

  lemma GroupActionsMeet(s: Server, seen: Seen, g: WantGroup)
    requires Consistent(s) && Shown(s, seen) && DistinctLists(g)
    ensures Meets(GroupActions(seen, g), s, GroupAims(g))
  {
    hide Meets, Consistent, ShowsGroups, ShowsPolicies, ShowsRules, ShowsScripts, HeaderActions, SoftwarePlan,
        AssignmentPlan, SoftwareAims, PolicyListAims, Key, DistinctRules, DistinctNames, OneRuleEach;
    RulesOneEach(s);
    HeaderMeets(s, seen, g);
    SoftwareMeets(s, seen, g);
    AssignmentsMeet(s, seen, g);
    forall slot ensures (slot in SoftwareAims(g) ==> slot.SRule?) && (slot in PolicyListAims(g) ==> slot.SAssign?) {
      SoftwareAimsAre(g, slot);
      PolicyListAimsAre(g, slot);
    }
    MeetsBoth(HeaderActions(seen, g), SoftwarePlan(seen, g), s, HeaderAims(g), SoftwareAims(g));
    MeetsBoth(HeaderActions(seen, g) + SoftwarePlan(seen, g), AssignmentPlan(seen, g), s,
        HeaderAims(g) + SoftwareAims(g), PolicyListAims(g));
  }

  lemma RulesOneEach(s: Server)
    requires Consistent(s)
    ensures OneRuleEach(s.rules)
  {
  }

  function GroupOf(slot: Slot): Option<string> {
    match slot
    case SGroup(k) => Some(k)
    case SRule(g, _) => Some(g)
    case SAssign(g, _) => Some(g)
    case _ => None
  }

  lemma GroupAimsAre(g: WantGroup, slot: Slot)
    ensures slot in GroupAims(g) ==> GroupOf(slot) == Some(Key(g.name))
  {
    hide SoftwareAims, PolicyListAims, Key;
    SoftwareAimsAre(g, slot);
    PolicyListAimsAre(g, slot);
  }

  lemma {:induction false} AllGroupAimsAre(list: seq<WantGroup>, slot: Slot)
    ensures slot in AllGroupAims(list) ==> exists i :: 0 <= i < |list| && GroupOf(slot) == Some(Key(list[i].name))
  {
    hide GroupAims, GroupOf, Key;
    if list != [] {
      AllGroupAimsAre(list[..|list| - 1], slot);
      GroupAimsAre(list[|list| - 1], slot);
    }
  }

  lemma {:induction false} GroupPlanMeets(s: Server, seen: Seen, list: seq<WantGroup>)
    requires Consistent(s) && Shown(s, seen) && DistinctGroups(list)
    ensures Meets(GroupPlan(seen, list), s, AllGroupAims(list))
  {
    hide Meets, Consistent, Shown, GroupActions, GroupAims, DistinctLists, GroupOf;
    if list == [] {
      MeetsNone(s, imap[]);
    } else {
      var front, g := list[..|list| - 1], list[|list| - 1];
      GroupPlanMeets(s, seen, front);
      GroupActionsMeet(s, seen, g);
      forall slot | slot in AllGroupAims(front) ensures slot !in GroupAims(g) {
        AllGroupAimsAre(front, slot);
        GroupAimsAre(g, slot);
        var i :| 0 <= i < |front| && GroupOf(slot) == Some(Key(front[i].name));
        assert Apart2(list[i].name, g.name);
      }
      MeetsBoth(GroupPlan(seen, front), GroupActions(seen, g), s, AllGroupAims(front), GroupAims(g));
    }
  }
}
