/** What a configuration asks of each slot, and plans that write exactly the slots that miss it. */
module Goals {
  import opened Ordering
  import opened Fleet
  import opened Planner
  import opened Executor
  import opened PlanRuns

  // ---- The rows of the GETs show the server ----

  ghost predicate ShowsGroups(s: Server, m: map<string, GroupRow>) {
    forall k :: && (k in m <==> Holder(GroupName, s.groups, k).Some?)
                && (k in m ==> var i := Holder(GroupName, s.groups, k).value;
                               m[k] == GroupRow(i, s.groups[i].name, s.groups[i].color))
  }

  ghost predicate ShowsScripts(s: Server, m: map<string, ScriptRow>) {
    forall k :: && (k in m <==> Holder(ScriptName, s.scripts, k).Some?)
                && (k in m ==> var i := Holder(ScriptName, s.scripts, k).value;
                               m[k] == ScriptRow(i, s.scripts[i].name, s.scripts[i].platform, s.scripts[i].content))
  }

  /** The row of a policy: its script and its groups come with their names. */
  ghost predicate IsPolicyRow(s: Server, r: PolicyRow) {
    r.id in s.policies &&
    var p := s.policies[r.id];
    p.script in s.scripts
    && r == PolicyRow(r.id, p.name, p.script, s.scripts[p.script].name, p.trigger, p.schedule, p.event, p.active,
        r.groupNames)
    && (forall n :: n in r.groupNames ==> exists g :: g in p.groups && g in s.groups && s.groups[g].name == n)
    && (forall g :: g in p.groups && g in s.groups ==> s.groups[g].name in r.groupNames)
  }

  ghost predicate ShowsPolicies(s: Server, m: map<string, PolicyRow>, rows: seq<PolicyRow>) {
    && (forall k :: && (k in m <==> Holder(PolicyName, s.policies, k).Some?)
                    && (k in m ==> IsPolicyRow(s, m[k]) && m[k].id == Holder(PolicyName, s.policies, k).value))
    && (forall r :: r in rows ==> IsPolicyRow(s, r))
    && (forall i :: i in s.policies ==> exists r :: r in rows && r.id == i)
  }

  function RuleRowOf(i: Id, r: Rule): RuleRow { RuleRow(i, r.software, r.ruleType, r.device, r.group) }

  ghost predicate ShowsRules(s: Server, rows: seq<RuleRow>) {
    && (forall r :: r in rows ==> r.id in s.rules && r == RuleRowOf(r.id, s.rules[r.id]))
    && (forall i :: i in s.rules ==> RuleRowOf(i, s.rules[i]) in rows)
  }

  ghost predicate Shown(s: Server, seen: Seen) {
    && ShowsGroups(s, seen.groups) && ShowsScripts(s, seen.scripts)
    && ShowsPolicies(s, seen.policies, seen.policyRows) && ShowsRules(s, seen.rules)
  }

  // ---- Aims ----

  datatype Aim = Exactly(value: Option<Val>) | Anything(default: Val)

  type Aims = imap<Slot, Aim>

  predicate Hits(aim: Aim, v: Option<Val>) {
    match aim
    case Exactly(w) => v == w
    case Anything(_) => v.Some?
  }

  /** What the slot holds once the server has taken the request: platforms are respelled, and an existing
      policy is switched on only if the toggle field is the one the handler reads. */
  ghost function Lands(s: Server, slot: Slot, aim: Aim): Option<Val> {
    match aim
    case Anything(d) => Some(d)
    case Exactly(Some(VScript(p, c))) => Some(StoredScript(WantScript("", p, c)))
    case Exactly(Some(VSwitch(b))) => Some(VSwitch(b && (At(s, slot).None? || s.toggleField == CLI_TOGGLE_FIELD)))
    case Exactly(v) => v
  }

  ghost predicate Misses(s: Server, aims: Aims, slot: Slot) { slot in aims && !Hits(aims[slot], At(s, slot)) }

  /** The actions write exactly the slots that miss their aim, each once. */
  ghost predicate Meets(acts: seq<Action>, s: Server, aims: Aims) {
    && Runnable(acts, s)
    && (forall slot :: slot in Outcome(acts, s.toggleField) <==> Misses(s, aims, slot))
    && (forall slot :: slot in Outcome(acts, s.toggleField) ==>
        slot in aims && Outcome(acts, s.toggleField)[slot] == Lands(s, slot, aims[slot]))
  }

  lemma MeetsNone(s: Server, aims: Aims)
    requires forall slot :: slot in aims ==> Hits(aims[slot], At(s, slot))
    ensures Meets([], s, aims)
  {
    hide At, Hits, Lands;
  }

  lemma MeetsOne(a: Action, s: Server, aims: Aims)
    requires Own(a, s)
    requires forall slot :: slot in Writes(a, s.toggleField) <==> Misses(s, aims, slot)
    requires forall slot :: slot in Writes(a, s.toggleField) ==>
        slot in aims && Writes(a, s.toggleField)[slot] == Lands(s, slot, aims[slot])
    ensures Meets([a], s, aims)
  {
    hide At, Hits, Lands, Misses, Own, Writes;
    assert [a][1..] == [];
    assert Outcome([a], s.toggleField) == Writes(a, s.toggleField) + Outcome([], s.toggleField);
    assert Outcome([], s.toggleField) == map[];
    assert Apart([], s.toggleField);
  }

  lemma OutcomeStep(p: seq<Action>, f: string)
    requires p != []
    ensures Outcome(p, f) == Writes(p[0], f) + Outcome(p[1..], f)
    ensures Apart(p, f) <==> Writes(p[0], f).Keys !! Outcome(p[1..], f).Keys && Apart(p[1..], f)
  {
    hide Writes;
  }

  lemma NoOutcome(f: string)
    ensures Outcome([], f) == map[]
  {
  }

  lemma ThreeParts(a: Outcomes, b: Outcomes, c: Outcomes)
    requires a.Keys !! b.Keys && (a + b).Keys !! c.Keys
    ensures (a + b) + c == a + (b + c) && b.Keys !! c.Keys && a.Keys !! (b + c).Keys
  {
  }

  lemma {:induction false} OutcomeOfConcat(p: seq<Action>, q: seq<Action>, f: string)
    requires Outcome(p, f).Keys !! Outcome(q, f).Keys && Apart(p, f) && Apart(q, f)
    ensures Outcome(p + q, f) == Outcome(p, f) + Outcome(q, f) && Apart(p + q, f)
  {
    hide Writes, Outcome, Apart;
    if p == [] {
      NoOutcome(f);
      assert p + q == q;
      assert map[] + Outcome(q, f) == Outcome(q, f);
    } else {
      var a, b, c := Writes(p[0], f), Outcome(p[1..], f), Outcome(q, f);
      OutcomeStep(p, f);
      ThreeParts(a, b, c);
      OutcomeOfConcat(p[1..], q, f);
      assert (p + q)[0] == p[0] && (p + q)[1..] == p[1..] + q;
      OutcomeStep(p + q, f);
    }
  }

  lemma MeetsBoth(p: seq<Action>, q: seq<Action>, s: Server, a: Aims, b: Aims)
    requires Meets(p, s, a) && Meets(q, s, b) && a.Keys !! b.Keys
    ensures Meets(p + q, s, a + b)
  {
    hide At, Hits, Lands, Own, Apart, Outcome;
    var f := s.toggleField;
    assert Outcome(p, f).Keys !! Outcome(q, f).Keys by {
      assert forall slot :: slot in Outcome(p, f) ==> slot in a;
      assert forall slot :: slot in Outcome(q, f) ==> slot in b;
    }
    OutcomeOfConcat(p, q, f);
    forall slot ensures slot in Outcome(p + q, f) <==> Misses(s, a + b, slot) {
      assert slot in b ==> (a + b)[slot] == b[slot];
      assert slot in a ==> (a + b)[slot] == a[slot];
    }
  }

  // ---- Scripts ----

  ghost function ScriptAims(w: WantScript): Aims {
    imap[SScript(Key(w.name)) := Exactly(Some(VScript(w.platform, w.content)))]
  }

  ghost function AllScriptAims(list: seq<WantScript>): Aims {
    if list == [] then imap[] else AllScriptAims(list[..|list| - 1]) + ScriptAims(list[|list| - 1])
  }

  lemma ScriptActionsMeet(s: Server, seen: Seen, w: WantScript)
    requires ShowsScripts(s, seen.scripts) && CanonicalPlatform(w.platform).Some?
    ensures Meets(ScriptActions(seen, w), s, ScriptAims(w))
  {
    hide Meets, Holder, Key;
    var acts := ScriptActions(seen, w);
    if acts == [] {
      MeetsNone(s, ScriptAims(w));
    } else {
      MeetsOne(acts[0], s, ScriptAims(w));
      assert acts == [acts[0]];
    }
  }

  predicate Apart2(a: string, b: string) { Key(a) != Key(b) }

  ghost predicate DistinctScripts(list: seq<WantScript>) {
    forall i, j :: 0 <= i < j < |list| ==> Apart2(list[i].name, list[j].name)
  }

  lemma {:induction false} ScriptAimsAre(list: seq<WantScript>, slot: Slot)
    ensures slot in AllScriptAims(list) ==> slot.SScript? && exists i :: 0 <= i < |list| && Key(list[i].name) == slot.k
  {
    if list != [] { ScriptAimsAre(list[..|list| - 1], slot); }
  }

  lemma {:induction false} ScriptPlanMeets(s: Server, seen: Seen, list: seq<WantScript>)
    requires ShowsScripts(s, seen.scripts) && DistinctScripts(list)
    requires forall i :: 0 <= i < |list| ==> CanonicalPlatform(list[i].platform).Some?
    ensures Meets(ScriptPlan(seen, list), s, AllScriptAims(list))
  {
    hide Meets, ShowsScripts, ScriptActions, CanonicalPlatform;
    if list == [] {
      MeetsNone(s, imap[]);
    } else {
      var front, w := list[..|list| - 1], list[|list| - 1];
      ScriptPlanMeets(s, seen, front);
      ScriptActionsMeet(s, seen, w);
      forall slot | slot in AllScriptAims(front) ensures slot !in ScriptAims(w) {
        ScriptAimsAre(front, slot);
        var i :| 0 <= i < |front| && Key(front[i].name) == slot.k;
        assert Apart2(list[i].name, w.name);
      }
      MeetsBoth(ScriptPlan(seen, front), ScriptActions(seen, w), s, AllScriptAims(front), ScriptAims(w));
    }
  }

  // ---- Policies ----

  ghost function PolicyAims(w: WantPolicy): Aims {
    imap[SBody(Key(w.name)) := Exactly(Some(WantedBody(w))), SSwitch(Key(w.name)) := Exactly(Some(VSwitch(w.active)))]
  }

  ghost function AllPolicyAims(list: seq<WantPolicy>): Aims {
    if list == [] then imap[] else AllPolicyAims(list[..|list| - 1]) + PolicyAims(list[|list| - 1])
  }

  lemma ScriptOfKey(s: Server, id: Id, k: string)
    requires UniqueNames(ScriptName, s.scripts) && id in s.scripts && Key(s.scripts[id].name) == k
    ensures Holder(ScriptName, s.scripts, k) == Some(id)
  {
    assert Holds(ScriptName, s.scripts, k, id);
  }

  /** The body comparison of the planner is equality of what the body says. */
  lemma ChangedIsDifferent(s: Server, seen: Seen, w: WantPolicy)
    requires Consistent(s) && Shown(s, seen) && Key(w.name) in seen.policies
    ensures PolicyChanged(seen.policies[Key(w.name)], w, seen.scripts) <==>
        At(s, SBody(Key(w.name))) != Some(WantedBody(w))
    ensures At(s, SSwitch(Key(w.name))) == Some(VSwitch(seen.policies[Key(w.name)].active))
  {
    hide Holder, Consistent, ShowsRules, ShowsGroups, ShowsScripts, UniqueNames, Key, PolicyChanged, DecodeMap;
    var cur := seen.policies[Key(w.name)];
    assert IsPolicyRow(s, cur);
    RowChanged(s, seen, cur, w);
  }

  /** The planner compares the row with the file as one compares the bodies. */
  lemma RowChanged(s: Server, seen: Seen, cur: PolicyRow, w: WantPolicy)
    requires Consistent(s) && ShowsScripts(s, seen.scripts) && IsPolicyRow(s, cur)
    ensures PolicyChanged(cur, w, seen.scripts) <==> BodyOf(s, s.policies[cur.id]) != WantedBody(w)
  {
    hide Holder, Consistent, Key, UniqueNames, DecodeMap;
    ScriptOfRow(s, cur);
  }

  lemma ScriptOfRow(s: Server, cur: PolicyRow)
    requires Consistent(s) && IsPolicyRow(s, cur)
    ensures Holder(ScriptName, s.scripts, Key(cur.scriptName)) == Some(cur.script)
  {
    ScriptOfKey(s, cur.script, Key(cur.scriptName));
  }

  lemma PolicyActionsMeet(s: Server, seen: Seen, w: WantPolicy)
    requires Consistent(s) && Shown(s, seen)
    ensures Meets(PolicyActions(seen, w), s, PolicyAims(w))
  {
    hide Meets, Consistent, PolicyChanged, Shown, At, Key, WantedBody;
    var k := Key(w.name);
    PolicyKnown(s, seen, k);
    if k !in seen.policies {
      CreationMeets(s, w);
    } else {
      var body: Aims := imap[SBody(k) := Exactly(Some(WantedBody(w)))];
      var switch: Aims := imap[SSwitch(k) := Exactly(Some(VSwitch(w.active)))];
      assert PolicyAims(w) == body + switch;
      ChangedIsDifferent(s, seen, w);
      var cur := seen.policies[k];
      var first := if PolicyChanged(cur, w, seen.scripts) then [UpdatePolicy(cur.id, w)] else [];
      var second := if cur.active != w.active then [TogglePolicy(cur.id, w.name, w.active)] else [];
      BodyMeets(s, cur.id, w, first, body);
      SwitchMeets(s, cur.id, w, second, switch);
      MeetsBoth(first, second, s, body, switch);
    }
  }

  lemma CreationMeets(s: Server, w: WantPolicy)
    requires Holder(PolicyName, s.policies, Key(w.name)).None?
    requires At(s, SBody(Key(w.name))).None? && At(s, SSwitch(Key(w.name))).None?
    ensures Meets([CreatePolicy(w)], s, PolicyAims(w))
  {
    hide Meets, At, Key, Holder;
    MeetsOne(CreatePolicy(w), s, PolicyAims(w));
  }

  lemma BodyMeets(s: Server, id: Id, w: WantPolicy, acts: seq<Action>, aims: Aims)
    requires Holds(PolicyName, s.policies, Key(w.name), id)
        && aims == imap[SBody(Key(w.name)) := Exactly(Some(WantedBody(w)))]
    requires acts == if At(s, SBody(Key(w.name))) != Some(WantedBody(w)) then [UpdatePolicy(id, w)] else []
    ensures Meets(acts, s, aims)
  {
    hide Meets, At, Key;
    if acts == [] { MeetsNone(s, aims); } else { MeetsOne(acts[0], s, aims); }
  }

  lemma SwitchMeets(s: Server, id: Id, w: WantPolicy, acts: seq<Action>, aims: Aims)
    requires Holds(PolicyName, s.policies, Key(w.name), id)
        && aims == imap[SSwitch(Key(w.name)) := Exactly(Some(VSwitch(w.active)))]
    requires At(s, SSwitch(Key(w.name))).Some?
    requires acts == if At(s, SSwitch(Key(w.name))) != Some(VSwitch(w.active))
        then [TogglePolicy(id, w.name, w.active)] else []
    ensures Meets(acts, s, aims)
  {
    hide Meets, At, Key;
    if acts == [] { MeetsNone(s, aims); } else { MeetsOne(acts[0], s, aims); }
  }

  lemma PolicyKnown(s: Server, seen: Seen, k: string)
    requires Shown(s, seen)
    ensures k in seen.policies ==> Holds(PolicyName, s.policies, k, seen.policies[k].id)
    ensures k !in seen.policies ==>
        Holder(PolicyName, s.policies, k).None? && At(s, SBody(k)).None? && At(s, SSwitch(k)).None?
  {
    hide ShowsRules, ShowsGroups, ShowsScripts;
  }

  ghost predicate DistinctPolicies(list: seq<WantPolicy>) {
    forall i, j :: 0 <= i < j < |list| ==> Apart2(list[i].name, list[j].name)
  }

  lemma {:induction false} PolicyAimsAre(list: seq<WantPolicy>, slot: Slot)
    ensures slot in AllPolicyAims(list) ==>
        (slot.SBody? || slot.SSwitch?) && exists i :: 0 <= i < |list| && Key(list[i].name) == slot.k
  {
    if list != [] { PolicyAimsAre(list[..|list| - 1], slot); }
  }

  lemma {:induction false} PolicyPlanMeets(s: Server, seen: Seen, list: seq<WantPolicy>)
    requires Consistent(s) && Shown(s, seen) && DistinctPolicies(list)
    ensures Meets(PolicyPlan(seen, list), s, AllPolicyAims(list))
  {
    hide Meets, Shown, Consistent, PolicyActions;
    if list == [] {
      MeetsNone(s, imap[]);
    } else {
      var front, w := list[..|list| - 1], list[|list| - 1];
      PolicyPlanMeets(s, seen, front);
      PolicyActionsMeet(s, seen, w);
      forall slot | slot in AllPolicyAims(front) ensures slot !in PolicyAims(w) {
        PolicyAimsAre(front, slot);
        var i :| 0 <= i < |front| && Key(front[i].name) == slot.k;
        assert Apart2(list[i].name, w.name);
      }
      MeetsBoth(PolicyPlan(seen, front), PolicyActions(seen, w), s, AllPolicyAims(front), PolicyAims(w));
    }
  }
}
