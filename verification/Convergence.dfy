/** Apply: when it finishes, where it ends, when a second run finds nothing to do, and what it never touches. */
module Convergence {
  import opened Ordering
  import opened Fleet
  import opened Planner
  import opened Executor
  import opened PlanRuns
  import opened Goals
  import opened GroupGoals
  import opened References

  /** No two entries of a list share a key, and every platform is one the server knows. */
  ghost predicate Admissible(cfg: Config) {
    && DistinctScripts(cfg.scripts) && DistinctPolicies(cfg.policies) && DistinctGroups(cfg.groups)
    && (forall i :: 0 <= i < |cfg.scripts| ==> CanonicalPlatform(cfg.scripts[i].platform).Some?)
  }

  // ---- A server that satisfies a configuration ----

  ghost predicate ScriptOk(s: Server, w: WantScript) {
    At(s, SScript(Key(w.name))) == Some(VScript(w.platform, w.content))
  }

  ghost predicate PolicyOk(s: Server, w: WantPolicy) {
    At(s, SBody(Key(w.name))) == Some(WantedBody(w)) && At(s, SSwitch(Key(w.name))) == Some(VSwitch(w.active))
  }

  ghost predicate HeaderOk(s: Server, g: WantGroup) {
    if g.color == "" then At(s, SGroup(Key(g.name))).Some?
        else At(s, SGroup(Key(g.name))) == Some(VColor(Lower(g.color)))
  }

  /** The group's own rules are exactly the listed ones. */
  ghost predicate RulesOk(s: Server, gk: string, list: seq<WantRule>) {
    && (forall w :: w in list ==> At(s, SRule(gk, Key(w.name))) == Some(VRule(w.ruleType)))
    && (forall k :: k !in RuleKeys(list) ==> At(s, SRule(gk, k)).None?)
  }

  /** The group's policies are exactly the listed ones. */
  ghost predicate AssignmentsOk(s: Server, gk: string, list: seq<string>) {
    forall k :: IsAssignedOn(s, gk, k) <==> k in NameKeys(list)
  }

  ghost predicate GroupOk(s: Server, g: WantGroup) {
    && HeaderOk(s, g)
    && (g.software.Some? ==> RulesOk(s, Key(g.name), g.software.value))
    && (g.policies.Some? ==> AssignmentsOk(s, Key(g.name), g.policies.value))
  }

  ghost predicate Satisfies(s: Server, cfg: Config) {
    && (forall w :: w in cfg.scripts ==> ScriptOk(s, w))
    && (forall w :: w in cfg.policies ==> PolicyOk(s, w))
    && (forall g :: g in cfg.groups ==> GroupOk(s, g))
  }

  ghost predicate AllHit(s: Server, aims: Aims) { forall slot :: slot in aims ==> Hits(aims[slot], At(s, slot)) }

  lemma BothHit(s: Server, a: Aims, b: Aims)
    requires a.Keys !! b.Keys
    ensures AllHit(s, a + b) <==> AllHit(s, a) && AllHit(s, b)
  {
    hide At, Hits;
    assert forall slot :: slot in a ==> slot in a + b && (a + b)[slot] == a[slot];
    assert forall slot :: slot in b ==> slot in a + b && (a + b)[slot] == b[slot];
  }

  lemma {:induction false} ScriptsHit(s: Server, list: seq<WantScript>)
    requires DistinctScripts(list)
    ensures AllHit(s, AllScriptAims(list)) <==> forall w :: w in list ==> ScriptOk(s, w)
  {
    hide At, Key;
    if list != [] {
      var front, w := list[..|list| - 1], list[|list| - 1];
      ScriptsHit(s, front);
      ScriptAimsApart(list);
      BothHit(s, AllScriptAims(front), ScriptAims(w));
      OneScriptHits(s, w);
      hide AllHit, ScriptOk;
      assert forall v :: v in list <==> v in front || v == w;
    }
  }

  lemma OneScriptHits(s: Server, w: WantScript)
    ensures AllHit(s, ScriptAims(w)) <==> ScriptOk(s, w)
  {
    hide At, Key;
    assert SScript(Key(w.name)) in ScriptAims(w);
  }

  lemma ScriptAimsApart(list: seq<WantScript>)
    requires list != [] && DistinctScripts(list)
    ensures AllScriptAims(list[..|list| - 1]).Keys !! ScriptAims(list[|list| - 1]).Keys
  {
    hide Key;
    var front, w := list[..|list| - 1], list[|list| - 1];
    forall slot | slot in AllScriptAims(front) ensures slot !in ScriptAims(w) {
      ScriptAimsAre(front, slot);
      var i :| 0 <= i < |front| && Key(front[i].name) == slot.k;
      assert Apart2(list[i].name, w.name);
    }
  }

  lemma {:induction false} PoliciesHit(s: Server, list: seq<WantPolicy>)
    requires DistinctPolicies(list)
    ensures AllHit(s, AllPolicyAims(list)) <==> forall w :: w in list ==> PolicyOk(s, w)
  {
    hide At, Key;
    if list != [] {
      var front, w := list[..|list| - 1], list[|list| - 1];
      PoliciesHit(s, front);
      PolicyAimsApart(list);
      BothHit(s, AllPolicyAims(front), PolicyAims(w));
      OnePolicyHits(s, w);
      hide AllHit, PolicyOk;
      assert forall v :: v in list <==> v in front || v == w;
    }
  }

  lemma OnePolicyHits(s: Server, w: WantPolicy)
    ensures AllHit(s, PolicyAims(w)) <==> PolicyOk(s, w)
  {
    hide At, Key;
    assert SBody(Key(w.name)) in PolicyAims(w) && SSwitch(Key(w.name)) in PolicyAims(w);
  }

  lemma PolicyAimsApart(list: seq<WantPolicy>)
    requires list != [] && DistinctPolicies(list)
    ensures AllPolicyAims(list[..|list| - 1]).Keys !! PolicyAims(list[|list| - 1]).Keys
  {
    hide Key;
    var front, w := list[..|list| - 1], list[|list| - 1];
    forall slot | slot in AllPolicyAims(front) ensures slot !in PolicyAims(w) {
      PolicyAimsAre(front, slot);
      var i :| 0 <= i < |front| && Key(front[i].name) == slot.k;
      assert Apart2(list[i].name, w.name);
    }
  }

  lemma {:induction false} ListedHit(s: Server, gk: string, list: seq<WantRule>)
    requires DistinctRules(list)
    ensures AllHit(s, ListedAims(gk, list)) <==>
        forall w :: w in list ==> At(s, SRule(gk, Key(w.name))) == Some(VRule(w.ruleType))
  {
    hide At, Key, RuleKeys;
    if list != [] {
      var front, w := list[..|list| - 1], list[|list| - 1];
      LastIsNew(list);
      ListedHit(s, gk, front);
      ListedAimsAre(gk, front, SRule(gk, Key(w.name)));
      BothHit(s, ListedAims(gk, front), RuleAims(gk, w));
      assert SRule(gk, Key(w.name)) in RuleAims(gk, w);
      assert AllHit(s, RuleAims(gk, w)) <==> At(s, SRule(gk, Key(w.name))) == Some(VRule(w.ruleType));
      hide AllHit;
      assert forall v :: v in list <==> v in front || v == w;
    }
  }

  lemma SoftwareHits(s: Server, g: WantGroup)
    requires g.software.Some? && DistinctRules(g.software.value)
    ensures AllHit(s, SoftwareAims(g)) <==> RulesOk(s, Key(g.name), g.software.value)
  {
    hide At, Key, RuleKeys, DistinctRules;
    var gk, list := Key(g.name), g.software.value;
    var a, b := ListedAims(gk, list), OtherRuleAims(gk, RuleKeys(list));
    forall slot | slot in a ensures slot !in b { ListedAimsAre(gk, list, slot); }
    ListedHit(s, gk, list);
    BothHit(s, a, b);
    assert AllHit(s, b) <==> forall k :: k !in RuleKeys(list) ==> At(s, SRule(gk, k)).None? by {
      forall k | k !in RuleKeys(list) ensures SRule(gk, k) in b && b[SRule(gk, k)] == Exactly(None) {}
    }
  }

  lemma AssignmentsHit(s: Server, g: WantGroup)
    requires g.policies.Some?
    ensures AllHit(s, PolicyListAims(g)) <==> AssignmentsOk(s, Key(g.name), g.policies.value)
  {
    hide At, Key, NameKeys, IsAssignedOn;
    var gk, keys := Key(g.name), NameKeys(g.policies.value);
    forall k ensures SAssign(gk, k) in PolicyListAims(g)
        && PolicyListAims(g)[SAssign(gk, k)] == Exactly(if k in keys then Some(VAssigned) else None) {}
    if AllHit(s, PolicyListAims(g)) {
      forall k ensures IsAssignedOn(s, gk, k) <==> k in keys { AssignedOrNot(s, gk, k); Assigned(s, gk, k); }
    }
    if AssignmentsOk(s, gk, g.policies.value) {
      forall slot | slot in PolicyListAims(g) ensures Hits(PolicyListAims(g)[slot], At(s, slot)) {
        AssignedOrNot(s, gk, slot.k);
        Assigned(s, gk, slot.k);
      }
    }
  }

  lemma Assigned(s: Server, gk: string, k: string)
    ensures IsAssignedOn(s, gk, k) <==> At(s, SAssign(gk, k)) == Some(VAssigned)
  {
  }

  lemma GroupHits(s: Server, g: WantGroup)
    requires DistinctLists(g)
    ensures AllHit(s, GroupAims(g)) <==> GroupOk(s, g)
  {
    hide At, Key, DistinctRules, SoftwareAims, PolicyListAims, RulesOk, AssignmentsOk;
    assert SGroup(Key(g.name)) in HeaderAims(g);
    assert AllHit(s, HeaderAims(g)) <==> HeaderOk(s, g);
    forall slot ensures (slot in SoftwareAims(g) ==> slot.SRule? && g.software.Some?)
        && (slot in PolicyListAims(g) ==> slot.SAssign? && g.policies.Some?) {
      SoftwareAimsAre(g, slot);
      PolicyListAimsAre(g, slot);
    }
    BothHit(s, HeaderAims(g), SoftwareAims(g));
    BothHit(s, HeaderAims(g) + SoftwareAims(g), PolicyListAims(g));
    if g.software.Some? { SoftwareHits(s, g); }
    if g.policies.Some? { AssignmentsHit(s, g); }
  }

  lemma GroupAimsApart(list: seq<WantGroup>)
    requires list != [] && DistinctGroups(list)
    ensures AllGroupAims(list[..|list| - 1]).Keys !! GroupAims(list[|list| - 1]).Keys
  {
    hide Key, GroupAims, GroupOf, DistinctLists;
    var front, g := list[..|list| - 1], list[|list| - 1];
    forall slot | slot in AllGroupAims(front) ensures slot !in GroupAims(g) {
      AllGroupAimsAre(front, slot);
      GroupAimsAre(g, slot);
      var i :| 0 <= i < |front| && GroupOf(slot) == Some(Key(front[i].name));
      assert Apart2(list[i].name, g.name);
    }
  }

  lemma {:induction false} GroupsHit(s: Server, list: seq<WantGroup>)
    requires DistinctGroups(list)
    ensures AllHit(s, AllGroupAims(list)) <==> forall g :: g in list ==> GroupOk(s, g)
  {
    hide At, Key, GroupAims, GroupOk, AllHit, DistinctLists;
    if list == [] {
      NoneToHit(s);
    } else {
      var front, g := list[..|list| - 1], list[|list| - 1];
      GroupsHit(s, front);
      GroupAimsApart(list);
      BothHit(s, AllGroupAims(front), GroupAims(g));
      GroupHits(s, g);
      assert forall v :: v in list <==> v in front || v == g;
    }
  }

  lemma NoneToHit(s: Server)
    ensures AllHit(s, imap[])
  {
  }

  // ---- The plan as a whole ----

  ghost function ConfigAims(cfg: Config): Aims {
    AllScriptAims(cfg.scripts) + AllPolicyAims(cfg.policies) + AllGroupAims(cfg.groups)
  }

  lemma KindsApart(cfg: Config)
    ensures AllScriptAims(cfg.scripts).Keys !! AllPolicyAims(cfg.policies).Keys
    ensures (AllScriptAims(cfg.scripts) + AllPolicyAims(cfg.policies)).Keys !! AllGroupAims(cfg.groups).Keys
  {
    hide AllScriptAims, AllPolicyAims, AllGroupAims, Key;
    forall slot ensures && (slot in AllScriptAims(cfg.scripts) ==> slot.SScript?)
                        && (slot in AllPolicyAims(cfg.policies) ==> slot.SBody? || slot.SSwitch?)
                        && (slot in AllGroupAims(cfg.groups) ==> GroupOf(slot).Some?)
    {
      ScriptAimsAre(cfg.scripts, slot);
      PolicyAimsAre(cfg.policies, slot);
      AllGroupAimsAre(cfg.groups, slot);
    }
  }

  lemma PlanMeets(s: Server, seen: Seen, cfg: Config)
    requires Consistent(s) && Shown(s, seen) && Admissible(cfg)
    ensures Meets(PlanFor(seen, cfg), s, ConfigAims(cfg))
  {
    hide Meets, Consistent, ShowsPolicies, ShowsGroups, ShowsRules, ShowsScripts, ScriptPlan, PolicyPlan, GroupPlan,
        AllScriptAims, AllPolicyAims, AllGroupAims, DistinctScripts, DistinctPolicies, DistinctGroups;
    KindsApart(cfg);
    ScriptPlanMeets(s, seen, cfg.scripts);
    PolicyPlanMeets(s, seen, cfg.policies);
    GroupPlanMeets(s, seen, cfg.groups);
    var p, q, r := ScriptPlan(seen, cfg.scripts), PolicyPlan(seen, cfg.policies), GroupPlan(seen, cfg.groups);
    MeetsBoth(p, q, s, AllScriptAims(cfg.scripts), AllPolicyAims(cfg.policies));
    MeetsBoth(p + q, r, s, AllScriptAims(cfg.scripts) + AllPolicyAims(cfg.policies), AllGroupAims(cfg.groups));
  }

  lemma SatisfiesIsHitting(s: Server, cfg: Config)
    requires Admissible(cfg)
    ensures Satisfies(s, cfg) <==> AllHit(s, ConfigAims(cfg))
  {
    hide AllHit, AllScriptAims, AllPolicyAims, AllGroupAims, DistinctScripts, DistinctPolicies, DistinctGroups,
        ScriptOk, PolicyOk, GroupOk;
    KindsApart(cfg);
    ScriptsHit(s, cfg.scripts);
    PoliciesHit(s, cfg.policies);
    GroupsHit(s, cfg.groups);
    BothHit(s, AllScriptAims(cfg.scripts), AllPolicyAims(cfg.policies));
    BothHit(s, AllScriptAims(cfg.scripts) + AllPolicyAims(cfg.policies), AllGroupAims(cfg.groups));
  }

  lemma EveryActionWrites(plan: seq<Action>, f: string)
    ensures plan == [] <==> Outcome(plan, f) == map[]
  {
    if plan != [] {
      assert forall a :: Writes(a, f) != map[] by {
        forall a ensures Writes(a, f) != map[] {
          assert exists slot :: slot in Writes(a, f) by { SomethingWritten(a, f); }
        }
      }
      assert Writes(plan[0], f).Keys != {};
      assert Outcome(plan, f).Keys == Writes(plan[0], f).Keys + Outcome(plan[1..], f).Keys;
    }
  }

  lemma SomethingWritten(a: Action, f: string)
    ensures exists slot :: slot in Writes(a, f)
  {
    hide Key;
    var slot :=
      match a
      case CreateScript(w) => SScript(Key(w.name))
      case UpdateScript(_, w) => SScript(Key(w.name))
      case CreatePolicy(w) => SBody(Key(w.name))
      case UpdatePolicy(_, w) => SBody(Key(w.name))
      case TogglePolicy(_, n, _) => SSwitch(Key(n))
      case CreateGroup(n, _) => SGroup(Key(n))
      case RecolorGroup(_, n, _) => SGroup(Key(n))
      case ReplaceRule(g, _, n, _) => SRule(Key(g), Key(n))
      case AddRule(g, n, _) => SRule(Key(g), Key(n))
      case DropRule(g, _, n) => SRule(Key(g), Key(n))
      case AssignTo(g, p) => SAssign(Key(g), Key(p))
      case UnassignFrom(g, k) => SAssign(Key(g), k);
    assert slot in Writes(a, f);
  }

  /** "No changes" is printed exactly when the server satisfies the file. */
  lemma NothingToDoExactly(s: Server, seen: Seen, cfg: Config)
    requires Consistent(s) && Shown(s, seen) && Admissible(cfg)
    ensures PlanFor(seen, cfg) == [] <==> Satisfies(s, cfg)
  {
    hide Consistent, Shown, Admissible, Satisfies, PlanFor, Outcome, ConfigAims, At, Hits, Lands, Runnable;
    PlanMeets(s, seen, cfg);
    SatisfiesIsHitting(s, cfg);
    EveryActionWrites(PlanFor(seen, cfg), s.toggleField);
    var o := Outcome(PlanFor(seen, cfg), s.toggleField);
    if AllHit(s, ConfigAims(cfg)) {
      assert forall slot :: slot !in o;
      assert o == map[];
    }
  }

  // ---- Running it ----

  /** The name tables applyPlan builds from the rows. */
  ghost function Start(s: Server, seen: Seen): Exec {
    Exec(s, map k | k in seen.scripts :: seen.scripts[k].id, map k | k in seen.policies :: seen.policies[k].id,
         map k | k in seen.groups :: seen.groups[k].id)
  }

  lemma StartMirrors(s: Server, seen: Seen)
    requires Shown(s, seen)
    ensures Mirrors(Start(s, seen))
  {
    hide MirrorsTable, ShowsRules;
    var x := Start(s, seen);
    assert MirrorsTable(ScriptName, s.scripts, x.scripts) by { ScriptTable(s, seen, x.scripts); }
    assert MirrorsTable(PolicyName, s.policies, x.policies) by { PolicyTable(s, seen, x.policies); }
    assert MirrorsTable(GroupName, s.groups, x.groups) by { GroupTable(s, seen, x.groups); }
  }

  lemma ScriptTable(s: Server, seen: Seen, table: map<string, Id>)
    requires ShowsScripts(s, seen.scripts) && table == map k | k in seen.scripts :: seen.scripts[k].id
    ensures MirrorsTable(ScriptName, s.scripts, table)
  {
    hide Holder;
  }

  lemma PolicyTable(s: Server, seen: Seen, table: map<string, Id>)
    requires ShowsPolicies(s, seen.policies, seen.policyRows)
        && table == map k | k in seen.policies :: seen.policies[k].id
    ensures MirrorsTable(PolicyName, s.policies, table)
  {
    hide Holder, IsPolicyRow;
  }

  lemma GroupTable(s: Server, seen: Seen, table: map<string, Id>)
    requires ShowsGroups(s, seen.groups) && table == map k | k in seen.groups :: seen.groups[k].id
    ensures MirrorsTable(GroupName, s.groups, table)
  {
    hide Holder;
  }

  ghost function Applied(s: Server, seen: Seen, cfg: Config): Option<Exec> {
    RunAll(PlanFor(seen, cfg), Start(s, seen))
  }

  /** Apply finishes without an error if and only if every reference of the file resolves. */
  lemma ApplyFinishesExactly(s: Server, seen: Seen, cfg: Config)
    requires Consistent(s) && Shown(s, seen) && Admissible(cfg)
    ensures Applied(s, seen, cfg).Some? <==> Resolves(s, cfg)
  {
    hide Consistent, Shown, Admissible, Resolves, PlanFor, Mirrors, Runnable, Supplied;
    PlanMeets(s, seen, cfg);
    StartMirrors(s, seen);
    SuppliedExactly(s, seen, cfg);
    WholePlanRuns(PlanFor(seen, cfg), Start(s, seen));
  }

  /** t differs from s only in the slots w, and those are the ones that missed. */
  ghost predicate OnlyMissed(s: Server, t: Server, cfg: Config, w: set<Slot>) {
    Untouched(s, t, w) && forall slot :: slot in w <==> Misses(s, ConfigAims(cfg), slot)
  }

  /** What apply writes: exactly the slots that miss, each with what the server makes of the request. */
  lemma ApplyWrites(s: Server, seen: Seen, cfg: Config)
    requires Consistent(s) && Shown(s, seen) && Admissible(cfg) && Applied(s, seen, cfg).Some?
    ensures var t := Applied(s, seen, cfg).value.server;
            && Consistent(t) && t.toggleField == s.toggleField
            && (forall slot :: At(t, slot) == if Misses(s, ConfigAims(cfg), slot)
                then Lands(s, slot, ConfigAims(cfg)[slot]) else At(s, slot))
    ensures exists w :: OnlyMissed(s, Applied(s, seen, cfg).value.server, cfg, w)
  {
    hide Consistent, Shown, Admissible, PlanFor, Mirrors, Runnable, Supplied, Lands, At, Misses, Untouched, Outcome,
        ConfigAims;
    PlanMeets(s, seen, cfg);
    StartMirrors(s, seen);
    WholePlanRuns(PlanFor(seen, cfg), Start(s, seen));
    SameField(s, Applied(s, seen, cfg).value.server, Outcome(PlanFor(seen, cfg), s.toggleField));
    assert OnlyMissed(s, Applied(s, seen, cfg).value.server, cfg, Outcome(PlanFor(seen, cfg), s.toggleField).Keys);
  }
}
