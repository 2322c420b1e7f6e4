/** What an apply never touches. */
module ApplyFrame {
  import opened Ordering
  import opened Fleet
  import opened Planner
  import opened Executor
  import opened Goals
  import opened GroupGoals
  import opened References
  import opened Convergence
  import opened PlanRuns
  import Stability

  ghost predicate NamesGroup(cfg: Config, k: string) {
    exists i :: 0 <= i < |cfg.groups| && Key(cfg.groups[i].name) == k
  }
  ghost predicate ManagesRules(cfg: Config, k: string) {
    exists i :: 0 <= i < |cfg.groups| && Key(cfg.groups[i].name) == k && cfg.groups[i].software.Some?
  }
  ghost predicate ManagesPolicies(cfg: Config, k: string) {
    exists i :: 0 <= i < |cfg.groups| && Key(cfg.groups[i].name) == k && cfg.groups[i].policies.Some?
  }

  lemma {:induction false} GroupSlotsManaged(list: seq<WantGroup>, slot: Slot)
    requires slot in AllGroupAims(list)
    ensures slot.SRule? ==> exists i :: 0 <= i < |list| && Key(list[i].name) == slot.g && list[i].software.Some?
    ensures slot.SAssign? ==> exists i :: 0 <= i < |list| && Key(list[i].name) == slot.g && list[i].policies.Some?
    ensures slot.SGroup? ==> exists i :: 0 <= i < |list| && Key(list[i].name) == slot.k
    ensures GroupOf(slot).Some?
  {
    hide GroupAims, Key;
    var front, g := list[..|list| - 1], list[|list| - 1];
    if slot in GroupAims(g) {
      OneGroupManaged(g, slot);
    } else {
      GroupSlotsManaged(front, slot);
    }
  }

  lemma OneGroupManaged(g: WantGroup, slot: Slot)
    requires slot in GroupAims(g)
    ensures GroupOf(slot) == Some(Key(g.name))
    ensures (slot.SRule? ==> g.software.Some?) && (slot.SAssign? ==> g.policies.Some?)
  {
    hide SoftwareAims, PolicyListAims, Key;
    SoftwareAimsAre(g, slot);
    PolicyListAimsAre(g, slot);
  }

  ghost predicate SlotNamed(cfg: Config, slot: Slot) {
    match slot
    case SScript(k) => HasScript(cfg.scripts, k)
    case SBody(k) => HasPolicy(cfg.policies, k)
    case SSwitch(k) => HasPolicy(cfg.policies, k)
    case SGroup(k) => NamesGroup(cfg, k)
    case SRule(g, _) => ManagesRules(cfg, g)
    case SAssign(g, _) => ManagesPolicies(cfg, g)
  }

  /** A slot the file asks something of is named in the file. */
  lemma AimedIsNamed(cfg: Config, slot: Slot)
    requires slot in ConfigAims(cfg)
    ensures SlotNamed(cfg, slot)
  {
    hide AllScriptAims, AllPolicyAims, AllGroupAims, Key;
    ScriptAimsAre(cfg.scripts, slot);
    PolicyAimsAre(cfg.policies, slot);
    if slot in AllGroupAims(cfg.groups) { GroupSlotsManaged(cfg.groups, slot); }
  }

  /** The rule belongs to the group itself and the file lists that group's software. */
  ghost predicate RuleManaged(s: Server, cfg: Config, r: Rule) {
    r.device.None? && r.group.Some? && r.group.value in s.groups && ManagesRules(cfg, Key(s.groups[r.group.value].name))
  }

  ghost predicate OthersUntouched(s: Server, t: Server, cfg: Config) {
    && (forall i :: i in s.scripts && !HasScript(cfg.scripts, Key(s.scripts[i].name)) ==>
        i in t.scripts && t.scripts[i] == s.scripts[i])
    && (forall i :: i in s.groups && !NamesGroup(cfg, Key(s.groups[i].name)) ==>
        i in t.groups && t.groups[i] == s.groups[i])
    && (forall i :: i in s.policies && !HasPolicy(cfg.policies, Key(s.policies[i].name)) ==>
          i in t.policies && t.policies[i] == s.policies[i].(groups := t.policies[i].groups))
    && (forall i, g :: i in s.policies && g in s.groups && !ManagesPolicies(cfg, Key(s.groups[g].name)) ==>
          i in t.policies && (g in t.policies[i].groups <==> g in s.policies[i].groups))
    && (forall i :: i in s.rules && !RuleManaged(s, cfg, s.rules[i]) ==> i in t.rules && t.rules[i] == s.rules[i])
    && (forall i :: i in t.rules && i !in s.rules ==> RuleManaged(t, cfg, t.rules[i]))
  }

  lemma RulesUntouched(s: Server, t: Server, cfg: Config, w: set<Slot>)
    requires SameRules(s, t, w) && forall slot :: slot in w ==> SlotNamed(cfg, slot)
    ensures forall i :: i in s.rules && !RuleManaged(s, cfg, s.rules[i]) ==> i in t.rules && t.rules[i] == s.rules[i]
    ensures forall i :: i in t.rules && i !in s.rules ==> RuleManaged(t, cfg, t.rules[i])
  {
    hide Key, ManagesRules;
    forall i | i in s.rules && !RuleManaged(s, cfg, s.rules[i]) ensures i in t.rules && t.rules[i] == s.rules[i] {
      assert !RuleNamed(s, s.rules[i], w);
    }
  }

  lemma PoliciesUntouchedElsewhere(s: Server, t: Server, cfg: Config, w: set<Slot>)
    requires SamePolicies(s, t, w) && forall slot :: slot in w ==> SlotNamed(cfg, slot)
    ensures forall i :: i in s.policies && !HasPolicy(cfg.policies, Key(s.policies[i].name)) ==>
        i in t.policies && t.policies[i] == s.policies[i].(groups := t.policies[i].groups)
    ensures forall i, g :: i in s.policies && g in s.groups && !ManagesPolicies(cfg, Key(s.groups[g].name)) ==>
        i in t.policies && (g in t.policies[i].groups <==> g in s.policies[i].groups)
  {
    hide Key, HasPolicy, ManagesPolicies;
    forall i | i in s.policies ensures i in t.policies && SamePolicy(s, t, w, s.policies[i], t.policies[i]) {}
  }

  lemma UntouchedNames(s: Server, t: Server, cfg: Config, w: set<Slot>)
    requires Untouched(s, t, w) && forall slot :: slot in w ==> SlotNamed(cfg, slot)
    ensures OthersUntouched(s, t, cfg)
  {
    hide Key, HasScript, HasPolicy, NamesGroup, ManagesRules, ManagesPolicies, SameRules, SamePolicies, RuleManaged;
    RulesUntouched(s, t, cfg, w);
    PoliciesUntouchedElsewhere(s, t, cfg, w);
  }

  /** Scripts, policies and groups the file does not name are the very same objects afterwards; so is every
      rule of a device, of an unnamed group, or of a group whose software the file does not list; and a
      policy keeps its place in every group whose policies the file does not list. This holds after every
      step of the plan, whether or not the next one succeeds. */
  lemma EveryStepLeavesTheRest(s: Server, seen: Seen, cfg: Config, i: nat)
    requires Consistent(s) && Shown(s, seen) && Admissible(cfg) && i <= |PlanFor(seen, cfg)|
    requires RunAll(PlanFor(seen, cfg)[..i], Start(s, seen)).Some?
    ensures OthersUntouched(s, RunAll(PlanFor(seen, cfg)[..i], Start(s, seen)).value.server, cfg)
  {
    hide Consistent, Shown, Admissible, PlanFor, Mirrors, Supplied, At, Lands, Untouched, Outcome, ConfigAims, Own,
        Apart, Hits;
    hide OthersUntouched, Overwritten;
    var plan, f := PlanFor(seen, cfg), s.toggleField;
    PlanMeets(s, seen, cfg);
    StartMirrors(s, seen);
    Stability.PrefixOutcome(plan, i, f);
    assert AllOwn(plan[..i], s);
    WholePlanRuns(plan[..i], Start(s, seen));
    var t := RunAll(plan[..i], Start(s, seen)).value.server;
    var w := Outcome(plan[..i], f).Keys;
    forall slot | slot in w ensures SlotNamed(cfg, slot) {
      assert slot in Outcome(plan, f);
      AimedIsNamed(cfg, slot);
    }
    UntouchedNames(s, t, cfg, w);
  }

  /** In particular after a whole apply. */
  lemma ApplyLeavesTheRest(s: Server, seen: Seen, cfg: Config)
    requires Consistent(s) && Shown(s, seen) && Admissible(cfg) && Applied(s, seen, cfg).Some?
    ensures OthersUntouched(s, Applied(s, seen, cfg).value.server, cfg)
  {
    hide Consistent, Shown, Admissible, PlanFor, RunAll, OthersUntouched;
    var plan := PlanFor(seen, cfg);
    assert plan[..|plan|] == plan;
    EveryStepLeavesTheRest(s, seen, cfg, |plan|);
  }
}
