/** The references of a plan resolve exactly when those of the configuration do. */
module References {
  import opened Ordering
  import opened Fleet
  import opened Planner
  import opened Executor
  import opened PlanRuns
  import opened Goals
  import opened GroupGoals

  ghost predicate HasScript(list: seq<WantScript>, k: string) { exists i :: 0 <= i < |list| && Key(list[i].name) == k }
  ghost predicate HasPolicy(list: seq<WantPolicy>, k: string) { exists i :: 0 <= i < |list| && Key(list[i].name) == k }

  ghost predicate PolicyResolves(s: Server, scripts: seq<WantScript>, w: WantPolicy) {
    Present(s, NeedScript(Key(w.script))) || HasScript(scripts, Key(w.script))
  }

  ghost predicate NameResolves(s: Server, policies: seq<WantPolicy>, name: string) {
    Present(s, NeedPolicy(Key(name))) || HasPolicy(policies, Key(name))
  }

  ghost predicate GroupResolves(s: Server, policies: seq<WantPolicy>, g: WantGroup) {
    g.policies.Some? ==> forall p :: p in g.policies.value ==> NameResolves(s, policies, p)
  }

  /** Every script and every policy the file refers to is in the file or on the server. */
  ghost predicate Resolves(s: Server, cfg: Config) {
    && (forall w :: w in cfg.policies ==> PolicyResolves(s, cfg.scripts, w))
    && (forall g :: g in cfg.groups ==> GroupResolves(s, cfg.policies, g))
  }

  // ---- Supply along a plan ----

  function AllProvides(plan: seq<Action>): set<Need> {
    if plan == [] then {} else Provides(plan[0]) + AllProvides(plan[1..])
  }

  ghost predicate Have(s: Server, more: set<Need>, n: Need) { Present(s, n) || n in more }

  lemma {:induction false} SuppliedConcat(p: seq<Action>, q: seq<Action>, s: Server, more: set<Need>)
    ensures Supplied(p + q, s, more) <==> Supplied(p, s, more) && Supplied(q, s, more + AllProvides(p))
    ensures AllProvides(p + q) == AllProvides(p) + AllProvides(q)
  {
    hide Needs, Provides, Present;
    if p == [] {
      assert p + q == q && more + {} == more;
    } else {
      assert (p + q)[0] == p[0] && (p + q)[1..] == p[1..] + q;
      SuppliedConcat(p[1..], q, s, more + Provides(p[0]));
      assert more + Provides(p[0]) + AllProvides(p[1..]) == more + AllProvides(p);
    }
  }

  /** Where no action provides what another needs, the order does not matter. */
  lemma {:induction false} SuppliedFlat(plan: seq<Action>, s: Server, more: set<Need>, extra: set<Need>)
    requires forall a, n :: a in plan && n in Needs(a) ==> n !in extra && n !in AllProvides(plan)
    ensures Supplied(plan, s, more + extra) <==> forall a, n :: a in plan && n in Needs(a) ==> Have(s, more, n)
  {
    hide Needs, Provides, Present;
    if plan != [] {
      var rest := plan[1..];
      assert plan[0] in plan && forall a :: a in plan <==> a == plan[0] || a in rest;
      assert AllProvides(plan) == Provides(plan[0]) + AllProvides(rest);
      assert more + extra + Provides(plan[0]) == more + (extra + Provides(plan[0]));
      SuppliedFlat(rest, s, more, extra + Provides(plan[0]));
      var first := forall n :: n in Needs(plan[0]) ==> Have(s, more, n);
      var others := forall a, n :: a in rest && n in Needs(a) ==> Have(s, more, n);
      assert Supplied(plan, s, more + extra) <==> first && others;
      if first && others {
        forall a, n | a in plan && n in Needs(a) ensures Have(s, more, n) { assert a == plan[0] || a in rest; }
      }
      if forall a, n :: a in plan && n in Needs(a) ==> Have(s, more, n) {
        forall a, n | a in rest && n in Needs(a) ensures Have(s, more, n) { assert a in plan; }
      }
    }
  }

  lemma {:induction false} ProvidedBySome(plan: seq<Action>, n: Need)
    ensures n in AllProvides(plan) <==> exists a :: a in plan && n in Provides(a)
  {
    hide Provides;
    if plan != [] {
      ProvidedBySome(plan[1..], n);
      assert forall a :: a in plan <==> a == plan[0] || a in plan[1..];
    }
  }

  // ---- Scripts ----

  lemma {:induction false} ScriptPlanSupplies(s: Server, seen: Seen, list: seq<WantScript>, more: set<Need>)
    requires ShowsScripts(s, seen.scripts)
    ensures Supplied(ScriptPlan(seen, list), s, more)
    ensures forall n :: n in AllProvides(ScriptPlan(seen, list)) ==> n.NeedScript? && HasScript(list, n.k)
    ensures forall k :: HasScript(list, k) ==> Have(s, AllProvides(ScriptPlan(seen, list)), NeedScript(k))
  {
    hide Present, Key, ShowsScripts, ScriptActions;
    if list != [] {
      var front, w := list[..|list| - 1], list[|list| - 1];
      ScriptPlanSupplies(s, seen, front, more);
      var p, q := ScriptPlan(seen, front), ScriptActions(seen, w);
      SuppliedConcat(p, q, s, more);
      OneScriptSupplies(s, seen, w, more + AllProvides(p));
      HasScriptGrows(list);
    }
  }

  lemma HasScriptGrows(list: seq<WantScript>)
    requires list != []
    ensures forall k :: HasScript(list, k) <==> HasScript(list[..|list| - 1], k) || Key(list[|list| - 1].name) == k
  {
    hide Key;
    var front := list[..|list| - 1];
    forall k ensures HasScript(list, k) <==> HasScript(front, k) || Key(list[|list| - 1].name) == k {
      if i :| 0 <= i < |front| && Key(front[i].name) == k { assert list[i] == front[i]; }
    }
  }

  lemma OneScriptSupplies(s: Server, seen: Seen, w: WantScript, more: set<Need>)
    requires ShowsScripts(s, seen.scripts)
    ensures Supplied(ScriptActions(seen, w), s, more)
    ensures forall n :: n in AllProvides(ScriptActions(seen, w)) ==> n == NeedScript(Key(w.name))
    ensures Have(s, AllProvides(ScriptActions(seen, w)), NeedScript(Key(w.name)))
  {
    hide Key, Holder;
    var acts := ScriptActions(seen, w);
    if acts != [] {
      assert acts[1..] == [];
      assert AllProvides(acts) == Provides(acts[0]) + AllProvides([]);
    }
  }

  // ---- Policies ----

  lemma {:induction false} PolicyPlanIs(seen: Seen, list: seq<WantPolicy>, a: Action)
    ensures a in PolicyPlan(seen, list) <==> exists w :: w in list && a in PolicyActions(seen, w)
  {
    hide PolicyActions;
    if list != [] {
      PolicyPlanIs(seen, list[..|list| - 1], a);
      assert forall w :: w in list <==> w in list[..|list| - 1] || w == list[|list| - 1];
    }
  }

  /** A policy the plan leaves alone already has its script. */
  lemma PolicyAsks(s: Server, seen: Seen, w: WantPolicy)
    requires Consistent(s) && Shown(s, seen)
    ensures forall a, n :: a in PolicyActions(seen, w) && n in Needs(a) ==> n == NeedScript(Key(w.script))
    ensures Present(s, NeedScript(Key(w.script)))
            || exists a :: a in PolicyActions(seen, w) && NeedScript(Key(w.script)) in Needs(a)
    ensures forall a, n :: a in PolicyActions(seen, w) && n in Provides(a) ==> n == NeedPolicy(Key(w.name))
    ensures Present(s, NeedPolicy(Key(w.name)))
            || exists a :: a in PolicyActions(seen, w) && NeedPolicy(Key(w.name)) in Provides(a)
  {
    hide Consistent, Shown, Present, Key, PolicyChanged;
    var acts, k := PolicyActions(seen, w), Key(w.name);
    if k !in seen.policies {
      assert CreatePolicy(w) in acts;
    } else {
      KnownIsPresent(s, seen, k);
      if PolicyChanged(seen.policies[k], w, seen.scripts) {
        assert UpdatePolicy(seen.policies[k].id, w) in acts;
      } else {
        UnchangedHasScript(s, seen, w);
      }
    }
  }

  lemma KnownIsPresent(s: Server, seen: Seen, k: string)
    requires Shown(s, seen) && k in seen.policies
    ensures Present(s, NeedPolicy(k))
  {
    PolicyKnown(s, seen, k);
    assert Holds(PolicyName, s.policies, k, seen.policies[k].id);
  }

  lemma UnchangedHasScript(s: Server, seen: Seen, w: WantPolicy)
    requires Consistent(s) && Shown(s, seen) && Key(w.name) in seen.policies
    requires !PolicyChanged(seen.policies[Key(w.name)], w, seen.scripts)
    ensures Present(s, NeedScript(Key(w.script)))
  {
    hide Consistent, Key, ShowsGroups, ShowsRules;
    var cur := seen.policies[Key(w.name)];
    assert IsPolicyRow(s, cur);
    assert Holds(ScriptName, s.scripts, Key(w.script), cur.script);
  }

  lemma PolicyPlanSupplied(s: Server, seen: Seen, scripts: seq<WantScript>, list: seq<WantPolicy>, more: set<Need>)
    requires Consistent(s) && Shown(s, seen)
    requires forall k :: Have(s, more, NeedScript(k)) <==> Present(s, NeedScript(k)) || HasScript(scripts, k)
    ensures Supplied(PolicyPlan(seen, list), s, more) <==> forall w :: w in list ==> PolicyResolves(s, scripts, w)
  {
    hide Consistent, Shown, Present, Key, PolicyActions, Needs, Provides, HasScript;
    var plan := PolicyPlan(seen, list);
    forall a, n | a in plan && n in Needs(a) ensures n.NeedScript? && n !in AllProvides(plan) {
      PolicyPlanIs(seen, list, a);
      var w :| w in list && a in PolicyActions(seen, w);
      PolicyAsks(s, seen, w);
      PolicyPlanProvides(s, seen, list, n);
    }
    SuppliedFlat(plan, s, more, {});
    assert more + {} == more;
    if forall a, n :: a in plan && n in Needs(a) ==> Have(s, more, n) {
      forall w | w in list ensures PolicyResolves(s, scripts, w) {
        PolicyAsks(s, seen, w);
        if !Present(s, NeedScript(Key(w.script))) {
          var a :| a in PolicyActions(seen, w) && NeedScript(Key(w.script)) in Needs(a);
          PolicyPlanIs(seen, list, a);
        }
      }
    }
    if forall w :: w in list ==> PolicyResolves(s, scripts, w) {
      forall a, n | a in plan && n in Needs(a) ensures Have(s, more, n) {
        PolicyPlanIs(seen, list, a);
        var w :| w in list && a in PolicyActions(seen, w);
        PolicyAsks(s, seen, w);
      }
    }
  }

  lemma PolicyPlanProvides(s: Server, seen: Seen, list: seq<WantPolicy>, n: Need)
    requires Consistent(s) && Shown(s, seen)
    ensures n in AllProvides(PolicyPlan(seen, list)) ==> n.NeedPolicy? && HasPolicy(list, n.k)
    ensures n.NeedPolicy? && HasPolicy(list, n.k) ==> Have(s, AllProvides(PolicyPlan(seen, list)), n)
  {
    hide Consistent, Shown, Present, Key, PolicyActions, Provides;
    ProvidedBySome(PolicyPlan(seen, list), n);
    if n in AllProvides(PolicyPlan(seen, list)) {
      var a :| a in PolicyPlan(seen, list) && n in Provides(a);
      PolicyPlanIs(seen, list, a);
      var w :| w in list && a in PolicyActions(seen, w);
      PolicyAsks(s, seen, w);
    }
    if n.NeedPolicy? && HasPolicy(list, n.k) {
      var i :| 0 <= i < |list| && Key(list[i].name) == n.k;
      PolicyAsks(s, seen, list[i]);
      if !Present(s, n) {
        var a :| a in PolicyActions(seen, list[i]) && n in Provides(a);
        PolicyPlanIs(seen, list, a);
      }
    }
  }

  // ---- Groups ----

  lemma {:induction false} ListedRulesAsk(g: WantGroup, list: seq<WantRule>, cur: map<string, RuleRow>, a: Action)
    requires a in ListedRules(g, list, cur)
    ensures Needs(a) == {NeedGroup(Key(g.name))} && Provides(a) == {}
  {
    hide Key;
    if a in ListedRules(g, list[..|list| - 1], cur) { ListedRulesAsk(g, list[..|list| - 1], cur, a); }
  }

  lemma {:induction false} ListedPoliciesAsk(g: WantGroup, list: seq<string>, cur: set<string>)
    ensures forall a :: a in ListedPolicies(g, list, cur) ==> a.AssignTo? && a.group == g.name && a.policyName in list
    ensures forall p :: p in list && Key(p) !in cur ==> AssignTo(g.name, p) in ListedPolicies(g, list, cur)
  {
    hide Key, NameKeys;
    if list != [] {
      ListedPoliciesAsk(g, list[..|list| - 1], cur);
      assert forall p :: p in list <==> p in list[..|list| - 1] || p == list[|list| - 1];
    }
  }

  lemma SoftwareAsks(seen: Seen, g: WantGroup, a: Action)
    requires a in SoftwarePlan(seen, g)
    ensures Needs(a) == {NeedGroup(Key(g.name))} && Provides(a) == {}
  {
    hide Key, RuleKeys, CurrentRules, Arrange, ListedRules;
    var cur := CurrentRules(seen, g);
    if a in ListedRules(g, g.software.value, cur) { ListedRulesAsk(g, g.software.value, cur, a); }
  }

  /** The assignments planned ask for the group, and for every listed policy not yet assigned. */
  lemma AssignmentsAsk(s: Server, seen: Seen, g: WantGroup)
    requires Consistent(s) && ShowsPolicies(s, seen.policies, seen.policyRows)
    ensures forall a :: a in AssignmentPlan(seen, g) ==> Provides(a) == {} && AskedFor(s, g, a)
    ensures g.policies.Some? ==> forall p :: p in g.policies.value && !Present(s, NeedPolicy(Key(p))) ==>
        AssignTo(g.name, p) in AssignmentPlan(seen, g)
  {
    hide Consistent, ShowsPolicies, CurrentPolicies, NameKeys, Key, Present, Arrange, IsAssignedOn;
    if g.policies.Some? {
      var list, cur := g.policies.value, CurrentPolicies(seen, g);
      var keys := Arrange(ByItself, cur - NameKeys(list));
      ListedPoliciesAsk(g, list, cur);
      forall k ensures k in cur ==> Present(s, NeedPolicy(k)) {
        CurrentPoliciesShow(s, seen, g, k);
        AssignedOrNot(s, Key(g.name), k);
      }
      forall a | a in AssignmentPlan(seen, g) ensures Provides(a) == {} && AskedFor(s, g, a) {
        if a in Unassigns(g, keys) {
          var i :| 0 <= i < |keys| && Unassigns(g, keys)[i] == a;
          assert keys[i] in keys;
        }
      }
    }
  }

  ghost predicate AskedFor(s: Server, g: WantGroup, a: Action) {
    forall n :: n in Needs(a) ==>
      n == NeedGroup(Key(g.name)) || Present(s, n)
          || (g.policies.Some? && exists p :: p in g.policies.value && n == NeedPolicy(Key(p)))
  }

  lemma HeaderSupplies(s: Server, seen: Seen, g: WantGroup, more: set<Need>)
    requires ShowsGroups(s, seen.groups)
    ensures Supplied(HeaderActions(seen, g), s, more)
    ensures AllProvides(HeaderActions(seen, g)) <= {NeedGroup(Key(g.name))}
    ensures Have(s, AllProvides(HeaderActions(seen, g)), NeedGroup(Key(g.name)))
  {
    hide Key, Holder, Lower;
    var acts := HeaderActions(seen, g);
    if acts != [] {
      assert acts[1..] == [];
      assert AllProvides(acts) == Provides(acts[0]) + AllProvides([]);
    }
  }

  lemma GroupSupplied(s: Server, seen: Seen, policies: seq<WantPolicy>, g: WantGroup, more: set<Need>)
    requires Consistent(s) && Shown(s, seen)
    requires forall k :: Have(s, more, NeedPolicy(k)) <==> Present(s, NeedPolicy(k)) || HasPolicy(policies, k)
    ensures Supplied(GroupActions(seen, g), s, more) <==> GroupResolves(s, policies, g)
    ensures AllProvides(GroupActions(seen, g)) <= {NeedGroup(Key(g.name))}
  {
    hide Consistent, ShowsPolicies, ShowsGroups, ShowsRules, ShowsScripts, Key, Present, HeaderActions, SoftwarePlan,
        AssignmentPlan, Needs, Provides, HasPolicy, Supplied;
    var head, rest := HeaderActions(seen, g), SoftwarePlan(seen, g) + AssignmentPlan(seen, g);
    HeaderSupplies(s, seen, g, more);
    assert GroupActions(seen, g) == head + rest;
    SuppliedConcat(head, rest, s, more);
    AssignmentsAsk(s, seen, g);
    forall a | a in rest ensures Provides(a) == {} && AskedFor(s, g, a) {
      if a in SoftwarePlan(seen, g) { SoftwareAsks(seen, g, a); }
    }
    NothingProvided(rest);
    var have := more + AllProvides(head);
    SuppliedFlat(rest, s, have, {});
    assert have + {} == have;
    if GroupResolves(s, policies, g) { ResolvedIsHad(s, policies, g, rest, have); }
    if forall a, n :: a in rest && n in Needs(a) ==> Have(s, have, n) { HadIsResolved(s, seen, policies, g, have); }
  }

  lemma {:induction false} NothingProvided(plan: seq<Action>)
    requires forall a :: a in plan ==> Provides(a) == {}
    ensures AllProvides(plan) == {}
  {
    hide Provides;
    if plan != [] { NothingProvided(plan[1..]); }
  }

  lemma ResolvedIsHad(s: Server, policies: seq<WantPolicy>, g: WantGroup, rest: seq<Action>, have: set<Need>)
    requires forall a :: a in rest ==> AskedFor(s, g, a)
    requires forall k :: Have(s, have, NeedPolicy(k)) <==> Present(s, NeedPolicy(k)) || HasPolicy(policies, k)
    requires Have(s, have, NeedGroup(Key(g.name))) && GroupResolves(s, policies, g)
    ensures forall a, n :: a in rest && n in Needs(a) ==> Have(s, have, n)
  {
    hide Present, HasPolicy, Needs, Key;
    forall a, n | a in rest && n in Needs(a) ensures Have(s, have, n) {
      assert AskedFor(s, g, a);
      if g.policies.Some? && exists p :: p in g.policies.value && n == NeedPolicy(Key(p)) {
        var p :| p in g.policies.value && n == NeedPolicy(Key(p));
        assert NameResolves(s, policies, p);
      }
    }
  }

  lemma HadIsResolved(s: Server, seen: Seen, policies: seq<WantPolicy>, g: WantGroup, have: set<Need>)
    requires Consistent(s) && ShowsPolicies(s, seen.policies, seen.policyRows)
    requires forall k :: Have(s, have, NeedPolicy(k)) <==> Present(s, NeedPolicy(k)) || HasPolicy(policies, k)
    requires forall a, n :: a in AssignmentPlan(seen, g) && n in Needs(a) ==> Have(s, have, n)
    ensures GroupResolves(s, policies, g)
  {
    hide Present, HasPolicy, Key, Consistent, ShowsPolicies, AssignmentPlan;
    AssignmentsAsk(s, seen, g);
    if g.policies.Some? {
      forall p | p in g.policies.value ensures NameResolves(s, policies, p) {
        if !Present(s, NeedPolicy(Key(p))) {
          assert NeedPolicy(Key(p)) in Needs(AssignTo(g.name, p));
        }
      }
    }
  }

  lemma {:induction false} GroupPlanSupplied(s: Server, seen: Seen, policies: seq<WantPolicy>, list: seq<WantGroup>,
                                             more: set<Need>)
    requires Consistent(s) && Shown(s, seen)
    requires forall k :: Have(s, more, NeedPolicy(k)) <==> Present(s, NeedPolicy(k)) || HasPolicy(policies, k)
    ensures Supplied(GroupPlan(seen, list), s, more) <==> forall g :: g in list ==> GroupResolves(s, policies, g)
    ensures forall n :: n in AllProvides(GroupPlan(seen, list)) ==> n.NeedGroup?
  {
    hide Consistent, Shown, Key, Present, HasPolicy, GroupActions, GroupResolves;
    if list != [] {
      var front, g := list[..|list| - 1], list[|list| - 1];
      GroupPlanSupplied(s, seen, policies, front, more);
      var p := GroupPlan(seen, front);
      SuppliedConcat(p, GroupActions(seen, g), s, more);
      GroupSupplied(s, seen, policies, g, more + AllProvides(p));
      assert forall h :: h in list <==> h in front || h == g;
    }
  }

  // ---- The plan ----

  /** Running the plan meets no dangling reference if and only if the configuration has none. */
  lemma SuppliedExactly(s: Server, seen: Seen, cfg: Config)
    requires Consistent(s) && Shown(s, seen)
    ensures Supplied(PlanFor(seen, cfg), s, {}) <==> Resolves(s, cfg)
  {
    hide Consistent, ShowsPolicies, ShowsGroups, ShowsRules, ShowsScripts, Key, Present, HasPolicy, HasScript,
        ScriptPlan, PolicyPlan, GroupPlan, PolicyResolves, GroupResolves, Supplied;
    var p, q, r := ScriptPlan(seen, cfg.scripts), PolicyPlan(seen, cfg.policies), GroupPlan(seen, cfg.groups);
    ScriptPlanSupplies(s, seen, cfg.scripts, {});
    SuppliedConcat(p, q, s, {});
    SuppliedConcat(p + q, r, s, {});
    var mp, mq := {} + AllProvides(p), {} + AllProvides(p + q);
    assert mp == AllProvides(p) && mq == AllProvides(p) + AllProvides(q);
    PolicyPlanSupplied(s, seen, cfg.scripts, cfg.policies, mp);
    forall k ensures Have(s, mq, NeedPolicy(k)) <==> Present(s, NeedPolicy(k)) || HasPolicy(cfg.policies, k) {
      PolicyPlanProvides(s, seen, cfg.policies, NeedPolicy(k));
    }
    GroupPlanSupplied(s, seen, cfg.policies, cfg.groups, mq);
  }
}
