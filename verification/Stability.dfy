/** When a second apply finds nothing to do, whatever happened to the first. */
module Stability {
  import opened Ordering
  import opened Fleet
  import opened Planner
  import opened Executor
  import opened PlanRuns
  import opened Goals
  import opened GroupGoals
  import opened References
  import opened Convergence

  /** The platform is spelled as the server stores it, or the script is already as wanted. */
  ghost predicate SpelledRight(s: Server, w: WantScript) {
    CanonicalPlatform(w.platform) == Some(w.platform) || ScriptOk(s, w)
  }

  /** An existing policy that is off and wanted on needs a toggle handler that reads the field the CLI sends. */
  ghost predicate Switchable(s: Server, w: WantPolicy) {
    w.active && At(s, SSwitch(Key(w.name))) == Some(VSwitch(false)) ==> s.toggleField == CLI_TOGGLE_FIELD
  }

  ghost predicate Settles(s: Server, cfg: Config) {
    (forall w :: w in cfg.scripts ==> SpelledRight(s, w)) && (forall w :: w in cfg.policies ==> Switchable(s, w))
  }

  // ---- The aim of a slot ----

  lemma {:induction false} AimOfScript(list: seq<WantScript>, w: WantScript)
    requires w in list && DistinctScripts(list)
    ensures SScript(Key(w.name)) in AllScriptAims(list)
        && AllScriptAims(list)[SScript(Key(w.name))] == Exactly(Some(VScript(w.platform, w.content)))
  {
    hide Key;
    var front, last := list[..|list| - 1], list[|list| - 1];
    if w != last {
      AimOfScript(front, w);
      ScriptAimsApart(list);
      assert SScript(Key(w.name)) !in ScriptAims(last);
    }
  }

  lemma {:induction false} AimOfPolicy(list: seq<WantPolicy>, w: WantPolicy)
    requires w in list && DistinctPolicies(list)
    ensures SBody(Key(w.name)) in AllPolicyAims(list)
        && AllPolicyAims(list)[SBody(Key(w.name))] == Exactly(Some(WantedBody(w)))
    ensures SSwitch(Key(w.name)) in AllPolicyAims(list)
        && AllPolicyAims(list)[SSwitch(Key(w.name))] == Exactly(Some(VSwitch(w.active)))
  {
    hide Key;
    var front, last := list[..|list| - 1], list[|list| - 1];
    if w != last {
      AimOfPolicy(front, w);
      PolicyAimsApart(list);
      assert SBody(Key(w.name)) !in PolicyAims(last) && SSwitch(Key(w.name)) !in PolicyAims(last);
    }
  }

  /** Aims the server always meets. */
  predicate Lasting(aim: Aim) {
    aim.Anything? || aim.value.None? || !(aim.value.value.VScript? || aim.value.value.VSwitch?)
  }

  lemma {:induction false} ListedAimsLast(gk: string, list: seq<WantRule>)
    ensures forall slot :: slot in ListedAims(gk, list) ==> Lasting(ListedAims(gk, list)[slot])
  {
    hide Key;
    if list != [] { ListedAimsLast(gk, list[..|list| - 1]); }
  }

  lemma GroupAimsLast(g: WantGroup)
    ensures forall slot :: slot in GroupAims(g) ==> Lasting(GroupAims(g)[slot])
  {
    hide Key, HeaderAims, SoftwareAims, PolicyListAims, Lasting;
    HeaderAimsLast(g);
    SoftwareAimsLast(g);
    PolicyListAimsLast(g);
  }

  lemma HeaderAimsLast(g: WantGroup)
    ensures forall slot :: slot in HeaderAims(g) ==> Lasting(HeaderAims(g)[slot])
  {
    hide Key;
  }

  lemma SoftwareAimsLast(g: WantGroup)
    ensures forall slot :: slot in SoftwareAims(g) ==> Lasting(SoftwareAims(g)[slot])
  {
    hide Key, ListedAims, RuleKeys;
    if g.software.Some? { ListedAimsLast(Key(g.name), g.software.value); }
  }

  lemma PolicyListAimsLast(g: WantGroup)
    ensures forall slot :: slot in PolicyListAims(g) ==> Lasting(PolicyListAims(g)[slot])
  {
    hide Key, NameKeys;
  }

  lemma {:induction false} AllGroupAimsLast(list: seq<WantGroup>)
    ensures forall slot :: slot in AllGroupAims(list) ==> Lasting(AllGroupAims(list)[slot])
  {
    hide GroupAims, Lasting;
    if list != [] {
      AllGroupAimsLast(list[..|list| - 1]);
      GroupAimsLast(list[|list| - 1]);
    }
  }

  lemma AimsOf(cfg: Config, slot: Slot)
    ensures slot in AllScriptAims(cfg.scripts) ==>
        slot in ConfigAims(cfg) && ConfigAims(cfg)[slot] == AllScriptAims(cfg.scripts)[slot]
    ensures slot in AllPolicyAims(cfg.policies) ==>
        slot in ConfigAims(cfg) && ConfigAims(cfg)[slot] == AllPolicyAims(cfg.policies)[slot]
    ensures slot in AllGroupAims(cfg.groups) ==>
        slot in ConfigAims(cfg) && ConfigAims(cfg)[slot] == AllGroupAims(cfg.groups)[slot]
  {
    hide AllScriptAims, AllPolicyAims, AllGroupAims;
    KindsApart(cfg);
  }

  // ---- Partial and complete runs ----

  /** t is s with some of the missed slots written. */
  ghost predicate Between(s: Server, t: Server, cfg: Config) {
    && t.toggleField == s.toggleField
    && forall slot :: At(t, slot) == At(s, slot)
        || (Misses(s, ConfigAims(cfg), slot) && At(t, slot) == Lands(s, slot, ConfigAims(cfg)[slot]))
  }

  /** t is s with all of them written. */
  ghost predicate Reached(s: Server, t: Server, cfg: Config) {
    && t.toggleField == s.toggleField
    && forall slot :: At(t, slot) == if Misses(s, ConfigAims(cfg), slot) then Lands(s, slot, ConfigAims(cfg)[slot])
        else At(s, slot)
  }

  lemma ScriptBetween(s: Server, t: Server, cfg: Config, w: WantScript)
    requires Admissible(cfg) && Between(s, t, cfg) && w in cfg.scripts
    ensures SpelledRight(t, w) <==> SpelledRight(s, w)
    ensures Reached(s, t, cfg) ==> (ScriptOk(t, w) <==> SpelledRight(s, w))
  {
    hide At, Key, DistinctPolicies, DistinctGroups, AllScriptAims, ConfigAims;
    AimOfScript(cfg.scripts, w);
    AimsOf(cfg, SScript(Key(w.name)));
  }

  lemma PolicyBetween(s: Server, t: Server, cfg: Config, w: WantPolicy)
    requires Admissible(cfg) && Between(s, t, cfg) && w in cfg.policies
    ensures Switchable(t, w) <==> Switchable(s, w)
    ensures Reached(s, t, cfg) ==> (PolicyOk(t, w) <==> Switchable(s, w))
  {
    hide At, Key, DistinctScripts, DistinctGroups, AllPolicyAims, ConfigAims, WantedBody;
    AimOfPolicy(cfg.policies, w);
    AimsOf(cfg, SBody(Key(w.name)));
    AimsOf(cfg, SSwitch(Key(w.name)));
    SwitchIs(s, Key(w.name));
    assert WantedBody(w).VBody? by { BodyIs(w); }
  }

  lemma BodyIs(w: WantPolicy)
    ensures WantedBody(w).VBody?
  {
  }

  lemma SwitchIs(s: Server, k: string)
    ensures At(s, SSwitch(k)).Some? ==> At(s, SSwitch(k)).value.VSwitch?
  {
    hide Holder;
  }

  lemma GroupsReached(s: Server, t: Server, cfg: Config)
    requires Admissible(cfg) && Reached(s, t, cfg)
    ensures forall g :: g in cfg.groups ==> GroupOk(t, g)
  {
    hide At, DistinctScripts, DistinctPolicies, AllGroupAims, ConfigAims, GroupOk, DistinctGroups;
    AllGroupAimsLast(cfg.groups);
    forall slot | slot in AllGroupAims(cfg.groups) ensures Hits(AllGroupAims(cfg.groups)[slot], At(t, slot)) {
      AimsOf(cfg, slot);
      assert Lasting(AllGroupAims(cfg.groups)[slot]);
    }
    GroupsHit(t, cfg.groups);
  }

  /** Whether the server can be settled does not change while a plan runs, so trying again never helps. */
  lemma SettlingIsSettled(s: Server, t: Server, cfg: Config)
    requires Admissible(cfg) && Between(s, t, cfg)
    ensures Settles(t, cfg) <==> Settles(s, cfg)
  {
    hide Between, Admissible, SpelledRight, Switchable;
    forall w | w in cfg.scripts ensures SpelledRight(t, w) <==> SpelledRight(s, w) { ScriptBetween(s, t, cfg, w); }
    forall w | w in cfg.policies ensures Switchable(t, w) <==> Switchable(s, w) { PolicyBetween(s, t, cfg, w); }
  }

  lemma ReachedSatisfies(s: Server, t: Server, cfg: Config)
    requires Admissible(cfg) && Reached(s, t, cfg)
    ensures Satisfies(t, cfg) <==> Settles(s, cfg)
  {
    assert Between(s, t, cfg);
    hide Between, Reached, Admissible, SpelledRight, Switchable, ScriptOk, PolicyOk, GroupOk;
    forall w | w in cfg.scripts ensures ScriptOk(t, w) <==> SpelledRight(s, w) { ScriptBetween(s, t, cfg, w); }
    forall w | w in cfg.policies ensures PolicyOk(t, w) <==> Switchable(s, w) { PolicyBetween(s, t, cfg, w); }
    GroupsReached(s, t, cfg);
  }

  /** Apply converges exactly when the server settles: then the new server satisfies the file and planning
      again, from any listing of it, yields nothing; otherwise both fail. */
  lemma AppliesConverge(s: Server, seen: Seen, cfg: Config, again: Seen)
    requires Consistent(s) && Shown(s, seen) && Admissible(cfg) && Applied(s, seen, cfg).Some?
    requires Shown(Applied(s, seen, cfg).value.server, again)
    ensures var t := Applied(s, seen, cfg).value.server;
            && (Satisfies(t, cfg) <==> Settles(s, cfg)) && (PlanFor(again, cfg) == [] <==> Settles(s, cfg))
            && (Settles(t, cfg) <==> Settles(s, cfg))
  {
    var t := Applied(s, seen, cfg).value.server;
    hide Consistent, Shown, Admissible, Reached, Satisfies, Settles, Applied, PlanFor;
    ApplyReaches(s, seen, cfg);
    ReachedSatisfies(s, t, cfg);
    NothingToDoExactly(t, again, cfg);
  }

  /** Apply after apply, each from a listing of the server the one before left. */
  ghost function AfterApplies(s: Server, seens: seq<Seen>, cfg: Config): Option<Server> {
    if seens == [] then Some(s)
    else
      var t := AfterApplies(s, seens[..|seens| - 1], cfg);
      if t.None? || !Shown(t.value, seens[|seens| - 1]) then None
      else
        var r := Applied(t.value, seens[|seens| - 1], cfg);
        if r.None? then None else Some(r.value.server)
  }

  /** One apply does all that any number of them can. */
  lemma {:induction false} OneApplyIsEnough(s: Server, seens: seq<Seen>, cfg: Config)
    requires Consistent(s) && Admissible(cfg) && AfterApplies(s, seens, cfg).Some?
    ensures var t := AfterApplies(s, seens, cfg).value;
            Consistent(t) && (Settles(t, cfg) <==> Settles(s, cfg))
                && (seens != [] ==> (Satisfies(t, cfg) <==> Settles(s, cfg)))
  {
    hide Consistent, Shown, Admissible, Settles, Satisfies, Applied;
    if seens != [] {
      var front, seen := seens[..|seens| - 1], seens[|seens| - 1];
      OneApplyIsEnough(s, front, cfg);
      var t := AfterApplies(s, front, cfg).value;
      ApplyReaches(t, seen, cfg);
      ReachedSatisfies(t, Applied(t, seen, cfg).value.server, cfg);
    }
  }

  lemma ApplyReaches(s: Server, seen: Seen, cfg: Config)
    requires Consistent(s) && Shown(s, seen) && Admissible(cfg) && Applied(s, seen, cfg).Some?
    ensures var t := Applied(s, seen, cfg).value.server;
            Consistent(t) && Reached(s, t, cfg) && (Settles(t, cfg) <==> Settles(s, cfg))
  {
    var t := Applied(s, seen, cfg).value.server;
    ApplyWrites(s, seen, cfg);
    assert Reached(s, t, cfg) && Between(s, t, cfg) by { hide At, Lands, ConfigAims, Misses; }
    hide Consistent, Shown, Admissible, Reached, Between, Settles, Applied;
    SettlingIsSettled(s, t, cfg);
  }

  // ---- Stopped at any step ----

  lemma {:induction false} PrefixOutcome(plan: seq<Action>, i: nat, f: string)
    requires i <= |plan| && Apart(plan, f)
    ensures Apart(plan[..i], f)
    ensures forall slot :: slot in Outcome(plan[..i], f) ==>
        slot in Outcome(plan, f) && Outcome(plan, f)[slot] == Outcome(plan[..i], f)[slot]
  {
    hide Writes;
    if i > 0 {
      assert plan[..i][0] == plan[0] && plan[..i][1..] == plan[1..][..i - 1];
      PrefixOutcome(plan[1..], i - 1, f);
    }
  }

  lemma PrefixSupplied(plan: seq<Action>, i: nat, s: Server, more: set<Need>)
    requires i <= |plan| && Supplied(plan, s, more)
    ensures Supplied(plan[..i], s, more)
  {
    hide Supplied, AllProvides;
    SuppliedConcat(plan[..i], plan[i..], s, more);
    assert plan[..i] + plan[i..] == plan;
  }

  lemma ResolvesStays(s: Server, t: Server, cfg: Config, w: set<Slot>)
    requires Resolves(s, cfg) && Untouched(s, t, w)
    ensures Resolves(t, cfg)
  {
    forall n | Present(s, n) ensures Present(t, n) { PresentStays(s, t, w, n); }
    hide Present, Key, HasScript, HasPolicy, Untouched;
    forall v | v in cfg.policies ensures PolicyResolves(t, cfg.scripts, v) { assert PolicyResolves(s, cfg.scripts, v); }
    forall g | g in cfg.groups ensures GroupResolves(t, cfg.policies, g) {
      assert GroupResolves(s, cfg.policies, g);
      if g.policies.Some? {
        forall p | p in g.policies.value ensures NameResolves(t, cfg.policies, p) {
          assert NameResolves(s, cfg.policies, p);
        }
      }
    }
  }

  lemma PresentStays(s: Server, t: Server, w: set<Slot>, n: Need)
    requires Present(s, n) && Untouched(s, t, w)
    ensures Present(t, n)
  {
    hide Untouched;
    IdsKeepNames(s, t, w);
    match n
    case NeedScript(k) => assert Holds(ScriptName, t.scripts, k, Holder(ScriptName, s.scripts, k).value);
    case NeedPolicy(k) => assert Holds(PolicyName, t.policies, k, Holder(PolicyName, s.policies, k).value);
    case NeedGroup(k) => assert Holds(GroupName, t.groups, k, Holder(GroupName, s.groups, k).value);
  }

  /** A run stopped after any number of steps leaves a consistent server on which the file still resolves
      and which settles exactly if the first one did. */
  lemma StoppedAnywhere(s: Server, seen: Seen, cfg: Config, i: nat)
    requires Consistent(s) && Shown(s, seen) && Admissible(cfg) && Resolves(s, cfg) && i <= |PlanFor(seen, cfg)|
    ensures var r := RunAll(PlanFor(seen, cfg)[..i], Start(s, seen));
            && r.Some? && Consistent(r.value.server) && Resolves(r.value.server, cfg)
            && (Settles(r.value.server, cfg) <==> Settles(s, cfg))
  {
    hide Consistent, Shown, Admissible, PlanFor, Mirrors, Supplied, At, Lands, Untouched, Outcome, ConfigAims, Own,
        Apart, Misses, Resolves, Settles;
    var plan, f := PlanFor(seen, cfg), s.toggleField;
    PlanMeets(s, seen, cfg);
    StartMirrors(s, seen);
    SuppliedExactly(s, seen, cfg);
    PrefixSupplied(plan, i, s, {});
    PrefixOutcome(plan, i, f);
    assert AllOwn(plan[..i], s);
    WholePlanRuns(plan[..i], Start(s, seen));
    var t := RunAll(plan[..i], Start(s, seen)).value.server;
    SameField(s, t, Outcome(plan[..i], f));
    ResolvesStays(s, t, cfg, Outcome(plan[..i], f).Keys);
    assert Between(s, t, cfg);
    SettlingIsSettled(s, t, cfg);
  }

  /** Stop anywhere, plan again from whatever the server then shows, and apply: it finishes, and it satisfies
      the file exactly when an undisturbed apply would have. */
  lemma ResumedApplyConverges(s: Server, seen: Seen, cfg: Config, i: nat, again: Seen)
    requires Consistent(s) && Shown(s, seen) && Admissible(cfg) && Resolves(s, cfg) && i <= |PlanFor(seen, cfg)|
    requires var r := RunAll(PlanFor(seen, cfg)[..i], Start(s, seen)); r.Some? && Shown(r.value.server, again)
    ensures var t := RunAll(PlanFor(seen, cfg)[..i], Start(s, seen)).value.server;
            Applied(t, again, cfg).Some? && (Satisfies(Applied(t, again, cfg).value.server, cfg) <==> Settles(s, cfg))
  {
    StoppedAnywhere(s, seen, cfg, i);
    var t := RunAll(PlanFor(seen, cfg)[..i], Start(s, seen)).value.server;
    hide Consistent, Shown, Admissible, PlanFor, Start, RunAll, Resolves, Settles, Satisfies;
    hide Reached, Applied;
    ApplyFinishesExactly(t, again, cfg);
    ApplyReaches(t, again, cfg);
    ReachedSatisfies(t, Applied(t, again, cfg).value.server, cfg);
  }

  // ---- Files that never settle ----

  lemma LinuxIsRespelled()
    ensures CanonicalPlatform("linux") == Some("Linux")
  {
    assert Trim("linux") == "linux";
    var l := Lower("linux");
    assert l[0] == 'l' && l[1] == 'i' && l[2] == 'n' && l[3] == 'u' && l[4] == 'x';
    assert l == "linux";
    assert l[0] != "macos"[0] && l[0] != "windows"[0];
  }

  /** One apply stores the platform in the server's spelling. */
  lemma Respelled(s: Server, t: Server, cfg: Config, w: WantScript)
    requires Admissible(cfg) && Reached(s, t, cfg) && w in cfg.scripts && !SpelledRight(s, w)
    ensures At(t, SScript(Key(w.name))) == Some(StoredScript(w)) && !SpelledRight(t, w)
  {
    hide At, Key, DistinctPolicies, DistinctGroups, AllScriptAims, ConfigAims;
    AimOfScript(cfg.scripts, w);
    AimsOf(cfg, SScript(Key(w.name)));
  }

  /** A script whose platform the server spells otherwise: after every apply, for ever, it is stored in the
      server's spelling, differs from the file, and the next plan updates it again. */
  lemma {:induction false} RespelledForEver(s: Server, seens: seq<Seen>, cfg: Config, w: WantScript, again: Seen)
    requires Consistent(s) && Admissible(cfg) && w in cfg.scripts && !SpelledRight(s, w)
    requires seens != [] && AfterApplies(s, seens, cfg).Some? && Shown(AfterApplies(s, seens, cfg).value, again)
    ensures var t := AfterApplies(s, seens, cfg).value;
            At(t, SScript(Key(w.name))) == Some(StoredScript(w)) && !ScriptOk(t, w) && PlanFor(again, cfg) != []
  {
    hide Consistent, Shown, Admissible, Applied, At, PlanFor, Reached, Key, CanonicalPlatform;
    var front, seen := seens[..|seens| - 1], seens[|seens| - 1];
    OneApplyIsEnough(s, front, cfg);
    var before := AfterApplies(s, front, cfg).value;
    if front != [] { RespelledForEver(s, front, cfg, w, seen); }
    assert !SpelledRight(before, w);
    ApplyReaches(before, seen, cfg);
    var t := Applied(before, seen, cfg).value.server;
    Respelled(before, t, cfg, w);
    NothingToDoExactly(t, again, cfg);
  }

  /** The switch of a policy that is off cannot be set by a field the handler does not read. */
  lemma StillOff(s: Server, t: Server, cfg: Config, w: WantPolicy)
    requires Admissible(cfg) && Reached(s, t, cfg) && w in cfg.policies && w.active
    requires s.toggleField != CLI_TOGGLE_FIELD && At(s, SSwitch(Key(w.name))) == Some(VSwitch(false))
    ensures At(t, SSwitch(Key(w.name))) == Some(VSwitch(false)) && t.toggleField == s.toggleField
  {
    hide At, Key, DistinctScripts, DistinctGroups, AllPolicyAims, ConfigAims, WantedBody;
    AimOfPolicy(cfg.policies, w);
    AimsOf(cfg, SSwitch(Key(w.name)));
  }

  /** A policy that is off on the server and on in the file: after any number of applies it is still off, and
      the next plan switches it on again in vain. */
  lemma {:induction false} OffForEver(s: Server, seens: seq<Seen>, cfg: Config, w: WantPolicy, again: Seen)
    requires Consistent(s) && Admissible(cfg) && w in cfg.policies && w.active
    requires s.toggleField == HANDLER_TOGGLE_FIELD && At(s, SSwitch(Key(w.name))) == Some(VSwitch(false))
    requires AfterApplies(s, seens, cfg).Some? && Shown(AfterApplies(s, seens, cfg).value, again)
    ensures var t := AfterApplies(s, seens, cfg).value;
            && At(t, SSwitch(Key(w.name))) == Some(VSwitch(false)) && t.toggleField == HANDLER_TOGGLE_FIELD
            && PlanFor(again, cfg) != []
  {
    hide Consistent, Shown, Admissible, Applied, At, PlanFor, Reached, Key;
    assert HANDLER_TOGGLE_FIELD[0] != CLI_TOGGLE_FIELD[0];
    OneApplyIsEnough(s, seens, cfg);
    var t := AfterApplies(s, seens, cfg).value;
    if seens != [] {
      var front, seen := seens[..|seens| - 1], seens[|seens| - 1];
      OneApplyIsEnough(s, front, cfg);
      OffForEver(s, front, cfg, w, seen);
      ApplyReaches(AfterApplies(s, front, cfg).value, seen, cfg);
      StillOff(AfterApplies(s, front, cfg).value, t, cfg, w);
    }
    NothingToDoExactly(t, again, cfg);
  }

  // ---- The two on a small server ----

  function Bare(scripts: map<Id, Script>, policies: map<Id, Policy>): Server {
    Server(map[], map[], scripts, policies, 9, HANDLER_TOGGLE_FIELD)
  }

  const BLANK := Seen(map[], [], map[], map[], [])

  lemma BlankServer(w: WantScript)
    requires w.platform == "linux"
    ensures var s, cfg := Bare(map[], map[]), Config([], [w], []);
            && Consistent(s) && Shown(s, BLANK) && Resolves(s, cfg) && Admissible(cfg) && !SpelledRight(s, w)
            && StoredScript(w) == VScript("Linux", w.content)
  {
    LinuxIsRespelled();
    hide Key, CanonicalPlatform;
    assert "linux"[0] != "Linux"[0];
  }

  /** A file with the documented spelling applies to an empty server; the script is then there, as "Linux",
      and no later apply makes it what the file says. */
  lemma DocumentedSpellingNeverSettles(w: WantScript, seens: seq<Seen>, again: Seen)
    requires w.platform == "linux"
    requires var r := AfterApplies(Bare(map[], map[]), [BLANK] + seens, Config([], [w], []));
             r.Some? && Shown(r.value, again)
    ensures Applied(Bare(map[], map[]), BLANK, Config([], [w], [])).Some?
    ensures At(AfterApplies(Bare(map[], map[]), [BLANK] + seens, Config([], [w], [])).value, SScript(Key(w.name)))
            == Some(VScript("Linux", w.content))
    ensures PlanFor(again, Config([], [w], [])) != []
  {
    var s, cfg := Bare(map[], map[]), Config([], [w], []);
    hide Key, StoredScript, AfterApplies, Applied, PlanFor, Shown, Consistent, Admissible, Resolves, SpelledRight, At,
        ScriptOk;
    BlankServer(w);
    assert w in cfg.scripts;
    ApplyFinishesExactly(s, BLANK, cfg);
    RespelledForEver(s, [BLANK] + seens, cfg, w, again);
  }

  /** A consistent server with one policy, off, and a file that wants it on. */
  lemma ASwitchThatStaysOff()
    ensures var s := Bare(map[0 := Script("s", "Linux", "true")],
        map[1 := Policy("p", 0, "manual", Null, Null, false, {})]);
            var w := WantPolicy("p", "s", "manual", map[], map[], true);
            && Consistent(s) && Admissible(Config([], [], [w])) && Resolves(s, Config([], [], [w]))
            && At(s, SSwitch(Key(w.name))) == Some(VSwitch(false))
  {
    hide Key;
    var s := Bare(map[0 := Script("s", "Linux", "true")], map[1 := Policy("p", 0, "manual", Null, Null, false, {})]);
    assert Holds(PolicyName, s.policies, Key("p"), 1);
    assert Holds(ScriptName, s.scripts, Key("s"), 0);
    assert Holder(PolicyName, s.policies, Key("p")) == Some(1);
    assert Holder(ScriptName, s.scripts, Key("s")).Some?;
  }
}
