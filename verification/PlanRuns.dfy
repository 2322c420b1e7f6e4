/** Running a whole plan: it finishes exactly when its references resolve, and then the server differs
    by what the plan writes and by nothing else. */
module PlanRuns {
  import opened Ordering
  import opened Fleet
  import opened Planner
  import opened Executor
  import opened Simulation
  import opened ActionEffects

  type Outcomes = map<Slot, Option<Val>>

  /** What a plan writes, slot by slot. */
  function Outcome(plan: seq<Action>, toggleField: string): Outcomes {
    if plan == [] then map[] else Writes(plan[0], toggleField) + Outcome(plan[1..], toggleField)
  }

  /** No slot is written twice. */
  ghost predicate Apart(plan: seq<Action>, toggleField: string) {
    plan == [] || (Writes(plan[0], toggleField).Keys !! Outcome(plan[1..], toggleField).Keys
        && Apart(plan[1..], toggleField))
  }

  ghost predicate AllOwn(plan: seq<Action>, s: Server) { forall a :: a in plan ==> Own(a, s) }

  /** Every need is on the server or provided by an earlier action. */
  ghost predicate Supplied(plan: seq<Action>, s: Server, more: set<Need>) {
    plan == [] || ((forall n :: n in Needs(plan[0]) ==> Present(s, n) || n in more)
        && Supplied(plan[1..], s, more + Provides(plan[0])))
  }

  ghost predicate Runnable(plan: seq<Action>, s: Server) {
    AllOwn(plan, s) && Apart(plan, s.toggleField)
  }

  // ---- One step leaves the rest of the plan runnable ----

  function NeedSlot(n: Need): Slot {
    match n
    case NeedScript(k) => SScript(k)
    case NeedPolicy(k) => SBody(k)
    case NeedGroup(k) => SGroup(k)
  }

  lemma PresentIsWritten(s: Server, n: Need)
    ensures Present(s, n) <==> At(s, NeedSlot(n)).Some?
  {
  }

  /** What an action leaves at the slot of a name: only creations add names, and nothing removes one. */
  lemma PresentAfter(s: Server, t: Server, a: Action, n: Need)
    requires Own(a, s) && Overwritten(s, t, Writes(a, s.toggleField))
    ensures Present(t, n) <==> Present(s, n) || n in Provides(a)
  {
    hide RuleAt, BodyOf, BoundTo, Holder;
    PresentIsWritten(s, n);
    PresentIsWritten(t, n);
  }

  lemma HolderStays<T>(nameOf: T -> string, m: map<Id, T>, n: map<Id, T>, k: string)
    requires UniqueNames(nameOf, n) && Holder(nameOf, m, k).Some?
    requires forall i :: i in m ==> i in n && Key(nameOf(n[i])) == Key(nameOf(m[i]))
    ensures Holder(nameOf, n, k) == Holder(nameOf, m, k)
  {
    assert Holds(nameOf, n, k, Holder(nameOf, m, k).value);
  }

  lemma BoundStays(s: Server, t: Server, w: set<Slot>, id: Id, gk: string, sk: string)
    requires BoundTo(s, id, gk, sk) && UniqueNames(GroupName, t.groups)
    requires SameGroups(s, t, w) && SameRules(s, t, w) && SRule(gk, sk) !in w
    ensures BoundTo(t, id, gk, sk)
  {
    HolderStays(GroupName, s.groups, t.groups, gk);
  }

  lemma SlotEmptyStays(s: Server, t: Server, w: Outcomes, slot: Slot)
    requires Overwritten(s, t, w) && slot !in w
    ensures At(t, slot) == At(s, slot)
  {
  }

  lemma IdsKeepNames(s: Server, t: Server, w: set<Slot>)
    requires Untouched(s, t, w)
    ensures forall i, k :: Holds(ScriptName, s.scripts, k, i) ==> Holds(ScriptName, t.scripts, k, i)
    ensures forall i, k :: Holds(PolicyName, s.policies, k, i) ==> Holds(PolicyName, t.policies, k, i)
    ensures forall i, k :: Holds(GroupName, s.groups, k, i) ==> Holds(GroupName, t.groups, k, i)
  {
    hide SameRules;
  }

  lemma RulesStay(s: Server, t: Server, w: set<Slot>, id: Id, gk: string, sk: string)
    requires Untouched(s, t, w) && UniqueNames(GroupName, t.groups) && BoundTo(s, id, gk, sk) && SRule(gk, sk) !in w
    ensures BoundTo(t, id, gk, sk)
  {
    hide BoundTo, UniqueNames, SameScripts, SamePolicies, SameGroups, SameRules;
    BoundStays(s, t, w, id, gk, sk);
  }

  /** An update elsewhere does not disturb what an action presupposes. */
  lemma OwnStays(s: Server, t: Server, w: Outcomes, b: Action)
    requires Updates(s, t, w) && Own(b, s) && w.Keys !! Writes(b, s.toggleField).Keys
    ensures Own(b, t)
  {
    hide Consistent, UniqueNames, RuleAt, BodyOf, BoundTo, Holder, Holds, Overwritten, Untouched, At;
    ConsistentNames(t);
    IdsKeepNames(s, t, w.Keys);
    match b
    case CreateScript(v) => NameStaysFree(s, t, w, NeedScript(Key(v.name)));
    case CreatePolicy(v) => NameStaysFree(s, t, w, NeedPolicy(Key(v.name)));
    case CreateGroup(n, _) => NameStaysFree(s, t, w, NeedGroup(Key(n)));
    case AddRule(g, n, _) => RuleStaysFree(s, t, w, Key(g), Key(n));
    case ReplaceRule(g, id, n, _) => RulesStay(s, t, w.Keys, id, Key(g), Key(n));
    case DropRule(g, id, n) => RulesStay(s, t, w.Keys, id, Key(g), Key(n));
    case _ =>
  }

  lemma NameStaysFree(s: Server, t: Server, w: Outcomes, n: Need)
    requires Overwritten(s, t, w) && !Present(s, n) && NeedSlot(n) !in w
    ensures !Present(t, n)
  {
    hide At, Overwritten, Present;
    PresentIsWritten(s, n);
    PresentIsWritten(t, n);
    SlotEmptyStays(s, t, w, NeedSlot(n));
  }

  lemma RuleStaysFree(s: Server, t: Server, w: Outcomes, gk: string, sk: string)
    requires Overwritten(s, t, w) && RuleAt(s, gk, sk).None? && SRule(gk, sk) !in w
    ensures RuleAt(t, gk, sk).None?
  {
    hide RuleAt, Overwritten;
    SlotEmptyStays(s, t, w, SRule(gk, sk));
  }

  lemma {:induction false} OutcomeHas(plan: seq<Action>, toggleField: string, b: Action)
    requires b in plan
    ensures Writes(b, toggleField).Keys <= Outcome(plan, toggleField).Keys
  {
    if b != plan[0] { OutcomeHas(plan[1..], toggleField, b); }
  }

  lemma RestRunnable(plan: seq<Action>, s: Server, t: Server)
    requires plan != [] && Runnable(plan, s) && Updates(s, t, Writes(plan[0], s.toggleField))
    ensures Runnable(plan[1..], t)
  {
    hide Own, Updates, Writes;
    assert t.toggleField == s.toggleField by { SameField(s, t, Writes(plan[0], s.toggleField)); }
    forall b | b in plan[1..] ensures Own(b, t) {
      OutcomeHas(plan[1..], s.toggleField, b);
      OwnStays(s, t, Writes(plan[0], s.toggleField), b);
    }
  }

  lemma SameField(s: Server, t: Server, w: Outcomes)
    requires Updates(s, t, w)
    ensures t.toggleField == s.toggleField
  {
  }

  lemma {:induction false} SuppliedAfter(plan: seq<Action>, s: Server, t: Server, provided: set<Need>, more: set<Need>)
    requires forall n :: Present(t, n) <==> Present(s, n) || n in provided
    ensures Supplied(plan, t, more) <==> Supplied(plan, s, provided + more)
  {
    hide Present;
    if plan != [] {
      SuppliedAfter(plan[1..], s, t, provided, more + Provides(plan[0]));
      assert provided + more + Provides(plan[0]) == provided + (more + Provides(plan[0]));
    }
  }

  /** An action that cannot find what it needs by name reports an error. */
  lemma UnmetNeedFails(a: Action, x: Exec)
    requires Mirrors(x) && exists n :: n in Needs(a) && !Present(x.server, n)
    ensures Do(a, x).None?
  {
    hide Holder;
  }

  // ---- The whole plan ----

  ghost predicate Fresh(s: Server, t: Server) { forall i :: i in t.rules && i !in s.rules ==> i >= s.next }

  /** A plan whose actions are at home on the server and do not overlap finishes if and only if its
      references resolve; the server then holds what the plan writes, and is otherwise untouched. */
  lemma {:induction false} WholePlanRuns(plan: seq<Action>, x: Exec)
    requires Consistent(x.server) && Mirrors(x) && Runnable(plan, x.server)
    ensures RunAll(plan, x).Some? <==> Supplied(plan, x.server, {})
    ensures RunAll(plan, x).Some? ==>
              var y := RunAll(plan, x).value;
              && Updates(x.server, y.server, Outcome(plan, x.server.toggleField))
              && Mirrors(y) && Fresh(x.server, y.server)
  {
    hide Consistent, Mirrors, Updates, Runnable, Do, Present, Own, Writes, Needs, Provides, Fresh;
    if plan == [] {
      NothingUpdates(x.server);
    } else {
      var a := plan[0];
      if forall n :: n in Needs(a) ==> Present(x.server, n) {
        FirstIsLegal(plan, x.server);
        LegalActionPerforms(a, x);
        var y := Do(a, x).value;
        PlanStep(plan, x, y);
        WholePlanRuns(plan[1..], y);
        if RunAll(plan[1..], y).Some? {
          UpdatesCompose(x.server, y.server, RunAll(plan[1..], y).value.server, Writes(a, x.server.toggleField),
              Outcome(plan[1..], x.server.toggleField));
        }
      } else {
        UnmetNeedFails(a, x);
      }
    }
  }

  lemma NothingUpdates(s: Server)
    requires Consistent(s)
    ensures Updates(s, s, map[]) && Fresh(s, s)
  {
    hide Consistent, SamePolicies, At;
    PoliciesUntouched(s, s, {});
    var none: Outcomes := map[];
    assert none.Keys == {};
  }

  lemma FirstIsLegal(plan: seq<Action>, s: Server)
    requires plan != [] && Runnable(plan, s) && forall n :: n in Needs(plan[0]) ==> Present(s, n)
    ensures Legal(plan[0], s)
  {
  }

  lemma PlanStep(plan: seq<Action>, x: Exec, y: Exec)
    requires plan != [] && Runnable(plan, x.server) && Performs(x, y, Writes(plan[0], x.server.toggleField))
    ensures Consistent(y.server) && Mirrors(y) && Runnable(plan[1..], y.server)
        && y.server.toggleField == x.server.toggleField
    ensures Supplied(plan[1..], y.server, {}) <==> Supplied(plan[1..], x.server, {} + Provides(plan[0]))
    ensures Updates(x.server, y.server, Writes(plan[0], x.server.toggleField)) && Fresh(x.server, y.server)
    ensures Writes(plan[0], x.server.toggleField).Keys !! Outcome(plan[1..], x.server.toggleField).Keys
  {
    hide Own, Writes, At, Present, Untouched, Consistent, Mirrors, Needs, Provides, Supplied;
    assert Own(plan[0], x.server);
    RestRunnable(plan, x.server, y.server);
    SameField(x.server, y.server, Writes(plan[0], x.server.toggleField));
    forall n ensures Present(y.server, n) <==> Present(x.server, n) || n in Provides(plan[0]) {
      PresentAfter(x.server, y.server, plan[0], n);
    }
    SuppliedAfter(plan[1..], x.server, y.server, Provides(plan[0]), {});
    assert Provides(plan[0]) + {} == {} + Provides(plan[0]);
  }

  lemma UpdatesCompose(s: Server, t: Server, u: Server, v: Outcomes, w: Outcomes)
    requires Consistent(s) && Updates(s, t, v) && Updates(t, u, w) && v.Keys !! w.Keys && Fresh(s, t) && Fresh(t, u)
    ensures Updates(s, u, v + w) && Fresh(s, u)
  {
    hide At, Untouched, Consistent;
    UntouchedTransitive(s, t, u, v.Keys, w.Keys);
    assert (v + w).Keys == v.Keys + w.Keys;
    NextGrows(s, t, v.Keys);
  }

  lemma NextGrows(s: Server, t: Server, w: set<Slot>)
    requires Untouched(s, t, w)
    ensures s.next <= t.next
  {
  }
}
