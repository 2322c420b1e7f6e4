/** What the server is told: grants and revocations alternate, with equal ids and equal evidence flags. */
module Reports {
  import opened Changes
  import opened Evidence
  import opened Sessions
  import SessionTrace

  /** The report still waiting for its counterpart. */
  datatype Pending = Settled | Open(requestId: string, captured: bool) | Muddled

  function Next(p: Pending, e: Event): Pending {
    match e
    case Reported(id, granted, captured) =>
      if granted then (if p.Settled? then Open(id, captured) else Muddled)
      else if p == Open(id, captured) then Settled
      else Muddled
    case _ => p
  }

  function PendingIn(log: seq<Event>): Pending {
    if log == [] then Settled else Next(PendingIn(log[..|log| - 1]), log[|log| - 1])
  }

  lemma PendingStep(log: seq<Event>, e: Event)
    ensures PendingIn(log + [e]) == Next(PendingIn(log), e)
  {
    assert (log + [e])[..|log|] == log;
  }

  function Expected(m: Memory): Pending { if m.user == "" then Settled else Open(m.lastReq, Captured(m)) }

  /** The open report is that of the grant held. */
  predicate Told(s: State) { PendingIn(s.world.log) == Expected(s.mem) }

  lemma EmitTells(s: State, final: bool, sessionEnd: Instant, e: Emission)
    ensures var x := Emit(s, final, sessionEnd, e);
            PendingIn(x.world.log) == PendingIn(s.world.log) && x.mem == s.mem.(nextWindowAt := x.mem.nextWindowAt)
  {
    hide WindowFor, DigestOf, PendingIn;
    var s1 := s.(mem := s.mem.(nextWindowAt := e.now + s.mem.interval));
    var (base, lost) := LoadBaseline(s1, e.loadFails);
    var w := WindowOf(base, lost, final, sessionEnd, e);
    var tried := WindowTried(w, base, lost, e.sendOk);
    PendingStep(s.world.log, tried);
    forall x: SessionState { PendingStep(s.world.log + [tried], RecordSaved(x)); }
    forall x: SessionState { PendingStep(s.world.log, RecordSaved(x)); }
  }

  lemma TakeBackTells(s: State, r: Revoking)
    ensures PendingIn(TakeBack(s, r).world.log) == PendingIn(s.world.log)
    ensures TakeBack(s, r).mem == s.mem && TakeBack(s, r).durable == s.durable
    ensures TakeBack(s, r).world.budget + 1 >= s.world.budget
  {
    hide PendingIn;
    PendingStep(s.world.log, RevokeTried(s.mem.user, r.fate));
  }

  lemma CloseTells(s: State, r: Revoking, requestId: string, captured: bool)
    requires s.world.budget >= 2 && PendingIn(s.world.log) == Open(requestId, captured)
    ensures PendingIn(Close(s, r, requestId, captured).world.log) == Settled
  {
    hide PendingIn;
    var log := s.world.log;
    PendingStep(log, Cleared(r.clearOk));
    PendingStep(log + [Cleared(r.clearOk)], Reported(requestId, false, captured));
    PendingStep(log, Reported(requestId, false, captured));
  }

  lemma RevokeTells(s: State, r: Revoking)
    requires Told(s) && s.mem.user != "" && s.world.budget >= 5
    ensures Told(Revoke(s, r))
  {
    hide Emit, PendingIn, Close, TakeBack;
    TakeBackTells(s, r);
    var s1 := TakeBack(s, r);
    var end := SessionEnd(s1.mem, r.endNow);
    EmitTells(s1, true, end, r.final);
    SessionTrace.EmitFrame(s1, true, end, r.final);
    CloseTells(Emit(s1, true, end, r.final), r, s.mem.lastReq, Captured(s.mem));
    SessionTrace.RevokeFrame(s, r);
  }

  lemma PromoteTells(s: State, wasAdmin: bool, requestId: string, expires: Instant, g: Granting)
    requires Told(s) && s.mem.user == "" && s.world.budget >= 3 && g.user != ""
    ensures Told(Promote(s, wasAdmin, requestId, expires, g))
  {
    hide PendingIn;
    var log, tried := s.world.log, GrantTried(g.user, g.fate);
    PendingStep(log, tried);
    PendingStep(log + [tried], Reported(requestId, true, Captured(s.mem)));
    PendingStep(log + [tried], Cleared(g.undoOk));
  }

  lemma GrantTells(s: State, requestId: string, expires: Instant, g: Granting)
    requires Told(s) && s.mem.user == "" && s.world.budget >= 4
    ensures Told(Grant(s, requestId, expires, g))
  {
    hide PendingIn, Promote;
    if g.probed && g.user != "" {
      var wasAdmin := WasAdmin(s.world, g.user, g.isAdminFails);
      var s1 := s.(mem := s.mem.(latched := s.mem.collectChanges));
      var record := NewRecord(s1.mem, g.user, wasAdmin, requestId, expires, g);
      PendingStep(s.world.log, Opened(record));
      var saved := Save(s1.world, Opened(record), g.saveOk);
      if s.durable {
        if g.saveOk {
          PromoteTells(s1.(mem := s1.mem.(baselineLost := false), world := saved), wasAdmin, requestId, expires, g);
        }
      } else {
        PromoteTells(s1.(mem := s1.mem.(baselineLost := true)), wasAdmin, requestId, expires, g);
      }
    }
  }

  lemma PollTells(s: State, t: Tick)
    requires Told(s) && s.running && t.budget >= SessionTrace.AMPLE
    ensures Told(PollOnce(s, t)) && PollOnce(s, t).running
  {
    hide Revoke, Grant, Emit, PendingIn;
    var s0 := s.(world := s.world.(budget := t.budget));
    if s0.mem.user != "" { RevokeTells(s0, t.revoking); }
    SessionTrace.RevokeFrame(s0, t.revoking);
    var s1 := LocalCheck(s, t);
    if t.reply.Some? {
      var r := t.reply.value;
      var s2 := ReadFlags(s1, r);
      if s2.mem.user != "" && Withdrawn(s1.mem, r, t.replyNow) { RevokeTells(s2, t.revoking); }
      SessionTrace.RevokeFrame(s2, t.revoking);
      var s3 := RevokeIf(s2, Withdrawn(s1.mem, r, t.replyNow), t.revoking);
      if ApprovedNow(r, t.replyNow) && r.requestId != s3.mem.lastReq {
        GrantTells(s3, r.requestId, r.expiresAt, t.granting);
        SessionTrace.GrantFrame(s3, r.requestId, r.expiresAt, t.granting);
      }
      var s4 := Settle(s1, r, t);
      EmitTells(s4, false, 0, t.interim);
      SessionTrace.InterimFrame(s4, t.windowNow, t.interim);
    }
  }

  /** The process comes back holding what it held, with the same id and the same evidence flag. */
  predicate SameAfterRestart(s: State, loadFails: bool) {
    var found := if Unreadable(s, loadFails) then NO_MEMORY else Restored(s.world.disk.value, 0);
    if s.mem.user == "" then found.user == ""
        else found.user != "" && found.lastReq == s.mem.lastReq && Captured(found) == Captured(s.mem)
  }

  /** A restart keeps the reports in order if and only if the process comes back with the grant it held. */
  lemma RestartTellsExactly(s: State, loadFails: bool, now: Instant)
    requires Told(s)
    ensures Told(RestartOnce(s, loadFails, now)) <==> SameAfterRestart(s, loadFails)
  {
  }

  predicate Uncrashed(s: State, input: Input) {
    match input
    case Poll(t) => s.running ==> t.budget >= SessionTrace.AMPLE
    case Restart(loadFails, _) => SameAfterRestart(s, loadFails)
  }

  /** Reports alternate between granted and revoked, the second with the id and the evidence flag of the
      first, in every crash-free run, durable or not, whatever OS calls, loads, saves, clears and sends do,
      as long as a restarted process comes back with the grant it held. */
  lemma {:induction false} ReportsAlternate(inputs: seq<Input>, durable: bool, perm: set<string>)
    requires forall i :: 0 <= i < |inputs| ==> Uncrashed(Run(Installed(durable, perm), inputs[..i]), inputs[i])
    ensures Told(Run(Installed(durable, perm), inputs))
    ensures !PendingIn(Run(Installed(durable, perm), inputs).world.log).Muddled?
  {
    hide PollOnce, RestartOnce, SameAfterRestart, PendingIn;
    if inputs == [] {
      NothingTold();
    } else {
      var n := |inputs| - 1;
      var front := inputs[..n];
      var s := Run(Installed(durable, perm), front);
      assert forall i :: 0 <= i < n ==> front[i] == inputs[i] && front[..i] == inputs[..i];
      ReportsAlternate(front, durable, perm);
      match inputs[n] {
        case Poll(t) => if s.running { PollTells(s, t); }
        case Restart(loadFails, now) => RestartTellsExactly(s, loadFails, now);
      }
    }
  }

  lemma NothingTold()
    ensures PendingIn([]) == Settled
  {
  }

  /** In one life of the process nothing at all is asked of the store: start it once and only poll. */
  lemma {:induction false} OneLifeAlternates(inputs: seq<Input>, now: Instant, durable: bool, perm: set<string>)
    requires forall i :: 0 <= i < |inputs| ==> inputs[i].Poll? && inputs[i].tick.budget >= SessionTrace.AMPLE
    ensures Told(Run(Installed(durable, perm), [Restart(false, now)] + inputs))
    ensures Run(Installed(durable, perm), [Restart(false, now)] + inputs).running
  {
    hide PollOnce, PendingIn;
    var all := [Restart(false, now)] + inputs;
    if inputs == [] {
      NothingTold();
      assert all == [Restart(false, now)] && all[..0] == [];
      assert Run(Installed(durable, perm), all[..0]) == Installed(durable, perm);
    } else {
      var n := |inputs| - 1;
      OneLifeAlternates(inputs[..n], now, durable, perm);
      assert all[..n + 1] == [Restart(false, now)] + inputs[..n];
      assert all[n + 1] == inputs[n];
      PollTells(Run(Installed(durable, perm), all[..n + 1]), inputs[n].tick);
    }
  }
}
