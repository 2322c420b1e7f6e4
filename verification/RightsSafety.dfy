/** Who is in the administrators group, over every run with crashes, restarts and faults. */
module RightsSafety {
  import opened Ordering
  import opened Changes
  import opened Evidence
  import opened Sessions

  // ---- Temporary rights never leak into permanent ones ----

  /** Membership is explained by the permanent admins and the record on disk. */
  predicate Contained(w: World, perm: set<string>) {
    && perm <= w.group
    && (w.disk.None? ==> w.group == perm)
    && (w.disk.Some? ==>
          && w.disk.value.requestId != "" && w.disk.value.user != ""
          && w.group <= perm + {w.disk.value.user}
          && (w.disk.value.wasAdmin <==> w.disk.value.user in perm))
  }

  /** A live process knows what the record says, and holds nothing only if nothing is outstanding. */
  predicate InHand(m: Memory, w: World, perm: set<string>) {
    if m.user == "" then w.group == perm
    else w.disk.Some? && w.disk.value.user == m.user && w.disk.value.wasAdmin == m.wasAdmin
         && w.disk.value.requestId == m.lastReq
  }

  /** Between two effects. */
  predicate Sound(s: State, perm: set<string>) {
    s.durable && Contained(s.world, perm) && (Alive(s.world) ==> InHand(s.mem, s.world, perm))
  }

  /** Between two steps. */
  predicate SoundAtRest(s: State, perm: set<string>) {
    s.durable && Contained(s.world, perm) && (s.running ==> InHand(s.mem, s.world, perm))
  }

  /** OS calls tell the truth and the store can be read; sends, saves, clears and grants may still fail. */
  predicate FaithfulTick(t: Tick) {
    && t.revoking.fate.Done? && !t.granting.isAdminFails && !t.granting.fate.ErredAfterEffect?
    && !t.interim.loadFails
  }

  predicate Faithful(input: Input) {
    match input
    case Poll(t) => FaithfulTick(t)
    case Restart(loadFails, _) => !loadFails
  }

  lemma DeliverTouchesRecordOnly(s: State, w: Window, base: SessionState, lost: bool, sendOk: bool, saveOk: bool)
    ensures var r := Deliver(s, w, base, lost, sendOk, saveOk);
            && r.mem == s.mem && r.durable == s.durable && r.world.group == s.world.group
            && (Alive(r.world) ==> Alive(s.world))
            && (r.world.disk == s.world.disk ||
                 (s.durable && !w.final && Alive(s.world) &&
                  exists n, d :: r.world.disk == Some(base.(windowSeq := n, lastDigest := d))))
  {
    hide DigestOf;
    var r := Deliver(s, w, base, lost, sendOk, saveOk);
    if r.world.disk != s.world.disk {
      assert r.world.disk == Some(base.(windowSeq := w.seqNo, lastDigest := Some(DigestOf(w))));
    }
  }

  /** A window leaves the group alone, and the record too but for its number and digest. */
  lemma EmitKeepsRecord(s: State, final: bool, sessionEnd: Instant, e: Emission)
    ensures var r := Emit(s, final, sessionEnd, e);
            && r.mem == s.mem.(nextWindowAt := r.mem.nextWindowAt) && r.durable == s.durable
            && r.world.group == s.world.group && (Alive(r.world) ==> Alive(s.world))
            && (final || !s.mem.latched ==> r.world.disk == s.world.disk)
            && (!Unreadable(s, e.loadFails) ==>
                 && r.world.disk.Some?
                 && exists n, d :: r.world.disk.value == s.world.disk.value.(windowSeq := n, lastDigest := d))
  {
    hide WindowFor, Deliver;
    if s.mem.latched {
      var s1 := s.(mem := s.mem.(nextWindowAt := e.now + s.mem.interval));
      var (base, lost) := LoadBaseline(s1, e.loadFails);
      var w := WindowOf(base, lost, final, sessionEnd, e);
      assert w.final == final by { WindowFinality(base, lost, final, sessionEnd, e); }
      DeliverTouchesRecordOnly(s1, w, base, lost, e.sendOk, e.saveOk);
    }
    if !Unreadable(s, e.loadFails) && Emit(s, final, sessionEnd, e).world.disk == s.world.disk {
      var v := s.world.disk.value;
      assert v == v.(windowSeq := v.windowSeq, lastDigest := v.lastDigest);
    }
  }

  lemma WindowFinality(base: SessionState, lost: bool, final: bool, sessionEnd: Instant, e: Emission)
    ensures WindowOf(base, lost, final, sessionEnd, e).final == final
    ensures WindowOf(base, lost, final, sessionEnd, e).seqNo == Int32(base.windowSeq + 1)
  {
    FrameOfWindow(Some(base), InventoryAt(e), WindowInput(Int32(base.windowSeq + 1), final, e.now, sessionEnd, lost),
        e.prefer);
  }

  lemma EmitKeepsSound(s: State, final: bool, sessionEnd: Instant, e: Emission, perm: set<string>)
    requires Sound(s, perm) && (final || !e.loadFails)
    requires final || s.mem.user != ""
    ensures Sound(Emit(s, final, sessionEnd, e), perm)
  {
    hide Emit;
    EmitKeepsRecord(s, final, sessionEnd, e);
    if !final && !Alive(s.world) { DeadEmit(s, final, sessionEnd, e); }
  }

  /** A dead process has no effect. */
  lemma DeadEmit(s: State, final: bool, sessionEnd: Instant, e: Emission)
    requires !Alive(s.world)
    ensures Emit(s, final, sessionEnd, e).world == s.world
  {
    hide WindowFor, DigestOf;
  }

  lemma RevokeKeepsSound(s: State, r: Revoking, perm: set<string>)
    requires Sound(s, perm) && s.mem.user != "" && r.fate.Done?
    ensures Sound(Revoke(s, r), perm) && Revoke(s, r).mem.user == ""
  {
    hide Emit;
    var s1 := TakeBack(s, r);
    assert Sound(s1, perm);
    assert Alive(s1.world) ==> s1.world.group == perm;
    var end := SessionEnd(s1.mem, r.endNow);
    EmitKeepsSound(s1, true, end, r.final, perm);
    EmitKeepsRecord(s1, true, end, r.final);
  }

  lemma PromoteKeepsSound(s: State, wasAdmin: bool, requestId: string, expires: Instant, g: Granting, perm: set<string>)
    requires s.durable && Contained(s.world, perm)
    requires Alive(s.world) ==>
               && s.world.group == perm && s.mem.user == "" && s.world.disk.Some?
               && s.world.disk.value.user == g.user && s.world.disk.value.wasAdmin == wasAdmin
               && s.world.disk.value.requestId == requestId
    requires g.user != "" && requestId != "" && !g.fate.ErredAfterEffect? && s.mem.user == ""
    ensures Sound(Promote(s, wasAdmin, requestId, expires, g), perm)
  {
  }

  lemma GrantKeepsSound(s: State, requestId: string, expires: Instant, g: Granting, perm: set<string>)
    requires Sound(s, perm) && s.mem.user == "" && requestId != ""
    requires !g.isAdminFails && !g.fate.ErredAfterEffect?
    ensures Sound(Grant(s, requestId, expires, g), perm)
  {
    hide Promote;
    if g.probed && g.user != "" {
      var wasAdmin := WasAdmin(s.world, g.user, g.isAdminFails);
      var s1 := s.(mem := s.mem.(latched := s.mem.collectChanges));
      var record := NewRecord(s1.mem, g.user, wasAdmin, requestId, expires, g);
      var saved := Save(s1.world, Opened(record), g.saveOk);
      if Alive(s1.world) && g.saveOk {
        PromoteKeepsSound(s1.(mem := s1.mem.(baselineLost := false), world := saved), wasAdmin, requestId, expires, g,
            perm);
      }
    }
  }

  lemma PollKeepsSound(s: State, t: Tick, perm: set<string>)
    requires SoundAtRest(s, perm) && s.running && FaithfulTick(t)
    ensures SoundAtRest(PollOnce(s, t), perm)
  {
    hide Revoke, Grant, Emit, Contained;
    var s0 := s.(world := s.world.(budget := t.budget));
    assert Sound(s0, perm) by { BudgetIrrelevant(s.world, t.budget, perm); }
    if s0.mem.user != "" && LocalReason(s.mem, t) { RevokeKeepsSound(s0, t.revoking, perm); }
    var s1 := LocalCheck(s, t);
    if t.reply.Some? {
      var r := t.reply.value;
      var s2 := ReadFlags(s1, r);
      assert Sound(s2, perm);
      if s2.mem.user != "" && Withdrawn(s1.mem, r, t.replyNow) { RevokeKeepsSound(s2, t.revoking, perm); }
      var s3 := RevokeIf(s2, Withdrawn(s1.mem, r, t.replyNow), t.revoking);
      assert Sound(s3, perm);
      if ApprovedNow(r, t.replyNow) && r.requestId != s3.mem.lastReq {
        assert s3.mem.user == "";
        GrantKeepsSound(s3, r.requestId, r.expiresAt, t.granting, perm);
      }
      var s4 := Settle(s1, r, t);
      if WindowDue(s4.mem, t.windowNow) { EmitKeepsSound(s4, false, 0, t.interim, perm); }
    }
  }

  lemma BudgetIrrelevant(w: World, b: nat, perm: set<string>)
    ensures Contained(w, perm) == Contained(w.(budget := b), perm)
  {
  }

  lemma StepKeepsSound(s: State, input: Input, perm: set<string>)
    requires SoundAtRest(s, perm) && Faithful(input)
    ensures SoundAtRest(Step(s, input), perm)
  {
    hide PollOnce;
    if input.Poll? && s.running { PollKeepsSound(s, input.tick, perm); }
  }

  /** Temporary rights never become permanent: for every sequence of polls, each cut short by a crash
      at any effect, and restarts, the group is the permanent admins plus at most the recorded user. */
  lemma {:induction false} TemporaryRightsStayTemporary(inputs: seq<Input>, perm: set<string>)
    requires forall i :: 0 <= i < |inputs| ==> Faithful(inputs[i])
    ensures SoundAtRest(Run(Installed(true, perm), inputs), perm)
  {
    hide Step, Contained, InHand;
    if inputs == [] {
      InstalledIsSound(perm);
    } else {
      TemporaryRightsStayTemporary(inputs[..|inputs| - 1], perm);
      StepKeepsSound(Run(Installed(true, perm), inputs[..|inputs| - 1]), inputs[|inputs| - 1], perm);
    }
  }

  lemma InstalledIsSound(perm: set<string>)
    ensures SoundAtRest(Installed(true, perm), perm)
  {
  }

  /** A refused revocation ends the session all the same, and the member stays with no record left. */
  lemma RefusedRevocationLeaks(s: State, r: Revoking, perm: set<string>)
    requires Sound(s, perm) && s.mem.user != "" && Alive(Revoke(s, r).world)
    ensures (Revoke(s, r).world.group == perm) <==>
        !r.fate.Refused? || s.mem.user in perm || s.mem.user !in s.world.group
    ensures r.clearOk ==> Revoke(s, r).world.disk == None
  {
    hide Emit;
    var s1 := TakeBack(s, r);
    EmitKeepsRecord(s1, true, SessionEnd(s1.mem, r.endNow), r.final);
  }

  // ---- Nobody is demoted ----

  /** Nobody's own rights are at risk: whoever a record or the process would revoke is not permanent. */
  predicate Guarded(s: State, perm: set<string>, live: bool) {
    && perm <= s.world.group
    && (s.world.disk.Some? && !s.world.disk.value.wasAdmin ==> s.world.disk.value.user !in perm)
    && (live && s.mem.user != "" ==>
          && (s.mem.wasAdmin || s.mem.user !in perm) && s.mem.lastReq != ""
          && (s.durable ==> s.world.disk.Some? && s.world.disk.value.requestId != ""))
  }

  predicate GuardedAtRest(s: State, perm: set<string>) { Guarded(s, perm, s.running) }

  predicate GuardedNow(s: State, perm: set<string>) { Guarded(s, perm, Alive(s.world)) }

  lemma FinalWindowKeepsGuard(s: State, sessionEnd: Instant, e: Emission, perm: set<string>)
    requires GuardedNow(s, perm)
    ensures GuardedNow(Emit(s, true, sessionEnd, e), perm)
  {
    hide Emit;
    EmitKeepsRecord(s, true, sessionEnd, e);
  }

  lemma RevokeKeepsGuard(s: State, r: Revoking, perm: set<string>)
    requires GuardedNow(s, perm) && s.mem.user != ""
    ensures GuardedNow(Revoke(s, r), perm) && Revoke(s, r).mem.user == ""
  {
    hide Emit;
    var s1 := TakeBack(s, r);
    assert GuardedNow(s1, perm);
    FinalWindowKeepsGuard(s1, SessionEnd(s1.mem, r.endNow), r.final, perm);
  }

  lemma PromoteKeepsGuard(s: State, wasAdmin: bool, requestId: string, expires: Instant, g: Granting, perm: set<string>)
    requires GuardedNow(s, perm) && s.mem.user == "" && requestId != "" && (wasAdmin || g.user !in perm)
    requires s.durable && Alive(s.world) ==> s.world.disk.Some? && s.world.disk.value.requestId == requestId
    ensures GuardedNow(Promote(s, wasAdmin, requestId, expires, g), perm)
  {
  }

  lemma GrantKeepsGuard(s: State, requestId: string, expires: Instant, g: Granting, perm: set<string>)
    requires GuardedNow(s, perm) && s.mem.user == "" && requestId != ""
    ensures GuardedNow(Grant(s, requestId, expires, g), perm)
  {
    hide Promote;
    if g.probed && g.user != "" {
      var wasAdmin := WasAdmin(s.world, g.user, g.isAdminFails);
      var s1 := s.(mem := s.mem.(latched := s.mem.collectChanges));
      if s.durable {
        var record := NewRecord(s1.mem, g.user, wasAdmin, requestId, expires, g);
        var saved := Save(s1.world, Opened(record), g.saveOk);
        if Alive(s1.world) && g.saveOk {
          PromoteKeepsGuard(s1.(mem := s1.mem.(baselineLost := false), world := saved), wasAdmin, requestId, expires,
              g, perm);
        }
      } else {
        PromoteKeepsGuard(s1.(mem := s1.mem.(baselineLost := true)), wasAdmin, requestId, expires, g, perm);
      }
    }
  }

  /** Up to the interim window no fault whatever endangers a permanent admin. */
  lemma SettleKeepsGuard(s: State, t: Tick, perm: set<string>)
    requires GuardedAtRest(s, perm) && s.running
    ensures GuardedNow(LocalCheck(s, t), perm)
    ensures t.reply.Some? ==> GuardedNow(Settle(LocalCheck(s, t), t.reply.value, t), perm)
  {
    hide Revoke, Grant, Emit;
    var s0 := s.(world := s.world.(budget := t.budget));
    assert GuardedNow(s0, perm);
    if s0.mem.user != "" && LocalReason(s.mem, t) { RevokeKeepsGuard(s0, t.revoking, perm); }
    var s1 := LocalCheck(s, t);
    if t.reply.Some? {
      var r := t.reply.value;
      var s2 := ReadFlags(s1, r);
      assert GuardedNow(s2, perm);
      if s2.mem.user != "" && Withdrawn(s1.mem, r, t.replyNow) { RevokeKeepsGuard(s2, t.revoking, perm); }
      var s3 := RevokeIf(s2, Withdrawn(s1.mem, r, t.replyNow), t.revoking);
      if ApprovedNow(r, t.replyNow) && r.requestId != s3.mem.lastReq {
        assert s3.mem.user == "";
        GrantKeepsGuard(s3, r.requestId, r.expiresAt, t.granting, perm);
      }
    }
  }

  /** An interim window whose baseline cannot be read is built from a stand-in record, and once sent
      that stand-in, which says "was no admin", is saved over the real record. */
  predicate Overwrites(s: State, now: Instant, e: Emission) {
    && s.durable && s.mem.latched && WindowDue(s.mem, now)
    && e.loadFails && e.sendOk && e.saveOk && s.world.budget >= 2
  }

  /** The poll saves a stand-in over the record. */
  ghost predicate SavesStandIn(s: State, t: Tick) {
    t.reply.Some? && Overwrites(Settle(LocalCheck(s, t), t.reply.value, t), t.windowNow, t.interim)
  }

  /** The poll overwrites the record of a permanent admin. */
  ghost predicate ForgetsAdmin(s: State, t: Tick, perm: set<string>) {
    t.reply.Some? &&
    var s1 := Settle(LocalCheck(s, t), t.reply.value, t);
    s1.mem.user in perm && Overwrites(s1, t.windowNow, t.interim)
  }

  lemma InterimGuardExactly(s: State, now: Instant, e: Emission, perm: set<string>)
    requires GuardedNow(s, perm)
    ensures Guarded(Interim(s, now, e), perm, Alive(Interim(s, now, e).world)) <==>
        !(s.mem.user in perm && Overwrites(s, now, e))
    ensures var d := Interim(s, now, e).world.disk;
            Overwrites(s, now, e) ==>
              && d.Some? && d.value.user == s.mem.user && !d.value.wasAdmin
              && d.value.requestId == s.mem.lastReq && !d.value.collect
    ensures Interim(s, now, e).world.group == s.world.group && Interim(s, now, e).durable == s.durable
  {
    hide WindowFor, DigestOf;
    if WindowDue(s.mem, now) {
      EmitKeepsRecord(s, false, 0, e);
      if !Alive(s.world) {
        DeadEmit(s, false, 0, e);
      } else if s.mem.latched && Unreadable(s, e.loadFails) {
        var s1 := s.(mem := s.mem.(nextWindowAt := e.now + s.mem.interval));
        WindowFinality(Fallback(s.mem), true, false, 0, e);
        StandInDelivered(s1, WindowOf(Fallback(s.mem), true, false, 0, e), e);
      }
    }
  }

  lemma StandInDelivered(s: State, w: Window, e: Emission)
    requires Alive(s.world) && !w.final
    ensures var r := Deliver(s, w, Fallback(s.mem), true, e.sendOk, e.saveOk);
            r.world.disk == if s.durable && e.sendOk && e.saveOk && s.world.budget >= 2
                            then Some(Fallback(s.mem).(windowSeq := w.seqNo, lastDigest := Some(DigestOf(w))))
                            else s.world.disk
  {
    hide DigestOf;
  }

  /** One poll: the guard survives every fault but one, and that one always breaks it. */
  lemma PollGuardExactly(s: State, t: Tick, perm: set<string>)
    requires GuardedAtRest(s, perm) && s.running
    ensures GuardedAtRest(PollOnce(s, t), perm) <==> !ForgetsAdmin(s, t, perm)
  {
    hide LocalCheck, Settle, Interim, Guarded;
    SettleKeepsGuard(s, t, perm);
    var s1 := LocalCheck(s, t);
    if t.reply.Some? {
      InterimGuardExactly(Settle(s1, t.reply.value, t), t.windowNow, t.interim, perm);
      RunningIrrelevant(Interim(Settle(s1, t.reply.value, t), t.windowNow, t.interim), perm);
    } else {
      RunningIrrelevant(s1, perm);
    }
  }

  lemma RunningIrrelevant(s: State, perm: set<string>)
    ensures Guarded(s, perm, Alive(s.world)) == GuardedAtRest(s.(running := Alive(s.world)), perm)
  {
  }

  /** No step of the run forgets. */
  ghost predicate NeverForgets(s: State, inputs: seq<Input>, perm: set<string>) {
    forall i :: 0 <= i < |inputs| && inputs[i].Poll? ==> !ForgetsAdmin(Run(s, inputs[..i]), inputs[i].tick, perm)
  }

  /** Nobody is demoted: under any faults of OS calls, store and delivery, durable or not, a permanent
      admin is in the group at every moment of every run in which no poll forgets. */
  lemma {:induction false} NobodyDemoted(inputs: seq<Input>, durable: bool, perm: set<string>)
    requires NeverForgets(Installed(durable, perm), inputs, perm)
    ensures GuardedAtRest(Run(Installed(durable, perm), inputs), perm)
    ensures perm <= Run(Installed(durable, perm), inputs).world.group
  {
    hide PollOnce, ForgetsAdmin;
    var s := Installed(durable, perm);
    if inputs != [] {
      var n := |inputs| - 1;
      var front := inputs[..n];
      forall i | 0 <= i < n && front[i].Poll? ensures !ForgetsAdmin(Run(s, front[..i]), front[i].tick, perm) {
        assert front[..i] == inputs[..i];
      }
      NobodyDemoted(front, durable, perm);
      if inputs[n].Poll? && Run(s, front).running {
        PollGuardExactly(Run(s, front), inputs[n].tick, perm);
      }
    }
  }

  const QUIET := Emission(1, false, Snapshot([], NotRecorded, [], NotRecorded), 0, {}, true, true)

  /** A poll in which the server no longer confirms anything and every call works. */
  const WITHDRAWAL := Tick(10, "", false, 1, Revoking(Done, 1, QUIET, true),
                           Some(Reply(false, "", 0, false, 0)), 1,
                           Granting("", false, false, 1, Snapshot([], NotRecorded, [], NotRecorded), 0, true, Done,
                               true, 1),
                           1, QUIET)

  /** The condition is exact: let the process restart after the poll and the server withdraw the grant;
      every permanent admin is still in the group if and only if the poll did not forget one. */
  lemma DemotedAfterRestartExactly(s: State, t: Tick, perm: set<string>, now: Instant)
    requires GuardedAtRest(s, perm) && s.running
    ensures perm <= Run(s, [Poll(t), Restart(false, now), Poll(WITHDRAWAL)]).world.group <==> !ForgetsAdmin(s, t, perm)
  {
    hide PollOnce, ForgetsAdmin, Guarded;
    var s1 := PollOnce(s, t);
    var s2 := RestartOnce(s1, false, now);
    var s3 := PollOnce(s2, WITHDRAWAL);
    ThreeSteps(s, t, now);
    PollGuardExactly(s, t, perm);
    if ForgetsAdmin(s, t, perm) {
      ForgottenRecord(s, t, perm);
      WithdrawalRevokes(s1, now);
    } else {
      RestartKeepsGuard(s1, now, perm);
      SettleKeepsGuard(s2, WITHDRAWAL, perm);
      NothingForgotten(s2, perm);
      PollGuardExactly(s2, WITHDRAWAL, perm);
      assert perm <= s3.world.group by { GuardMeaning(s3, perm); }
    }
  }

  lemma GuardMeaning(s: State, perm: set<string>)
    requires GuardedAtRest(s, perm)
    ensures perm <= s.world.group
  {
  }

  lemma ThreeSteps(s: State, t: Tick, now: Instant)
    requires s.running
    ensures Run(s, [Poll(t), Restart(false, now), Poll(WITHDRAWAL)]) ==
            PollOnce(RestartOnce(PollOnce(s, t), false, now), WITHDRAWAL)
  {
    hide PollOnce, RestartOnce;
    var i := [Poll(t), Restart(false, now), Poll(WITHDRAWAL)];
    assert i[..2] == [Poll(t), Restart(false, now)];
    assert i[..2][..1] == [Poll(t)];
    assert i[..2][..1][..0] == [];
    assert Run(s, []) == s;
    assert Run(s, [Poll(t)]) == PollOnce(s, t);
    RestartRuns(PollOnce(s, t), now);
  }

  lemma RestartRuns(s: State, now: Instant)
    ensures RestartOnce(s, false, now).running
  {
  }

  lemma ForgottenRecord(s: State, t: Tick, perm: set<string>)
    requires GuardedAtRest(s, perm) && s.running && ForgetsAdmin(s, t, perm)
    ensures var r := PollOnce(s, t);
            r.durable && r.world.disk.Some? && r.world.disk.value.user in perm && r.world.disk.value.user != ""
            && !r.world.disk.value.wasAdmin && r.world.disk.value.requestId != ""
  {
    hide LocalCheck, Settle, Interim;
    SettleKeepsGuard(s, t, perm);
    var s1 := Settle(LocalCheck(s, t), t.reply.value, t);
    InterimGuardExactly(s1, t.windowNow, t.interim, perm);
  }

  lemma WithdrawalRevokes(s: State, now: Instant)
    requires s.durable && s.world.disk.Some? && s.world.disk.value.user != "" && s.world.disk.value.requestId != ""
    requires !s.world.disk.value.wasAdmin
    ensures s.world.disk.value.user !in PollOnce(RestartOnce(s, false, now), WITHDRAWAL).world.group
  {
    hide Emit;
    var u := s.world.disk.value.user;
    var s2 := RestartOnce(s, false, now);
    var s0 := s2.(world := s2.world.(budget := 10));
    var s1 := LocalCheck(s2, WITHDRAWAL);
    if LocalReason(s2.mem, WITHDRAWAL) {
      RevocationRemoves(s0, WITHDRAWAL.revoking);
    } else {
      RevocationRemoves(ReadFlags(s1, WITHDRAWAL.reply.value), WITHDRAWAL.revoking);
    }
  }

  lemma RevocationRemoves(s: State, r: Revoking)
    requires Alive(s.world) && !s.mem.wasAdmin && r.fate.Done?
    ensures s.mem.user !in Revoke(s, r).world.group && Revoke(s, r).mem.user == ""
  {
    hide Emit;
    var s1 := TakeBack(s, r);
    EmitKeepsRecord(s1, true, SessionEnd(s1.mem, r.endNow), r.final);
  }

  lemma RestartKeepsGuard(s: State, now: Instant, perm: set<string>)
    requires GuardedAtRest(s, perm)
    ensures GuardedAtRest(RestartOnce(s, false, now), perm)
  {
  }

  lemma NothingForgotten(s: State, perm: set<string>)
    ensures !ForgetsAdmin(s, WITHDRAWAL, perm)
  {
  }
}
