/** Exactly which faults of one poll let temporary rights leak (internal/agent/admin/manager.go). */
module RightsLeaks {
  import opened Changes
  import opened Evidence
  import opened Sessions
  import opened RightsSafety
  import SessionTrace

  /** The OS refuses to take the rights of a temporary member. */
  predicate Refuses(s: State, r: Revoking) {
    s.mem.user != "" && !s.mem.wasAdmin && r.fate.Refused? && s.mem.user in s.world.group
  }

  /** One of the two places of a poll that revoke meets that refusal. */
  ghost predicate RemovalRefused(s: State, t: Tick) {
    || (LocalReason(s.mem, t) && Refuses(s, t.revoking))
    || (t.reply.Some? &&
        var s1 := LocalCheck(s, t); Withdrawn(s1.mem, t.reply.value, t.replyNow) && Refuses(s1, t.revoking))
  }

  /** A grant to somebody who is no admin is taken for a permanent admin's, or has an effect the OS denies. */
  predicate Mistaken(g: Granting, perm: set<string>) {
    && g.probed && g.user != "" && g.user !in perm && g.saveOk
    && (g.fate.ErredAfterEffect? || (g.isAdminFails && (g.fate.Done? || !g.undoOk)))
  }

  ghost predicate GrantMistaken(s: State, t: Tick, perm: set<string>) {
    t.reply.Some? &&
    var r := t.reply.value;
    var s1 := LocalCheck(s, t);
    var s2 := RevokeIf(ReadFlags(s1, r), Withdrawn(s1.mem, r, t.replyNow), t.revoking);
    ApprovedNow(r, t.replyNow) && r.requestId != s2.mem.lastReq && Mistaken(t.granting, perm)
  }

  ghost predicate Leaks(s: State, t: Tick, perm: set<string>) {
    RemovalRefused(s, t) || GrantMistaken(s, t, perm) || ForgetsAdmin(s, t, perm)
  }

  // ---- What cannot be mended within the poll ----

  /** u is no permanent admin, is in the group, and the process would not take u out. */
  predicate Stained(s: State, perm: set<string>, u: string) {
    s.durable && u !in perm && u in s.world.group && (s.mem.user != u || s.mem.wasAdmin)
  }

  lemma StainedIsUnsound(s: State, perm: set<string>, u: string)
    requires Stained(s, perm, u) && Alive(s.world)
    ensures !Sound(s, perm)
  {
  }

  lemma GrantStaysStained(s: State, requestId: string, expires: Instant, g: Granting, perm: set<string>, u: string)
    requires Stained(s, perm, u) && s.mem.user == "" && u != ""
    ensures Stained(Grant(s, requestId, expires, g), perm, u)
  {
  }

  lemma InterimStaysStained(s: State, now: Instant, e: Emission, perm: set<string>, u: string)
    requires Stained(s, perm, u)
    ensures Stained(Interim(s, now, e), perm, u)
  {
    hide Emit;
    EmitKeepsRecord(s, false, 0, e);
  }

  // ---- Each effect, exactly ----

  lemma RevokeExactly(s: State, r: Revoking, perm: set<string>)
    requires Sound(s, perm) && s.mem.user != "" && s.world.budget >= 5
    ensures !Refuses(s, r) ==> Sound(Revoke(s, r), perm)
    ensures Refuses(s, r) ==> Stained(Revoke(s, r), perm, s.mem.user) && s.mem.user != ""
    ensures Revoke(s, r).mem.user == ""
  {
    hide Emit;
    var s1 := TakeBack(s, r);
    var end := SessionEnd(s1.mem, r.endNow);
    EmitKeepsRecord(s1, true, end, r.final);
    SessionTrace.EmitFrame(s1, true, end, r.final);
  }

  /** The record of the grant about to be made is on disk. */
  predicate Opening(s: State, wasAdmin: bool, requestId: string, user: string, perm: set<string>) {
    && s.durable && s.world.group == perm && s.mem.user == "" && s.world.disk.Some?
    && s.world.disk.value.user == user && s.world.disk.value.wasAdmin == wasAdmin
    && s.world.disk.value.requestId == requestId
  }

  lemma PromoteExactly(s: State, wasAdmin: bool, requestId: string, expires: Instant, g: Granting, perm: set<string>)
    requires Opening(s, wasAdmin, requestId, g.user, perm) && s.world.budget >= 3
    requires g.user != "" && requestId != "" && wasAdmin == (g.isAdminFails || g.user in perm)
    ensures var x := Promote(s, wasAdmin, requestId, expires, g);
            if g.user in perm || !(g.fate.ErredAfterEffect? || (g.isAdminFails && (g.fate.Done? || !g.undoOk)))
            then Sound(x, perm)
            else Stained(x, perm, g.user) || (x.mem.user == "" && !Contained(x.world, perm))
  {
    match g.fate
    case Done =>
    case Refused =>
    case ErredAfterEffect =>
  }

  lemma GrantExactly(s: State, requestId: string, expires: Instant, g: Granting, perm: set<string>)
    requires Sound(s, perm) && s.mem.user == "" && requestId != "" && s.world.budget >= 4
    ensures !Mistaken(g, perm) ==> Sound(Grant(s, requestId, expires, g), perm)
    ensures Mistaken(g, perm) ==>
              var x := Grant(s, requestId, expires, g);
              Stained(x, perm, g.user) || (x.mem.user == "" && !Contained(x.world, perm))
  {
    hide Promote, Stained;
    if g.probed && g.user != "" && g.saveOk {
      var wasAdmin := WasAdmin(s.world, g.user, g.isAdminFails);
      var s1 := s.(mem := s.mem.(latched := s.mem.collectChanges, baselineLost := false));
      var record := NewRecord(s1.mem, g.user, wasAdmin, requestId, expires, g);
      var s2 := s1.(world := Save(s1.world, Opened(record), true));
      PromoteExactly(s2, wasAdmin, requestId, expires, g, perm);
      assert Grant(s, requestId, expires, g) == Promote(s2, wasAdmin, requestId, expires, g);
    }
  }

  /** Only a stand-in over a permanent admin's record harms a sound state. */
  lemma InterimExactly(s: State, now: Instant, e: Emission, perm: set<string>)
    requires Sound(s, perm) && s.world.budget >= 3
    ensures Sound(Interim(s, now, e), perm) <==> !(s.mem.user in perm && Overwrites(s, now, e))
  {
    hide WindowFor, DigestOf;
    if WindowDue(s.mem, now) {
      EmitKeepsRecord(s, false, 0, e);
      SessionTrace.InterimFrame(s, now, e);
      if s.mem.latched && Unreadable(s, e.loadFails) {
        var s1 := s.(mem := s.mem.(nextWindowAt := e.now + s.mem.interval));
        WindowFinality(Fallback(s.mem), true, false, 0, e);
        StandInDelivered(s1, WindowOf(Fallback(s.mem), true, false, 0, e), e);
      }
    }
  }

  // ---- The poll ----

  lemma AtRest(s: State, perm: set<string>)
    requires Alive(s.world)
    ensures SoundAtRest(s.(running := Alive(s.world)), perm) <==> Sound(s, perm)
  {
  }

  /** The answer's half of the poll, from a state the local check left stained. */
  lemma StainedToTheEnd(s1: State, t: Tick, perm: set<string>, u: string)
    requires Stained(s1, perm, u) && u != "" && s1.mem.user == "" && s1.world.budget >= 6 && t.reply.Some?
    ensures var x := Interim(Settle(s1, t.reply.value, t), t.windowNow, t.interim); Stained(x, perm, u)
  {
    hide Grant, Interim, Revoke;
    var r := t.reply.value;
    var s2 := ReadFlags(s1, r);
    if ApprovedNow(r, t.replyNow) && r.requestId != s2.mem.lastReq {
      GrantStaysStained(s2, r.requestId, r.expiresAt, t.granting, perm, u);
    }
    InterimStaysStained(Settle(s1, r, t), t.windowNow, t.interim, perm, u);
  }

  lemma SettleExactly(s1: State, t: Tick, perm: set<string>)
    requires Sound(s1, perm) && t.reply.Some? && s1.world.budget >= 6 && (s1.mem.user != "" ==> s1.world.budget >= 10)
    ensures Settle(s1, t.reply.value, t).world.budget >= 3
    ensures var r := t.reply.value;
            var s3 := RevokeIf(ReadFlags(s1, r), Withdrawn(s1.mem, r, t.replyNow), t.revoking);
            var refused := Withdrawn(s1.mem, r, t.replyNow) && Refuses(s1, t.revoking);
            var mistaken := ApprovedNow(r, t.replyNow) && r.requestId != s3.mem.lastReq && Mistaken(t.granting, perm);
            var x := Settle(s1, r, t);
            && (!refused && !mistaken ==> Sound(x, perm))
            && (refused || mistaken ==>
                  (exists u :: Stained(x, perm, u)) || (x.mem.user == "" && !Contained(x.world, perm)))
  {
    hide Grant, Revoke, Sound, Contained, Stained, Mistaken;
    var r := t.reply.value;
    var s2 := ReadFlags(s1, r);
    FlagsKeepSound(s1, r, perm);
    SessionTrace.RevokeFrame(s2, t.revoking);
    if s2.mem.user != "" && Withdrawn(s1.mem, r, t.replyNow) { RevokeExactly(s2, t.revoking, perm); }
    var s3 := RevokeIf(s2, Withdrawn(s1.mem, r, t.replyNow), t.revoking);
    if ApprovedNow(r, t.replyNow) && r.requestId != s3.mem.lastReq {
      assert s3.mem.user == "";
      if Withdrawn(s1.mem, r, t.replyNow) && Refuses(s1, t.revoking) {
        GrantStaysStained(s3, r.requestId, r.expiresAt, t.granting, perm, s1.mem.user);
      } else {
        GrantExactly(s3, r.requestId, r.expiresAt, t.granting, perm);
      }
      SessionTrace.GrantFrame(s3, r.requestId, r.expiresAt, t.granting);
    }
  }

  lemma FlagsKeepSound(s: State, r: Reply, perm: set<string>)
    requires Sound(s, perm)
    ensures Sound(ReadFlags(s, r), perm)
  {
  }

  /** A damaged record of nobody held stays damaged: there is no window to come. */
  lemma DamageStays(s: State, now: Instant, e: Emission, perm: set<string>)
    requires s.mem.user == "" && !Contained(s.world, perm)
    ensures Interim(s, now, e) == s && !Sound(s, perm)
  {
  }

  /** From a sound state a poll that is not cut short ends soundly unless it leaks, and never if it does. */
  lemma PollLeaksExactly(s: State, t: Tick, perm: set<string>)
    requires SoundAtRest(s, perm) && s.running && t.budget >= SessionTrace.AMPLE
    ensures SoundAtRest(PollOnce(s, t), perm) <==> !Leaks(s, t, perm)
  {
    hide LocalCheck, Settle, Interim, Contained, Sound, Stained, Mistaken;
    LocalExactly(s, t, perm);
    var s1 := LocalCheck(s, t);
    if t.reply.None? {
      AtRest(s1, perm);
      if LocalReason(s.mem, t) && Refuses(s, t.revoking) { StainedIsUnsound(s1, perm, s.mem.user); }
    } else {
      var x := Settle(s1, t.reply.value, t);
      var y := Interim(x, t.windowNow, t.interim);
      if LocalReason(s.mem, t) && Refuses(s, t.revoking) {
        StainedToTheEnd(s1, t, perm, s.mem.user);
        StillAlive(s1, t);
        StainedIsUnsound(y, perm, s.mem.user);
      } else {
        AnswerExactly(s1, t, perm);
      }
      StillAlive(s1, t);
      AtRest(y, perm);
    }
  }

  lemma LocalExactly(s: State, t: Tick, perm: set<string>)
    requires SoundAtRest(s, perm) && s.running && t.budget >= SessionTrace.AMPLE
    ensures var s1 := LocalCheck(s, t);
            && s1.world.budget >= 6 && (s1.mem.user != "" ==> s1.world.budget >= 10)
            && (if LocalReason(s.mem, t) && Refuses(s, t.revoking)
                then Stained(s1, perm, s.mem.user) && s.mem.user != "" && s1.mem.user == ""
                else Sound(s1, perm))
  {
    hide Revoke, Stained;
    var s0 := s.(world := s.world.(budget := t.budget));
    assert Sound(s0, perm);
    SessionTrace.RevokeFrame(s0, t.revoking);
    if s0.mem.user != "" && LocalReason(s.mem, t) { RevokeExactly(s0, t.revoking, perm); }
  }

  lemma StillAlive(s1: State, t: Tick)
    requires t.reply.Some? && s1.world.budget >= 6 && (s1.mem.user != "" ==> s1.world.budget >= 10)
    ensures Alive(Interim(Settle(s1, t.reply.value, t), t.windowNow, t.interim).world)
  {
    hide Grant, Revoke, Interim;
    var r := t.reply.value;
    var s2 := ReadFlags(s1, r);
    SessionTrace.RevokeFrame(s2, t.revoking);
    var s3 := RevokeIf(s2, Withdrawn(s1.mem, r, t.replyNow), t.revoking);
    if ApprovedNow(r, t.replyNow) && r.requestId != s3.mem.lastReq {
      SessionTrace.GrantFrame(s3, r.requestId, r.expiresAt, t.granting);
    }
    SessionTrace.InterimFrame(Settle(s1, r, t), t.windowNow, t.interim);
  }

  /** The half of the poll after the local check, from a sound state. */
  lemma AnswerExactly(s1: State, t: Tick, perm: set<string>)
    requires Sound(s1, perm) && t.reply.Some? && s1.world.budget >= 6 && (s1.mem.user != "" ==> s1.world.budget >= 10)
    ensures var r := t.reply.value;
            var s3 := RevokeIf(ReadFlags(s1, r), Withdrawn(s1.mem, r, t.replyNow), t.revoking);
            var refused := Withdrawn(s1.mem, r, t.replyNow) && Refuses(s1, t.revoking);
            var mistaken := ApprovedNow(r, t.replyNow) && r.requestId != s3.mem.lastReq && Mistaken(t.granting, perm);
            var x := Settle(s1, r, t);
            var forgets := x.mem.user in perm && Overwrites(x, t.windowNow, t.interim);
            Sound(Interim(x, t.windowNow, t.interim), perm) <==> !refused && !mistaken && !forgets
  {
    hide Settle, Interim, Contained, Sound, Stained, Mistaken, Refuses, RevokeIf, Overwrites;
    SettleExactly(s1, t, perm);
    StillAlive(s1, t);
    var x := Settle(s1, t.reply.value, t);
    var y := Interim(x, t.windowNow, t.interim);
    if Sound(x, perm) { InterimExactly(x, t.windowNow, t.interim, perm); }
    if u :| Stained(x, perm, u) {
      InterimStaysStained(x, t.windowNow, t.interim, perm, u);
      StainedIsUnsound(y, perm, u);
      StainedIsUnsound(x, perm, u);
    }
    if x.mem.user == "" && !Contained(x.world, perm) { DamageStays(x, t.windowNow, t.interim, perm); }
  }
}
