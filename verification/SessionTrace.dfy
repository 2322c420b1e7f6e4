/** The order of a session's outward effects, the evidence latch, and what a poll may leave held. */
module SessionTrace {
  import opened Ordering
  import opened Changes
  import opened Evidence
  import opened Sessions
  import WindowLaws
  import RightsSafety

  // ---- The protocol of one session, as an automaton over the effects ----

  datatype Phase =
    | Idle
    | Opening(rec: SessionState)   // the record is on disk, rights are not given yet
    | Failing(rec: SessionState)   // the OS reported an error; the record must go
    | Giving(rec: SessionState)    // rights given, not reported
    | Held(rec: SessionState)      // reported as applied
    | Stripped(rec: SessionState)  // OS revocation attempted
    | Closed(rec: SessionState)    // final window attempted
    | Ended(rec: SessionState)     // clearing attempted, revocation not reported
    | Broken

  /** x is the record rec with at most its window number and digest moved on. */
  predicate SameSession(x: SessionState, rec: SessionState) {
    WindowLaws.SameBaseline(x, rec) && x.user == rec.user && x.expires == rec.expires
    && x.wasAdmin == rec.wasAdmin && x.collect == rec.collect
  }

  predicate ReadyToClose(p: Phase) { (p.Held? && p.rec.wasAdmin) || p.Stripped? }

  /** The windows of a session are computed from the very baseline saved at its grant, or say that they
      had none and claim nothing. */
  predicate WindowFits(rec: SessionState, w: Window, base: SessionState, lost: bool) {
    && rec.collect && w.requestId == rec.requestId && w.baselineLost == lost
    && (if lost then w.changes == [] && w.completeness == NoBaseline else SameSession(base, rec))
  }

  function Next(p: Phase, e: Event): Phase {
    match e
    case Opened(r) => if p.Idle? then Opening(r) else Broken
    case GrantTried(u, f) =>
      if p.Opening? && u == p.rec.user then (if f.Done? then Giving(p.rec) else Failing(p.rec)) else Broken
    case RevokeTried(u, _) => if p.Held? && !p.rec.wasAdmin && u == p.rec.user then Stripped(p.rec) else Broken
    case WindowTried(w, base, lost, _) =>
      if !w.final then (if p.Held? && WindowFits(p.rec, w, base, lost) then p else Broken)
      else if ReadyToClose(p) && WindowFits(p.rec, w, base, lost) then Closed(p.rec) else Broken
    case RecordSaved(x) => if p.Held? && SameSession(x, p.rec) then p else Broken
    case Cleared(_) =>
      if p.Failing? then Idle
      else if (p.Closed? && p.rec.collect) || (ReadyToClose(p) && !p.rec.collect) then Ended(p.rec)
      else Broken
    case Reported(id, granted, captured) =>
      if granted && p.Giving? && id == p.rec.requestId && captured == p.rec.collect then Held(p.rec)
      else if !granted && p.Ended? && id == p.rec.requestId && captured == p.rec.collect then Idle
      else Broken
  }

  function PhaseOf(log: seq<Event>): Phase {
    if log == [] then Idle else Next(PhaseOf(log[..|log| - 1]), log[|log| - 1])
  }

  lemma PhaseStep(log: seq<Event>, e: Event)
    ensures PhaseOf(log + [e]) == Next(PhaseOf(log), e)
  {
    assert (log + [e])[..|log|] == log;
  }

  // ---- Orderly runs: no crash inside a poll, no stand-in saved, no restart without the session held ----

  const AMPLE := 10

  /** A restart finds a record exactly if a grant is held. It fails to when the record cannot be read, and
      when a failed clear left one behind. */
  predicate Resumes(s: State, loadFails: bool) { (s.mem.user == "") == Unreadable(s, loadFails) }

  ghost predicate Orderly(s: State, input: Input) {
    match input
    case Poll(t) => s.running ==> t.budget >= AMPLE && !RightsSafety.SavesStandIn(s, t)
    case Restart(loadFails, _) => Resumes(s, loadFails)
  }

  ghost predicate OrderlyRun(inputs: seq<Input>, perm: set<string>) {
    forall i :: 0 <= i < |inputs| ==> Orderly(Run(Installed(true, perm), inputs[..i]), inputs[i])
  }

  /** What memory and disk say of the session the log is in. */
  predicate Tracks(m: Memory, disk: Option<SessionState>, p: Phase) {
    && (m.user == "" ==> p.Idle?)
    && (m.user != "" ==>
          && p.Held? && disk.Some? && SameSession(disk.value, p.rec)
          && m.user == p.rec.user && m.wasAdmin == p.rec.wasAdmin && m.lastReq == p.rec.requestId && m.lastReq != ""
          && m.latched == p.rec.collect && !m.baselineLost)
  }

  predicate InStep(s: State) { s.durable && Tracks(s.mem, s.world.disk, PhaseOf(s.world.log)) }

  /** Before the final window: the session the log is in is about to close. */
  predicate AboutToClose(s: State, rec: SessionState) {
    var p := PhaseOf(s.world.log);
    && s.durable && ReadyToClose(p) && p.rec == rec
    && s.world.disk.Some? && SameSession(s.world.disk.value, rec) && s.world.disk.value.requestId != ""
    && s.mem.latched == rec.collect && !s.mem.baselineLost && s.mem.lastReq == rec.requestId
  }

  lemma DeliverLog(s: State, w: Window, base: SessionState, lost: bool, sendOk: bool, saveOk: bool)
    requires s.world.budget >= 2
    ensures var r := Deliver(s, w, base, lost, sendOk, saveOk);
            && r.world.budget >= s.world.budget - 2 && r.mem == s.mem && r.durable == s.durable
            && (w.final ==>
                 && r.world.log == s.world.log + [WindowTried(w, base, lost, sendOk)] && r.world.disk == s.world.disk
                 && r.world.budget == s.world.budget - 1)
            && (!w.final ==>
                 || (r.world.log == s.world.log && r.world.disk == s.world.disk)
                 || (r.world.log == s.world.log + [WindowTried(w, base, lost, sendOk)] && r.world.disk == s.world.disk)
                 || (sendOk && saveOk
                     && exists n, d :: var x := base.(windowSeq := n, lastDigest := d);
                          && r.world.log == s.world.log + [WindowTried(w, base, lost, sendOk)] + [RecordSaved(x)]
                          && r.world.disk == Some(x)))
  {
    hide DigestOf;
    var x := base.(windowSeq := w.seqNo, lastDigest := Some(DigestOf(w)));
    var r := Deliver(s, w, base, lost, sendOk, saveOk);
    assert !w.final && r.world.disk != s.world.disk ==>
      r.world.log == s.world.log + [WindowTried(w, base, lost, sendOk)] + [RecordSaved(x)] && r.world.disk == Some(x);
  }

  /** Whatever is read back, a window of the session fits it. */
  lemma WindowAlwaysFits(s: State, rec: SessionState, final: bool, sessionEnd: Instant, e: Emission)
    requires s.durable && s.mem.latched && rec.collect && s.mem.lastReq == rec.requestId && !s.mem.baselineLost
    requires s.world.disk.Some? && SameSession(s.world.disk.value, rec)
    ensures var (base, lost) := LoadBaseline(s, e.loadFails);
            var w := WindowOf(base, lost, final, sessionEnd, e);
            WindowFits(rec, w, base, lost) && w.final == final && lost == Unreadable(s, e.loadFails)
  {
    hide WindowFor;
    var (base, lost) := LoadBaseline(s, e.loadFails);
    var input := WindowInput(Int32(base.windowSeq + 1), final, e.now, sessionEnd, lost);
    FrameOfWindow(Some(base), InventoryAt(e), input, e.prefer);
    if lost { WindowLaws.LostBaselineClaimsNothing(Some(base), InventoryAt(e), input, e.prefer); }
  }

  lemma InterimKeepsStep(s: State, now: Instant, e: Emission)
    requires InStep(s) && s.world.budget >= 2 && !RightsSafety.Overwrites(s, now, e)
    ensures InStep(Interim(s, now, e)) && Interim(s, now, e).world.budget >= s.world.budget - 2
  {
    hide WindowFor, Deliver, PhaseOf, WindowOf, LoadBaseline, WindowFits;
    if WindowDue(s.mem, now) && s.mem.latched {
      var s1 := s.(mem := s.mem.(nextWindowAt := e.now + s.mem.interval));
      var (base, lost) := LoadBaseline(s1, e.loadFails);
      var w := WindowOf(base, lost, false, 0, e);
      WindowAlwaysFits(s1, PhaseOf(s.world.log).rec, false, 0, e);
      assert Interim(s, now, e) == Deliver(s1, w, base, lost, e.sendOk, e.saveOk);
      InterimDelivered(s1, w, base, lost, e);
    }
  }

  lemma InterimDelivered(s: State, w: Window, base: SessionState, lost: bool, e: Emission)
    requires InStep(s) && s.world.budget >= 2 && s.mem.user != "" && !w.final
    requires WindowFits(PhaseOf(s.world.log).rec, w, base, lost) && (lost ==> !(e.sendOk && e.saveOk))
    ensures var x := Deliver(s, w, base, lost, e.sendOk, e.saveOk); InStep(x) && x.world.budget >= s.world.budget - 2
  {
    hide Deliver, PhaseOf;
    DeliverLog(s, w, base, lost, e.sendOk, e.saveOk);
    var tried := WindowTried(w, base, lost, e.sendOk);
    PhaseStep(s.world.log, tried);
    forall x: SessionState { PhaseStep(s.world.log + [tried], RecordSaved(x)); }
  }

  lemma FinalWindowCloses(s: State, rec: SessionState, sessionEnd: Instant, e: Emission)
    requires AboutToClose(s, rec) && s.world.budget >= 2
    ensures var r := Emit(s, true, sessionEnd, e);
            && (rec.collect ==> PhaseOf(r.world.log) == Closed(rec))
            && (!rec.collect ==> PhaseOf(r.world.log) == PhaseOf(s.world.log))
            && r.world.budget >= s.world.budget - 1 && r.durable
            && r.mem == s.mem.(nextWindowAt := r.mem.nextWindowAt)
  {
    hide WindowFor, Deliver, PhaseOf, WindowOf, LoadBaseline, WindowFits;
    if s.mem.latched {
      var s1 := s.(mem := s.mem.(nextWindowAt := e.now + s.mem.interval));
      var (base, lost) := LoadBaseline(s1, e.loadFails);
      var w := WindowOf(base, lost, true, sessionEnd, e);
      WindowAlwaysFits(s1, rec, true, sessionEnd, e);
      assert Emit(s, true, sessionEnd, e) == Deliver(s1, w, base, lost, e.sendOk, e.saveOk);
      DeliverLog(s1, w, base, lost, e.sendOk, e.saveOk);
      PhaseStep(s.world.log, WindowTried(w, base, lost, e.sendOk));
    }
  }

  lemma RevokeKeepsStep(s: State, r: Revoking)
    requires InStep(s) && s.mem.user != "" && s.world.budget >= 5
    ensures InStep(Revoke(s, r)) && Revoke(s, r).mem.user == "" && Revoke(s, r).world.budget >= s.world.budget - 4
    ensures Revoke(s, r).mem.lastReq == s.mem.lastReq
  {
    hide Emit, PhaseOf;
    var rec := PhaseOf(s.world.log).rec;
    var s1 := TakeBack(s, r);
    PhaseStep(s.world.log, RevokeTried(s.mem.user, r.fate));
    assert AboutToClose(s1, rec);
    var s2 := Emit(s1, true, SessionEnd(s1.mem, r.endNow), r.final);
    FinalWindowCloses(s1, rec, SessionEnd(s1.mem, r.endNow), r.final);
    PhaseStep(s2.world.log, Cleared(r.clearOk));
    PhaseStep(s2.world.log + [Cleared(r.clearOk)], Reported(s.mem.lastReq, false, Captured(s.mem)));
  }

  /** The record is on disk and in the log, rights are not given yet. */
  predicate JustOpened(s: State, record: SessionState) {
    && s.durable && s.mem.user == "" && s.world.disk == Some(record) && PhaseOf(s.world.log) == Opening(record)
    && s.mem.latched == record.collect && !s.mem.baselineLost
  }

  lemma PromoteKeepsStep(s: State, record: SessionState, g: Granting)
    requires JustOpened(s, record) && s.world.budget >= 3 && g.user != "" && record.requestId != ""
    requires record.user == g.user
    ensures var x := Promote(s, record.wasAdmin, record.requestId, record.expires, g);
            InStep(x) && x.world.budget + 2 >= s.world.budget
  {
    hide PhaseOf;
    var log, granted := s.world.log, GrantTried(g.user, g.fate);
    PhaseStep(log, granted);
    if g.fate.Done? {
      PhaseStep(log + [granted], Reported(record.requestId, true, record.collect));
    } else {
      PhaseStep(log + [granted], Cleared(g.undoOk));
    }
  }

  lemma GrantKeepsStep(s: State, requestId: string, expires: Instant, g: Granting)
    requires InStep(s) && s.mem.user == "" && requestId != "" && s.world.budget >= 4
    ensures InStep(Grant(s, requestId, expires, g))
        && Grant(s, requestId, expires, g).world.budget >= s.world.budget - 3
  {
    hide PhaseOf, Promote;
    if g.probed && g.user != "" && g.saveOk {
      var wasAdmin := WasAdmin(s.world, g.user, g.isAdminFails);
      var s1 := s.(mem := s.mem.(latched := s.mem.collectChanges, baselineLost := false));
      var record := NewRecord(s1.mem, g.user, wasAdmin, requestId, expires, g);
      PhaseStep(s.world.log, Opened(record));
      var s2 := s1.(world := Save(s1.world, Opened(record), true));
      PromoteKeepsStep(s2, record, g);
      assert Grant(s, requestId, expires, g) == Promote(s2, wasAdmin, requestId, expires, g);
    }
  }

  lemma PollKeepsStep(s: State, t: Tick)
    requires InStep(s) && s.running && Orderly(s, Poll(t))
    ensures InStep(PollOnce(s, t)) && PollOnce(s, t).running
  {
    hide Revoke, Grant, Interim, PhaseOf, Tracks;
    var s0 := s.(world := s.world.(budget := t.budget));
    if s0.mem.user != "" && LocalReason(s.mem, t) { RevokeKeepsStep(s0, t.revoking); }
    var s1 := LocalCheck(s, t);
    assert InStep(s1) && s1.world.budget >= 6 && (s1.mem.user != "" ==> s1.world.budget == t.budget);
    if t.reply.Some? {
      var r := t.reply.value;
      var s2 := ReadFlags(s1, r);
      assert InStep(s2) by { FlagsKeepStep(s1, r); }
      if s2.mem.user != "" && Withdrawn(s1.mem, r, t.replyNow) { RevokeKeepsStep(s2, t.revoking); }
      var s3 := RevokeIf(s2, Withdrawn(s1.mem, r, t.replyNow), t.revoking);
      assert s3.world.budget >= 6;
      if ApprovedNow(r, t.replyNow) && r.requestId != s3.mem.lastReq {
        GrantKeepsStep(s3, r.requestId, r.expiresAt, t.granting);
      }
      InterimKeepsStep(Settle(s1, r, t), t.windowNow, t.interim);
    }
  }

  lemma FlagsKeepStep(s: State, r: Reply)
    requires InStep(s)
    ensures InStep(ReadFlags(s, r))
  {
  }

  lemma RestartKeepsStep(s: State, loadFails: bool, now: Instant)
    requires InStep(s) && Resumes(s, loadFails)
    ensures InStep(RestartOnce(s, loadFails, now))
  {
  }

  /** Every orderly run follows the protocol: record, rights, report, windows against the saved baseline
      (or claiming nothing), revocation, exactly one final window if collection was latched at the grant and
      none otherwise, the record's clearing, report with the same id and the same captured flag. Server flags
      may flip at every poll; OS calls, sends, loads, saves and clears may fail throughout. */
  lemma {:induction false} SessionsFollowProtocol(inputs: seq<Input>, perm: set<string>)
    requires OrderlyRun(inputs, perm)
    ensures InStep(Run(Installed(true, perm), inputs))
    ensures var p := PhaseOf(Run(Installed(true, perm), inputs).world.log); p.Idle? || p.Held?
  {
    hide PollOnce, RestartOnce, PhaseOf, RightsSafety.SavesStandIn, Resumes;
    if inputs == [] {
      EmptyLog();
    } else {
      var n := |inputs| - 1;
      var front := inputs[..n];
      var s := Run(Installed(true, perm), front);
      assert forall i :: 0 <= i < n ==> front[i] == inputs[i] && front[..i] == inputs[..i];
      SessionsFollowProtocol(front, perm);
      match inputs[n] {
        case Poll(t) => if s.running { PollKeepsStep(s, t); }
        case Restart(loadFails, now) => RestartKeepsStep(s, loadFails, now);
      }
    }
  }

  // ---- Nothing is left behind where clearing works ----

  /** Every record that should go is gone. */
  predicate NothingBehind(s: State) { s.mem.user == "" ==> s.world.disk.None? }

  /** No crash inside a poll, clears work, and a restart can read the store. */
  predicate ClearsWork(input: Input) {
    match input
    case Poll(t) => t.budget >= AMPLE && t.revoking.clearOk && t.granting.undoOk
    case Restart(loadFails, _) => !loadFails
  }

  lemma RevokeClears(s: State, r: Revoking)
    requires s.durable && s.world.budget >= 4 && r.clearOk
    ensures NothingBehind(Revoke(s, r))
  {
    hide Emit;
    var s1 := TakeBack(s, r);
    EmitFrame(s1, true, SessionEnd(s1.mem, r.endNow), r.final);
  }

  lemma GrantClears(s: State, requestId: string, expires: Instant, g: Granting)
    requires s.durable && NothingBehind(s) && s.mem.user == "" && s.world.budget >= 4 && g.undoOk
    ensures NothingBehind(Grant(s, requestId, expires, g))
  {
  }

  lemma PollClears(s: State, t: Tick)
    requires InStep(s) && NothingBehind(s) && s.running && ClearsWork(Poll(t))
    ensures NothingBehind(PollOnce(s, t))
  {
    hide Revoke, Grant, Emit, PhaseOf;
    var s0 := s.(world := s.world.(budget := t.budget));
    RevokeFrame(s0, t.revoking);
    RevokeClears(s0, t.revoking);
    var s1 := LocalCheck(s, t);
    if t.reply.Some? {
      var r := t.reply.value;
      var s2 := ReadFlags(s1, r);
      RevokeFrame(s2, t.revoking);
      if s2.mem.user != "" { RevokeClears(s2, t.revoking); }
      var s3 := RevokeIf(s2, Withdrawn(s1.mem, r, t.replyNow), t.revoking);
      if ApprovedNow(r, t.replyNow) && r.requestId != s3.mem.lastReq {
        GrantClears(s3, r.requestId, r.expiresAt, t.granting);
      }
      InterimFrame(Settle(s1, r, t), t.windowNow, t.interim);
    }
  }

  /** Where every clear works and a restart can read the store, only a saved stand-in makes a run disorderly. */
  lemma {:induction false} WorkingClearsAreOrderly(inputs: seq<Input>, perm: set<string>)
    requires forall i :: 0 <= i < |inputs| ==> ClearsWork(inputs[i])
    requires forall i :: 0 <= i < |inputs| && inputs[i].Poll? ==>
        !RightsSafety.SavesStandIn(Run(Installed(true, perm), inputs[..i]), inputs[i].tick)
    ensures OrderlyRun(inputs, perm) && NothingBehind(Run(Installed(true, perm), inputs))
  {
    hide Step, Orderly, OrderlyRun, NothingBehind, InStep, ClearsWork, RightsSafety.SavesStandIn;
    if inputs == [] {
      NoneDisorderly(perm);
    } else {
      var n := |inputs| - 1;
      var front := inputs[..n];
      var s := Run(Installed(true, perm), front);
      assert forall i :: 0 <= i < n ==> front[i] == inputs[i] && front[..i] == inputs[..i];
      WorkingClearsAreOrderly(front, perm);
      SessionsFollowProtocol(front, perm);
      StepClears(s, inputs[n]);
      LongerOrderly(inputs, perm);
      assert Run(Installed(true, perm), inputs) == Step(s, inputs[n]);
    }
  }

  lemma NoneDisorderly(perm: set<string>)
    ensures OrderlyRun([], perm) && NothingBehind(Run(Installed(true, perm), []))
  {
  }

  lemma StepClears(s: State, input: Input)
    requires InStep(s) && NothingBehind(s) && ClearsWork(input)
    requires input.Poll? ==> !RightsSafety.SavesStandIn(s, input.tick)
    ensures Orderly(s, input) && NothingBehind(Step(s, input))
  {
    hide PollOnce, PhaseOf, RightsSafety.SavesStandIn;
    if input.Poll? && s.running { PollClears(s, input.tick); }
  }

  lemma LongerOrderly(inputs: seq<Input>, perm: set<string>)
    requires inputs != [] && OrderlyRun(inputs[..|inputs| - 1], perm)
    requires Orderly(Run(Installed(true, perm), inputs[..|inputs| - 1]), inputs[|inputs| - 1])
    ensures OrderlyRun(inputs, perm)
  {
    hide Run, Orderly;
    var front := inputs[..|inputs| - 1];
    assert forall i :: 0 <= i < |front| ==> front[i] == inputs[i] && front[..i] == inputs[..i];
  }

  lemma EmptyLog()
    ensures PhaseOf([]) == Idle
  {
  }

  // ---- What a poll may leave held ----

  /** The grant that was held survives the poll. */
  predicate Kept(s: State, t: Tick) {
    && s.mem.user != "" && !LocalReason(s.mem, t)
    && (t.reply.Some? ==> !Withdrawn(s.mem, t.reply.value, t.replyNow))
  }

  /** A new grant comes into force. */
  predicate Granted(s: State, t: Tick) {
    && t.reply.Some? && ApprovedNow(t.reply.value, t.replyNow) && t.reply.value.requestId != s.mem.lastReq
    && t.granting.probed && t.granting.user != "" && t.granting.fate.Done? && (s.durable ==> t.granting.saveOk)
  }

  lemma EmitFrame(s: State, final: bool, sessionEnd: Instant, e: Emission)
    ensures var x := Emit(s, final, sessionEnd, e);
            && x.mem == s.mem.(nextWindowAt := x.mem.nextWindowAt) && x.durable == s.durable
            && x.world.budget + (if final then 1 else 2) >= s.world.budget
  {
    hide WindowFor, DigestOf;
    var s1 := s.(mem := s.mem.(nextWindowAt := e.now + s.mem.interval));
    var (base, lost) := LoadBaseline(s1, e.loadFails);
    FrameOfWindow(Some(base), InventoryAt(e), WindowInput(Int32(base.windowSeq + 1), final, e.now, sessionEnd, lost),
        e.prefer);
  }

  lemma RevokeFrame(s: State, r: Revoking)
    ensures var x := Revoke(s, r);
            && x.mem.user == "" && x.mem.lastReq == s.mem.lastReq && x.durable == s.durable
            && x.world.budget + 4 >= s.world.budget
  {
    hide Emit;
    var s1 := TakeBack(s, r);
    EmitFrame(s1, true, SessionEnd(s1.mem, r.endNow), r.final);
  }

  lemma GrantFrame(s: State, requestId: string, expires: Instant, g: Granting)
    requires s.mem.user == "" && s.world.budget >= 4
    ensures var x := Grant(s, requestId, expires, g);
            && x.world.budget + 3 >= s.world.budget && x.durable == s.durable
            && (x.mem.user != "" <==> g.probed && g.user != "" && g.fate.Done? && (s.durable ==> g.saveOk))
            && (x.mem.user != "" ==> x.mem.user == g.user && x.mem.lastReq == requestId && x.mem.expires == expires)
            && (x.mem.user == "" ==> x.mem.lastReq == s.mem.lastReq)
  {
  }

  lemma InterimFrame(s: State, now: Instant, e: Emission)
    ensures var x := Interim(s, now, e);
            x.mem == s.mem.(nextWindowAt := x.mem.nextWindowAt) && x.world.budget + 2 >= s.world.budget
  {
    hide Emit;
    EmitFrame(s, false, 0, e);
  }

  /** A poll without a crash ends holding exactly the old grant, if neither the local check nor the
      answer took it away, or exactly the new one the answer names. A grant is only ever entered with
      empty hands. */
  lemma PollHoldsExactly(s: State, t: Tick)
    requires s.running && t.budget >= AMPLE
    ensures PollOnce(s, t).running
    ensures var x := PollOnce(s, t).mem;
            && (x.user != "" <==> Kept(s, t) || Granted(s, t))
            && (Kept(s, t) ==> x.user == s.mem.user && x.lastReq == s.mem.lastReq && x.expires == s.mem.expires)
            && (Granted(s, t) ==> x.user == t.granting.user && x.lastReq == t.reply.value.requestId)
            && (x.user != "" && t.reply.Some? ==>
                 ApprovedNow(t.reply.value, t.replyNow) && t.reply.value.requestId == x.lastReq)
    ensures t.reply.Some? ==>
              var s1 := LocalCheck(s, t);
              var s2 := RevokeIf(ReadFlags(s1, t.reply.value), Withdrawn(s1.mem, t.reply.value, t.replyNow),
                  t.revoking);
              ApprovedNow(t.reply.value, t.replyNow) && t.reply.value.requestId != s2.mem.lastReq ==> s2.mem.user == ""
  {
    hide Revoke, Grant, Interim;
    var s0 := s.(world := s.world.(budget := t.budget));
    RevokeFrame(s0, t.revoking);
    var s1 := LocalCheck(s, t);
    if t.reply.Some? {
      var r := t.reply.value;
      var s2 := ReadFlags(s1, r);
      RevokeFrame(s2, t.revoking);
      var s3 := RevokeIf(s2, Withdrawn(s1.mem, r, t.replyNow), t.revoking);
      if ApprovedNow(r, t.replyNow) && r.requestId != s3.mem.lastReq {
        GrantFrame(s3, r.requestId, r.expiresAt, t.granting);
      }
      InterimFrame(Settle(s1, r, t), t.windowNow, t.interim);
    }
  }
}
