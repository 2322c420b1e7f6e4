/** Lost windows heal: what delivery failures can and cannot change about a session. */
module SelfHealing {
  import opened Ordering
  import opened Changes
  import opened Evidence
  import opened Sessions
  import WindowLaws
  import SessionTrace
  import RightsSafety

  // ---- Window numbers never run ahead of deliveries ----

  /** Windows delivered since the last session record was opened. */
  function Deliveries(log: seq<Event>): nat {
    if log == [] then 0
    else
      match log[|log| - 1]
      case Opened(_) => 0
      case WindowTried(_, _, _, delivered) => Deliveries(log[..|log| - 1]) + (if delivered then 1 else 0)
      case _ => Deliveries(log[..|log| - 1])
  }

  lemma DeliveriesStep(log: seq<Event>, e: Event)
    ensures Deliveries(log + [e]) ==
              if e.Opened? then 0 else Deliveries(log) + if e.WindowTried? && e.delivered then 1 else 0
  {
    assert (log + [e])[..|log|] == log;
  }

  /** No window ever carries a number beyond the deliveries before it, plus one. */
  predicate Numbered(log: seq<Event>) {
    forall i :: 0 <= i < |log| && log[i].WindowTried? ==> log[i].window.seqNo <= 1 + Deliveries(log[..i])
  }

  lemma NumberedStep(log: seq<Event>, e: Event)
    requires Numbered(log) && (e.WindowTried? ==> e.window.seqNo <= 1 + Deliveries(log))
    ensures Numbered(log + [e])
  {
    var longer := log + [e];
    forall i | 0 <= i < |longer| && longer[i].WindowTried?
        ensures longer[i].window.seqNo <= 1 + Deliveries(longer[..i]) {
      assert longer[..i] == log[..i];
      if i == |log| { assert log[..i] == log; }
    }
  }

  predicate InNumber(w: World) {
    && Numbered(w.log)
    && (w.disk.Some? ==> -TWO_31 <= w.disk.value.windowSeq <= Deliveries(w.log))
  }

  lemma Int32Below(n: int)
    requires n >= -TWO_31
    ensures -TWO_31 <= Int32(n) <= n
  {
  }

  lemma DeliverInNumber(s: State, w: Window, base: SessionState, lost: bool, sendOk: bool, saveOk: bool)
    requires InNumber(s.world) && -TWO_31 <= w.seqNo <= 1 + Deliveries(s.world.log)
    ensures InNumber(Deliver(s, w, base, lost, sendOk, saveOk).world)
  {
    hide DigestOf, Numbered, Deliveries;
    var log := s.world.log;
    var tried := WindowTried(w, base, lost, sendOk);
    DeliveriesStep(log, tried);
    NumberedStep(log, tried);
    var x := RecordSaved(base.(windowSeq := w.seqNo, lastDigest := Some(DigestOf(w))));
    DeliveriesStep(log + [tried], x);
    NumberedStep(log + [tried], x);
  }

  lemma EmitInNumber(s: State, final: bool, sessionEnd: Instant, e: Emission)
    requires InNumber(s.world)
    ensures InNumber(Emit(s, final, sessionEnd, e).world)
  {
    hide WindowFor, Deliver, Numbered, Deliveries, Int32;
    if s.mem.latched {
      var s1 := s.(mem := s.mem.(nextWindowAt := e.now + s.mem.interval));
      var (base, lost) := LoadBaseline(s1, e.loadFails);
      FrameOfWindow(Some(base), InventoryAt(e),
          WindowInput(Int32(base.windowSeq + 1), final, e.now, sessionEnd, lost), e.prefer);
      Int32Below(base.windowSeq + 1);
      DeliverInNumber(s1, WindowOf(base, lost, final, sessionEnd, e), base, lost, e.sendOk, e.saveOk);
    }
  }

  lemma QuietEvent(w: World, e: Event)
    requires InNumber(w) && !e.WindowTried? && (e.Opened? ==> e.record.windowSeq == 0)
    ensures Numbered(w.log + [e])
    ensures Deliveries(w.log + [e]) == if e.Opened? then 0 else Deliveries(w.log)
  {
    DeliveriesStep(w.log, e);
    NumberedStep(w.log, e);
  }

  lemma RevokeInNumber(s: State, r: Revoking)
    requires InNumber(s.world)
    ensures InNumber(Revoke(s, r).world)
  {
    hide Emit, Numbered, Deliveries;
    var s1 := TakeBack(s, r);
    QuietEvent(s.world, RevokeTried(s.mem.user, r.fate));
    assert InNumber(s1.world);
    var s2 := Emit(s1, true, SessionEnd(s1.mem, r.endNow), r.final);
    EmitInNumber(s1, true, SessionEnd(s1.mem, r.endNow), r.final);
    var cleared := if s2.durable then Clear(s2.world, r.clearOk) else s2.world;
    QuietEvent(s2.world, Cleared(r.clearOk));
    assert InNumber(cleared);
    QuietEvent(cleared, Reported(s.mem.lastReq, false, Captured(s.mem)));
  }

  lemma GrantInNumber(s: State, requestId: string, expires: Instant, g: Granting)
    requires InNumber(s.world)
    ensures InNumber(Grant(s, requestId, expires, g).world)
  {
    hide Numbered, Deliveries, Promote;
    var wasAdmin := WasAdmin(s.world, g.user, g.isAdminFails);
    var s1 := s.(mem := s.mem.(latched := s.mem.collectChanges));
    var record := NewRecord(s1.mem, g.user, wasAdmin, requestId, expires, g);
    QuietEvent(s.world, Opened(record));
    var s2 := if s.durable then s1.(mem := s1.mem.(baselineLost := false),
        world := Save(s1.world, Opened(record), g.saveOk))
              else s1.(mem := s1.mem.(baselineLost := true));
    PromoteInNumber(s2, wasAdmin, requestId, expires, g);
  }

  lemma PromoteInNumber(s: State, wasAdmin: bool, requestId: string, expires: Instant, g: Granting)
    requires InNumber(s.world)
    ensures InNumber(Promote(s, wasAdmin, requestId, expires, g).world)
  {
    hide Numbered, Deliveries;
    QuietEvent(s.world, GrantTried(g.user, g.fate));
    var tried := OsGrant(s.world, g.user, g.fate);
    QuietEvent(tried, Cleared(g.undoOk));
    forall b { QuietEvent(tried, Reported(requestId, true, b)); }
  }

  lemma PollInNumber(s: State, t: Tick)
    requires InNumber(s.world)
    ensures InNumber(PollOnce(s, t).world)
  {
    hide Revoke, Grant, Emit, Numbered, Deliveries;
    var s0 := s.(world := s.world.(budget := t.budget));
    RevokeInNumber(s0, t.revoking);
    var s1 := LocalCheck(s, t);
    if t.reply.Some? {
      var r := t.reply.value;
      var s2 := ReadFlags(s1, r);
      RevokeInNumber(s2, t.revoking);
      var s3 := RevokeIf(s2, Withdrawn(s1.mem, r, t.replyNow), t.revoking);
      GrantInNumber(s3, r.requestId, r.expiresAt, t.granting);
      EmitInNumber(Settle(s1, r, t), false, 0, t.interim);
    }
  }

  /** In every run, whatever fails and wherever it crashes or restarts, the number of each window
      tried is at most one more than the windows delivered before it in its session. */
  lemma {:induction false} NumbersNeverRunAhead(inputs: seq<Input>, durable: bool, perm: set<string>)
    ensures InNumber(Run(Installed(durable, perm), inputs).world)
  {
    hide PollOnce, Numbered, Deliveries;
    if inputs == [] {
      EmptyNumbered();
    } else {
      NumbersNeverRunAhead(inputs[..|inputs| - 1], durable, perm);
      var s := Run(Installed(durable, perm), inputs[..|inputs| - 1]);
      match inputs[|inputs| - 1] {
        case Poll(t) => PollInNumber(s, t);
        case Restart(_, _) =>
      }
    }
  }

  lemma EmptyNumbered()
    ensures Numbered([])
  {
  }

  // ---- Two runs that differ only in what got through ----

  /** The two records are one but for the window number and digest. */
  predicate AlikeRecords(a: Option<SessionState>, b: Option<SessionState>) {
    if a.None? || b.None? then a == b
    else SessionTrace.SameSession(a.value, b.value)
  }

  function Bare(x: SessionState): SessionState { x.(windowSeq := 0, lastDigest := None) }

  /** What of an event does not depend on interim windows: their traces vanish, a final window keeps
      everything but its number and its luck. */
  function Essence(e: Event): seq<Event> {
    match e
    case WindowTried(w, base, lost, _) => if w.final then [WindowTried(w.(seqNo := 0), Bare(base), lost, true)] else []
    case RecordSaved(_) => []
    case _ => [e]
  }

  function Outline(log: seq<Event>): seq<Event> {
    if log == [] then [] else Outline(log[..|log| - 1]) + Essence(log[|log| - 1])
  }

  lemma OutlineStep(log: seq<Event>, e: Event)
    ensures Outline(log + [e]) == Outline(log) + Essence(e)
  {
    assert (log + [e])[..|log|] == log;
  }

  predicate AlikeWorlds(a: World, b: World) {
    && a.group == b.group && AlikeRecords(a.disk, b.disk) && Outline(a.log) == Outline(b.log) && a.budget == b.budget
  }

  predicate Alike(a: State, b: State) {
    a.durable == b.durable && a.mem == b.mem && AlikeWorlds(a.world, b.world)
  }

  /** The same effect performed in two alike worlds leaves them alike. */
  lemma EffectsAlike(a: World, b: World, user: string, fate: OsFate, ok: bool, id: string, flag: bool)
    requires AlikeWorlds(a, b)
    ensures AlikeWorlds(OsGrant(a, user, fate), OsGrant(b, user, fate))
    ensures AlikeWorlds(OsRevoke(a, user, fate), OsRevoke(b, user, fate))
    ensures AlikeWorlds(Clear(a, ok), Clear(b, ok))
    ensures AlikeWorlds(Report(a, id, flag, ok), Report(b, id, flag, ok))
  {
    hide Outline, AlikeRecords;
    NoRecordsAlike();
    OutlineStep(a.log, GrantTried(user, fate));
    OutlineStep(b.log, GrantTried(user, fate));
    OutlineStep(a.log, RevokeTried(user, fate));
    OutlineStep(b.log, RevokeTried(user, fate));
    OutlineStep(a.log, Cleared(ok));
    OutlineStep(b.log, Cleared(ok));
    OutlineStep(a.log, Reported(id, flag, ok));
    OutlineStep(b.log, Reported(id, flag, ok));
  }

  lemma OpeningsAlike(a: World, b: World, record: SessionState, ok: bool)
    requires AlikeWorlds(a, b)
    ensures AlikeWorlds(Save(a, Opened(record), ok), Save(b, Opened(record), ok))
  {
    hide Outline, AlikeRecords;
    RecordsAlike(record);
    OutlineStep(a.log, Opened(record));
    OutlineStep(b.log, Opened(record));
  }

  lemma FinalSendsAlike(a: World, b: World, w: Window, v: Window, x: SessionState, y: SessionState, lost: bool,
                        p: bool, q: bool)
    requires AlikeWorlds(a, b) && w.final && v == w.(seqNo := v.seqNo) && Bare(x) == Bare(y)
    ensures AlikeWorlds(Send(a, w, x, lost, p), Send(b, v, y, lost, q))
  {
    hide Outline, AlikeRecords;
    OutlineStep(a.log, WindowTried(w, x, lost, p));
    OutlineStep(b.log, WindowTried(v, y, lost, q));
  }

  lemma SameLife(a: World, b: World)
    requires AlikeWorlds(a, b)
    ensures Alive(a) == Alive(b) && a.group == b.group
  {
  }

  lemma NoRecordsAlike()
    ensures AlikeRecords(None, None)
  {
  }

  lemma RecordsAlike(x: SessionState)
    ensures AlikeRecords(Some(x), Some(x))
  {
  }

  /** The two polls see the same world, except that sends fare differently and window numbers are or
      are not saved. */
  predicate SameButDelivery(t: Tick, u: Tick) {
    u == t.(revoking := t.revoking.(final := t.revoking.final.(sendOk := u.revoking.final.sendOk)),
            interim := t.interim.(sendOk := u.interim.sendOk, saveOk := u.interim.saveOk))
  }

  predicate Parallel(i: Input, j: Input) {
    match i
    case Poll(t) => j.Poll? && SameButDelivery(t, j.tick)
    case Restart(_, _) => i == j
  }

  /** The baselines read back are alike. */
  lemma AlikeBaselines(a: State, b: State, loadFails: bool)
    requires Alike(a, b)
    ensures Unreadable(a, loadFails) == Unreadable(b, loadFails)
    ensures var (x, l) := LoadBaseline(a, loadFails);
            var (y, m) := LoadBaseline(b, loadFails);
            l == m && SessionTrace.SameSession(x, y)
  {
  }

  lemma SameSessionSameBare(x: SessionState, y: SessionState)
    requires SessionTrace.SameSession(x, y)
    ensures Bare(x) == Bare(y)
  {
  }

  /** Final windows are equal in every field but the number. */
  lemma FinalWindowsEqual(x: SessionState, y: SessionState, lost: bool, sessionEnd: Instant, e: Emission)
    requires SessionTrace.SameSession(x, y)
    ensures var w, v := WindowOf(x, lost, true, sessionEnd, e), WindowOf(y, lost, true, sessionEnd, e);
            v == w.(seqNo := v.seqNo) && w.final && v.final
  {
    hide WindowFor;
    var input := WindowInput(Int32(x.windowSeq + 1), true, e.now, sessionEnd, lost);
    WindowLaws.WindowIgnoresBookkeeping(x, y, InventoryAt(e), input, Int32(y.windowSeq + 1), e.prefer);
    FrameOfWindow(Some(x), InventoryAt(e), input, e.prefer);
  }

  lemma FinalWindowsAlike(a: State, b: State, sessionEnd: Instant, e: Emission, f: Emission)
    requires Alike(a, b) && f == e.(sendOk := f.sendOk)
    ensures Alike(Emit(a, true, sessionEnd, e), Emit(b, true, sessionEnd, f))
  {
    hide WindowOf, DigestOf, LoadBaseline, SessionTrace.SameSession, AlikeWorlds, Send;
    if a.mem.latched {
      var m := a.mem.(nextWindowAt := e.now + a.mem.interval);
      var a1, b1 := a.(mem := m), b.(mem := m);
      AlikeBaselines(a1, b1, e.loadFails);
      var (x, l) := LoadBaseline(a1, e.loadFails);
      var (y, k) := LoadBaseline(b1, e.loadFails);
      FinalWindowsEqual(x, y, l, sessionEnd, e);
      SameSessionSameBare(x, y);
      var w, v := WindowOf(x, l, true, sessionEnd, e), WindowOf(y, l, true, sessionEnd, e);
      LuckIrrelevant(y, l, sessionEnd, e, f);
      FinalSendsAlike(a.world, b.world, w, v, x, y, l, e.sendOk, f.sendOk);
      assert Emit(a, true, sessionEnd, e) == a1.(world := Send(a.world, w, x, l, e.sendOk));
      assert Emit(b, true, sessionEnd, f) == b1.(world := Send(b.world, v, y, l, f.sendOk));
    }
  }

  lemma LuckIrrelevant(y: SessionState, lost: bool, sessionEnd: Instant, e: Emission, f: Emission)
    requires f == e.(sendOk := f.sendOk)
    ensures WindowOf(y, lost, true, sessionEnd, f) == WindowOf(y, lost, true, sessionEnd, e)
  {
    hide WindowFor;
  }

  lemma ClosingsAlike(a: State, b: State, r: Revoking, q: Revoking, id: string, captured: bool)
    requires Alike(a, b) && q.clearOk == r.clearOk
    ensures Alike(Close(a, r, id, captured), Close(b, q, id, captured))
  {
    hide AlikeWorlds, Clear, Report;
    EffectsAlike(a.world, b.world, "", Done, r.clearOk, "", true);
    var x := if a.durable then Clear(a.world, r.clearOk) else a.world;
    var y := if b.durable then Clear(b.world, q.clearOk) else b.world;
    EffectsAlike(x, y, "", Done, captured, id, false);
  }

  lemma RevocationsAlike(a: State, b: State, r: Revoking, q: Revoking)
    requires Alike(a, b) && q == r.(final := r.final.(sendOk := q.final.sendOk))
    ensures Alike(Revoke(a, r), Revoke(b, q))
  {
    hide Emit, AlikeWorlds, OsRevoke, Close;
    EffectsAlike(a.world, b.world, a.mem.user, r.fate, true, "", true);
    var a1, b1 := TakeBack(a, r), TakeBack(b, q);
    var end := SessionEnd(a1.mem, r.endNow);
    FinalWindowsAlike(a1, b1, end, r.final, q.final);
    ClosingsAlike(Emit(a1, true, end, r.final), Emit(b1, true, end, q.final), r, q, a.mem.lastReq, Captured(a.mem));
  }

  lemma HoldsAlike(a: State, b: State, wasAdmin: bool, requestId: string, expires: Instant, g: Granting)
    requires Alike(a, b)
    ensures Alike(Hold(a, wasAdmin, requestId, expires, g), Hold(b, wasAdmin, requestId, expires, g))
  {
    hide AlikeWorlds, Report;
    var m := Hold(a, wasAdmin, requestId, expires, g).mem;
    EffectsAlike(a.world, b.world, "", Done, Captured(m), requestId, true);
  }

  lemma PromotionsAlike(a: State, b: State, wasAdmin: bool, requestId: string, expires: Instant, g: Granting)
    requires Alike(a, b)
    ensures Alike(Promote(a, wasAdmin, requestId, expires, g), Promote(b, wasAdmin, requestId, expires, g))
  {
    hide AlikeWorlds, Clear, Report, OsGrant, Hold, Alive;
    SameLife(a.world, b.world);
    EffectsAlike(a.world, b.world, g.user, g.fate, true, "", true);
    var x, y := OsGrant(a.world, g.user, g.fate), OsGrant(b.world, g.user, g.fate);
    if Alive(a.world) && g.fate.Done? {
      HoldsAlike(a.(world := x), b.(world := y), wasAdmin, requestId, expires, g);
    } else {
      EffectsAlike(x, y, "", g.fate, g.undoOk, "", true);
    }
  }

  lemma GrantsAlike(a: State, b: State, requestId: string, expires: Instant, g: Granting)
    requires Alike(a, b)
    ensures Alike(Grant(a, requestId, expires, g), Grant(b, requestId, expires, g))
  {
    hide AlikeWorlds, Promote, Save;
    SameLife(a.world, b.world);
    var wasAdmin := WasAdmin(a.world, g.user, g.isAdminFails);
    var a1 := a.(mem := a.mem.(latched := a.mem.collectChanges));
    var b1 := b.(mem := a1.mem);
    var record := NewRecord(a1.mem, g.user, wasAdmin, requestId, expires, g);
    OpeningsAlike(a.world, b.world, record, g.saveOk);
    var a2 := if a.durable then a1.(mem := a1.mem.(baselineLost := false),
        world := Save(a1.world, Opened(record), g.saveOk))
              else a1.(mem := a1.mem.(baselineLost := true));
    var b2 := if b.durable then b1.(mem := b1.mem.(baselineLost := false),
        world := Save(b1.world, Opened(record), g.saveOk))
              else b1.(mem := b1.mem.(baselineLost := true));
    PromotionsAlike(a2, b2, wasAdmin, requestId, expires, g);
  }

  /** Alike but for the effects still to come. */
  predicate AlikeAtRest(a: State, b: State) {
    && a.durable == b.durable && a.mem == b.mem && a.running == b.running
    && a.world.group == b.world.group && AlikeRecords(a.world.disk, b.world.disk)
    && Outline(a.world.log) == Outline(b.world.log)
  }

  /** An interim window leaves no trace in the outline. */
  lemma InterimLeavesOutline(a: State, e: Emission)
    ensures var x := Emit(a, false, 0, e);
            && Outline(x.world.log) == Outline(a.world.log)
            && x.world.group == a.world.group && x.durable == a.durable
            && x.mem == if a.mem.latched then a.mem.(nextWindowAt := e.now + a.mem.interval) else a.mem
  {
    hide WindowFor, Outline, DigestOf, LoadBaseline, WindowOf, Deliver;
    if a.mem.latched {
      var a1 := a.(mem := a.mem.(nextWindowAt := e.now + a.mem.interval));
      var (base, lost) := LoadBaseline(a1, e.loadFails);
      var w := WindowOf(base, lost, false, 0, e);
      RightsSafety.WindowFinality(base, lost, false, 0, e);
      DeliveryLeavesOutline(a1, w, base, lost, e.sendOk, e.saveOk);
    }
  }

  lemma DeliveryLeavesOutline(a: State, w: Window, base: SessionState, lost: bool, sendOk: bool, saveOk: bool)
    requires !w.final
    ensures var x := Deliver(a, w, base, lost, sendOk, saveOk);
            && Outline(x.world.log) == Outline(a.world.log)
            && x.world.group == a.world.group && x.durable == a.durable && x.mem == a.mem
  {
    hide Outline, DigestOf;
    var tried := WindowTried(w, base, lost, sendOk);
    OutlineStep(a.world.log, tried);
    forall x: SessionState { OutlineStep(a.world.log + [tried], RecordSaved(x)); }
  }

  /** A process that holds a grant has its record. */
  predicate Recorded(s: State) {
    s.durable && s.mem.user != "" ==> s.mem.lastReq != "" && s.world.disk.Some? && s.world.disk.value.requestId != ""
  }

  /** The interim window replaces the record by a stand-in that says something else. */
  predicate Spoils(s: State, now: Instant, e: Emission) {
    && RightsSafety.Overwrites(s, now, e)
    && s.world.disk.Some? && !SessionTrace.SameSession(s.world.disk.value, Fallback(s.mem))
  }

  /** What an interim window makes of the record. */
  lemma InterimRecord(s: State, now: Instant, e: Emission)
    requires Alive(s.world) ==> Recorded(s)
    ensures var x := Interim(s, now, e);
            if Spoils(s, now, e) then AlikeRecords(x.world.disk, Some(Fallback(s.mem)))
            else AlikeRecords(x.world.disk, s.world.disk)
    ensures Alive(Interim(s, now, e).world) ==> Recorded(Interim(s, now, e))
  {
    hide WindowFor, DigestOf, Outline;
    if WindowDue(s.mem, now) {
      RightsSafety.EmitKeepsRecord(s, false, 0, e);
      if !Alive(s.world) {
        RightsSafety.DeadEmit(s, false, 0, e);
      } else if s.mem.latched && Unreadable(s, e.loadFails) {
        var s1 := s.(mem := s.mem.(nextWindowAt := e.now + s.mem.interval));
        RightsSafety.WindowFinality(Fallback(s.mem), true, false, 0, e);
        RightsSafety.StandInDelivered(s1, WindowOf(Fallback(s.mem), true, false, 0, e), e);
      }
    }
  }

  /** Sends that fare differently leave the records alike if and only if both windows spoil the record or
      neither does. */
  lemma InterimWindowsAlikeExactly(a: State, b: State, now: Instant, e: Emission, f: Emission)
    requires Alike(a, b) && (Alive(a.world) ==> Recorded(a)) && f == e.(sendOk := f.sendOk, saveOk := f.saveOk)
    ensures var x, y := Interim(a, now, e), Interim(b, now, f);
            && x.durable == y.durable && x.mem == y.mem && x.world.group == y.world.group
            && Outline(x.world.log) == Outline(y.world.log)
            && (AlikeRecords(x.world.disk, y.world.disk) <==> (Spoils(a, now, e) <==> Spoils(b, now, f)))
  {
    hide Emit, Outline;
    if WindowDue(a.mem, now) {
      InterimLeavesOutline(a, e);
      InterimLeavesOutline(b, f);
    }
    assert Alive(b.world) ==> Recorded(b);
    InterimRecord(a, now, e);
    InterimRecord(b, now, f);
  }

  /** Revoking and granting keep a record behind every grant that is held. */
  lemma RevokeRecorded(s: State, r: Revoking)
    ensures Recorded(Revoke(s, r))
  {
    hide Emit;
  }

  lemma GrantRecorded(s: State, requestId: string, expires: Instant, g: Granting)
    requires s.mem.user == "" && requestId != ""
    ensures Recorded(Grant(s, requestId, expires, g)) || !Alive(Grant(s, requestId, expires, g).world)
  {
  }

  lemma SettledAlike(a: State, b: State, t: Tick, u: Tick)
    requires AlikeAtRest(a, b) && a.running && Recorded(a) && SameButDelivery(t, u)
    ensures var x, y := LocalCheck(a, t), LocalCheck(b, u); Alike(x, y) && Recorded(x)
    ensures t.reply.Some? ==>
              var x, y := Settle(LocalCheck(a, t), t.reply.value, t), Settle(LocalCheck(b, u), t.reply.value, u);
              Alike(x, y) && (Alive(x.world) ==> Recorded(x))
  {
    hide Revoke, Grant, Interim, AlikeRecords, Outline, Withdrawn, ApprovedNow;
    var a0, b0 := a.(world := a.world.(budget := t.budget)), b.(world := b.world.(budget := u.budget));
    assert Alike(a0, b0);
    RevocationsAlike(a0, b0, t.revoking, u.revoking);
    RevokeRecorded(a0, t.revoking);
    SessionTrace.RevokeFrame(a0, t.revoking);
    var a1, b1 := LocalCheck(a, t), LocalCheck(b, u);
    if t.reply.Some? {
      var r := t.reply.value;
      var a2, b2 := ReadFlags(a1, r), ReadFlags(b1, r);
      assert Alike(a2, b2);
      RevocationsAlike(a2, b2, t.revoking, u.revoking);
      RevokeRecorded(a2, t.revoking);
      SessionTrace.RevokeFrame(a2, t.revoking);
      var a3 := RevokeIf(a2, Withdrawn(a1.mem, r, t.replyNow), t.revoking);
      var b3 := RevokeIf(b2, Withdrawn(b1.mem, r, t.replyNow), u.revoking);
      assert Alike(a3, b3) && Recorded(a3);
      GrantsAlike(a3, b3, r.requestId, r.expiresAt, t.granting);
      if ApprovedNow(r, t.replyNow) && r.requestId != a3.mem.lastReq {
        EmptyHanded(a2, a1.mem, r, t);
        GrantRecorded(a3, r.requestId, r.expiresAt, t.granting);
      }
    }
  }

  /** Whoever reaches the grant branch holds nothing. */
  lemma EmptyHanded(s: State, m: Memory, r: Reply, t: Tick)
    requires s.mem.lastReq == m.lastReq && s.mem.user == m.user
    ensures var x := RevokeIf(s, Withdrawn(m, r, t.replyNow), t.revoking);
            ApprovedNow(r, t.replyNow) && r.requestId != x.mem.lastReq ==> x.mem.user == "" && r.requestId != ""
  {
    hide Revoke;
    SessionTrace.RevokeFrame(s, t.revoking);
  }

  /** The poll's interim window spoils the record. */
  ghost predicate SpoilsRecord(s: State, t: Tick) {
    t.reply.Some? && Spoils(Settle(LocalCheck(s, t), t.reply.value, t), t.windowNow, t.interim)
  }

  /** Both polls spoil the record or neither does, and both processes live on or neither does. */
  ghost predicate FareAlike(a: State, b: State, t: Tick, u: Tick) {
    (SpoilsRecord(a, t) <==> SpoilsRecord(b, u)) && PollOnce(a, t).running == PollOnce(b, u).running
  }

  /** Two polls that see the same world but for deliveries, crashes and unreadable records included, end alike
      if and only if they fare alike. */
  lemma PollsAlikeExactly(a: State, b: State, t: Tick, u: Tick)
    requires AlikeAtRest(a, b) && a.running && Recorded(a) && SameButDelivery(t, u)
    ensures AlikeAtRest(PollOnce(a, t), PollOnce(b, u)) <==> FareAlike(a, b, t, u)
    ensures PollOnce(a, t).running ==> Recorded(PollOnce(a, t))
  {
    hide LocalCheck, Settle, Interim, AlikeRecords, Outline, Spoils;
    SettledAlike(a, b, t, u);
    if t.reply.Some? {
      var x, y := Settle(LocalCheck(a, t), t.reply.value, t), Settle(LocalCheck(b, u), t.reply.value, u);
      InterimWindowsAlikeExactly(x, y, t.windowNow, t.interim, u.interim);
      InterimRecord(x, t.windowNow, t.interim);
    }
  }

  ghost predicate StepsFareAlike(a: State, b: State, i: Input, j: Input) {
    i.Poll? && j.Poll? && a.running ==> FareAlike(a, b, i.tick, j.tick)
  }

  ghost predicate FareAlikeThroughout(ins: seq<Input>, jns: seq<Input>, durable: bool, perm: set<string>)
    requires |ins| == |jns|
  {
    forall n :: 0 <= n < |ins| ==>
      StepsFareAlike(Run(Installed(durable, perm), ins[..n]), Run(Installed(durable, perm), jns[..n]), ins[n], jns[n])
  }

  ghost predicate AlikeThroughout(ins: seq<Input>, jns: seq<Input>, durable: bool, perm: set<string>)
    requires |ins| == |jns|
  {
    forall n :: 0 <= n <= |ins| ==>
      AlikeAtRest(Run(Installed(durable, perm), ins[..n]), Run(Installed(durable, perm), jns[..n]))
  }

  /** Two runs that meet the same world but for deliveries tell the same story at every step (the same
      grants, revocations, reports and records, and final windows equal in every field but Seq) if and only if
      no step of one spoils the record, or dies, alone. */
  lemma {:induction false} LostWindowsHealExactly(ins: seq<Input>, jns: seq<Input>, durable: bool, perm: set<string>)
    requires |ins| == |jns| && forall i :: 0 <= i < |ins| ==> Parallel(ins[i], jns[i])
    ensures AlikeThroughout(ins, jns, durable, perm) <==> FareAlikeThroughout(ins, jns, durable, perm)
    ensures FareAlikeThroughout(ins, jns, durable, perm) && Run(Installed(durable, perm), ins).running ==>
        Recorded(Run(Installed(durable, perm), ins))
  {
    hide Run, AlikeAtRest, StepsFareAlike, Parallel;
    if ins == [] {
      InstalledAlike(ins, jns, durable, perm);
    } else {
      var n := |ins| - 1;
      LostWindowsHealExactly(ins[..n], jns[..n], durable, perm);
      assert forall i :: 0 <= i <= n ==> ins[..n][..i] == ins[..i] && jns[..n][..i] == jns[..i];
      assert ins[..n + 1] == ins && jns[..n + 1] == jns && ins[..n][..n] == ins[..n] && jns[..n][..n] == jns[..n];
      var s := Installed(durable, perm);
      if AlikeAtRest(Run(s, ins[..n]), Run(s, jns[..n])) && (Run(s, ins[..n]).running ==> Recorded(Run(s, ins[..n]))) {
        StepAlikeExactly(Run(s, ins[..n]), Run(s, jns[..n]), ins[n], jns[n]);
        RunStep(s, ins);
        RunStep(s, jns);
      }
    }
  }

  /** In particular lost windows heal in every run without crashes inside a poll in which every interim window
      can read its record. */
  lemma ReadableRecordsHeal(ins: seq<Input>, jns: seq<Input>, durable: bool, perm: set<string>)
    requires |ins| == |jns| && forall i :: 0 <= i < |ins| ==> Parallel(ins[i], jns[i])
    requires forall i :: 0 <= i < |ins| && ins[i].Poll? ==>
               ins[i].tick.budget >= SessionTrace.AMPLE && !ins[i].tick.interim.loadFails
    ensures AlikeThroughout(ins, jns, durable, perm)
    ensures AlikeAtRest(Run(Installed(durable, perm), ins), Run(Installed(durable, perm), jns))
  {
    hide Parallel, Run, AlikeAtRest, FareAlikeThroughout;
    ReadableRunsFareAlike(ins, jns, |ins|, durable, perm);
    assert ins[..|ins|] == ins && jns[..|jns|] == jns;
    LostWindowsHealExactly(ins, jns, durable, perm);
  }

  lemma {:induction false} ReadableRunsFareAlike(ins: seq<Input>, jns: seq<Input>, n: nat, durable: bool,
                                                 perm: set<string>)
    requires |ins| == |jns| && n <= |ins| && forall i :: 0 <= i < |ins| ==> Parallel(ins[i], jns[i])
    requires forall i :: 0 <= i < |ins| && ins[i].Poll? ==>
               ins[i].tick.budget >= SessionTrace.AMPLE && !ins[i].tick.interim.loadFails
    ensures FareAlikeThroughout(ins[..n], jns[..n], durable, perm)
  {
    hide Parallel, Run, StepsFareAlike;
    if n > 0 {
      ReadableRunsFareAlike(ins, jns, n - 1, durable, perm);
      ReadableStep(ins, jns, n - 1, durable, perm);
    }
  }

  lemma ReadableStep(ins: seq<Input>, jns: seq<Input>, n: nat, durable: bool, perm: set<string>)
    requires |ins| == |jns| && n < |ins| && forall i :: 0 <= i < |ins| ==> Parallel(ins[i], jns[i])
    requires ins[n].Poll? ==> ins[n].tick.budget >= SessionTrace.AMPLE && !ins[n].tick.interim.loadFails
    requires FareAlikeThroughout(ins[..n], jns[..n], durable, perm)
    ensures FareAlikeThroughout(ins[..n + 1], jns[..n + 1], durable, perm)
  {
    hide Run, AlikeAtRest, StepsFareAlike;
    var xs, ys, s := ins[..n + 1], jns[..n + 1], Installed(durable, perm);
    LostWindowsHealExactly(ins[..n], jns[..n], durable, perm);
    assert forall i :: 0 <= i <= n ==> xs[..i] == ins[..n][..i] && ys[..i] == jns[..n][..i];
    assert xs[n] == ins[n] && ys[n] == jns[n] && ins[..n][..n] == ins[..n] && jns[..n][..n] == jns[..n];
    ReadableFaresAlike(Run(s, ins[..n]), Run(s, jns[..n]), ins[n], jns[n]);
  }

  lemma ReadableFaresAlike(a: State, b: State, i: Input, j: Input)
    requires AlikeAtRest(a, b) && Parallel(i, j)
    requires i.Poll? ==> i.tick.budget >= SessionTrace.AMPLE && !i.tick.interim.loadFails
    ensures StepsFareAlike(a, b, i, j)
  {
    hide PollOnce, LocalCheck, Settle, AlikeRecords, Outline;
    if i.Poll? && a.running {
      SessionTrace.PollHoldsExactly(a, i.tick);
      SessionTrace.PollHoldsExactly(b, j.tick);
    }
  }

  lemma RunStep(s: State, inputs: seq<Input>)
    requires inputs != []
    ensures Run(s, inputs) == Step(Run(s, inputs[..|inputs| - 1]), inputs[|inputs| - 1])
  {
  }

  lemma InstalledAlike(ins: seq<Input>, jns: seq<Input>, durable: bool, perm: set<string>)
    requires ins == [] && jns == []
    ensures AlikeThroughout(ins, jns, durable, perm) && !Run(Installed(durable, perm), ins).running
  {
    NoRecordsAlike();
    assert ins[..0] == [] && jns[..0] == [];
  }

  lemma StepAlikeExactly(a: State, b: State, i: Input, j: Input)
    requires AlikeAtRest(a, b) && (a.running ==> Recorded(a)) && Parallel(i, j)
    ensures AlikeAtRest(Step(a, i), Step(b, j)) <==> StepsFareAlike(a, b, i, j)
    ensures Step(a, i).running ==> Recorded(Step(a, i))
  {
    hide PollOnce, RestartOnce, AlikeRecords, Outline, FareAlike, Recorded, SameButDelivery;
    match i
    case Poll(t) => if a.running { PollsAlikeExactly(a, b, t, j.tick); }
    case Restart(loadFails, now) => RestartsAlike(a, b, loadFails, now);
  }

  lemma RestartsAlike(a: State, b: State, loadFails: bool, now: Instant)
    requires AlikeAtRest(a, b)
    ensures AlikeAtRest(RestartOnce(a, loadFails, now), RestartOnce(b, loadFails, now))
    ensures Recorded(RestartOnce(a, loadFails, now))
  {
  }
}
