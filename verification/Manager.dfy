/** The Manager object: fields updated step by step, each method tied to its function in Sessions. */
module AdminManager {
  import opened Ordering
  import opened Changes
  import opened Evidence
  import opened Sessions

  /** The oracle of a poll with the iteration traces its windows actually left. */
  function Traced(t: Tick, final: set<string>, interim: set<string>): Tick {
    t.(revoking := t.revoking.(final := t.revoking.final.(prefer := final)), interim := t.interim.(prefer := interim))
  }

  lemma PreferIsTrace(e: Emission, prefer: set<string>)
    ensures InventoryAt(e.(prefer := prefer)) == InventoryAt(e)
  {
  }

  class Manager {
    const durable: bool

    var grantedUser: string
    var grantedExpires: Instant
    var grantedWasAdmin: bool
    var lastReqID: string
    var collectChanges: bool
    var collectLatched: bool
    var baselineLost: bool
    var nextWindowAt: Instant
    var windowInterval: int

    var world: World

    function Mem(): Memory
      reads this
    {
      Memory(grantedUser, grantedExpires, grantedWasAdmin, lastReqID, collectChanges, collectLatched,
             baselineLost, nextWindowAt, windowInterval)
    }

    function Now(): State
      reads this
    {
      State(durable, Mem(), world, true)
    }

    /** NewManager followed by restore(). */
    constructor (durable: bool, world: World, loadFails: bool, now: Instant)
      ensures this.durable == durable
      ensures Now() == RestartOnce(State(durable, NO_MEMORY, world, false), loadFails, now)
    {
      this.durable := durable;
      this.world := world;
      grantedUser, grantedExpires, grantedWasAdmin, lastReqID := "", 0, false, "";
      collectChanges, collectLatched, baselineLost := false, false, false;
      nextWindowAt, windowInterval := 0, DEFAULT_WINDOW_INTERVAL;
      new;
      if durable && !loadFails && world.disk.Some? && world.disk.value.requestId != "" {
        var st := world.disk.value;
        grantedUser, grantedExpires, grantedWasAdmin := st.user, st.expires, st.wasAdmin;
        lastReqID := st.requestId;
        collectLatched := st.collect;
        nextWindowAt := now + windowInterval;
      }
    }

    method LoadBaselineRecord(loadFails: bool) returns (base: SessionState, lost: bool)
      ensures (base, lost) == LoadBaseline(Now(), loadFails)
    {
      if !durable || loadFails || world.disk.None? || world.disk.value.requestId == "" {
        return Fallback(Mem()), true;
      }
      return world.disk.value, baselineLost;
    }

    method EmitWindow(final: bool, sessionEnd: Instant, e: Emission) returns (ghost prefer: set<string>)
      modifies this
      ensures Now() == Emit(old(Now()), final, sessionEnd, e.(prefer := prefer))
    {
      hide WindowFor, DigestOf, InventoryAt, LoadBaseline;
      prefer := {};
      if !collectLatched { return; }
      nextWindowAt := e.now + windowInterval;
      var base, lost := LoadBaselineRecord(e.loadFails);
      var seqNo := Int32(base.windowSeq + 1);
      var w;
      w, prefer := BuildWindow(Some(base), InventoryAt(e), WindowInput(seqNo, final, e.now, sessionEnd, lost));
      FrameOfWindow(Some(base), InventoryAt(e), WindowInput(seqNo, final, e.now, sessionEnd, lost), prefer);
      PreferIsTrace(e, prefer);
      DeliverWindow(w, base, lost, e.sendOk, e.saveOk);
    }

    /** The second half of emitWindow: suppress a repeat, send, and remember what was sent. */
    method DeliverWindow(w: Window, base: SessionState, lost: bool, sendOk: bool, saveOk: bool)
      modifies this`world
      ensures Now() == Deliver(old(Now()), w, base, lost, sendOk, saveOk)
    {
      hide DigestOf;
      var digest := DigestOf(w);
      if !w.final && Some(digest) == base.lastDigest && base.windowSeq > 0 { return; }
      var sent := Alive(world) && sendOk;
      world := Send(world, w, base, lost, sendOk);
      if !sent || w.final || !durable { return; }
      world := Save(world, RecordSaved(base.(windowSeq := w.seqNo, lastDigest := Some(digest))), saveOk);
    }

    method RevokeRights(r: Revoking) returns (ghost prefer: set<string>)
      modifies this
      ensures Now() == Revoke(old(Now()), r.(final := r.final.(prefer := prefer)))
    {
      hide Emit;
      var user, reqID, wasAdmin := grantedUser, lastReqID, grantedWasAdmin;
      var captured := collectLatched && !baselineLost;
      if !wasAdmin {
        world := OsRevoke(world, user, r.fate);
      }
      prefer := EmitWindow(true, SessionEnd(Mem(), r.endNow), r.final);
      EndSession(r, reqID, captured);
    }

    method EndSession(r: Revoking, reqID: string, captured: bool)
      modifies this
      ensures Now() == Close(old(Now()), r, reqID, captured)
    {
      grantedUser, grantedExpires, grantedWasAdmin := "", 0, false;
      nextWindowAt, collectLatched := 0, false;
      if durable {
        world := Clear(world, r.clearOk);
      }
      world := Report(world, reqID, false, captured);
    }

    method GrantRights(requestId: string, expires: Instant, g: Granting)
      modifies this
      ensures Now() == Grant(old(Now()), requestId, expires, g)
    {
      if !g.probed || g.user == "" { return; }
      var wasAdmin := g.isAdminFails || g.user in world.group;
      collectLatched := collectChanges;
      if durable {
        var record := NewRecord(Mem(), g.user, wasAdmin, requestId, expires, g);
        var saved := Alive(world) && g.saveOk;
        world := Save(world, Opened(record), g.saveOk);
        if !saved { return; }
        baselineLost := false;
      } else {
        baselineLost := true;
      }
      PromoteUser(wasAdmin, requestId, expires, g);
    }

    method PromoteUser(wasAdmin: bool, requestId: string, expires: Instant, g: Granting)
      modifies this
      ensures Now() == Promote(old(Now()), wasAdmin, requestId, expires, g)
    {
      var granted := Alive(world) && g.fate.Done?;
      world := OsGrant(world, g.user, g.fate);
      if !granted {
        if durable {
          world := Clear(world, g.undoOk);
        }
        return;
      }
      grantedUser, grantedExpires, grantedWasAdmin, lastReqID := g.user, expires, wasAdmin, requestId;
      nextWindowAt := g.grantedNow + windowInterval;
      world := Report(world, requestId, true, collectLatched && !baselineLost);
    }

    method RevokeIfHeld(reason: bool, r: Revoking) returns (ghost prefer: set<string>)
      modifies this
      ensures Now() == RevokeIf(old(Now()), reason, r.(final := r.final.(prefer := prefer)))
    {
      hide Revoke;
      prefer := {};
      if grantedUser != "" && reason {
        prefer := RevokeRights(r);
      }
    }

    method GrantIfNew(r: Reply, now: Instant, g: Granting)
      modifies this
      ensures Now() == GrantNew(old(Now()), r, now, g)
    {
      hide Grant;
      if ApprovedNow(r, now) && r.requestId != lastReqID {
        GrantRights(r.requestId, r.expiresAt, g);
      }
    }

    method WindowIfDue(now: Instant, e: Emission) returns (ghost prefer: set<string>)
      modifies this
      ensures Now() == Interim(old(Now()), now, e.(prefer := prefer))
    {
      hide Emit;
      prefer := {};
      if grantedUser != "" && nextWindowAt != 0 && now >= nextWindowAt {
        prefer := EmitWindow(false, 0, e);
      }
    }

    /** One tick of the polling loop. */
    method PollServer(t: Tick) returns (ghost final: set<string>, ghost interim: set<string>)
      modifies this
      ensures Now().(running := Alive(world)) == PollOnce(old(Now()), Traced(t, final, interim))
    {
      hide RevokeIf, GrantNew, Interim;
      interim := {};
      world := world.(budget := t.budget);
      var reason := LocalReason(Mem(), t);
      ghost var s0 := Now();
      final := RevokeIfHeld(reason, t.revoking);
      if t.reply.None? { return; }
      var r := t.reply.value;
      ghost var s1 := Now();
      collectChanges, windowInterval := r.collect, ClampWindowInterval(r.intervalSec);
      ghost var s2 := Now();
      ghost var final2 := RevokeIfHeld(Withdrawn(Mem(), r, t.replyNow), t.revoking);
      OneRevocation(s0, reason, s1, s2, Withdrawn(s2.mem, r, t.replyNow), t.revoking, final, final2);
      if !(s0.mem.user != "" && reason) { final := final2; }
      GrantIfNew(r, t.replyNow, t.granting);
      interim := WindowIfDue(t.windowNow, t.interim);
    }
  }

  /** A poll revokes at most once, so one trace describes whichever revocation happened. */
  lemma OneRevocation(s0: State, reason: bool, s1: State, s2: State, reason2: bool, r: Revoking, f1: set<string>,
                      f2: set<string>)
    requires s1 == RevokeIf(s0, reason, r.(final := r.final.(prefer := f1)))
    requires s2.mem.user == s1.mem.user
    ensures var f := if s0.mem.user != "" && reason then f1 else f2;
            && RevokeIf(s0, reason, r.(final := r.final.(prefer := f))) == s1
            && RevokeIf(s2, reason2, r.(final := r.final.(prefer := f))) ==
               RevokeIf(s2, reason2, r.(final := r.final.(prefer := f2)))
  {
    hide Emit;
  }
}
