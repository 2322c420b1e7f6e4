/** The temporary-admin session engine as a state machine (internal/agent/admin/manager.go).

    One poll is one step. Everything the agent cannot decide is in the step's Tick: clock readings,
    console probe, server reply, the fate of every OS call, store access and delivery, and `budget`,
    the number of outward effects the process still performs before it dies. A dead process has no
    further effect; its memory is discarded by the next Restart. */
module Sessions {
  import opened Ordering
  import opened Changes
  import opened Evidence

  // ---- The world outside the process ----

  /** An OS call works, fails without effect, or fails after taking effect. */
  datatype OsFate = Done | Refused | ErredAfterEffect

  datatype Event =
    | Opened(record: SessionState)
    | GrantTried(user: string, grantFate: OsFate)
    | RevokeTried(user: string, revokeFate: OsFate)
    | WindowTried(window: Window, base: SessionState, lost: bool, delivered: bool)
    | RecordSaved(record: SessionState)
    | Cleared(done: bool)
    | Reported(requestId: string, granted: bool, captured: bool)

  datatype World = World(group: set<string>, disk: Option<SessionState>, log: seq<Event>, budget: nat)

  /** Performing an effect: void once the process is dead. */
  function Perform(w: World, next: World): World {
    if w.budget == 0 then w else next.(budget := w.budget - 1)
  }

  predicate Alive(w: World) { w.budget > 0 }

  function OsGrant(w: World, user: string, fate: OsFate): World {
    var group := if fate.Refused? then w.group else w.group + {user};
    Perform(w, w.(group := group, log := w.log + [GrantTried(user, fate)]))
  }

  function OsRevoke(w: World, user: string, fate: OsFate): World {
    var group := if fate.Refused? then w.group else w.group - {user};
    Perform(w, w.(group := group, log := w.log + [RevokeTried(user, fate)]))
  }

  /** Save is atomic: the whole record or nothing. */
  function Save(w: World, event: Event, ok: bool): World
    requires event.Opened? || event.RecordSaved?
  {
    Perform(w, if ok then w.(disk := Some(event.record), log := w.log + [event]) else w)
  }

  function Clear(w: World, ok: bool): World {
    Perform(w, w.(disk := if ok then None else w.disk, log := w.log + [Cleared(ok)]))
  }

  function Send(w: World, window: Window, base: SessionState, lost: bool, ok: bool): World {
    Perform(w, w.(log := w.log + [WindowTried(window, base, lost, ok)]))
  }

  function Report(w: World, requestId: string, granted: bool, captured: bool): World {
    Perform(w, w.(log := w.log + [Reported(requestId, granted, captured)]))
  }

  // ---- The process ----

  datatype Memory = Memory(
    user: string, expires: Instant, wasAdmin: bool, lastReq: string,
    collectChanges: bool, latched: bool, baselineLost: bool, nextWindowAt: Instant, interval: int)

  const NO_MEMORY := Memory("", 0, false, "", false, false, false, 0, DEFAULT_WINDOW_INTERVAL)

  datatype State = State(durable: bool, mem: Memory, world: World, running: bool)

  datatype Snapshot = Snapshot(software: seq<SoftFP>, softwareHealth: Health, services: seq<SvcFP>,
      servicesHealth: Health)

  datatype Emission = Emission(now: Instant, loadFails: bool, snapshot: Snapshot, bootTime: int, prefer: set<string>,
                               sendOk: bool, saveOk: bool)

  datatype Reply = Reply(approved: bool, requestId: string, expiresAt: Instant, collect: bool, intervalSec: int)

  datatype Revoking = Revoking(fate: OsFate, endNow: Instant, final: Emission, clearOk: bool)

  datatype Granting = Granting(user: string, probed: bool, isAdminFails: bool, now: Instant, snapshot: Snapshot,
      bootTime: int,
                               saveOk: bool, fate: OsFate, undoOk: bool, grantedNow: Instant)

  datatype Tick = Tick(budget: nat, localUser: string, localProbed: bool, localNow: Instant, revoking: Revoking,
                       reply: Option<Reply>, replyNow: Instant, granting: Granting,
                       windowNow: Instant, interim: Emission)

  datatype Input = Poll(tick: Tick) | Restart(loadFails: bool, now: Instant)

  // ---- emitWindow ----

  function Fallback(m: Memory): SessionState {
    SessionState(m.lastReq, m.user, m.expires, false, 0, 0, 0, false, None, NotRecorded, NotRecorded, [], [])
  }

  /** The record cannot be read back. */
  predicate Unreadable(s: State, loadFails: bool) {
    !s.durable || loadFails || s.world.disk.None? || s.world.disk.value.requestId == ""
  }

  function LoadBaseline(s: State, loadFails: bool): (SessionState, bool) {
    if Unreadable(s, loadFails) then (Fallback(s.mem), true) else (s.world.disk.value, s.mem.baselineLost)
  }

  function InventoryAt(e: Emission): Inventory {
    Inventory(e.snapshot.software, e.snapshot.softwareHealth, e.snapshot.services, e.snapshot.servicesHealth, e.now,
        e.bootTime)
  }

  ghost function WindowOf(base: SessionState, lost: bool, final: bool, sessionEnd: Instant, e: Emission): Window {
    WindowFor(Some(base), InventoryAt(e), WindowInput(Int32(base.windowSeq + 1), final, e.now, sessionEnd, lost),
        e.prefer)
  }

  function Deliver(s: State, window: Window, base: SessionState, lost: bool, sendOk: bool, saveOk: bool): State {
    var digest := DigestOf(window);
    if !window.final && Some(digest) == base.lastDigest && base.windowSeq > 0 then s
    else
      var sent := Send(s.world, window, base, lost, sendOk);
      if !(Alive(s.world) && sendOk) || window.final || !s.durable then s.(world := sent)
      else s.(world := Save(sent, RecordSaved(base.(windowSeq := window.seqNo, lastDigest := Some(digest))), saveOk))
  }

  ghost function Emit(s: State, final: bool, sessionEnd: Instant, e: Emission): State {
    if !s.mem.latched then s
    else
      var s1 := s.(mem := s.mem.(nextWindowAt := e.now + s.mem.interval));
      var (base, lost) := LoadBaseline(s1, e.loadFails);
      Deliver(s1, WindowOf(base, lost, final, sessionEnd, e), base, lost, e.sendOk, e.saveOk)
  }

  // ---- revoke ----

  function SessionEnd(m: Memory, now: Instant): Instant {
    if m.expires != 0 && m.expires < now then m.expires else now
  }

  function Captured(m: Memory): bool { m.latched && !m.baselineLost }

  function Forget(m: Memory): Memory {
    m.(user := "", expires := 0, wasAdmin := false, nextWindowAt := 0, latched := false)
  }

  function TakeBack(s: State, r: Revoking): State {
    if s.mem.wasAdmin then s else s.(world := OsRevoke(s.world, s.mem.user, r.fate))
  }

  function Close(s: State, r: Revoking, requestId: string, captured: bool): State {
    var cleared := if s.durable then Clear(s.world, r.clearOk) else s.world;
    s.(mem := Forget(s.mem), world := Report(cleared, requestId, false, captured))
  }

  ghost function Revoke(s: State, r: Revoking): State {
    var s1 := TakeBack(s, r);
    var s2 := Emit(s1, true, SessionEnd(s1.mem, r.endNow), r.final);
    Close(s2, r, s.mem.lastReq, Captured(s.mem))
  }

  // ---- grant ----

  /** An unanswered membership probe counts as "was an admin already". */
  function WasAdmin(w: World, user: string, probeFails: bool): bool { probeFails || user in w.group }

  function NewRecord(m: Memory, user: string, wasAdmin: bool, requestId: string, expires: Instant,
                     g: Granting): SessionState {
    var snap := if m.latched then g.snapshot else Snapshot([], NotRecorded, [], NotRecorded);
    SessionState(requestId, user, expires, wasAdmin, g.now, g.bootTime, 0, m.latched, None,
                 snap.softwareHealth, snap.servicesHealth, snap.software, snap.services)
  }

  function Hold(s: State, wasAdmin: bool, requestId: string, expires: Instant, g: Granting): State {
    var m := s.mem.(user := g.user, expires := expires, wasAdmin := wasAdmin, lastReq := requestId,
                    nextWindowAt := g.grantedNow + s.mem.interval);
    s.(mem := m, world := Report(s.world, requestId, true, Captured(m)))
  }

  /** After the record is safe (or durability is off): the OS call and its aftermath. */
  function Promote(s: State, wasAdmin: bool, requestId: string, expires: Instant, g: Granting): State {
    var tried := s.(world := OsGrant(s.world, g.user, g.fate));
    if Alive(s.world) && g.fate.Done? then Hold(tried, wasAdmin, requestId, expires, g)
    else if s.durable then tried.(world := Clear(tried.world, g.undoOk))
    else tried
  }

  function Grant(s: State, requestId: string, expires: Instant, g: Granting): State {
    if !g.probed || g.user == "" then s
    else
      var wasAdmin := WasAdmin(s.world, g.user, g.isAdminFails);
      var s1 := s.(mem := s.mem.(latched := s.mem.collectChanges));
      if s.durable then
        var record := NewRecord(s1.mem, g.user, wasAdmin, requestId, expires, g);
        var saved := Save(s1.world, Opened(record), g.saveOk);
        if Alive(s1.world) && g.saveOk then
          Promote(s1.(mem := s1.mem.(baselineLost := false), world := saved), wasAdmin, requestId, expires, g)
        else s1.(world := saved)
      else Promote(s1.(mem := s1.mem.(baselineLost := true)), wasAdmin, requestId, expires, g)
  }

  // ---- poll and restore ----

  predicate LocalReason(m: Memory, t: Tick) {
    (t.localProbed && t.localUser != m.user) || (m.expires != 0 && t.localNow > m.expires)
  }

  predicate ApprovedNow(r: Reply, now: Instant) {
    r.approved && r.requestId != "" && (r.expiresAt == 0 || now < r.expiresAt)
  }

  ghost function RevokeIf(s: State, reason: bool, r: Revoking): State {
    if s.mem.user != "" && reason then Revoke(s, r) else s
  }

  predicate Withdrawn(m: Memory, r: Reply, now: Instant) {
    !ApprovedNow(r, now) || r.requestId != m.lastReq
  }

  function ReadFlags(s: State, r: Reply): State {
    s.(mem := s.mem.(collectChanges := r.collect, interval := ClampWindowInterval(r.intervalSec)))
  }

  function GrantNew(s: State, r: Reply, now: Instant, g: Granting): State {
    if ApprovedNow(r, now) && r.requestId != s.mem.lastReq then Grant(s, r.requestId, r.expiresAt, g) else s
  }

  predicate WindowDue(m: Memory, now: Instant) {
    m.user != "" && m.nextWindowAt != 0 && now >= m.nextWindowAt
  }

  ghost function Interim(s: State, now: Instant, e: Emission): State {
    if WindowDue(s.mem, now) then Emit(s, false, 0, e) else s
  }

  /** Local reasons to take rights away hold even without a server. */
  ghost function LocalCheck(s: State, t: Tick): State {
    RevokeIf(s.(world := s.world.(budget := t.budget)), LocalReason(s.mem, t), t.revoking)
  }

  /** What the server's answer makes of the grant. */
  ghost function Settle(s: State, r: Reply, t: Tick): State {
    var s1 := RevokeIf(ReadFlags(s, r), Withdrawn(s.mem, r, t.replyNow), t.revoking);
    GrantNew(s1, r, t.replyNow, t.granting)
  }

  ghost function PollOnce(s: State, t: Tick): State {
    var s1 := LocalCheck(s, t);
    var s2 := if t.reply.None? then s1 else Interim(Settle(s1, t.reply.value, t), t.windowNow, t.interim);
    s2.(running := Alive(s2.world))
  }

  function Restored(st: SessionState, now: Instant): Memory {
    NO_MEMORY.(user := st.user, expires := st.expires, wasAdmin := st.wasAdmin, lastReq := st.requestId,
               latched := st.collect, baselineLost := false, nextWindowAt := now + NO_MEMORY.interval)
  }

  /** A fresh process, then restore(). */
  function RestartOnce(s: State, loadFails: bool, now: Instant): State {
    s.(mem := if Unreadable(s, loadFails) then NO_MEMORY else Restored(s.world.disk.value, now), running := true)
  }

  ghost function Step(s: State, input: Input): State {
    match input
    case Restart(loadFails, now) => RestartOnce(s, loadFails, now)
    case Poll(t) => if s.running then PollOnce(s, t) else s
  }

  ghost function Run(s: State, inputs: seq<Input>): State {
    if inputs == [] then s else Step(Run(s, inputs[..|inputs| - 1]), inputs[|inputs| - 1])
  }

  /** A machine as installed: no record, nobody granted, no process yet. */
  function Installed(durable: bool, permanent: set<string>): State {
    State(durable, NO_MEMORY, World(permanent, None, [], 0), false)
  }
}
