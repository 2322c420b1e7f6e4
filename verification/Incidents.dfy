/** Runs, from the installation on, in which a session's record is lost while its grant is held. */
module Incidents {
  import opened Ordering
  import opened Changes
  import opened Evidence
  import opened Sessions
  import RightsSafety
  import SelfHealing
  import SessionTrace

  const NOTHING := Snapshot([], NotRecorded, [], NotRecorded)

  /** The server grants request "r" to the console user, evidence is collected, everything works. */
  function Granted(user: string): Tick {
    Tick(10, "", false, 1, Revoking(Done, 1, RightsSafety.QUIET, true), Some(Reply(true, "r", 0, true, 0)), 1,
         Granting(user, true, false, 1, NOTHING, 0, true, Done, true, 1), 1, RightsSafety.QUIET)
  }

  /** A later poll: the grant stands, an interim window is due, its record cannot be read. */
  function Unread(user: string, sendOk: bool): Tick {
    Granted(user).(windowNow := 5000, interim := Emission(5000, true, NOTHING, 0, {}, sendOk, true))
  }

  function Begin(user: string): seq<Input> { [Restart(false, 0), Poll(Granted(user))] }

  function Holding(user: string, perm: set<string>): Memory {
    Memory(user, 0, user in perm, "r", true, true, false, 1 + DEFAULT_WINDOW_INTERVAL, DEFAULT_WINDOW_INTERVAL)
  }

  function Record(user: string, perm: set<string>): SessionState {
    SessionState("r", user, 0, user in perm, 1, 0, 0, true, None, NotRecorded, NotRecorded, [], [])
  }

  lemma RunMore(s: State, inputs: seq<Input>, i: Input)
    ensures Run(s, inputs + [i]) == Step(Run(s, inputs), i)
  {
    assert (inputs + [i])[..|inputs|] == inputs;
  }

  lemma Began(user: string, perm: set<string>)
    requires user != ""
    ensures var s := Run(Installed(true, perm), Begin(user));
            && s.durable && s.running && s.mem == Holding(user, perm) && s.world.disk == Some(Record(user, perm))
            && s.world.group == perm + {user}
  {
    hide PollOnce;
    var s0 := Installed(true, perm);
    assert Run(s0, []) == s0;
    RunMore(s0, [], Restart(false, 0));
    RunMore(s0, [Restart(false, 0)], Poll(Granted(user)));
    assert [] + [Restart(false, 0)] == [Restart(false, 0)];
    assert [Restart(false, 0)] + [Poll(Granted(user))] == Begin(user);
    FirstPoll(RestartOnce(s0, false, 0), user, perm);
  }

  lemma FirstPoll(s: State, user: string, perm: set<string>)
    requires user != "" && s.durable && s.mem == NO_MEMORY && s.world.disk == None && s.world.group == perm
    ensures var x := PollOnce(s, Granted(user));
            && x.durable && x.running && x.mem == Holding(user, perm) && x.world.disk == Some(Record(user, perm))
            && x.world.group == perm + {user}
  {
    hide Emit, Revoke;
  }

  /** In the later poll nothing happens but the window. */
  lemma OnlyTheWindow(s: State, user: string, sendOk: bool)
    requires user != "" && s.mem.user == user && s.mem.lastReq == "r" && s.mem.expires == 0
    requires s.mem.interval == DEFAULT_WINDOW_INTERVAL && s.mem.collectChanges
    ensures Settle(LocalCheck(s, Unread(user, sendOk)), Unread(user, sendOk).reply.value, Unread(user, sendOk))
            == s.(world := s.world.(budget := 10))
  {
    hide Revoke;
  }

  /** A permanent administrator who is granted what they have: one unreadable record and one delivered window
      later a restart and the end of the grant take their own rights away. */
  lemma AnAdminIsDemoted(user: string)
    requires user != ""
    ensures var run := Begin(user) + [Poll(Unread(user, true))] + [Restart(false, 1)] + [Poll(RightsSafety.WITHDRAWAL)];
            user !in Run(Installed(true, {user}), run).world.group
    ensures RightsSafety.ForgetsAdmin(Run(Installed(true, {user}), Begin(user)), Unread(user, true), {user})
  {
    hide PollOnce, Settle, LocalCheck, RestartOnce;
    var s0, perm := Installed(true, {user}), {user};
    Began(user, perm);
    var s := Run(s0, Begin(user));
    OnlyTheWindow(s, user, true);
    assert RightsSafety.ForgetsAdmin(s, Unread(user, true), perm);
    RightsSafety.DemotedAfterRestartExactly(s, Unread(user, true), perm, 1);
    RightsSafety.ThreeSteps(s, Unread(user, true), 1);
    var one := Begin(user) + [Poll(Unread(user, true))];
    RunMore(s0, Begin(user), Poll(Unread(user, true)));
    RunMore(s0, one, Restart(false, 1));
    RunMore(s0, one + [Restart(false, 1)], Poll(RightsSafety.WITHDRAWAL));
    RightsSafety.RestartRuns(PollOnce(s, Unread(user, true)), 1);
  }

  // ---- A lost send that does not heal ----

  /** The last final window tried. */
  function LastFinal(log: seq<Event>): Option<Window> {
    if log == [] then None
    else if log[|log| - 1].WindowTried? && log[|log| - 1].window.final then Some(log[|log| - 1].window)
    else LastFinal(log[..|log| - 1])
  }

  lemma LastFinalStep(log: seq<Event>, e: Event)
    ensures LastFinal(log + [e]) == if e.WindowTried? && e.window.final then Some(e.window) else LastFinal(log)
  {
    assert (log + [e])[..|log|] == log;
  }

  lemma WindowStarts(base: SessionState, lost: bool, sessionEnd: Instant, e: Emission)
    ensures var w := WindowOf(base, lost, true, sessionEnd, e); w.final && w.start == base.grantedAt
  {
    hide FullDelta, Degrade, Truncate;
  }

  lemma FinalTried(s: State, sessionEnd: Instant, e: Emission)
    requires s.durable && s.mem.latched && s.world.budget >= 4 && !Unreadable(s, e.loadFails)
    ensures var x := Emit(s, true, sessionEnd, e); var w := LastFinal(x.world.log);
            w.Some? && w.value.start == s.world.disk.value.grantedAt && x.world.budget >= 3 && x.durable
  {
    hide WindowOf, DigestOf, LastFinal;
    var base, lost := s.world.disk.value, s.mem.baselineLost;
    WindowStarts(base, lost, sessionEnd, e);
    LastFinalStep(s.world.log, WindowTried(WindowOf(base, lost, true, sessionEnd, e), base, lost, e.sendOk));
  }

  /** A revocation's final window begins where the record on disk says the session began. */
  lemma FinalStart(s: State, r: Revoking)
    requires s.durable && s.mem.latched && s.world.budget >= 5 && !Unreadable(s, r.final.loadFails)
    ensures var w := LastFinal(Revoke(s, r).world.log); w.Some? && w.value.start == s.world.disk.value.grantedAt
  {
    hide Emit, LastFinal;
    var s1 := TakeBack(s, r);
    var end := SessionEnd(s1.mem, r.endNow);
    FinalTried(s1, end, r.final);
    var log := Emit(s1, true, end, r.final).world.log;
    LastFinalStep(log, Cleared(r.clearOk));
    LastFinalStep(log + [Cleared(r.clearOk)], Reported(s.mem.lastReq, false, Captured(s.mem)));
  }

  /** A poll that withdraws the grant tries the final window at once. */
  lemma WithdrawalStart(s: State)
    requires s.durable && s.running && s.mem.user != "" && s.mem.expires == 0 && s.mem.latched && !Unreadable(s, false)
    ensures var w := LastFinal(PollOnce(s, RightsSafety.WITHDRAWAL).world.log);
            w.Some? && w.value.start == s.world.disk.value.grantedAt
  {
    hide Revoke, LastFinal;
    var s0 := s.(world := s.world.(budget := 10));
    var s1 := ReadFlags(s0, RightsSafety.WITHDRAWAL.reply.value);
    FinalStart(s1, RightsSafety.WITHDRAWAL.revoking);
    assert LocalCheck(s, RightsSafety.WITHDRAWAL) == s0;
    SessionTrace.RevokeFrame(s1, RightsSafety.WITHDRAWAL.revoking);
  }

  /** What the unreadable window leaves: the stand-in if it was delivered, the record if not. */
  lemma UnreadLeaves(s: State, user: string, sendOk: bool)
    requires s.durable && s.running && user != "" && s.mem.user == user && s.mem.lastReq == "r" && s.mem.expires == 0
    requires s.mem.interval == DEFAULT_WINDOW_INTERVAL && s.mem.collectChanges && s.mem.latched
    requires 0 < s.mem.nextWindowAt <= 5000 && s.world.disk.Some? && s.world.disk.value.requestId == "r"
    ensures var x := PollOnce(s, Unread(user, sendOk));
            && x.durable && x.running && x.mem == s.mem.(nextWindowAt := x.mem.nextWindowAt)
            && x.world.disk.Some? && x.world.disk.value.requestId == "r"
            && x.world.disk.value.grantedAt == if sendOk then 0 else s.world.disk.value.grantedAt
  {
    hide Settle, LocalCheck, WindowFor, DigestOf;
    OnlyTheWindow(s, user, sendOk);
    var s0 := s.(world := s.world.(budget := 10));
    var e := Unread(user, sendOk).interim;
    SessionTrace.EmitFrame(s0, false, 0, e);
    var s1 := s0.(mem := s0.mem.(nextWindowAt := e.now + s0.mem.interval));
    RightsSafety.WindowFinality(Fallback(s0.mem), true, false, 0, e);
    RightsSafety.StandInDelivered(s1, WindowOf(Fallback(s0.mem), true, false, 0, e), e);
  }

  /** Two runs, the same but for one interim send: where it got through, the final window of the session says
      it began at 0; where it was lost, at its true beginning. */
  lemma OneSendDecidesTheFinalWindow(user: string, perm: set<string>)
    requires user != ""
    ensures SelfHealing.Parallel(Poll(Unread(user, true)), Poll(Unread(user, false)))
    ensures var rest := [Poll(RightsSafety.WITHDRAWAL)];
            var w := LastFinal(Run(Installed(true, perm), Begin(user) + [Poll(Unread(user, true))] + rest).world.log);
            var v := LastFinal(Run(Installed(true, perm), Begin(user) + [Poll(Unread(user, false))] + rest).world.log);
            w.Some? && v.Some? && w.value.start == 0 && v.value.start == 1
  {
    hide PollOnce, LastFinal;
    Began(user, perm);
    var s := Run(Installed(true, perm), Begin(user));
    assert forall sendOk :: DeliveredOrNot(user, perm, sendOk) by {
      forall sendOk ensures DeliveredOrNot(user, perm, sendOk) {
        UnreadLeaves(s, user, sendOk);
        WithdrawalStart(PollOnce(s, Unread(user, sendOk)));
        RunMore(Installed(true, perm), Begin(user), Poll(Unread(user, sendOk)));
        RunMore(Installed(true, perm), Begin(user) + [Poll(Unread(user, sendOk))], Poll(RightsSafety.WITHDRAWAL));
      }
    }
    assert DeliveredOrNot(user, perm, true) && DeliveredOrNot(user, perm, false);
  }

  ghost predicate DeliveredOrNot(user: string, perm: set<string>, sendOk: bool) {
    var run := Begin(user) + [Poll(Unread(user, sendOk))] + [Poll(RightsSafety.WITHDRAWAL)];
    var w := LastFinal(Run(Installed(true, perm), run).world.log);
    w.Some? && w.value.start == if sendOk then 0 else 1
  }

  // ---- Rights that outlive their record ----

  /** A grant the OS calls failed although it took effect leaves a member and no record. */
  lemma AFailedGrantLeaks(user: string)
    requires user != ""
    ensures var t := Granted(user).(granting := Granted(user).granting.(fate := ErredAfterEffect));
            var s := Run(Installed(true, {}), [Restart(false, 0), Poll(t)]);
            s.world.group == {user} && s.world.disk == None
  {
    hide PollOnce;
    FailedGrant(RestartOnce(Installed(true, {}), false, 0), user);
    var t := Granted(user).(granting := Granted(user).granting.(fate := ErredAfterEffect));
    var s0 := Installed(true, {});
    assert Run(s0, []) == s0;
    RunMore(s0, [], Restart(false, 0));
    RunMore(s0, [Restart(false, 0)], Poll(t));
    assert [] + [Restart(false, 0)] == [Restart(false, 0)];
    assert [Restart(false, 0)] + [Poll(t)] == [Restart(false, 0), Poll(t)];
  }

  lemma FailedGrant(s: State, user: string)
    requires user != "" && s.durable && s.mem == NO_MEMORY && s.world.group == {}
    ensures var x := PollOnce(s, Granted(user).(granting := Granted(user).granting.(fate := ErredAfterEffect)));
            x.world.group == {user} && x.world.disk == None
  {
    hide Emit, Revoke;
  }

  /** A grant whose membership probe got no answer is never taken back. */
  lemma AnUnansweredProbeLeaks(user: string)
    requires user != ""
    ensures var t := Granted(user).(granting := Granted(user).granting.(isAdminFails := true));
            var s := Run(Installed(true, {}), [Restart(false, 0), Poll(t), Poll(RightsSafety.WITHDRAWAL)]);
            s.world.group == {user} && s.world.disk == None
  {
    hide PollOnce, Settle, LocalCheck;
    var t := Granted(user).(granting := Granted(user).granting.(isAdminFails := true));
    var s0 := Installed(true, {});
    assert Run(s0, []) == s0;
    RunMore(s0, [], Restart(false, 0));
    RunMore(s0, [Restart(false, 0)], Poll(t));
    RunMore(s0, [Restart(false, 0), Poll(t)], Poll(RightsSafety.WITHDRAWAL));
    assert [] + [Restart(false, 0)] == [Restart(false, 0)];
    assert [Restart(false, 0)] + [Poll(t)] == [Restart(false, 0), Poll(t)];
    assert [Restart(false, 0), Poll(t)] + [Poll(RightsSafety.WITHDRAWAL)]
           == [Restart(false, 0), Poll(t), Poll(RightsSafety.WITHDRAWAL)];
    UnprobedGrant(RestartOnce(s0, false, 0), user);
    WithdrawalOfAnAdmin(PollOnce(RestartOnce(s0, false, 0), t), user);
  }

  lemma UnprobedGrant(s: State, user: string)
    requires user != "" && s.durable && s.mem == NO_MEMORY && s.world.group == {}
    ensures var x := PollOnce(s, Granted(user).(granting := Granted(user).granting.(isAdminFails := true)));
            && x.durable && x.running && x.mem.user == user && x.mem.wasAdmin && x.mem.expires == 0
            && x.world.group == {user}
  {
    hide Emit, Revoke;
  }

  lemma WithdrawalOfAnAdmin(s: State, user: string)
    requires s.durable && s.running && s.mem.user == user != "" && s.mem.wasAdmin && s.mem.expires == 0
    ensures var x := PollOnce(s, RightsSafety.WITHDRAWAL); x.world.group == s.world.group && x.world.disk == None
  {
    hide Emit;
    var s0 := s.(world := s.world.(budget := 10));
    var s1 := ReadFlags(s0, RightsSafety.WITHDRAWAL.reply.value);
    var r := RightsSafety.WITHDRAWAL.revoking;
    RightsSafety.EmitKeepsRecord(s1, true, SessionEnd(s1.mem, r.endNow), r.final);
    SessionTrace.EmitFrame(s1, true, SessionEnd(s1.mem, r.endNow), r.final);
    assert LocalCheck(s, RightsSafety.WITHDRAWAL) == s0;
  }
}
