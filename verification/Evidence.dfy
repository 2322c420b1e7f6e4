/** Building one cumulative evidence window (internal/agent/admin/window.go, session.go). */
module Evidence {
  import opened Ordering
  import opened Changes
  import SoftwareDiff
  import ServiceDiff

  const MAX_WINDOW_CHANGES := 1000
  const STALE_FINAL := 600            // seconds a final snapshot may lag behind the end of the session
  const MIN_WINDOW_INTERVAL := 300
  const DEFAULT_WINDOW_INTERVAL := 1800
  const TWO_31 := 0x8000_0000
  const TWO_32 := 0x1_0000_0000

  datatype Health =
    | NotRecorded | HealthOK | HealthPartial | HealthFailed | HealthUnsupported | HealthOther(name: string)

  datatype Completeness = Complete | NoBaseline | Partial | Truncated | StaleFinal

  /** What windowDigest hashes: everything that changes how the change list reads. */
  datatype Digest = Digest(total: int, truncated: bool, completeness: Completeness, rebooted: bool,
                           softwareHealth: Health, servicesHealth: Health, lines: seq<DigestLine>)

  datatype DigestLine = DigestLine(kind: Kind, identity: string, subject: string, oldValue: string,
                                   newValue: string, attribution: Attribution)

  datatype SessionState = SessionState(
    requestId: string, user: string, expires: Instant, wasAdmin: bool, grantedAt: Instant, bootTime: int,
    windowSeq: int, collect: bool, lastDigest: Option<Digest>,
    softwareHealth: Health, servicesHealth: Health, software: seq<SoftFP>, services: seq<SvcFP>)

  datatype Inventory = Inventory(software: seq<SoftFP>, softwareHealth: Health,
                                 services: seq<SvcFP>, servicesHealth: Health, at: Instant, bootTime: int)

  datatype WindowInput = WindowInput(seqNo: int, final: bool, now: Instant, sessionEnd: Instant, baselineLost: bool)

  datatype Window = Window(
    requestId: string, seqNo: int, start: Instant, end: Instant, snapshotAt: Instant, changes: seq<Change>,
    final: bool, truncated: bool, total: int, rebooted: bool, baselineLost: bool,
    softwareHealth: Health, servicesHealth: Health, completeness: Completeness)

  /** Go's int32(n). */
  function Int32(n: int): int {
    var r := n % TWO_32;
    if r < TWO_31 then r else r - TWO_32
  }

  // ---- Health ----

  predicate HealthIsOK(h: Health) { h.NotRecorded? || h.HealthOK? }

  predicate HealthUsable(h: Health) { HealthIsOK(h) || h.HealthPartial? }

  function HealthRank(h: Health): int {
    match h
    case HealthFailed => 3
    case HealthPartial => 2
    case HealthUnsupported => 1
    case _ => 0
  }

  function WorseHealth(a: Health, b: Health): Health {
    if HealthRank(a) >= HealthRank(b) then a else b
  }

  function ClampWindowInterval(sec: int): int {
    if sec <= 0 then DEFAULT_WINDOW_INTERVAL
    else if sec < MIN_WINDOW_INTERVAL then MIN_WINDOW_INTERVAL
    else sec
  }

  // ---- Degradation ----

  predicate Degraded(software: Health, services: Health, lost: bool) {
    lost || !HealthIsOK(software) || !HealthIsOK(services)
  }

  function Blur(c: Change): Change { c.(attribution := Unknown, reason := DegradedBaseline) }

  ghost function Degrade(list: seq<Change>, software: Health, services: Health, lost: bool): (r: seq<Change>)
    ensures |r| == |list|
  {
    if Degraded(software, services, lost) then seq(|list|, i requires 0 <= i < |list| => Blur(list[i])) else list
  }

  method DegradeChanges(list: seq<Change>, software: Health, services: Health, lost: bool) returns (out: seq<Change>)
    ensures out == Degrade(list, software, services, lost)
  {
    out := list;
    if Degraded(software, services, lost) {
      for i := 0 to |list|
        invariant |out| == |list|
        invariant forall j :: 0 <= j < |list| ==> out[j] == if j < i then Blur(list[j]) else list[j]
      {
        out := out[i := Blur(list[i])];
      }
    }
  }

  lemma DegradeKeepsOrder(list: seq<Change>, software: Health, services: Health, lost: bool)
    requires Ascending(Canonical, list)
    ensures Ascending(Canonical, Degrade(list, software, services, lost))
  {
    var r := Degrade(list, software, services, lost);
    assert forall i :: 0 <= i < |r| ==> Canonical(r[i]) == Canonical(list[i]);
  }

  // ---- Truncation ----

  function AttrRank(a: Attribution): int {
    match a
    case HumanLikely => 0
    case Unknown => 1
    case BackgroundLikely => 2
    case Unrecognised(_) => 1
  }

  /** The positions of one rank, in list order. */
  function PositionsOf(list: seq<Change>, rank: int): (r: seq<nat>)
    ensures forall a :: 0 <= a < |r| ==> r[a] < |list| && AttrRank(list[r[a]].attribution) == rank
    ensures forall a, b :: 0 <= a < b < |r| ==> r[a] < r[b]
    ensures forall p :: 0 <= p < |list| && AttrRank(list[p].attribution) == rank ==> p in r
  {
    if list == [] then []
    else
      var front := list[..|list| - 1];
      var r := PositionsOf(front, rank);
      if AttrRank(list[|list| - 1].attribution) == rank then r + [|list| - 1] else r
  }

  /** The order in which positions are kept: by rank, then by position. */
  function KeepOrder(list: seq<Change>): seq<nat> {
    PositionsOf(list, 0) + PositionsOf(list, 1) + PositionsOf(list, 2)
  }

  /** Position p is kept in preference to q. */
  predicate Outranks(list: seq<Change>, p: nat, q: nat)
    requires p < |list| && q < |list|
  {
    var x, y := AttrRank(list[p].attribution), AttrRank(list[q].attribution);
    x < y || (x == y && p < q)
  }

  lemma RankCases(a: Attribution)
    ensures AttrRank(a) == 0 || AttrRank(a) == 1 || AttrRank(a) == 2
  {
  }

  lemma KeepOrderOrders(list: seq<Change>)
    ensures var o := KeepOrder(list);
            && (forall a :: 0 <= a < |o| ==> o[a] < |list|)
            && (forall a, b :: 0 <= a < b < |o| ==> Outranks(list, o[a], o[b]))
            && (forall p :: 0 <= p < |list| ==> p in o)
  {
    var o := KeepOrder(list);
    var x, y, z := PositionsOf(list, 0), PositionsOf(list, 1), PositionsOf(list, 2);
    hide PositionsOf, AttrRank;
    forall p | 0 <= p < |list| ensures p in o {
      RankCases(list[p].attribution);
      assert p in x || p in y || p in z;
    }
    forall a, b | 0 <= a < b < |o| ensures o[a] < |list| && o[b] < |list| && Outranks(list, o[a], o[b]) {
      assert o[a] == if a < |x| then x[a] else if a < |x| + |y| then y[a - |x|] else z[a - |x| - |y|];
      assert o[b] == if b < |x| then x[b] else if b < |x| + |y| then y[b - |x|] else z[b - |x| - |y|];
    }
  }

  function Elements(o: seq<nat>): (s: set<nat>)
    ensures forall p :: p in s <==> p in o
  {
    set p | p in o
  }

  lemma {:induction false} DistinctElements(o: seq<nat>)
    requires forall a, b :: 0 <= a < b < |o| ==> o[a] != o[b]
    ensures |Elements(o)| == |o|
  {
    if o != [] {
      var front := o[..|o| - 1];
      DistinctElements(front);
      assert Elements(o) == Elements(front) + {o[|o| - 1]};
    }
  }

  /** The positions kept when a list is cut to max entries. */
  ghost function Kept(list: seq<Change>, max: nat): set<nat> {
    Elements(KeepOrder(list)[..if max <= |KeepOrder(list)| then max else |KeepOrder(list)|])
  }

  lemma KeepOrderDistinct(list: seq<Change>)
    ensures var o := KeepOrder(list); forall a, b :: 0 <= a < b < |o| ==> o[a] != o[b]
  {
    var o := KeepOrder(list);
    KeepOrderOrders(list);
    forall a, b | 0 <= a < b < |o| ensures o[a] != o[b] {
      assert Outranks(list, o[a], o[b]);
    }
  }

  lemma KeepOrderLength(list: seq<Change>)
    ensures |KeepOrder(list)| == |list|
  {
    KeepOrderOrders(list);
    KeepOrderDistinct(list);
    DistinctElements(KeepOrder(list));
    assert Elements(KeepOrder(list)) == Below(|list|);
  }

  function Below(n: nat): (s: set<nat>)
    ensures |s| == n
    ensures forall p: nat :: p in s <==> p < n
  {
    if n == 0 then {} else Below(n - 1) + {n - 1}
  }

  /** Truncation keeps exactly max positions, nothing it drops outranks anything it keeps, ties go to
      the earlier entry, and no human_likely change is lost while there are at most max of them. */
  lemma TruncationKeepsWhatMatters(list: seq<Change>, max: nat)
    requires 0 < max < |list|
    ensures var kept := Kept(list, max);
            && |kept| == max
            && (forall p: nat :: p in kept ==> p < |list|)
            && (forall p: nat, q: nat :: p in kept && q < |list| && q !in kept ==> Outranks(list, p, q))
            && (|PositionsOf(list, 0)| <= max ==>
                 forall p: nat :: p < |list| && list[p].attribution == HumanLikely ==> p in kept)
  {
    var o := KeepOrder(list);
    KeepOrderOrders(list);
    KeepOrderLength(list);
    KeepOrderDistinct(list);
    DistinctElements(o[..max]);
    forall p: nat, q: nat | p in Kept(list, max) && q < |list| && q !in Kept(list, max)
        ensures p < |list| && Outranks(list, p, q) {
      KeptOutranksDropped(list, max, p, q);
    }
    forall p | p in Kept(list, max) ensures p < |list| { assert p in o; }
    if |PositionsOf(list, 0)| <= max {
      forall p: nat | p < |list| && list[p].attribution == HumanLikely ensures p in Kept(list, max) {
        HumanIsKept(list, max, p);
      }
    }
  }

  lemma KeptOutranksDropped(list: seq<Change>, max: nat, p: nat, q: nat)
    requires 0 < max < |list| && p in Kept(list, max) && q < |list| && q !in Kept(list, max)
    ensures p < |list| && Outranks(list, p, q)
  {
    var o := KeepOrder(list);
    KeepOrderOrders(list);
    KeepOrderLength(list);
    assert p in o[..max];
    assert forall c :: 0 <= c < max ==> o[..max][c] == o[c] && o[c] in o[..max];
    var a :| 0 <= a < max && o[..max][a] == p;
    assert q in o;
    var b :| 0 <= b < |o| && o[b] == q;
  }

  lemma HumanIsKept(list: seq<Change>, max: nat, p: nat)
    requires 0 < max < |list| && |PositionsOf(list, 0)| <= max
    requires p < |list| && list[p].attribution == HumanLikely
    ensures p in Kept(list, max)
  {
    var x := PositionsOf(list, 0);
    KeepOrderLength(list);
    var a :| 0 <= a < |x| && x[a] == p;
    assert KeepOrder(list)[..max][a] == p;
  }

  function PickAll(list: seq<Change>, order: seq<nat>): seq<Change>
    requires forall a :: 0 <= a < |order| ==> order[a] < |list|
  {
    seq(|order|, i requires 0 <= i < |order| => list[order[i]])
  }

  method RankPositions(list: seq<Change>, rank: int) returns (r: seq<nat>)
    ensures r == PositionsOf(list, rank)
  {
    r := [];
    for i := 0 to |list|
      invariant r == PositionsOf(list[..i], rank)
    {
      assert list[..i + 1][..i] == list[..i];
      if AttrRank(list[i].attribution) == rank {
        r := r + [i];
      }
    }
    assert list[..|list|] == list;
  }

  /** sort.SliceStable over the positions, by rank. */
  method StableByRank(list: seq<Change>) returns (order: seq<nat>)
    ensures order == KeepOrder(list)
  {
    var humans := RankPositions(list, 0);
    var unknowns := RankPositions(list, 1);
    var routine := RankPositions(list, 2);
    order := humans + unknowns + routine;
  }

  method TruncateChanges(list: seq<Change>, max: nat) returns (out: seq<Change>, cut: bool)
    ensures |KeepOrder(list)| == |list| && forall a :: 0 <= a < |list| ==> KeepOrder(list)[a] < |list|
    ensures cut <==> 0 < max < |list|
    ensures !cut ==> out == list
    ensures cut ==> Sorted(Canonical, out) && multiset(out) == multiset(PickAll(list, KeepOrder(list)[..max]))
  {
    KeepOrderOrders(list);
    KeepOrderLength(list);
    if max == 0 || |list| <= max {
      return list, false;
    }
    var order := StableByRank(list);
    var picked: seq<Change> := [];
    for i := 0 to max
      invariant picked == PickAll(list, order[..i])
    {
      picked := picked + [list[order[i]]];
      assert order[..i + 1] == order[..i] + [order[i]];
    }
    out := SortBy(Canonical, picked);
    cut := true;
  }

  /** The canonical truncated list. */
  ghost function Truncate(list: seq<Change>, max: nat): seq<Change> {
    if 0 < max < |list| then Arrange(Canonical, KeptChanges(list, max))
    else list
  }

  /** The changes at the kept positions. */
  ghost function KeptChanges(list: seq<Change>, max: nat): set<Change> {
    set p: nat | p in Kept(list, max) && p < |list| :: list[p]
  }

  lemma PickedAreKept(list: seq<Change>, max: nat)
    requires 0 < max < |list|
    requires |KeepOrder(list)| == |list| && forall a :: 0 <= a < |list| ==> KeepOrder(list)[a] < |list|
    ensures forall c :: c in PickAll(list, KeepOrder(list)[..max]) <==> c in KeptChanges(list, max)
  {
    var o := KeepOrder(list)[..max];
    var picked := PickAll(list, o);
    forall c ensures c in picked <==> c in KeptChanges(list, max) {
      if c in picked {
        var i :| 0 <= i < |picked| && picked[i] == c;
        assert o[i] in Kept(list, max);
      }
      if c in KeptChanges(list, max) {
        var p: nat :| p in Kept(list, max) && p < |list| && list[p] == c;
        var i :| 0 <= i < |o| && o[i] == p;
        assert picked[i] == c;
      }
    }
  }

  lemma TruncatedIs(list: seq<Change>, max: nat, out: seq<Change>)
    requires Ascending(Canonical, list) && 0 < max < |list|
    requires |KeepOrder(list)| == |list| && forall a :: 0 <= a < |list| ==> KeepOrder(list)[a] < |list|
    requires Sorted(Canonical, out) && multiset(out) == multiset(PickAll(list, KeepOrder(list)[..max]))
    ensures out == Truncate(list, max) && Ascending(Canonical, out)
  {
    hide KeptChanges;
    var o := KeepOrder(list)[..max];
    var picked := PickAll(list, o);
    KeepOrderDistinct(list);
    AscendingIsDistinct(Canonical, list);
    forall i, j | 0 <= i < j < |picked| ensures Canonical(picked[i]) != Canonical(picked[j]) {
      assert o[i] != o[j];
    }
    SortedDistinct(Canonical, picked, out);
    PickedAreKept(list, max);
    ArrangeIs(Canonical, KeptChanges(list, max), out);
  }

  // ---- The window ----

  function SetOf(list: seq<Change>): set<Change> { set c | c in list }

  /** Two deltas merged into one canonical list. */
  ghost function Merged(software: seq<Change>, services: seq<Change>): seq<Change> {
    Arrange(Canonical, SetOf(software) + SetOf(services))
  }

  ghost predicate DeltaPair(software: seq<Change>, services: seq<Change>) {
    && Ascending(Canonical, software) && Ascending(Canonical, services)
    && (forall c :: c in software ==> AboutSoftware(c.kind))
    && (forall c :: c in services ==> !AboutSoftware(c.kind))
  }

  lemma MergedIs(software: seq<Change>, services: seq<Change>, out: seq<Change>)
    requires DeltaPair(software, services)
    requires Sorted(Canonical, out) && multiset(out) == multiset(software + services)
    ensures out == Merged(software, services) && Ascending(Canonical, out)
  {
    var both := software + services;
    AscendingIsDistinct(Canonical, software);
    AscendingIsDistinct(Canonical, services);
    forall i, j | 0 <= i < j < |both| ensures Canonical(both[i]) != Canonical(both[j]) {
      if i < |software| <= j && Canonical(both[i]) == Canonical(both[j]) {
        assert both[i] in software && both[j] in services;
        CanonicalTellsApart(both[i], both[j]);
      }
    }
    SortedDistinct(Canonical, both, out);
    ArrangeIs(Canonical, SetOf(software) + SetOf(services), out);
  }

  function BaseSoftware(st: Option<SessionState>): seq<SoftFP> { if st.Some? then st.value.software else [] }
  function BaseServices(st: Option<SessionState>): seq<SvcFP> { if st.Some? then st.value.services else [] }

  function Lost(st: Option<SessionState>, input: WindowInput): bool { input.baselineLost || st.None? }

  function SoftwareHealthOf(st: Option<SessionState>, cur: Inventory): Health {
    WorseHealth(if st.Some? then st.value.softwareHealth else NotRecorded, cur.softwareHealth)
  }

  function ServicesHealthOf(st: Option<SessionState>, cur: Inventory): Health {
    WorseHealth(if st.Some? then st.value.servicesHealth else NotRecorded, cur.servicesHealth)
  }

  predicate SoftwareUsable(st: Option<SessionState>, cur: Inventory, input: WindowInput) {
    && !Lost(st, input) && HealthUsable(SoftwareHealthOf(st, cur))
    && BaseSoftware(st) != [] && cur.software != []
  }

  predicate ServicesUsable(st: Option<SessionState>, cur: Inventory, input: WindowInput) {
    && !Lost(st, input) && HealthUsable(ServicesHealthOf(st, cur))
    && BaseServices(st) != [] && cur.services != []
  }

  predicate Stale(input: WindowInput) {
    input.final && input.sessionEnd != 0 && input.now - input.sessionEnd > STALE_FINAL
  }

  function CompletenessOf(lost: bool, skipped: bool, software: Health, services: Health, stale: bool,
                          truncated: bool): Completeness {
    if lost then NoBaseline
    else if skipped || !HealthIsOK(software) || !HealthIsOK(services) then Partial
    else if stale then StaleFinal
    else if truncated then Truncated
    else Complete
  }

  predicate Rebooted(st: Option<SessionState>, bootTime: int) {
    st.Some? && st.value.bootTime != 0 && bootTime != 0 && st.value.bootTime != bootTime
  }

  /** Everything that changed, before degradation and truncation. */
  ghost function FullDelta(st: Option<SessionState>, cur: Inventory, input: WindowInput,
                           prefer: set<string>): seq<Change> {
    Merged(if SoftwareUsable(st, cur, input)
             then SoftwareDiff.SoftwareDelta(BaseSoftware(st), cur.software, prefer, input.now) else [],
           if ServicesUsable(st, cur, input)
             then ServiceDiff.ServiceDelta(BaseServices(st), cur.services, input.now) else [])
  }

  function Frame(st: Option<SessionState>, cur: Inventory, input: WindowInput, total: nat, changes: seq<Change>,
                 cut: bool): Window {
    var software, services := SoftwareHealthOf(st, cur), ServicesHealthOf(st, cur);
    var skipped := !SoftwareUsable(st, cur, input) || !ServicesUsable(st, cur, input);
    Window(if st.Some? then st.value.requestId else "", input.seqNo,
           if st.Some? then st.value.grantedAt else 0,
           if input.final && input.sessionEnd != 0 then input.sessionEnd else input.now,
           if cur.at != 0 then cur.at else input.now,
           changes, input.final, cut, Int32(total), Rebooted(st, cur.bootTime), Lost(st, input), software, services,
           CompletenessOf(Lost(st, input), skipped, software, services, Stale(input), cut))
  }

  /** The window for a baseline and a current snapshot; `prefer` is the trace of iteration order. */
  ghost function WindowFor(st: Option<SessionState>, cur: Inventory, input: WindowInput, prefer: set<string>): Window {
    var full := Degrade(FullDelta(st, cur, input, prefer), SoftwareHealthOf(st, cur), ServicesHealthOf(st, cur),
        Lost(st, input));
    Frame(st, cur, input, |full|, Truncate(full, MAX_WINDOW_CHANGES), |full| > MAX_WINDOW_CHANGES)
  }

  method ComputeDelta(st: Option<SessionState>, cur: Inventory, input: WindowInput)
    returns (r: seq<Change>, ghost prefer: set<string>)
    ensures r == FullDelta(st, cur, input, prefer) && Ascending(Canonical, r)
  {
    hide Ascending, Sorted, SoftwareUsable, ServicesUsable, SoftwareDiff.SoftwareDelta, ServiceDiff.ServiceDelta;
    var software, services: seq<Change> := [], [];
    prefer := {};
    EmptyAscends();
    if SoftwareUsable(st, cur, input) {
      software, prefer := SoftwareDiff.DiffSoftware(BaseSoftware(st), cur.software, input.now);
      SoftwareDiff.SoftwareDeltaAscends(BaseSoftware(st), cur.software, prefer, input.now);
    }
    if ServicesUsable(st, cur, input) {
      services := ServiceDiff.DiffServices(BaseServices(st), cur.services, input.now);
      ServiceDiff.ServiceDeltaAscends(BaseServices(st), cur.services, input.now);
    }
    r := SortBy(Canonical, software + services);
    MergedIs(software, services, r);
  }

  method BuildWindow(st: Option<SessionState>, cur: Inventory, input: WindowInput)
    returns (w: Window, ghost prefer: set<string>)
    ensures w == WindowFor(st, cur, input, prefer)
    ensures exists q :: w == WindowFor(st, cur, input, q)
  {
    hide Ascending, Sorted, Degrade, FullDelta, Frame;
    var delta;
    delta, prefer := ComputeDelta(st, cur, input);
    var swHealth, svcHealth, lost := SoftwareHealthOf(st, cur), ServicesHealthOf(st, cur), Lost(st, input);
    var changes := DegradeChanges(delta, swHealth, svcHealth, lost);
    DegradeKeepsOrder(delta, swHealth, svcHealth, lost);
    var out, cut := TruncateChanges(changes, MAX_WINDOW_CHANGES);
    if cut { TruncatedIs(changes, MAX_WINDOW_CHANGES, out); }
    w := Frame(st, cur, input, |changes|, out, cut);
  }

  lemma FrameOfWindow(st: Option<SessionState>, cur: Inventory, input: WindowInput, prefer: set<string>)
    ensures var w := WindowFor(st, cur, input, prefer);
            && w.final == input.final && w.seqNo == input.seqNo && w.baselineLost == Lost(st, input)
            && w.requestId == if st.Some? then st.value.requestId else ""
  {
    hide FullDelta, Degrade, Truncate;
  }

  function LineOf(c: Change): DigestLine {
    DigestLine(c.kind, c.identity, c.subject, c.oldValue, c.newValue, c.attribution)
  }

  /** The fingerprint of what a window tells the server. */
  function DigestOf(w: Window): Digest {
    Digest(w.total, w.truncated, w.completeness, w.rebooted, w.softwareHealth, w.servicesHealth,
           seq(|w.changes|, i requires 0 <= i < |w.changes| => LineOf(w.changes[i])))
  }

  lemma EmptyAscends()
    ensures Ascending(Canonical, [])
  {
  }
}
