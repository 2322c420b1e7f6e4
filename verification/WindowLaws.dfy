/** What a reader of an evidence window may conclude from it. */
module WindowLaws {
  import opened Ordering
  import opened Changes
  import opened Evidence
  import SoftwareDiff
  import ServiceDiff

  /** Both sources were seen in full at t0 and now. A current health this agent does not know ranks
      with ok, so it passes; a recorded one does not. */
  predicate FullySeen(st: Option<SessionState>, cur: Inventory) {
    && st.Some?
    && HealthIsOK(st.value.softwareHealth) && HealthIsOK(st.value.servicesHealth)
    && HealthRank(cur.softwareHealth) == 0 && HealthRank(cur.servicesHealth) == 0
    && st.value.software != [] && st.value.services != [] && cur.software != [] && cur.services != []
  }

  lemma WorseHealthIsOK(a: Health, b: Health)
    ensures HealthIsOK(WorseHealth(a, b)) <==> HealthIsOK(a) && HealthRank(b) == 0
  {
  }

  /** The verdict "complete" is given exactly when nothing was missing. */
  lemma CompleteExactly(st: Option<SessionState>, cur: Inventory, input: WindowInput, prefer: set<string>)
    ensures WindowFor(st, cur, input, prefer).completeness == Complete <==>
              FullySeen(st, cur) && !input.baselineLost && !Stale(input)
              && |FullDelta(st, cur, input, prefer)| <= MAX_WINDOW_CHANGES
  {
    hide FullDelta, Degrade, Truncate;
    if st.Some? {
      WorseHealthIsOK(st.value.softwareHealth, cur.softwareHealth);
      WorseHealthIsOK(st.value.servicesHealth, cur.servicesHealth);
    }
  }

  /** A complete window carries both full deltas, attributed as computed, and counts them exactly. */
  lemma CompleteIsWhole(st: Option<SessionState>, cur: Inventory, input: WindowInput, prefer: set<string>)
    requires WindowFor(st, cur, input, prefer).completeness == Complete
    ensures st.Some?
    ensures var w := WindowFor(st, cur, input, prefer);
            && w.changes == Merged(SoftwareDiff.SoftwareDelta(st.value.software, cur.software, prefer, input.now),
                                   ServiceDiff.ServiceDelta(st.value.services, cur.services, input.now))
            && w.total == |w.changes| && !w.truncated
                && w.end == (if input.final && input.sessionEnd != 0 then input.sessionEnd else input.now)
  {
    hide Merged, SoftwareDiff.SoftwareDelta, ServiceDiff.ServiceDelta;
    CompleteExactly(st, cur, input, prefer);
    WorseHealthIsOK(st.value.softwareHealth, cur.softwareHealth);
    WorseHealthIsOK(st.value.servicesHealth, cur.servicesHealth);
  }

  /** Same keys, same versions. */
  ghost predicate SameSoftware(before: seq<SoftFP>, after: seq<SoftFP>) {
    var b, a := Index(SoftKey, before), Index(SoftKey, after);
    b.Keys == a.Keys && forall k :: k in b && k in a ==> b[k].version == a[k].version
  }

  /** Same keys, same account, start type, image path and definition hash. */
  ghost predicate SameServices(before: seq<SvcFP>, after: seq<SvcFP>) {
    var b, a := Index(SvcKey, before), Index(SvcKey, after);
    b.Keys == a.Keys && forall k :: k in b && k in a ==> ServiceDiff.SameDefinition(b[k], a[k])
  }

  /** The software delta is empty only if nothing changed. */
  lemma QuietSoftware(before: seq<SoftFP>, after: seq<SoftFP>, prefer: set<string>, now: Instant)
    ensures SoftwareDiff.SoftwareDelta(before, after, prefer, now) == [] <==> SameSoftware(before, after)
  {
    hide SoftwareDiff.SoftwareDelta;
    var b, a := Index(SoftKey, before), Index(SoftKey, after);
    var r := SoftwareDiff.SoftwareDelta(before, after, prefer, now);
    if r == [] {
      forall k ensures k in a ==> k in b && b[k].version == a[k].version {
        SoftwareDiff.EveryNewKeyReported(before, after, prefer, now, k);
      }
      forall k | k in b ensures k in a {
        if k !in a { SoftwareDiff.EveryGoneKeyAccounted(before, after, prefer, now, k); NotInEmpty(r, b, k, now); }
      }
    } else if SameSoftware(before, after) {
      QuietRow(before, after, prefer, now, r[0]);
    }
  }

  lemma NotInEmpty(r: seq<Change>, b: SoftIndex, k: string, now: Instant)
    requires r == [] && k in b
    ensures SoftwareDiff.RemovedChange(b[k], k, now) !in r
    ensures forall c, l :: !SoftwareDiff.Collapse(r, c, l)
  {
  }

  lemma QuietRow(before: seq<SoftFP>, after: seq<SoftFP>, prefer: set<string>, now: Instant, c: Change)
    requires SameSoftware(before, after)
    ensures c !in SoftwareDiff.SoftwareDelta(before, after, prefer, now)
  {
    hide SoftwareDiff.SoftwareDelta;
    SoftwareDiff.SoftwareDeltaRows(before, after, prefer, now, c);
  }

  lemma QuietServices(before: seq<SvcFP>, after: seq<SvcFP>, now: Instant)
    ensures ServiceDiff.ServiceDelta(before, after, now) == [] <==> SameServices(before, after)
  {
    hide ServiceDiff.ServiceDelta;
    var b, a := Index(SvcKey, before), Index(SvcKey, after);
    var r := ServiceDiff.ServiceDelta(before, after, now);
    if r == [] {
      forall k ensures (k in a <==> k in b) && (k in a && k in b ==> ServiceDiff.SameDefinition(b[k], a[k])) {
        ServiceDiff.EveryServiceAccounted(before, after, now, k);
        assert forall c :: c !in r;
      }
    } else if SameServices(before, after) {
      ServiceDiff.ServiceDeltaRows(before, after, now, r[0]);
    }
  }

  /** An empty complete window is a statement: nothing changed. And only then is it empty. */
  lemma EmptyCompleteMeansUnchanged(st: Option<SessionState>, cur: Inventory, input: WindowInput, prefer: set<string>)
    requires WindowFor(st, cur, input, prefer).completeness == Complete
    ensures st.Some?
    ensures WindowFor(st, cur, input, prefer).changes == [] <==>
              SameSoftware(st.value.software, cur.software) && SameServices(st.value.services, cur.services)
  {
    hide SoftwareDiff.SoftwareDelta, ServiceDiff.ServiceDelta, SameSoftware, SameServices, WindowFor;
    CompleteIsWhole(st, cur, input, prefer);
    QuietSoftware(st.value.software, cur.software, prefer, input.now);
    QuietServices(st.value.services, cur.services, input.now);
    var x := SoftwareDiff.SoftwareDelta(st.value.software, cur.software, prefer, input.now);
    var y := ServiceDiff.ServiceDelta(st.value.services, cur.services, input.now);
    MergedEmpty(x, y);
  }

  lemma MergedEmpty(x: seq<Change>, y: seq<Change>)
    ensures Merged(x, y) == [] <==> x == [] && y == []
  {
    if x != [] { assert x[0] in SetOf(x) + SetOf(y); }
    if y != [] { assert y[0] in SetOf(x) + SetOf(y); }
  }

  /** Without a baseline no change is claimed at all. */
  lemma LostBaselineClaimsNothing(st: Option<SessionState>, cur: Inventory, input: WindowInput, prefer: set<string>)
    requires input.baselineLost || st.None?
    ensures var w := WindowFor(st, cur, input, prefer);
            w.changes == [] && w.total == 0 && w.completeness == NoBaseline && w.baselineLost
  {
    MergedEmpty([], []);
  }

  /** The part of a session record that a window is computed from. */
  predicate SameBaseline(s: SessionState, t: SessionState) {
    && s.requestId == t.requestId && s.grantedAt == t.grantedAt && s.bootTime == t.bootTime
    && s.softwareHealth == t.softwareHealth && s.servicesHealth == t.servicesHealth
    && s.software == t.software && s.services == t.services
  }

  /** Windows ignore the bookkeeping of earlier windows: only Seq tells two of them apart. */
  lemma WindowIgnoresBookkeeping(s: SessionState, t: SessionState, cur: Inventory, input: WindowInput, seqNo: int,
                                 prefer: set<string>)
    requires SameBaseline(s, t)
    ensures var w := WindowFor(Some(s), cur, input, prefer);
            var v := WindowFor(Some(t), cur, input.(seqNo := seqNo), prefer);
            v == w.(seqNo := seqNo) && DigestOf(v) == DigestOf(w)
  {
    hide Merged, SoftwareDiff.SoftwareDelta, ServiceDiff.ServiceDelta, Truncate, Degrade;
  }

  /** A truncated window keeps 1000 rows in canonical order; whatever it drops is of a weaker
      attribution, or of the same and later in canonical order. */
  lemma TruncatedWindowKeepsTheWorst(st: Option<SessionState>, cur: Inventory, input: WindowInput, prefer: set<string>)
    requires |FullDelta(st, cur, input, prefer)| > MAX_WINDOW_CHANGES
    ensures var w := WindowFor(st, cur, input, prefer);
            var full := Degrade(FullDelta(st, cur, input, prefer), w.softwareHealth, w.servicesHealth, w.baselineLost);
            && w.truncated && |w.changes| == MAX_WINDOW_CHANGES && Ascending(Canonical, w.changes)
            && (forall c :: c in w.changes ==> c in full)
            && (forall c, d :: c in w.changes && d in full && d !in w.changes ==> Prevails(c, d))
  {
    hide SoftwareDiff.SoftwareDelta, ServiceDiff.ServiceDelta, FullDelta, Degrade, Ascending, Prevails, Truncate;
    var w := WindowFor(st, cur, input, prefer);
    var delta := FullDelta(st, cur, input, prefer);
    var full := Degrade(delta, w.softwareHealth, w.servicesHealth, w.baselineLost);
    FullDeltaAscends(st, cur, input, prefer);
    DegradeKeepsOrder(delta, w.softwareHealth, w.servicesHealth, w.baselineLost);
    TruncationOfAscending(full, MAX_WINDOW_CHANGES);
  }

  /** c is kept in preference to d. */
  predicate Prevails(c: Change, d: Change) {
    var x, y := AttrRank(c.attribution), AttrRank(d.attribution);
    x < y || (x == y && Precedes(Canonical(c), Canonical(d)))
  }

  lemma FullDeltaAscends(st: Option<SessionState>, cur: Inventory, input: WindowInput, prefer: set<string>)
    ensures Ascending(Canonical, FullDelta(st, cur, input, prefer))
  {
    hide SoftwareDiff.SoftwareDelta, ServiceDiff.ServiceDelta, Ascending, SoftwareUsable, ServicesUsable;
    EmptyAscends();
    SoftwareDiff.SoftwareDeltaAscends(BaseSoftware(st), cur.software, prefer, input.now);
    ServiceDiff.ServiceDeltaAscends(BaseServices(st), cur.services, input.now);
    var x := if SoftwareUsable(st, cur, input)
        then SoftwareDiff.SoftwareDelta(BaseSoftware(st), cur.software, prefer, input.now) else [];
    var y := if ServicesUsable(st, cur, input)
        then ServiceDiff.ServiceDelta(BaseServices(st), cur.services, input.now) else [];
    MergedAscends(x, y);
  }

  lemma MergedAscends(x: seq<Change>, y: seq<Change>)
    requires DeltaPair(x, y)
    ensures Ascending(Canonical, Merged(x, y))
  {
    var both := SetOf(x) + SetOf(y);
    AscendingIsDistinct(Canonical, x);
    AscendingIsDistinct(Canonical, y);
    forall c, d | c in both && d in both && Canonical(c) == Canonical(d) ensures c == d {
      CanonicalTellsApart(c, d);
    }
  }

  lemma TruncationOfAscending(full: seq<Change>, max: nat)
    requires Ascending(Canonical, full) && 0 < max < |full|
    ensures var out := Truncate(full, max);
            && |out| == max && Ascending(Canonical, out)
            && (forall c :: c in out ==> c in full)
            && (forall c, d :: c in out && d in full && d !in out ==> Prevails(c, d))
  {
    hide Kept, Prevails, Ascending, KeyedApart;
    TruncationKeepsWhatMatters(full, max);
    TruncationElements(full, max);
    forall c, d | c in Truncate(full, max) && d in full && d !in Truncate(full, max) ensures Prevails(c, d) {
      KeptPrevails(full, max, c, d);
    }
  }

  /** The rows kept are those at the kept positions, each once. */
  lemma TruncationElements(full: seq<Change>, max: nat)
    requires Ascending(Canonical, full) && 0 < max < |full| && |Kept(full, max)| == max
    requires forall p: nat :: p in Kept(full, max) ==> p < |full|
    ensures |Truncate(full, max)| == max && Ascending(Canonical, Truncate(full, max))
    ensures forall c :: c in Truncate(full, max) <==> c in Image(full, Kept(full, max))
    ensures forall c :: c in Truncate(full, max) ==> c in full
  {
    hide Kept;
    var kept := KeptChanges(full, max);
    AscendingIsDistinct(Canonical, full);
    ImageSize(full, Kept(full, max));
    assert kept == Image(full, Kept(full, max));
    hide Precedes;
    assert KeyedApart(Canonical, kept);
  }

  lemma KeptPrevails(full: seq<Change>, max: nat, c: Change, d: Change)
    requires Ascending(Canonical, full) && 0 < max < |full|
    requires forall p: nat :: p in Kept(full, max) ==> p < |full|
    requires forall p: nat, q: nat :: p in Kept(full, max) && q < |full| && q !in Kept(full, max) ==>
               Outranks(full, p, q)
    requires c in Image(full, Kept(full, max)) && d in full && d !in Image(full, Kept(full, max))
    ensures Prevails(c, d)
  {
    hide Kept, Precedes;
    var p: nat :| p in Kept(full, max) && full[p] == c;
    var q: nat :| q < |full| && full[q] == d;
    assert Outranks(full, p, q);
  }

  ghost function Image(full: seq<Change>, s: set<nat>): set<Change>
    requires forall p :: p in s ==> p < |full|
  {
    set p | p in s :: full[p]
  }

  lemma {:induction false} ImageSize(full: seq<Change>, s: set<nat>)
    requires forall p :: p in s ==> p < |full|
    requires forall i, j :: 0 <= i < j < |full| ==> full[i] != full[j]
    ensures |Image(full, s)| == |s|
  {
    if s != {} {
      var p :| p in s;
      ImageSize(full, s - {p});
      assert Image(full, s) == Image(full, s - {p}) + {full[p]};
      assert full[p] !in Image(full, s - {p}) by {
        forall q | q in s - {p} ensures full[q] != full[p] {
          if q < p {} else {}
        }
      }
    }
  }

  /** Canonical output: with unique keys and unambiguous labels neither list order nor iteration order
      shows in the window or its digest. */
  lemma WindowCanonical(s: SessionState, t: SessionState, cur: Inventory, cur': Inventory, input: WindowInput,
                        prefer: set<string>, prefer': set<string>)
    requires t == s.(software := t.software, services := t.services)
    requires cur' == cur.(software := cur'.software, services := cur'.services)
    requires multiset(s.software) == multiset(t.software) && multiset(s.services) == multiset(t.services)
    requires multiset(cur.software) == multiset(cur'.software) && multiset(cur.services) == multiset(cur'.services)
    requires UniqueKeys(SoftKey, s.software) && UniqueKeys(SoftKey, cur.software)
    requires UniqueKeys(SvcKey, s.services) && UniqueKeys(SvcKey, cur.services)
    requires SoftwareDiff.Unambiguous(Index(SoftKey, s.software), Index(SoftKey, cur.software))
    ensures WindowFor(Some(s), cur, input, prefer) == WindowFor(Some(t), cur', input, prefer')
  {
    hide Merged, SoftwareDiff.SoftwareDelta, ServiceDiff.ServiceDelta, SoftwareDiff.Unambiguous, UniqueKeys, Truncate,
        Degrade;
    SoftwareDiff.SoftwareDeltaCanonical(s.software, cur.software, t.software, cur'.software, prefer, prefer',
        input.now);
    ServiceDiff.ServiceDeltaCanonical(s.services, cur.services, t.services, cur'.services, input.now);
    SameMultisetSameEmptiness(s.software, t.software);
    SameMultisetSameEmptiness(s.services, t.services);
    SameMultisetSameEmptiness(cur.software, cur'.software);
    SameMultisetSameEmptiness(cur.services, cur'.services);
  }

  lemma SameMultisetSameEmptiness<T>(a: seq<T>, b: seq<T>)
    requires multiset(a) == multiset(b)
    ensures a == [] <==> b == []
  {
    assert |multiset(a)| == |a| && |multiset(b)| == |b|;
  }
}
