/** The software delta of a session (internal/agent/admin/diff.go). */
module SoftwareDiff {
  import opened Ordering
  import opened Changes

  function Bumped(before: SoftIndex, after: SoftIndex): set<string> {
    set k | k in after.Keys && k in before.Keys && before[k].version != after[k].version
  }

  function Label(s: SoftFP): (string, string) { (s.name, s.vendor) }

  ghost predicate Mates(before: SoftIndex, after: SoftIndex, k: string, g: string) {
    && k in Added(before, after) && g in Added(after, before)
    && Label(after[k]) == Label(before[g])
  }

  /** The keys of one label among the new (or, arguments swapped, the gone) records. */
  function Rivals(before: SoftIndex, after: SoftIndex, l: (string, string)): set<string> {
    set k | k in Added(before, after) && Label(after[k]) == l
  }

  /** k is a new record of the label and p collapses it. */
  ghost predicate Paired(after: SoftIndex, p: map<string, string>, l: (string, string), k: string) {
    k in p && k in after && Label(after[k]) == l
  }

  /** A pairing of new records with gone ones that collapsing may produce: at most one pair per
      (name, vendor), and one wherever that label has a record of each kind. */
  ghost predicate Pairing(before: SoftIndex, after: SoftIndex, p: map<string, string>) {
    && (forall k :: k in p ==> Mates(before, after, k, p[k]))
    && (forall l, j, k :: Paired(after, p, l, j) && Paired(after, p, l, k) ==> j == k)
    && (forall l :: Rivals(before, after, l) != {} && Rivals(after, before, l) != {} ==>
        exists k :: Paired(after, p, l, k))
  }

  function InstalledChange(a: SoftFP, key: string, now: Instant): Change {
    Change(SoftwareInstalled, a.name, a.name, key, "", a.version, a.vendor, a.scope, HumanLikely, NewProduct, now)
  }

  function UpdatedChange(b: SoftFP, a: SoftFP, key: string, now: Instant): Change {
    Change(SoftwareUpdated, a.name, a.name, key, b.version, a.version, a.vendor, a.scope,
           BackgroundLikely, VersionBumpSameKey, now)
  }

  function RemovedChange(b: SoftFP, key: string, now: Instant): Change {
    Change(SoftwareRemoved, b.name, b.name, key, b.version, "", b.vendor, b.scope, HumanLikely, Removed, now)
  }

  function Reinstalled(installed: Change, removed: Change, now: Instant): Change {
    Change(SoftwareUpdated, installed.subject, installed.display, installed.identity, removed.oldValue,
           installed.newValue, installed.vendor, installed.scope, BackgroundLikely, ReinstallSameName, now)
  }

  /** The keys a software delta reports: every one once, under its own identity. */
  function Reported(before: SoftIndex, after: SoftIndex, p: map<string, string>): set<string> {
    Added(before, after) + Bumped(before, after) + (Added(after, before) - p.Values)
  }

  /** The change reported for one key. */
  ghost function ChangeOf(before: SoftIndex, after: SoftIndex, p: map<string, string>, now: Instant,
                          k: string): (c: Change)
    requires Pairing(before, after, p) && k in Reported(before, after, p)
    ensures c.identity == k && AboutSoftware(c.kind) && c.at == now
  {
    if k in p then Reinstalled(InstalledChange(after[k], k, now), RemovedChange(before[p[k]], p[k], now), now)
    else if k !in before then InstalledChange(after[k], k, now)
    else if k in after then UpdatedChange(before[k], after[k], k, now)
    else RemovedChange(before[k], k, now)
  }

  ghost function SoftwareTable(before: SoftIndex, after: SoftIndex, p: map<string, string>,
                               now: Instant): (t: map<string, Change>)
    requires Pairing(before, after, p)
    ensures Table(t)
  {
    map k | k in Reported(before, after, p) :: ChangeOf(before, after, p, now, k)
  }

  // ---- The choice left to map iteration: which records of an ambiguous label are paired ----

  ghost function PickFrom(prefer: set<string>, s: set<string>): (k: string)
    requires s != {}
    ensures k in s && (s * prefer != {} ==> k in prefer)
  {
    if s * prefer != {} then var k :| k in s * prefer; k
    else var k :| k in s; k
  }

  /** The new records collapsed when iteration favours the keys in `prefer`. */
  ghost function Chosen(before: SoftIndex, after: SoftIndex, prefer: set<string>): set<string> {
    set k | k in Added(before, after)
            && Rivals(after, before, Label(after[k])) != {}
            && k in Rivals(before, after, Label(after[k]))
            && k == PickFrom(prefer, Rivals(before, after, Label(after[k])))
  }

  /** The pairing that results. */
  ghost function PairBy(before: SoftIndex, after: SoftIndex, prefer: set<string>): map<string, string> {
    map k | k in Chosen(before, after, prefer) :: PickFrom(prefer, Rivals(after, before, Label(after[k])))
  }

  lemma PairByPairs(before: SoftIndex, after: SoftIndex, prefer: set<string>)
    ensures Pairing(before, after, PairBy(before, after, prefer))
  {
    var p := PairBy(before, after, prefer);
    forall k | k in p ensures Mates(before, after, k, p[k]) {
      assert p[k] in Rivals(after, before, Label(after[k]));
    }
    forall l | Rivals(before, after, l) != {} && Rivals(after, before, l) != {}
      ensures exists k :: Paired(after, p, l, k) {
      assert Paired(after, p, l, PickFrom(prefer, Rivals(before, after, l)));
    }
  }

  lemma MatesAreRivals(before: SoftIndex, after: SoftIndex, k: string, g: string)
    requires Mates(before, after, k, g)
    ensures k in Rivals(before, after, Label(after[k])) && g in Rivals(after, before, Label(after[k]))
  {
  }

  /** A pair of one pairing is forced on another that shares its mates. */
  lemma SamePair(before: SoftIndex, after: SoftIndex, p: map<string, string>, q: map<string, string>, k: string)
    requires Pairing(before, after, p) && Pairing(before, after, q) && k in p
    requires forall j :: Paired(after, q, Label(after[k]), j) ==> j == k && q[k] == p[k]
    ensures k in q && q[k] == p[k]
  {
    MatesAreRivals(before, after, k, p[k]);
    var j :| Paired(after, q, Label(after[k]), j);
  }

  lemma PairingSides(before: SoftIndex, after: SoftIndex, p: map<string, string>)
    requires Pairing(before, after, p)
    ensures p.Keys <= Added(before, after) && p.Values <= Added(after, before)
  {
    forall g | g in p.Values ensures g in Added(after, before) {
      var k :| k in p && p[k] == g;
      assert Mates(before, after, k, g);
    }
    forall k | k in p.Keys ensures k in Added(before, after) {
      assert Mates(before, after, k, p[k]);
    }
  }

  /** Every pairing arises from some preference, namely for its own keys. */
  lemma PairingIsPairBy(before: SoftIndex, after: SoftIndex, p: map<string, string>)
    requires Pairing(before, after, p)
    ensures PairBy(before, after, p.Keys + p.Values) == p
  {
    var prefer := p.Keys + p.Values;
    var q := PairBy(before, after, prefer);
    PairByPairs(before, after, prefer);
    forall k | k in p ensures k in q && q[k] == p[k] {
      forall j | Paired(after, q, Label(after[k]), j) ensures j == k && q[k] == p[k] {
        PreferredPair(before, after, p, j, k);
      }
      SamePair(before, after, p, q, k);
    }
    forall k | k in q ensures k in p {
      MatesAreRivals(before, after, k, q[k]);
      var h :| Paired(after, p, Label(after[k]), h);
      PreferredPair(before, after, p, k, h);
    }
  }

  lemma PreferredPair(before: SoftIndex, after: SoftIndex, p: map<string, string>, j: string, k: string)
    requires Pairing(before, after, p) && k in p
    requires j in PairBy(before, after, p.Keys + p.Values) && Label(after[j]) == Label(after[k])
    ensures j == k && PairBy(before, after, p.Keys + p.Values)[k] == p[k]
  {
    var prefer := p.Keys + p.Values;
    var l := Label(after[k]);
    var news, gone := Rivals(before, after, l), Rivals(after, before, l);
    assert Mates(before, after, k, p[k]);
    assert k in news * prefer && p[k] in gone * prefer;
    var n, g := PickFrom(prefer, news), PickFrom(prefer, gone);
    PairingSides(before, after, p);
    assert Paired(after, p, l, n) && Paired(after, p, l, k);
    var h :| h in p && p[h] == g;
    assert Mates(before, after, h, g);
    assert Paired(after, p, l, h);
  }

  /** The canonical software delta. `prefer` matters only where a label is ambiguous. */
  ghost function SoftwareDelta(before: seq<SoftFP>, after: seq<SoftFP>, prefer: set<string>,
                               now: Instant): (r: seq<Change>)
    ensures forall c :: c in r ==> AboutSoftware(c.kind)
    ensures forall c, d :: c in r && d in r && c.identity == d.identity ==> c == d
  {
    var b, a := Index(SoftKey, before), Index(SoftKey, after);
    PairByPairs(b, a, prefer);
    Arrange(Canonical, SoftwareTable(b, a, PairBy(b, a, prefer), now).Values)
  }

  /** At most one new record per (name, vendor). */
  ghost predicate OnePerLabel(before: SoftIndex, after: SoftIndex) {
    forall j, k :: j in Added(before, after) && k in Added(before, after) && Label(after[j]) == Label(after[k]) ==>
        j == k
  }

  /** At most one new and one gone record per (name, vendor). */
  ghost predicate Unambiguous(before: SoftIndex, after: SoftIndex) {
    OnePerLabel(before, after) && OnePerLabel(after, before)
  }

  /** Then the pairing is forced, whatever iteration prefers. */
  lemma PairingForced(before: SoftIndex, after: SoftIndex, p: map<string, string>, q: map<string, string>)
    requires Pairing(before, after, p) && Pairing(before, after, q) && Unambiguous(before, after)
    ensures p == q
  {
    forall k | k in p ensures k in q && q[k] == p[k] {
      ForcedPair(before, after, p, q, k);
    }
    forall k | k in q ensures k in p {
      ForcedPair(before, after, q, p, k);
    }
  }

  lemma ForcedPair(before: SoftIndex, after: SoftIndex, p: map<string, string>, q: map<string, string>, k: string)
    requires Pairing(before, after, p) && Pairing(before, after, q) && Unambiguous(before, after) && k in p
    ensures k in q && q[k] == p[k]
  {
    assert Mates(before, after, k, p[k]);
    forall j | Paired(after, q, Label(after[k]), j) ensures j == k && q[k] == p[k] {
      assert Mates(before, after, j, q[j]);
    }
    SamePair(before, after, p, q, k);
  }

  /** Canonical output: list order and iteration order leave no trace in the delta. */
  lemma SoftwareDeltaCanonical(before: seq<SoftFP>, after: seq<SoftFP>, before': seq<SoftFP>, after': seq<SoftFP>,
                               prefer: set<string>, prefer': set<string>, now: Instant)
    requires UniqueKeys(SoftKey, before) && UniqueKeys(SoftKey, after)
    requires Unambiguous(Index(SoftKey, before), Index(SoftKey, after))
    requires multiset(before) == multiset(before') && multiset(after) == multiset(after')
    ensures SoftwareDelta(before, after, prefer, now) == SoftwareDelta(before', after', prefer', now)
  {
    SameMultisetSameElements(before, before');
    SameMultisetSameElements(after, after');
    IndexOfPermutation(SoftKey, before, before');
    IndexOfPermutation(SoftKey, after, after');
    var b, a := Index(SoftKey, before), Index(SoftKey, after);
    PairByPairs(b, a, prefer);
    PairByPairs(b, a, prefer');
    PairingForced(b, a, PairBy(b, a, prefer), PairBy(b, a, prefer'));
  }

  // ---- Accounting ----

  ghost function OfKind(r: seq<Change>, kind: Kind): set<string> {
    set c | c in r && c.kind == kind :: c.identity
  }

  ghost predicate Collapse(r: seq<Change>, c: Change, l: (string, string)) {
    c in r && c.reason == ReinstallSameName && (c.subject, c.vendor) == l
  }

  /** The row of each key, read off the delta. */
  lemma SoftwareDeltaRows(before: seq<SoftFP>, after: seq<SoftFP>, prefer: set<string>, now: Instant, c: Change)
    ensures var b, a := Index(SoftKey, before), Index(SoftKey, after);
            var p := PairBy(b, a, prefer);
            Pairing(b, a, p) &&
            (c in SoftwareDelta(before, after, prefer, now) <==>
              c.identity in Reported(b, a, p) && c == ChangeOf(b, a, p, now, c.identity))
  {
    var b, a := Index(SoftKey, before), Index(SoftKey, after);
    PairByPairs(b, a, prefer);
    TableKeyedApart(SoftwareTable(b, a, PairBy(b, a, prefer), now));
  }

  lemma SoftwareDeltaAscends(before: seq<SoftFP>, after: seq<SoftFP>, prefer: set<string>, now: Instant)
    ensures Ascending(Canonical, SoftwareDelta(before, after, prefer, now))
  {
    var b, a := Index(SoftKey, before), Index(SoftKey, after);
    PairByPairs(b, a, prefer);
    TableKeyedApart(SoftwareTable(b, a, PairBy(b, a, prefer), now));
  }

  /** The old version of a reinstall is that of a record of the same (name, vendor) that is gone. */
  ghost predicate Reinstall(b: SoftIndex, a: SoftIndex, k: string, c: Change)
    requires k in a
  {
    && c.kind == SoftwareUpdated
    && exists g :: g in b && g !in a && Label(b[g]) == Label(a[k]) && c.oldValue == b[g].version
  }

  /** The row of a key in the new snapshot carries its new version; the old one is the key's own if it had
      one, that of a reinstalled product, or none. */
  ghost predicate TellsOf(b: SoftIndex, a: SoftIndex, k: string, c: Change)
    requires k in a
  {
    && c.newValue == a[k].version && c.subject == a[k].name && c.vendor == a[k].vendor && c.scope == a[k].scope
    && (k in b ==> c.kind == SoftwareUpdated && c.oldValue == b[k].version)
    && (k !in b ==> (c.kind == SoftwareInstalled && c.oldValue == "") || Reinstall(b, a, k, c))
  }

  lemma ChangeTellsOf(b: SoftIndex, a: SoftIndex, p: map<string, string>, now: Instant, k: string)
    requires Pairing(b, a, p) && k in Reported(b, a, p) && k in a
    ensures TellsOf(b, a, k, ChangeOf(b, a, p, now, k))
  {
    if k in p { assert Mates(b, a, k, p[k]); }
  }

  /** New and re-versioned keys are reported once, as installed or updated; unchanged keys never. */
  lemma EveryNewKeyReported(before: seq<SoftFP>, after: seq<SoftFP>, prefer: set<string>, now: Instant, k: string)
    ensures var b, a := Index(SoftKey, before), Index(SoftKey, after);
            var r := SoftwareDelta(before, after, prefer, now);
            && (k in a ==> ((k in b && b[k].version == a[k].version) <==> forall c :: c in r ==> c.identity != k))
            && (forall c :: c in r && c.identity == k && k in a ==> TellsOf(b, a, k, c))
            && OncePerKey(r)
  {
    hide TellsOf;
    var b, a := Index(SoftKey, before), Index(SoftKey, after);
    var p := PairBy(b, a, prefer);
    var r := SoftwareDelta(before, after, prefer, now);
    PairByPairs(b, a, prefer);
    SoftwareDeltaAscends(before, after, prefer, now);
    AscendingOncePerKey(r);
    if k in Reported(b, a, p) {
      if k in a { ChangeTellsOf(b, a, p, now, k); }
      SoftwareDeltaRows(before, after, prefer, now, ChangeOf(b, a, p, now, k));
    }
    forall c | c in r && c.identity == k
      ensures k in Reported(b, a, p) && c == ChangeOf(b, a, p, now, k) {
      SoftwareDeltaRows(before, after, prefer, now, c);
    }
  }

  /** A key that is gone is reported as removed, or its old version is carried by the one reinstall
      of its (name, vendor), never both. */
  lemma EveryGoneKeyAccounted(before: seq<SoftFP>, after: seq<SoftFP>, prefer: set<string>, now: Instant, g: string)
    requires g in Index(SoftKey, before) && g !in Index(SoftKey, after)
    ensures var b, a := Index(SoftKey, before), Index(SoftKey, after);
            var r := SoftwareDelta(before, after, prefer, now);
            var p := PairBy(b, a, prefer);
            if g in p.Values then
              && g !in OfKind(r, SoftwareRemoved)
              && exists c :: Collapse(r, c, Label(b[g])) && c.oldValue == b[g].version && c.kind == SoftwareUpdated
            else RemovedChange(b[g], g, now) in r
  {
    var b, a := Index(SoftKey, before), Index(SoftKey, after);
    var r := SoftwareDelta(before, after, prefer, now);
    var p := PairBy(b, a, prefer);
    PairByPairs(b, a, prefer);
    PairingSides(b, a, p);
    if g in p.Values {
      var k :| k in p && p[k] == g;
      assert Mates(b, a, k, g);
      var c := ChangeOf(b, a, p, now, k);
      SoftwareDeltaRows(before, after, prefer, now, c);
      assert Collapse(r, c, Label(b[g]));
      forall d | d in r ensures d.identity != g {
        SoftwareDeltaRows(before, after, prefer, now, d);
      }
    } else {
      SoftwareDeltaRows(before, after, prefer, now, RemovedChange(b[g], g, now));
    }
  }

  /** Exactly one collapse for a (name, vendor) that has both new and gone records, none otherwise. */
  lemma OneCollapsePerLabel(before: seq<SoftFP>, after: seq<SoftFP>, prefer: set<string>, now: Instant,
                            l: (string, string))
    ensures var b, a := Index(SoftKey, before), Index(SoftKey, after);
            var r := SoftwareDelta(before, after, prefer, now);
            && ((exists c :: Collapse(r, c, l)) <==> Rivals(b, a, l) != {} && Rivals(a, b, l) != {})
            && forall c, d :: Collapse(r, c, l) && Collapse(r, d, l) ==> c == d
  {
    var b, a := Index(SoftKey, before), Index(SoftKey, after);
    var r := SoftwareDelta(before, after, prefer, now);
    var p := PairBy(b, a, prefer);
    PairByPairs(b, a, prefer);
    forall c | Collapse(r, c, l)
      ensures Paired(a, p, l, c.identity) && Rivals(b, a, l) != {} && Rivals(a, b, l) != {}
      ensures c == ChangeOf(b, a, p, now, c.identity) {
      SoftwareDeltaRows(before, after, prefer, now, c);
      var k := c.identity;
      assert Mates(b, a, k, p[k]);
      assert k in Rivals(b, a, l) && p[k] in Rivals(a, b, l);
    }
    if Rivals(b, a, l) != {} && Rivals(a, b, l) != {} {
      var k :| Paired(a, p, l, k);
      assert Mates(b, a, k, p[k]);
      var c := ChangeOf(b, a, p, now, k);
      SoftwareDeltaRows(before, after, prefer, now, c);
      assert Collapse(r, c, l);
    }
  }

  lemma {:induction false} InjectiveImage(p: map<string, string>)
    requires forall j, k :: j in p && k in p && p[j] == p[k] ==> j == k
    ensures |p.Values| == |p.Keys|
    decreases |p.Keys|
  {
    if p.Keys != {} {
      var k :| k in p.Keys;
      var q := p - {k};
      assert q.Keys == p.Keys - {k};
      InjectiveImage(q);
      assert p.Values == q.Values + {p[k]} by {
        forall v | v in p.Values ensures v in q.Values + {p[k]} {
          var j :| j in p && p[j] == v;
          if j != k { assert q[j] == v; }
        }
      }
      assert p[k] !in q.Values;
    } else {
      assert p.Values == {};
    }
  }

  /** Conservation: collapsing takes one installed row and one removed row at a time. */
  lemma SoftwareDeltaBalances(before: seq<SoftFP>, after: seq<SoftFP>, prefer: set<string>, now: Instant)
    ensures var b, a := Index(SoftKey, before), Index(SoftKey, after);
            var r := SoftwareDelta(before, after, prefer, now);
            |OfKind(r, SoftwareInstalled)| - |OfKind(r, SoftwareRemoved)| == |Added(b, a)| - |Added(a, b)|
  {
    var b, a := Index(SoftKey, before), Index(SoftKey, after);
    var r := SoftwareDelta(before, after, prefer, now);
    var p := PairBy(b, a, prefer);
    PairByPairs(b, a, prefer);
    PairingSides(b, a, p);
    forall j, k | j in p && k in p && p[j] == p[k] ensures j == k {
      assert Mates(b, a, j, p[j]) && Mates(b, a, k, p[k]);
      assert Paired(a, p, Label(a[j]), j) && Paired(a, p, Label(a[j]), k);
    }
    InjectiveImage(p);
    forall k ensures k in OfKind(r, SoftwareInstalled) <==> k in Added(b, a) - p.Keys
             ensures k in OfKind(r, SoftwareRemoved) <==> k in Added(a, b) - p.Values {
      KindOfRow(before, after, prefer, now, k);
    }
    assert OfKind(r, SoftwareInstalled) == Added(b, a) - p.Keys;
    assert OfKind(r, SoftwareRemoved) == Added(a, b) - p.Values;
    Without(Added(b, a), p.Keys);
    Without(Added(a, b), p.Values);
  }

  lemma Without<T>(s: set<T>, t: set<T>)
    requires t <= s
    ensures |s - t| == |s| - |t|
  {
    assert s == (s - t) + t;
  }

  lemma KindOfChange(before: SoftIndex, after: SoftIndex, p: map<string, string>, now: Instant, k: string)
    requires Pairing(before, after, p)
    ensures k in Added(before, after) - p.Keys ==> k in Reported(before, after, p)
    ensures k in Added(after, before) - p.Values ==> k in Reported(before, after, p)
    ensures k in Reported(before, after, p) ==>
        (ChangeOf(before, after, p, now, k).kind == SoftwareInstalled <==> k in Added(before, after) - p.Keys)
    ensures k in Reported(before, after, p) ==>
        (ChangeOf(before, after, p, now, k).kind == SoftwareRemoved <==> k in Added(after, before) - p.Values)
  {
    PairingSides(before, after, p);
  }

  lemma KindOfRow(before: seq<SoftFP>, after: seq<SoftFP>, prefer: set<string>, now: Instant, k: string)
    ensures var b, a := Index(SoftKey, before), Index(SoftKey, after);
            var r := SoftwareDelta(before, after, prefer, now);
            var p := PairBy(b, a, prefer);
            && (k in OfKind(r, SoftwareInstalled) <==> k in Added(b, a) - p.Keys)
            && (k in OfKind(r, SoftwareRemoved) <==> k in Added(a, b) - p.Values)
  {
    var b, a := Index(SoftKey, before), Index(SoftKey, after);
    var r := SoftwareDelta(before, after, prefer, now);
    var p := PairBy(b, a, prefer);
    PairByPairs(b, a, prefer);
    hide SoftwareDelta, PairBy, Pairing, Index, ChangeOf, Reported;
    KindOfChange(b, a, p, now, k);
    if k in Reported(b, a, p) {
      SoftwareDeltaRows(before, after, prefer, now, ChangeOf(b, a, p, now, k));
    }
    forall c | c in r && c.identity == k
      ensures k in Reported(b, a, p) && c == ChangeOf(b, a, p, now, k) {
      SoftwareDeltaRows(before, after, prefer, now, c);
    }
  }

  // ---- The loops ----

  /** The row of a key before collapsing. */
  function RawChange(b: SoftIndex, a: SoftIndex, k: string, now: Instant): (c: Change)
    requires k in Everything(b, a)
    ensures c.identity == k
  {
    if k !in b then InstalledChange(a[k], k, now)
    else if k in a then UpdatedChange(b[k], a[k], k, now)
    else RemovedChange(b[k], k, now)
  }

  function Everything(b: SoftIndex, a: SoftIndex): set<string> { Added(b, a) + Bumped(b, a) + Added(a, b) }

  ghost function RawTable(b: SoftIndex, a: SoftIndex, keys: set<string>, now: Instant): map<string, Change>
    requires keys <= Everything(b, a)
  {
    map k | k in keys :: RawChange(b, a, k, now)
  }

  function RowLabel(c: Change): (string, string) { (c.subject, c.vendor) }

  /** A partial pairing: every pair joins mates, no label twice. */
  ghost predicate PairingSoFar(b: SoftIndex, a: SoftIndex, p: map<string, string>) {
    && (forall k :: k in p ==> Mates(b, a, k, p[k]))
    && (forall l, j, k :: Paired(a, p, l, j) && Paired(a, p, l, k) ==> j == k)
  }

  lemma PartialSides(b: SoftIndex, a: SoftIndex, p: map<string, string>)
    requires PairingSoFar(b, a, p)
    ensures p.Keys <= Added(b, a) && p.Values <= Added(a, b)
  {
    forall g | g in p.Values ensures g in Added(a, b) {
      var k :| k in p && p[k] == g;
      assert Mates(b, a, k, g);
    }
    forall k | k in p.Keys ensures k in Added(b, a) {
      assert Mates(b, a, k, p[k]);
    }
  }

  ghost predicate Indexed(list: seq<Change>, removedAt: map<(string, string), int>, i: int) {
    && (forall l :: l in removedAt ==> 0 <= removedAt[l] < |list| && removedAt[l] < i)
    && (forall l :: l in removedAt ==> list[removedAt[l]].kind == SoftwareRemoved && RowLabel(list[removedAt[l]]) == l)
    && (forall j :: 0 <= j < i && j < |list| && list[j].kind == SoftwareRemoved ==> RowLabel(list[j]) in removedAt)
  }

  /** Collapsed keys took the indexed removal of their label; every install before i had its chance. */
  ghost predicate PartnersUpTo(b: SoftIndex, a: SoftIndex, list: seq<Change>, removedAt: map<(string, string), int>,
                               p: map<string, string>, i: int)
    requires Indexed(list, removedAt, |list|) && PairingSoFar(b, a, p) && i <= |list|
  {
    && (forall k :: k in p ==> Label(a[k]) in removedAt && p[k] == list[removedAt[Label(a[k])]].identity)
    && (forall j :: 0 <= j < i && list[j].kind == SoftwareInstalled && RowLabel(list[j]) in removedAt
          ==> exists k :: Paired(a, p, RowLabel(list[j]), k))
  }

  ghost predicate Dropped(list: seq<Change>, p: map<string, string>, drop: set<int>) {
    forall j :: 0 <= j < |list| ==> (j in drop <==> list[j].identity in p.Keys + p.Values)
  }

  ghost function ReinstallTable(b: SoftIndex, a: SoftIndex, p: map<string, string>, now: Instant): map<string, Change> {
    map k | k in p && k in a && p[k] in b ::
      Reinstalled(InstalledChange(a[k], k, now), RemovedChange(b[p[k]], p[k], now), now)
  }

  ghost predicate CollapseState(b: SoftIndex, a: SoftIndex, list: seq<Change>, removedAt: map<(string, string), int>,
                                p: map<string, string>, drop: set<int>, i: int) {
    && Indexed(list, removedAt, |list|)
    && PairingSoFar(b, a, p)
    && 0 <= i <= |list|
    && PartnersUpTo(b, a, list, removedAt, p, i)
    && Dropped(list, p, drop)
  }

  ghost predicate RawListing(b: SoftIndex, a: SoftIndex, now: Instant, list: seq<Change>) {
    Lists(RawTable(b, a, Everything(b, a), now), list)
  }

  /** The next install and the indexed removal of its label can form a new pair (k, g). */
  ghost predicate Fresh(b: SoftIndex, a: SoftIndex, p: map<string, string>, k: string, g: string) {
    && Mates(b, a, k, g) && g !in p.Values && k !in p
    && (forall h :: h in p ==> h in a && Label(a[h]) != Label(a[k]))
  }

  lemma NewPair(b: SoftIndex, a: SoftIndex, now: Instant, list: seq<Change>, removedAt: map<(string, string), int>,
                p: map<string, string>, drop: set<int>, i: int, j: int)
    requires CollapseState(b, a, list, removedAt, p, drop, i) && i < |list| && RawListing(b, a, now, list)
    requires list[i].kind == SoftwareInstalled && RowLabel(list[i]) in removedAt && removedAt[RowLabel(list[i])] == j
    requires j !in drop
    ensures var k, g := list[i].identity, list[j].identity;
            && Fresh(b, a, p, k, g)
            && list[i] == InstalledChange(a[k], k, now) && list[j] == RemovedChange(b[g], g, now)
  {
    var k, g := list[i].identity, list[j].identity;
    assert list[i] == RawChange(b, a, k, now) && list[j] == RawChange(b, a, g, now);
    assert g !in p.Values;
    forall h | h in p ensures Label(a[h]) != Label(a[k]) {
      assert p[h] in p.Values;
    }
  }

  lemma ExtendPairing(b: SoftIndex, a: SoftIndex, p: map<string, string>, k: string, g: string)
    requires PairingSoFar(b, a, p) && Fresh(b, a, p, k, g)
    ensures PairingSoFar(b, a, p[k := g])
    ensures p[k := g].Values == p.Values + {g}
    ensures forall l, h :: Paired(a, p, l, h) ==> Paired(a, p[k := g], l, h)
  {
    var q := p[k := g];
    forall l, x, y | Paired(a, q, l, x) && Paired(a, q, l, y) ensures x == y {
      if x != k && y != k { assert Paired(a, p, l, x) && Paired(a, p, l, y); }
    }
    assert q[k] == g;
    forall v | v in p.Values ensures v in q.Values { var x :| x in p && p[x] == v; assert q[x] == v; }
  }

  lemma ExtendPartners(b: SoftIndex, a: SoftIndex, list: seq<Change>, removedAt: map<(string, string), int>,
                       p: map<string, string>, i: int, j: int)
    requires Indexed(list, removedAt, |list|) && PairingSoFar(b, a, p) && 0 <= i < |list|
    requires PartnersUpTo(b, a, list, removedAt, p, i)
    requires RowLabel(list[i]) in removedAt && removedAt[RowLabel(list[i])] == j
    requires Fresh(b, a, p, list[i].identity, list[j].identity) && RowLabel(list[i]) == Label(a[list[i].identity])
    ensures PairingSoFar(b, a, p[list[i].identity := list[j].identity])
    ensures PartnersUpTo(b, a, list, removedAt, p[list[i].identity := list[j].identity], i + 1)
  {
    var k, g := list[i].identity, list[j].identity;
    ExtendPairing(b, a, p, k, g);
    var q := p[k := g];
    forall m | 0 <= m < i + 1 && list[m].kind == SoftwareInstalled && RowLabel(list[m]) in removedAt
      ensures exists h :: Paired(a, q, RowLabel(list[m]), h) {
      if m < i {
        var h :| Paired(a, p, RowLabel(list[m]), h);
        assert Paired(a, q, RowLabel(list[m]), h);
      } else {
        assert Paired(a, q, RowLabel(list[m]), k);
      }
    }
  }

  lemma DropPair(list: seq<Change>, t: map<string, Change>, p: map<string, string>, drop: set<int>, i: int, j: int)
    requires Lists(t, list) && Dropped(list, p, drop) && 0 <= i < |list| && 0 <= j < |list|
    requires p[list[i].identity := list[j].identity].Values == p.Values + {list[j].identity}
    ensures Dropped(list, p[list[i].identity := list[j].identity], drop + {i, j})
  {
  }

  lemma CollapseStart(b: SoftIndex, a: SoftIndex, now: Instant, list: seq<Change>,
                      removedAt: map<(string, string), int>)
    requires Indexed(list, removedAt, |list|)
    ensures CollapseState(b, a, list, removedAt, map[], {}, 0) && Lists(ReinstallTable(b, a, map[], now), [])
  {
  }

  lemma CollapseRow(b: SoftIndex, a: SoftIndex, now: Instant, list: seq<Change>, removedAt: map<(string, string), int>,
                    p: map<string, string>, drop: set<int>, i: int, j: int, out: seq<Change>)
    requires CollapseState(b, a, list, removedAt, p, drop, i) && i < |list| && RawListing(b, a, now, list)
    requires list[i].kind == SoftwareInstalled && RowLabel(list[i]) in removedAt && removedAt[RowLabel(list[i])] == j
    requires j !in drop && Lists(ReinstallTable(b, a, p, now), out)
    ensures var q := p[list[i].identity := list[j].identity];
            && CollapseState(b, a, list, removedAt, q, drop + {i, j}, i + 1)
            && Lists(ReinstallTable(b, a, q, now), out + [Reinstalled(list[i], list[j], now)])
  {
    var k, g := list[i].identity, list[j].identity;
    NewPair(b, a, now, list, removedAt, p, drop, i, j);
    ExtendPairing(b, a, p, k, g);
    ExtendPartners(b, a, list, removedAt, p, i, j);
    DropPair(list, RawTable(b, a, Everything(b, a), now), p, drop, i, j);
    ListPair(b, a, p, now, k, g, out);
  }

  lemma ReinstallTableGrows(b: SoftIndex, a: SoftIndex, p: map<string, string>, now: Instant, k: string, g: string)
    requires Fresh(b, a, p, k, g)
    ensures k !in ReinstallTable(b, a, p, now)
    ensures var c := Reinstalled(InstalledChange(a[k], k, now), RemovedChange(b[g], g, now), now);
            ReinstallTable(b, a, p[k := g], now) == ReinstallTable(b, a, p, now)[k := c]
  {
    hide Reinstalled, InstalledChange, RemovedChange;
  }

  lemma ListPair(b: SoftIndex, a: SoftIndex, p: map<string, string>, now: Instant, k: string, g: string,
                 out: seq<Change>)
    requires PairingSoFar(b, a, p) && Fresh(b, a, p, k, g) && Lists(ReinstallTable(b, a, p, now), out)
    requires PairingSoFar(b, a, p[k := g])
    ensures Lists(ReinstallTable(b, a, p[k := g], now),
        out + [Reinstalled(InstalledChange(a[k], k, now), RemovedChange(b[g], g, now), now)])
  {
    var c := Reinstalled(InstalledChange(a[k], k, now), RemovedChange(b[g], g, now), now);
    var t := ReinstallTable(b, a, p, now);
    hide PairingSoFar, ReinstallTable, Lists;
    ReinstallTableGrows(b, a, p, now, k, g);
    ListOneMore(t, out, c);
  }

  lemma KeepRow(b: SoftIndex, a: SoftIndex, now: Instant, list: seq<Change>, removedAt: map<(string, string), int>,
                p: map<string, string>, drop: set<int>, i: int)
    requires CollapseState(b, a, list, removedAt, p, drop, i) && i < |list| && RawListing(b, a, now, list)
    requires !(list[i].kind == SoftwareInstalled && RowLabel(list[i]) in removedAt
        && removedAt[RowLabel(list[i])] !in drop)
    ensures CollapseState(b, a, list, removedAt, p, drop, i + 1)
  {
    hide Paired, PairingSoFar, RawListing, Dropped, Indexed;
    var l := RowLabel(list[i]);
    if list[i].kind == SoftwareInstalled && l in removedAt { TakenLabel(b, a, now, list, removedAt, p, drop, l); }
  }

  /** A label whose indexed removal is already dropped has its pair. */
  lemma TakenLabel(b: SoftIndex, a: SoftIndex, now: Instant, list: seq<Change>, removedAt: map<(string, string), int>,
                   p: map<string, string>, drop: set<int>, l: (string, string))
    requires Indexed(list, removedAt, |list|) && PairingSoFar(b, a, p) && Dropped(list, p, drop)
    requires RawListing(b, a, now, list) && l in removedAt && removedAt[l] in drop
    ensures exists k :: Paired(a, p, l, k)
  {
    var j := removedAt[l];
    var g := list[j].identity;
    assert list[j] == RawChange(b, a, g, now);
    PartialSides(b, a, p);
    var k :| k in p && p[k] == g;
    assert Mates(b, a, k, g) && Paired(a, p, l, k);
  }

  /** Once every row had its chance the pairing is complete. */
  lemma CollapseDone(b: SoftIndex, a: SoftIndex, now: Instant, list: seq<Change>, removedAt: map<(string, string), int>,
                     p: map<string, string>, drop: set<int>)
    requires CollapseState(b, a, list, removedAt, p, drop, |list|) && RawListing(b, a, now, list)
    ensures Pairing(b, a, p) && Dropped(list, p, drop)
  {
    forall l | Rivals(b, a, l) != {} && Rivals(a, b, l) != {} ensures exists h :: Paired(a, p, l, h) {
      var k, g :| k in Rivals(b, a, l) && g in Rivals(a, b, l);
      var t := RawTable(b, a, Everything(b, a), now);
      Listed(t, list, k);
      Listed(t, list, g);
      var m :| 0 <= m < |list| && list[m] == t[k];
      var n :| 0 <= n < |list| && list[n] == t[g];
      assert RowLabel(list[m]) == RowLabel(list[n]) == l;
    }
  }

  method CollapseReinstalls(list: seq<Change>, now: Instant, ghost b: SoftIndex, ghost a: SoftIndex)
    returns (out: seq<Change>, ghost p: map<string, string>)
    requires RawListing(b, a, now, list)
    ensures Pairing(b, a, p) && Lists(SoftwareTable(b, a, p, now), out)
    ensures exists q :: Pairing(b, a, q) && Lists(SoftwareTable(b, a, q, now), out)
  {
    hide Pairing, RawListing, SoftwareTable, Lists;
    var removedAt: map<(string, string), int> := map[];
    for i := 0 to |list|
      invariant Indexed(list, removedAt, i)
    {
      if list[i].kind == SoftwareRemoved {
        removedAt := removedAt[RowLabel(list[i]) := i];
      }
    }
    var drop;
    out, drop, p := Pair(list, now, removedAt, b, a);
    out := KeepOthers(list, now, drop, out, b, a, p);
  }

  /** The second loop of collapseReinstalls: emit one update per collapsed pair. */
  method Pair(list: seq<Change>, now: Instant, removedAt: map<(string, string), int>, ghost b: SoftIndex,
              ghost a: SoftIndex)
    returns (out: seq<Change>, drop: set<int>, ghost p: map<string, string>)
    requires RawListing(b, a, now, list) && Indexed(list, removedAt, |list|)
    ensures Pairing(b, a, p) && Dropped(list, p, drop)
    ensures Lists(ReinstallTable(b, a, p, now), out)
  {
    hide CollapseState, Lists, ReinstallTable, RawListing, Dropped, Pairing;
    drop, out, p := {}, [], map[];
    CollapseStart(b, a, now, list, removedAt);
    for i := 0 to |list|
      invariant CollapseState(b, a, list, removedAt, p, drop, i)
      invariant Lists(ReinstallTable(b, a, p, now), out)
    {
      var c := list[i];
      if c.kind == SoftwareInstalled && RowLabel(c) in removedAt && removedAt[RowLabel(c)] !in drop {
        var j := removedAt[RowLabel(c)];
        CollapseRow(b, a, now, list, removedAt, p, drop, i, j, out);
        drop := drop + {i, j};
        p := p[c.identity := list[j].identity];
        out := out + [Reinstalled(c, list[j], now)];
      } else {
        KeepRow(b, a, now, list, removedAt, p, drop, i);
      }
    }
    CollapseDone(b, a, now, list, removedAt, p, drop);
  }

  /** The third loop: everything no pair consumed. */
  method KeepOthers(list: seq<Change>, now: Instant, drop: set<int>, pairs: seq<Change>,
                    ghost b: SoftIndex, ghost a: SoftIndex, ghost p: map<string, string>)
    returns (out: seq<Change>)
    requires RawListing(b, a, now, list)
    requires Pairing(b, a, p) && Dropped(list, p, drop) && Lists(ReinstallTable(b, a, p, now), pairs)
    ensures Lists(SoftwareTable(b, a, p, now), out)
  {
    hide Lists, ReinstallTable, RawListing, Dropped, Pairing, PartTable, SoftwareTable;
    out := pairs;
    ghost var seen: set<string> := {};
    KeepNone(b, a, p, now, list, drop, pairs);
    for i := 0 to |list|
      invariant Keeping(b, a, p, now, list, drop, i, seen, out)
    {
      hide Keeping;
      if i !in drop {
        KeepOne(b, a, p, now, list, drop, i, seen, out);
        seen := seen + {list[i].identity};
        out := out + [list[i]];
      } else {
        SkipOne(b, a, p, now, list, drop, i, seen, out);
      }
    }
    KeptAll(b, a, p, now, list, drop, seen, out);
  }

  ghost predicate Keeping(b: SoftIndex, a: SoftIndex, p: map<string, string>, now: Instant, list: seq<Change>,
                          drop: set<int>, i: int, seen: set<string>, out: seq<Change>) {
    && Lists(PartTable(b, a, p, now, seen), out)
    && (forall j :: 0 <= j < |list| ==> (list[j].identity in seen <==> j < i && j !in drop))
  }

  lemma KeepNone(b: SoftIndex, a: SoftIndex, p: map<string, string>, now: Instant, list: seq<Change>,
                 drop: set<int>, out: seq<Change>)
    requires Pairing(b, a, p) && Lists(ReinstallTable(b, a, p, now), out)
    ensures Keeping(b, a, p, now, list, drop, 0, {}, out)
  {
    PairingSides(b, a, p);
    assert PartTable(b, a, p, now, {}) == ReinstallTable(b, a, p, now);
  }

  lemma KeepOne(b: SoftIndex, a: SoftIndex, p: map<string, string>, now: Instant, list: seq<Change>,
                drop: set<int>, i: int, seen: set<string>, out: seq<Change>)
    requires Pairing(b, a, p) && Dropped(list, p, drop) && RawListing(b, a, now, list)
    requires 0 <= i < |list| && i !in drop && Keeping(b, a, p, now, list, drop, i, seen, out)
    ensures Keeping(b, a, p, now, list, drop, i + 1, seen + {list[i].identity}, out + [list[i]])
  {
    hide Lists, PartTable, Pairing, Dropped, RawListing, RawTable, Reported, ChangeOf;
    var k := list[i].identity;
    KeptRow(b, a, p, now, list, drop, i);
    NotYet(b, a, p, now, list, drop, i, seen, out);
    ListOneMore(PartTable(b, a, p, now, seen), out, list[i]);
    PartTableMore(b, a, p, now, seen, k);
  }

  lemma NotYet(b: SoftIndex, a: SoftIndex, p: map<string, string>, now: Instant, list: seq<Change>,
               drop: set<int>, i: int, seen: set<string>, out: seq<Change>)
    requires Pairing(b, a, p) && Dropped(list, p, drop) && RawListing(b, a, now, list)
    requires 0 <= i < |list| && i !in drop && Keeping(b, a, p, now, list, drop, i, seen, out)
    ensures list[i].identity !in PartTable(b, a, p, now, seen)
    ensures forall j :: 0 <= j < |list| && j != i ==> list[j].identity != list[i].identity
  {
    hide ChangeOf, Pairing, RawTable;
    KeptRow(b, a, p, now, list, drop, i);
    DistinctFrom(RawTable(b, a, Everything(b, a), now), list, i);
  }

  lemma PartTableMore(b: SoftIndex, a: SoftIndex, p: map<string, string>, now: Instant, seen: set<string>, k: string)
    requires Pairing(b, a, p) && k in Reported(b, a, p)
    ensures PartTable(b, a, p, now, seen + {k}) == PartTable(b, a, p, now, seen)[k := ChangeOf(b, a, p, now, k)]
  {
  }

  lemma DistinctFrom(t: map<string, Change>, list: seq<Change>, i: int)
    requires Lists(t, list) && 0 <= i < |list|
    ensures forall j :: 0 <= j < |list| && j != i ==> list[j].identity != list[i].identity
  {
    forall j | 0 <= j < |list| && j != i ensures list[j].identity != list[i].identity {
      if j < i {} else {}
    }
  }

  lemma SkipOne(b: SoftIndex, a: SoftIndex, p: map<string, string>, now: Instant, list: seq<Change>,
                drop: set<int>, i: int, seen: set<string>, out: seq<Change>)
    requires i in drop && Keeping(b, a, p, now, list, drop, i, seen, out)
    ensures Keeping(b, a, p, now, list, drop, i + 1, seen, out)
  {
  }

  lemma KeptAll(b: SoftIndex, a: SoftIndex, p: map<string, string>, now: Instant, list: seq<Change>,
                drop: set<int>, seen: set<string>, out: seq<Change>)
    requires Pairing(b, a, p) && Dropped(list, p, drop) && RawListing(b, a, now, list)
    requires Keeping(b, a, p, now, list, drop, |list|, seen, out)
    ensures Lists(SoftwareTable(b, a, p, now), out)
  {
    hide ChangeOf, RawChange;
    forall k | k in Reported(b, a, p) ensures k in p || k in seen {
      Listed(RawTable(b, a, Everything(b, a), now), list, k);
    }
    assert PartTable(b, a, p, now, seen) == SoftwareTable(b, a, p, now);
  }

  ghost function PartTable(b: SoftIndex, a: SoftIndex, p: map<string, string>, now: Instant,
                           seen: set<string>): map<string, Change> {
    map k | k in Reported(b, a, p) && (k in p || k in seen) && Pairing(b, a, p) :: ChangeOf(b, a, p, now, k)
  }

  lemma KeptRow(b: SoftIndex, a: SoftIndex, p: map<string, string>, now: Instant, list: seq<Change>, drop: set<int>,
                i: int)
    requires Pairing(b, a, p) && Dropped(list, p, drop) && RawListing(b, a, now, list)
    requires 0 <= i < |list| && i !in drop
    ensures list[i].identity in Reported(b, a, p) - p.Keys
    ensures list[i] == ChangeOf(b, a, p, now, list[i].identity)
  {
    assert list[i] == RawChange(b, a, list[i].identity, now);
  }

  /** The rows of some of the keys, listed. */
  ghost predicate RawPart(b: SoftIndex, a: SoftIndex, now: Instant, keys: set<string>, list: seq<Change>) {
    keys <= Everything(b, a) && Lists(RawTable(b, a, keys, now), list)
  }

  lemma RawTableGrows(b: SoftIndex, a: SoftIndex, now: Instant, keys: set<string>, k: string)
    requires keys <= Everything(b, a) && k in Everything(b, a) && k !in keys
    ensures k !in RawTable(b, a, keys, now)
    ensures RawTable(b, a, keys + {k}, now) == RawTable(b, a, keys, now)[k := RawChange(b, a, k, now)]
  {
    hide RawChange, Everything;
  }

  lemma RawOneMore(b: SoftIndex, a: SoftIndex, now: Instant, keys: set<string>, list: seq<Change>, k: string)
    requires RawPart(b, a, now, keys, list) && k in Everything(b, a) && k !in keys
    ensures RawPart(b, a, now, keys + {k}, list + [RawChange(b, a, k, now)])
  {
    hide RawTable, Lists, RawChange;
    RawTableGrows(b, a, now, keys, k);
    ListOneMore(RawTable(b, a, keys, now), list, RawChange(b, a, k, now));
  }

  /** The two range loops of DiffSoftware, over the keys in any order. */
  method RawDelta(b: SoftIndex, a: SoftIndex, now: Instant) returns (list: seq<Change>)
    ensures RawListing(b, a, now, list)
  {
    hide Lists, RawTable;
    list := [];
    ghost var done: set<string> := {};
    assert RawPart(b, a, now, done, list) by { RawNone(b, a, now); }
    var todo := a.Keys;
    while todo != {}
      invariant todo <= a.Keys && RawPart(b, a, now, done, list)
      invariant done == Added(b, a) + Bumped(b, a) - todo
    {
      var k :| k in todo;
      todo := todo - {k};
      if k !in b {
        RawOneMore(b, a, now, done, list, k);
        done, list := done + {k}, list + [InstalledChange(a[k], k, now)];
      } else if b[k].version != a[k].version {
        RawOneMore(b, a, now, done, list, k);
        done, list := done + {k}, list + [UpdatedChange(b[k], a[k], k, now)];
      }
    }
    todo := b.Keys;
    while todo != {}
      invariant todo <= b.Keys && RawPart(b, a, now, done, list)
      invariant done == Added(b, a) + Bumped(b, a) + (Added(a, b) - todo)
    {
      var k :| k in todo;
      todo := todo - {k};
      if k !in a {
        RawOneMore(b, a, now, done, list, k);
        done, list := done + {k}, list + [RemovedChange(b[k], k, now)];
      }
    }
    assert done == Everything(b, a);
  }

  lemma RawNone(b: SoftIndex, a: SoftIndex, now: Instant)
    ensures RawPart(b, a, now, {}, [])
  {
  }

  /** `prefer` is the trace iteration order leaves: the keys that were paired. */
  method DiffSoftware(before: seq<SoftFP>, after: seq<SoftFP>, now: Instant)
    returns (out: seq<Change>, ghost prefer: set<string>)
    ensures out == SoftwareDelta(before, after, prefer, now)
    ensures exists q :: out == SoftwareDelta(before, after, q, now)
  {
    hide Pairing, PairBy, Index, Lists, RawListing, Sorted, Arrange;
    var b := IndexBy(SoftKey, before);
    var a := IndexBy(SoftKey, after);
    var list := RawDelta(b, a, now);
    ghost var p;
    var rows;
    rows, p := CollapseReinstalls(list, now, b, a);
    prefer := p.Keys + p.Values;
    PairingIsPairBy(b, a, p);
    out := SortBy(Canonical, rows);
    SortedListing(SoftwareTable(b, a, p, now), rows, out);
  }
}
