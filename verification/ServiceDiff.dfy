/** The service delta of a session (internal/agent/admin/diff.go). */
module ServiceDiff {
  import opened Ordering
  import opened Changes

  /** The attribution of a service by where its definition lives. */
  function Attribute(s: SvcFP): (Attribution, Reason) {
    if s.kind == DRIVER then
      if s.osOwned then (BackgroundLikely, KernelDriverOS) else (HumanLikely, KernelDriverForeign)
    else if s.osOwned then (BackgroundLikely, OSOwnedPath)
    else (HumanLikely, AdminOwnedPath)
  }

  predicate IsDisabling(before: string, after: string) { after == DISABLED && before != DISABLED }

  function StartTypeAttribution(b: SvcFP, a: SvcFP): (Attribution, Reason) {
    if IsDisabling(b.startType, a.startType) then (HumanLikely, DisabledByHand)
    else if !a.osOwned then (HumanLikely, AdminOwnedPath)
    else (BackgroundLikely, OSOwnedPath)
  }

  /** The definition fields that an audit compares. */
  predicate SameDefinition(b: SvcFP, a: SvcFP) {
    b.account == a.account && b.startType == a.startType && b.defHash == a.defHash && b.imagePath == a.imagePath
  }

  function Row(kind: Kind, s: SvcFP, key: string, oldValue: string, newValue: string, why: (Attribution, Reason),
               now: Instant): Change {
    Change(kind, s.key, s.display, key, oldValue, newValue, "", "", why.0, why.1, now)
  }

  /** The one row of a changed key: the most telling difference wins. */
  function ServiceChange(b: SvcIndex, a: SvcIndex, k: string, now: Instant): (c: Change)
    requires k in a || k in b
    ensures c.identity == k && !AboutSoftware(c.kind)
  {
    if k !in b then Row(ServiceInstalled, a[k], k, "", a[k].imagePath, Attribute(a[k]), now)
    else if k !in a then Row(ServiceRemoved, b[k], k, b[k].imagePath, "", Attribute(b[k]), now)
    else if b[k].account != a[k].account then
      Row(ServiceAccountChanged, a[k], k, b[k].account, a[k].account, (HumanLikely, AccountChanged), now)
    else if b[k].startType != a[k].startType then
      Row(ServiceStartTypeChanged, a[k], k, b[k].startType, a[k].startType, StartTypeAttribution(b[k], a[k]), now)
    else Row(ServiceDefinitionChanged, a[k], k, b[k].imagePath, a[k].imagePath, Attribute(a[k]), now)
  }

  function Altered(b: SvcIndex, a: SvcIndex): set<string> {
    set k | k in a.Keys && k in b.Keys && !SameDefinition(b[k], a[k])
  }

  function Touched(b: SvcIndex, a: SvcIndex): set<string> {
    Added(b, a) + Altered(b, a) + Added(a, b)
  }

  ghost function ServiceTable(b: SvcIndex, a: SvcIndex, keys: set<string>, now: Instant): (t: map<string, Change>)
    ensures Table(t)
  {
    map k | k in keys && (k in a || k in b) :: ServiceChange(b, a, k, now)
  }

  /** The canonical service delta. */
  ghost function ServiceDelta(before: seq<SvcFP>, after: seq<SvcFP>, now: Instant): (r: seq<Change>)
    ensures forall c :: c in r ==> !AboutSoftware(c.kind)
  {
    var b, a := Index(SvcKey, before), Index(SvcKey, after);
    Arrange(Canonical, ServiceTable(b, a, Touched(b, a), now).Values)
  }

  lemma ServiceDeltaRows(before: seq<SvcFP>, after: seq<SvcFP>, now: Instant, c: Change)
    ensures var b, a := Index(SvcKey, before), Index(SvcKey, after);
            c in ServiceDelta(before, after, now) <==>
              c.identity in Touched(b, a) && c == ServiceChange(b, a, c.identity, now)
  {
    hide Index, Arrange, ServiceChange;
    var b, a := Index(SvcKey, before), Index(SvcKey, after);
    TableKeyedApart(ServiceTable(b, a, Touched(b, a), now));
  }

  lemma ServiceDeltaAscends(before: seq<SvcFP>, after: seq<SvcFP>, now: Instant)
    ensures Ascending(Canonical, ServiceDelta(before, after, now))
  {
    hide Index, Arrange, ServiceChange;
    var b, a := Index(SvcKey, before), Index(SvcKey, after);
    TableKeyedApart(ServiceTable(b, a, Touched(b, a), now));
  }

  /** A key has a row exactly when it is new, gone or differently defined; nothing is reported twice. */
  lemma EveryServiceAccounted(before: seq<SvcFP>, after: seq<SvcFP>, now: Instant, k: string)
    ensures var b, a := Index(SvcKey, before), Index(SvcKey, after);
            var r := ServiceDelta(before, after, now);
            && ((exists c :: c in r && c.identity == k) <==>
                 (k in b) != (k in a) || (k in b && k in a && !SameDefinition(b[k], a[k])))
            && (forall c :: c in r && c.identity == k ==> RightKind(b, a, k, c.kind) && RightValues(b, a, k, c))
            && OncePerKey(r)
  {
    hide RightKind, RightValues;
    RowsApart(before, after, now);
    var b, a := Index(SvcKey, before), Index(SvcKey, after);
    if k in Touched(b, a) {
      ServiceDeltaRows(before, after, now, ServiceChange(b, a, k, now));
      KindIsRight(b, a, k, now);
      ValuesAreRight(b, a, k, now);
    }
    forall c | c in ServiceDelta(before, after, now) && c.identity == k
      ensures k in Touched(b, a) && c == ServiceChange(b, a, k, now) {
      ServiceDeltaRows(before, after, now, c);
    }
  }

  /** The kind a row must have, by what differs. */
  predicate RightKind(b: SvcIndex, a: SvcIndex, k: string, kind: Kind) {
    if k !in b then kind == ServiceInstalled
    else if k !in a then kind == ServiceRemoved
    else (kind == ServiceAccountChanged <==> b[k].account != a[k].account)
         && (kind == ServiceStartTypeChanged <==> b[k].account == a[k].account && b[k].startType != a[k].startType)
         && (kind == ServiceDefinitionChanged <==> b[k].account == a[k].account && b[k].startType == a[k].startType)
  }

  /** The row quotes both sides of the difference its kind names; an account change and a disabling are put
      down to a human. */
  predicate RightValues(b: SvcIndex, a: SvcIndex, k: string, c: Change) {
    if k !in b && k !in a then false
    else if k !in b then c.oldValue == "" && c.newValue == a[k].imagePath
    else if k !in a then c.oldValue == b[k].imagePath && c.newValue == ""
    else
      && (c.kind == ServiceAccountChanged ==>
            c.oldValue == b[k].account && c.newValue == a[k].account && c.attribution == HumanLikely)
      && (c.kind == ServiceStartTypeChanged ==>
            && c.oldValue == b[k].startType && c.newValue == a[k].startType
            && (c.reason == DisabledByHand <==> IsDisabling(b[k].startType, a[k].startType)))
      && (c.kind == ServiceDefinitionChanged ==> c.oldValue == b[k].imagePath && c.newValue == a[k].imagePath)
  }

  lemma ValuesAreRight(b: SvcIndex, a: SvcIndex, k: string, now: Instant)
    requires k in Touched(b, a)
    ensures RightValues(b, a, k, ServiceChange(b, a, k, now))
  {
  }

  lemma RowsApart(before: seq<SvcFP>, after: seq<SvcFP>, now: Instant)
    ensures OncePerKey(ServiceDelta(before, after, now))
  {
    hide ServiceDelta, ServiceChange, Touched;
    var r := ServiceDelta(before, after, now);
    ServiceDeltaAscends(before, after, now);
    forall c, d | c in r && d in r && c.identity == d.identity ensures c == d {
      ServiceDeltaRows(before, after, now, c);
      ServiceDeltaRows(before, after, now, d);
    }
    AscendingOncePerKey(r);
  }

  lemma KindIsRight(b: SvcIndex, a: SvcIndex, k: string, now: Instant)
    requires k in Touched(b, a)
    ensures RightKind(b, a, k, ServiceChange(b, a, k, now).kind)
  {
  }

  lemma ServiceDeltaCanonical(before: seq<SvcFP>, after: seq<SvcFP>, before': seq<SvcFP>, after': seq<SvcFP>,
                              now: Instant)
    requires UniqueKeys(SvcKey, before) && UniqueKeys(SvcKey, after)
    requires multiset(before) == multiset(before') && multiset(after) == multiset(after')
    ensures ServiceDelta(before, after, now) == ServiceDelta(before', after', now)
  {
    SameMultisetSameElements(before, before');
    SameMultisetSameElements(after, after');
    IndexOfPermutation(SvcKey, before, before');
    IndexOfPermutation(SvcKey, after, after');
  }

  ghost predicate ListsKeys(b: SvcIndex, a: SvcIndex, now: Instant, keys: set<string>, list: seq<Change>) {
    keys <= Touched(b, a) && Lists(ServiceTable(b, a, keys, now), list)
  }

  lemma ServiceTableGrows(b: SvcIndex, a: SvcIndex, now: Instant, keys: set<string>, k: string)
    requires (k in a || k in b) && k !in keys
    ensures k !in ServiceTable(b, a, keys, now)
    ensures ServiceTable(b, a, keys + {k}, now) == ServiceTable(b, a, keys, now)[k := ServiceChange(b, a, k, now)]
  {
    hide ServiceChange;
  }

  lemma TouchedIsThere(b: SvcIndex, a: SvcIndex, k: string)
    requires k in Touched(b, a)
    ensures k in a || k in b
  {
  }

  lemma ListKey(b: SvcIndex, a: SvcIndex, now: Instant, keys: set<string>, list: seq<Change>, k: string)
    requires ListsKeys(b, a, now, keys, list) && k in Touched(b, a) && k !in keys
    ensures ListsKeys(b, a, now, keys + {k}, list + [ServiceChange(b, a, k, now)])
  {
    TouchedIsThere(b, a, k);
    hide ServiceTable, ServiceChange, Lists, Touched;
    ServiceTableGrows(b, a, now, keys, k);
    ListOneMore(ServiceTable(b, a, keys, now), list, ServiceChange(b, a, k, now));
  }

  lemma ListNone(b: SvcIndex, a: SvcIndex, now: Instant)
    ensures ListsKeys(b, a, now, {}, [])
  {
  }

  /** The loops of DiffServices, over the keys in any order. */
  method RawServices(b: SvcIndex, a: SvcIndex, now: Instant) returns (list: seq<Change>)
    ensures ListsKeys(b, a, now, Touched(b, a), list)
  {
    hide ListsKeys;
    list := [];
    ghost var done: set<string> := {};
    ListNone(b, a, now);
    var todo := a.Keys;
    while todo != {}
      invariant todo <= a.Keys && ListsKeys(b, a, now, done, list)
      invariant done == Added(b, a) + Altered(b, a) - todo
    {
      var k :| k in todo;
      todo := todo - {k};
      if k !in b {
        ListKey(b, a, now, done, list, k);
        done, list := done + {k}, list + [Row(ServiceInstalled, a[k], k, "", a[k].imagePath, Attribute(a[k]), now)];
      } else if !SameDefinition(b[k], a[k]) {
        ListKey(b, a, now, done, list, k);
        var row := AlteredRow(b[k], a[k], k, now);
        done, list := done + {k}, list + [row];
      }
    }
    todo := b.Keys;
    while todo != {}
      invariant todo <= b.Keys && ListsKeys(b, a, now, done, list)
      invariant done == Added(b, a) + Altered(b, a) + (Added(a, b) - todo)
    {
      var k :| k in todo;
      todo := todo - {k};
      if k !in a {
        ListKey(b, a, now, done, list, k);
        done, list := done + {k}, list + [Row(ServiceRemoved, b[k], k, b[k].imagePath, "", Attribute(b[k]), now)];
      }
    }
    assert done == Touched(b, a);
  }

  /** The inner switch: account first, then start type, then the definition as a whole. */
  method AlteredRow(b: SvcFP, a: SvcFP, key: string, now: Instant) returns (c: Change)
    requires !SameDefinition(b, a)
    ensures c == ServiceChange(map[key := b], map[key := a], key, now)
  {
    if b.account != a.account {
      c := Row(ServiceAccountChanged, a, key, b.account, a.account, (HumanLikely, AccountChanged), now);
    } else if b.startType != a.startType {
      var why := (BackgroundLikely, OSOwnedPath);
      if IsDisabling(b.startType, a.startType) {
        why := (HumanLikely, DisabledByHand);
      } else if !a.osOwned {
        why := (HumanLikely, AdminOwnedPath);
      }
      c := Row(ServiceStartTypeChanged, a, key, b.startType, a.startType, why, now);
    } else {
      c := Row(ServiceDefinitionChanged, a, key, b.imagePath, a.imagePath, Attribute(a), now);
    }
  }

  method DiffServices(before: seq<SvcFP>, after: seq<SvcFP>, now: Instant) returns (out: seq<Change>)
    ensures out == ServiceDelta(before, after, now)
  {
    hide Lists;
    var b := IndexBy(SvcKey, before);
    var a := IndexBy(SvcKey, after);
    var list := RawServices(b, a, now);
    out := SortBy(Canonical, list);
    SortedListing(ServiceTable(b, a, Touched(b, a), now), list, out);
  }
}
