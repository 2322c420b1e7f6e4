/** Inventory records, the changes between two snapshots, and their canonical order. */
module Changes {
  import opened Ordering

  type Instant = int // Go's zero time is 0; clock readings are positive

  datatype SoftFP = SoftFP(key: string, name: string, version: string, vendor: string, scope: string)

  datatype SvcFP = SvcFP(key: string, display: string, startType: string, account: string,
                         imagePath: string, defHash: string, osOwned: bool, kind: string)

  datatype Kind =
    | ServiceAccountChanged | ServiceDefinitionChanged | ServiceInstalled | ServiceRemoved
    | ServiceStartTypeChanged | SoftwareInstalled | SoftwareRemoved | SoftwareUpdated

  datatype Attribution = HumanLikely | BackgroundLikely | Unknown | Unrecognised(name: string)

  datatype Reason =
    | NewProduct | VersionBumpSameKey | Removed | ReinstallSameName | OSOwnedPath | AdminOwnedPath
    | KernelDriverOS | KernelDriverForeign | DisabledByHand | AccountChanged | DegradedBaseline

  datatype Change = Change(kind: Kind, subject: string, display: string, identity: string,
                           oldValue: string, newValue: string, vendor: string, scope: string,
                           attribution: Attribution, reason: Reason, at: Instant)

  const DISABLED := "disabled"
  const DRIVER := "driver"

  /** The wire name of a kind: the first component of the canonical order. */
  function KindName(k: Kind): string {
    match k
    case ServiceAccountChanged => "service_account_changed"
    case ServiceDefinitionChanged => "service_definition_changed"
    case ServiceInstalled => "service_installed"
    case ServiceRemoved => "service_removed"
    case ServiceStartTypeChanged => "service_start_type_changed"
    case SoftwareInstalled => "software_installed"
    case SoftwareRemoved => "software_removed"
    case SoftwareUpdated => "software_updated"
  }

  predicate AboutSoftware(k: Kind) {
    k.SoftwareInstalled? || k.SoftwareRemoved? || k.SoftwareUpdated?
  }

  function Canonical(c: Change): seq<string> {
    [KindName(c.kind), c.subject, c.identity]
  }

  lemma CanonicalTellsApart(c: Change, d: Change)
    requires Canonical(c) == Canonical(d)
    ensures c.identity == d.identity
    ensures AboutSoftware(c.kind) == AboutSoftware(d.kind)
  {
    assert Canonical(c)[0][1] == Canonical(d)[0][1];
    assert Canonical(c)[2] == Canonical(d)[2];
  }

  // ---- Index by key: the last record of a key wins ----

  function Index<T>(keyOf: T -> string, list: seq<T>): (m: map<string, T>)
    ensures forall k :: k in m ==> m[k] in list && keyOf(m[k]) == k
    ensures forall x :: x in list ==> keyOf(x) in m
  {
    if list == [] then map[]
    else
      var last := list[|list| - 1];
      assert list == list[..|list| - 1] + [last];
      Index(keyOf, list[..|list| - 1])[keyOf(last) := last]
  }

  method IndexBy<T>(keyOf: T -> string, list: seq<T>) returns (m: map<string, T>)
    ensures m == Index(keyOf, list)
  {
    m := map[];
    for i := 0 to |list|
      invariant m == Index(keyOf, list[..i])
    {
      assert list[..i + 1][..i] == list[..i];
      m := m[keyOf(list[i]) := list[i]];
    }
    assert list[..|list|] == list;
  }

  ghost predicate UniqueKeys<T>(keyOf: T -> string, list: seq<T>) {
    forall x, y :: x in list && y in list && keyOf(x) == keyOf(y) ==> x == y
  }

  /** With one record per key the order of the list does not matter. */
  lemma IndexOfPermutation<T>(keyOf: T -> string, a: seq<T>, b: seq<T>)
    requires UniqueKeys(keyOf, a)
    requires forall x :: x in a <==> x in b
    ensures Index(keyOf, a) == Index(keyOf, b)
  {
    var ia, ib := Index(keyOf, a), Index(keyOf, b);
    forall k ensures k in ia <==> k in ib {
      if k in ia { assert ia[k] in b; }
      if k in ib { assert ib[k] in a; }
    }
    forall k | k in ia ensures ia[k] == ib[k] {
      assert ia[k] in a && ib[k] in a;
    }
  }

  lemma SameMultisetSameElements<T>(a: seq<T>, b: seq<T>)
    requires multiset(a) == multiset(b)
    ensures forall x :: x in a <==> x in b
  {
    assert forall x :: x in a <==> x in multiset(a);
    assert forall x :: x in b <==> x in multiset(b);
  }

  /** No key has two rows. */
  ghost predicate OncePerKey(r: seq<Change>) { forall i, j :: 0 <= i < j < |r| ==> r[i].identity != r[j].identity }

  lemma AscendingOncePerKey(r: seq<Change>)
    requires Ascending(Canonical, r) && forall c, d :: c in r && d in r && c.identity == d.identity ==> c == d
    ensures OncePerKey(r)
  {
    AscendingIsDistinct(Canonical, r);
  }

  function SoftKey(s: SoftFP): string { s.key }
  function SvcKey(s: SvcFP): string { s.key }

  type SoftIndex = map<string, SoftFP>
  type SvcIndex = map<string, SvcFP>

  /** The keys of `after` that `before` lacks. Swapped, the keys that are gone. */
  function Added<T>(before: map<string, T>, after: map<string, T>): set<string> { after.Keys - before.Keys }

  // ---- Rows, one per key ----

  /** A delta before sorting: the row of every key, under its own identity. */
  ghost predicate Table(t: map<string, Change>) {
    forall k :: k in t ==> t[k].identity == k
  }

  /** `rows` lists a table, each row once, in some order. */
  ghost predicate Lists(t: map<string, Change>, rows: seq<Change>) {
    && Table(t)
    && (forall m, n :: 0 <= m < n < |rows| ==> rows[m].identity != rows[n].identity)
    && (forall m :: 0 <= m < |rows| ==> rows[m].identity in t && t[rows[m].identity] == rows[m])
    && |rows| == |t|
  }

  lemma {:induction false} DistinctIdentities(rows: seq<Change>)
    requires forall m, n :: 0 <= m < n < |rows| ==> rows[m].identity != rows[n].identity
    ensures |set m | 0 <= m < |rows| :: rows[m].identity| == |rows|
  {
    if rows != [] {
      var front := rows[..|rows| - 1];
      DistinctIdentities(front);
      var s := set m | 0 <= m < |front| :: front[m].identity;
      var last := rows[|rows| - 1].identity;
      assert (set m | 0 <= m < |rows| :: rows[m].identity) == s + {last};
      assert last !in s;
    }
  }

  lemma SubsetOfSameSize<T>(s: set<T>, t: set<T>)
    requires s <= t && |s| == |t|
    ensures s == t
  {
    assert t == s + (t - s);
  }

  lemma Listed(t: map<string, Change>, rows: seq<Change>, k: string)
    requires Lists(t, rows) && k in t
    ensures exists m :: 0 <= m < |rows| && rows[m] == t[k]
  {
    DistinctIdentities(rows);
    var s := set m | 0 <= m < |rows| :: rows[m].identity;
    SubsetOfSameSize(s, t.Keys);
    var m :| 0 <= m < |rows| && rows[m].identity == k;
    assert rows[m] == t[k];
  }

  lemma ListOneMore(t: map<string, Change>, rows: seq<Change>, c: Change)
    requires Lists(t, rows) && c.identity !in t
    ensures Lists(t[c.identity := c], rows + [c])
  {
    assert t[c.identity := c].Keys == t.Keys + {c.identity};
  }

  lemma TableKeyedApart(t: map<string, Change>)
    requires Table(t)
    ensures KeyedApart(Canonical, t.Values)
    ensures forall c :: c in t.Values <==> c.identity in t && t[c.identity] == c
  {
    forall c, d | c in t.Values && d in t.Values && Canonical(c) == Canonical(d) ensures c == d {
      CanonicalTellsApart(c, d);
    }
  }

  /** Sorting a listing gives the arrangement, whatever order the listing had. */
  lemma SortedListing(t: map<string, Change>, rows: seq<Change>, out: seq<Change>)
    requires Lists(t, rows) && multiset(out) == multiset(rows) && Sorted(Canonical, out)
    ensures out == Arrange(Canonical, t.Values)
  {
    TableKeyedApart(t);
    forall m, n | 0 <= m < n < |rows| ensures Canonical(rows[m]) != Canonical(rows[n]) {
      if Canonical(rows[m]) == Canonical(rows[n]) { CanonicalTellsApart(rows[m], rows[n]); }
    }
    SortedDistinct(Canonical, rows, out);
    forall c ensures c in out <==> c in t.Values {
      if c in t.Values { Listed(t, rows, c.identity); }
    }
    ArrangeIs(Canonical, t.Values, out);
  }
}
