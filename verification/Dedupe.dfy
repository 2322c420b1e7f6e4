/** De-duplication of the software inventory (internal/agent/collector/collector.go). */
module Dedupe {

  datatype Software = Software(name: string, version: string, vendor: string, uninstallId: string, scope: string)

  const USER_SCOPE := "user"

  datatype Key = Key(name: string, version: string)

  function KeyOf(s: Software): Key { Key(s.name, s.version) }

  predicate PerUser(s: Software) { s.scope == USER_SCOPE }

  /** The keys in order of first occurrence. */
  function Keys(list: seq<Software>): (r: seq<Key>)
    ensures forall k :: k in r <==> exists s :: s in list && KeyOf(s) == k
    ensures forall i, j :: 0 <= i < j < |r| ==> r[i] != r[j]
    ensures |r| <= |list|
  {
    if list == [] then []
    else
      var front, last := list[..|list| - 1], list[|list| - 1];
      assert list == front + [last];
      if KeyOf(last) in Keys(front) then Keys(front) else Keys(front) + [KeyOf(last)]
  }

  /** The record kept for key k: the first that is not per-user, or the first of all. */
  ghost predicate Winner(list: seq<Software>, k: Key, i: nat) {
    && i < |list| && KeyOf(list[i]) == k
    && (PerUser(list[i]) ==> forall j :: 0 <= j < |list| && KeyOf(list[j]) == k ==> PerUser(list[j]) && i <= j)
    && (!PerUser(list[i]) ==> forall j :: 0 <= j < i && KeyOf(list[j]) == k ==> PerUser(list[j]))
  }

  lemma WinnerUnique(list: seq<Software>, k: Key, i: nat, j: nat)
    requires Winner(list, k, i) && Winner(list, k, j)
    ensures i == j
  {
  }

  ghost predicate Kept(list: seq<Software>, k: Key, t: Software) { exists i: nat :: Winner(list, k, i) && t == list[i] }

  /** One record per (name, version), in order of first occurrence, the winner each time. */
  ghost predicate Deduped(list: seq<Software>, out: seq<Software>) {
    && |out| == |Keys(list)|
    && forall m :: 0 <= m < |out| ==> Kept(list, Keys(list)[m], out[m])
  }

  method DedupeSoftware(list: seq<Software>) returns (out: seq<Software>)
    ensures Deduped(list, out)
  {
    var idx: map<Key, nat> := map[];
    out := [];
    for n := 0 to |list|
      invariant Deduped(list[..n], out)
      invariant forall k :: k in idx <==> k in Keys(list[..n])
      invariant forall k :: k in idx ==> idx[k] < |out| && Keys(list[..n])[idx[k]] == k
    {
      var s := list[n];
      var k := KeyOf(s);
      ghost var before := out;
      assert list[..n + 1][..n] == list[..n];
      if k in idx {
        var i := idx[k];
        SameKeyAgain(list, n, out, i);
        if PerUser(out[i]) && !PerUser(s) {
          out := out[i := s];
        }
      } else {
        NewKey(list, n, out);
        idx := idx[k := |out|];
        out := out + [s];
      }
    }
    assert list[..|list|] == list;
  }

  lemma KeysGrow(list: seq<Software>, n: nat)
    requires n < |list|
    ensures var a, b := Keys(list[..n]), Keys(list[..n + 1]);
            b == if KeyOf(list[n]) in a then a else a + [KeyOf(list[n])]
  {
    assert list[..n + 1][..n] == list[..n];
  }

  /** A winner among the first n stays one unless a machine-wide record of its key displaces it. */
  lemma WinnerStays(list: seq<Software>, n: nat, k: Key, i: nat)
    requires n < |list| && Winner(list[..n], k, i)
    ensures k != KeyOf(list[n]) || !PerUser(list[i]) || PerUser(list[n]) ==> Winner(list[..n + 1], k, i)
    ensures k == KeyOf(list[n]) && PerUser(list[i]) && !PerUser(list[n]) ==> Winner(list[..n + 1], k, n)
  {
    var a, b := list[..n], list[..n + 1];
    assert forall j :: 0 <= j < n ==> a[j] == list[j] && b[j] == list[j];
    assert b[n] == list[n];
  }

  lemma KeptStays(list: seq<Software>, n: nat, k: Key, t: Software)
    requires n < |list| && Kept(list[..n], k, t)
    ensures KeyOf(t) == k
    ensures Kept(list[..n + 1], k, if k == KeyOf(list[n]) && PerUser(t) && !PerUser(list[n]) then list[n] else t)
  {
    var i: nat :| Winner(list[..n], k, i) && t == list[..n][i];
    WinnerStays(list, n, k, i);
    assert list[..n + 1][i] == list[i] && list[..n + 1][n] == list[n];
  }

  lemma SameKeyAgain(list: seq<Software>, n: nat, out: seq<Software>, i: nat)
    requires n < |list| && Deduped(list[..n], out) && i < |out| && Keys(list[..n])[i] == KeyOf(list[n])
    ensures Deduped(list[..n + 1], if PerUser(out[i]) && !PerUser(list[n]) then out[i := list[n]] else out)
    ensures Keys(list[..n + 1]) == Keys(list[..n])
  {
    hide Keys, Kept, PerUser;
    KeysGrow(list, n);
    var displaced := PerUser(out[i]) && !PerUser(list[n]);
    forall m | 0 <= m < |out|
      ensures Kept(list[..n + 1], Keys(list[..n])[m], if m == i && displaced then list[n] else out[m])
    {
      KeptStays(list, n, Keys(list[..n])[m], out[m]);
    }
  }

  lemma FirstOfItsKey(list: seq<Software>, n: nat)
    requires n < |list| && KeyOf(list[n]) !in Keys(list[..n])
    ensures Kept(list[..n + 1], KeyOf(list[n]), list[n])
  {
    var a, b := list[..n], list[..n + 1];
    forall j | 0 <= j < n ensures KeyOf(b[j]) != KeyOf(list[n]) {
      assert b[j] == a[j] && a[j] in a;
    }
    hide Keys;
    assert Winner(b, KeyOf(list[n]), n) && b[n] == list[n];
  }

  lemma NewKey(list: seq<Software>, n: nat, out: seq<Software>)
    requires n < |list| && Deduped(list[..n], out) && KeyOf(list[n]) !in Keys(list[..n])
    ensures Deduped(list[..n + 1], out + [list[n]])
    ensures Keys(list[..n + 1]) == Keys(list[..n]) + [KeyOf(list[n])]
  {
    hide Keys, Kept, PerUser;
    KeysGrow(list, n);
    FirstOfItsKey(list, n);
    forall m | 0 <= m < |out| ensures Kept(list[..n + 1], Keys(list[..n])[m], out[m]) {
      KeptStays(list, n, Keys(list[..n])[m], out[m]);
      assert Keys(list[..n])[m] in Keys(list[..n]);
    }
  }

  lemma KeptIs(list: seq<Software>, k: Key, t: Software, u: Software)
    requires Kept(list, k, t) && Kept(list, k, u)
    ensures t == u && KeyOf(t) == k && t in list
    ensures forall s :: s in list && KeyOf(s) == k && PerUser(t) ==> PerUser(s)
  {
    var i: nat :| Winner(list, k, i) && t == list[i];
    var j: nat :| Winner(list, k, j) && u == list[j];
    WinnerUnique(list, k, i, j);
  }

  /** The result is determined, has no two records of one name and version, and drops no name and version; a
      record is per-user only if all of its kind are. */
  lemma DedupeMeans(list: seq<Software>, out: seq<Software>, other: seq<Software>)
    requires Deduped(list, out) && Deduped(list, other)
    ensures out == other
    ensures forall i, j :: 0 <= i < j < |out| ==> KeyOf(out[i]) != KeyOf(out[j])
    ensures forall s :: s in list ==> exists t :: t in out && KeyOf(t) == KeyOf(s) && (PerUser(t) ==> PerUser(s))
    ensures forall t :: t in out ==> t in list
  {
    var keys := Keys(list);
    assert forall s :: s in list ==> KeyOf(s) in keys;
    hide Keys, Kept, PerUser;
    forall m | 0 <= m < |out|
      ensures out[m] == other[m] && KeyOf(out[m]) == keys[m] && out[m] in list
      ensures forall s :: s in list && KeyOf(s) == keys[m] && PerUser(out[m]) ==> PerUser(s)
    {
      KeptIs(list, keys[m], out[m], other[m]);
    }
    forall s | s in list ensures exists t :: t in out && KeyOf(t) == KeyOf(s) && (PerUser(t) ==> PerUser(s)) {
      var m :| 0 <= m < |keys| && keys[m] == KeyOf(s);
      assert out[m] in out;
    }
  }

  /** De-duplicating again changes nothing. */
  lemma DedupeTwice(list: seq<Software>, out: seq<Software>, again: seq<Software>)
    requires Deduped(list, out) && Deduped(out, again)
    ensures again == out
  {
    hide Keys, Kept;
    DedupeMeans(list, out, out);
    KeysOfDistinct(out);
    hide PerUser;
    forall m | 0 <= m < |again| ensures again[m] == out[m] {
      KeptIs(out, KeyOf(out[m]), again[m], again[m]);
      SameKeySame(out, again[m], out[m], m);
    }
  }

  lemma SameKeySame(list: seq<Software>, t: Software, u: Software, m: nat)
    requires forall i, j :: 0 <= i < j < |list| ==> KeyOf(list[i]) != KeyOf(list[j])
    requires m < |list| && list[m] == u && t in list && KeyOf(t) == KeyOf(u)
    ensures t == u
  {
    var i :| 0 <= i < |list| && list[i] == t;
    assert i == m;
  }

  lemma {:induction false} KeysOfDistinct(list: seq<Software>)
    requires forall i, j :: 0 <= i < j < |list| ==> KeyOf(list[i]) != KeyOf(list[j])
    ensures |Keys(list)| == |list| && forall i :: 0 <= i < |list| ==> Keys(list)[i] == KeyOf(list[i])
  {
    if list != [] {
      var front, last := list[..|list| - 1], list[|list| - 1];
      KeysOfDistinct(front);
      forall s | s in front ensures KeyOf(s) != KeyOf(last) {
        var i :| 0 <= i < |front| && front[i] == s;
        assert list[i] == s;
      }
    }
  }
}
