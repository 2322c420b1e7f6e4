/** Options, the byte-wise string order of Go's `<`, and sorting by a tuple of strings. */
module Ordering {

  datatype Option<+T> = None | Some(value: T)

  /** a < b on strings. */
  predicate Before(a: string, b: string) {
    b != [] && (a == [] || a[0] < b[0] || (a[0] == b[0] && Before(a[1..], b[1..])))
  }

  /** Lexicographic order on tuples of strings. */
  predicate Precedes(a: seq<string>, b: seq<string>) {
    b != [] && (a == [] || Before(a[0], b[0]) || (a[0] == b[0] && Precedes(a[1..], b[1..])))
  }

  lemma {:induction false} BeforeIrreflexive(a: string)
    ensures !Before(a, a)
  {
    if a != [] { BeforeIrreflexive(a[1..]); }
  }

  lemma {:induction false} BeforeTransitive(a: string, b: string, c: string)
    requires Before(a, b) && Before(b, c)
    ensures Before(a, c)
  {
    if a != [] && a[0] == b[0] == c[0] { BeforeTransitive(a[1..], b[1..], c[1..]); }
  }

  lemma {:induction false} BeforeTotal(a: string, b: string)
    ensures a == b || Before(a, b) || Before(b, a)
  {
    if a != [] && b != [] && a[0] == b[0] {
      BeforeTotal(a[1..], b[1..]);
      assert a == [a[0]] + a[1..] && b == [b[0]] + b[1..];
    }
  }

  lemma {:induction false} PrecedesIrreflexive(a: seq<string>)
    ensures !Precedes(a, a)
  {
    if a != [] {
      BeforeIrreflexive(a[0]);
      PrecedesIrreflexive(a[1..]);
    }
  }

  lemma {:induction false} PrecedesTransitive(a: seq<string>, b: seq<string>, c: seq<string>)
    requires Precedes(a, b) && Precedes(b, c)
    ensures Precedes(a, c)
  {
    if a != [] {
      BeforeIrreflexive(a[0]);
      BeforeIrreflexive(b[0]);
      if a[0] == b[0] == c[0] {
        PrecedesTransitive(a[1..], b[1..], c[1..]);
      } else if Before(a[0], b[0]) && Before(b[0], c[0]) {
        BeforeTransitive(a[0], b[0], c[0]);
      }
    }
  }

  lemma {:induction false} PrecedesTotal(a: seq<string>, b: seq<string>)
    ensures a == b || Precedes(a, b) || Precedes(b, a)
  {
    if a != [] && b != [] {
      BeforeTotal(a[0], b[0]);
      if a[0] == b[0] {
        PrecedesTotal(a[1..], b[1..]);
        assert a == [a[0]] + a[1..] && b == [b[0]] + b[1..];
      }
    }
  }

  /** Sorted by the tuple `rank`, equal tuples in any order: all a sort promises. */
  ghost predicate Sorted<T(!new)>(rank: T -> seq<string>, s: seq<T>) {
    forall i, j :: 0 <= i < j < |s| ==> !Precedes(rank(s[j]), rank(s[i]))
  }

  /** Sorted with no two equal tuples: such a list is determined by its elements. */
  ghost predicate Ascending<T(!new)>(rank: T -> seq<string>, s: seq<T>) {
    forall i, j :: 0 <= i < j < |s| ==> Precedes(rank(s[i]), rank(s[j]))
  }

  ghost predicate KeyedApart<T(!new)>(rank: T -> seq<string>, s: set<T>) {
    forall x, y :: x in s && y in s && rank(x) == rank(y) ==> x == y
  }

  /** Go's sort.Slice, as an insertion sort; callers use nothing beyond the contract. */
  method SortBy<T(!new)>(rank: T -> seq<string>, s: seq<T>) returns (r: seq<T>)
    ensures multiset(r) == multiset(s)
    ensures Sorted(rank, r)
  {
    r := [];
    for i := 0 to |s|
      invariant multiset(r) == multiset(s[..i])
      invariant Sorted(rank, r)
    {
      var p := 0;
      while p < |r| && !Precedes(rank(s[i]), rank(r[p]))
        invariant 0 <= p <= |r|
        invariant forall j :: 0 <= j < p ==> !Precedes(rank(s[i]), rank(r[j]))
      {
        p := p + 1;
      }
      InsertKeepsSorted(rank, r, p, s[i]);
      assert r == r[..p] + r[p..];
      assert s[..i + 1] == s[..i] + [s[i]];
      r := r[..p] + [s[i]] + r[p..];
    }
    assert s[..|s|] == s;
  }

  lemma InsertKeepsSorted<T(!new)>(rank: T -> seq<string>, r: seq<T>, p: nat, x: T)
    requires Sorted(rank, r) && p <= |r|
    requires forall j :: 0 <= j < p ==> !Precedes(rank(x), rank(r[j]))
    requires p < |r| ==> Precedes(rank(x), rank(r[p]))
    ensures Sorted(rank, r[..p] + [x] + r[p..])
  {
    forall j | p <= j < |r| ensures !Precedes(rank(r[j]), rank(x)) {
      if Precedes(rank(r[j]), rank(x)) {
        PrecedesTransitive(rank(r[j]), rank(x), rank(r[p]));
        if j == p { PrecedesIrreflexive(rank(r[p])); }
      }
    }
    var q := r[..p] + [x] + r[p..];
    forall i, j | 0 <= i < j < |q| ensures !Precedes(rank(q[j]), rank(q[i])) {
      assert q[i] == if i < p then r[i] else if i == p then x else r[i - 1];
      assert q[j] == if j < p then r[j] else if j == p then x else r[j - 1];
    }
  }

  /** A sorted list whose elements carry distinct tuples, each once, is strictly ascending. */
  lemma SortedIsAscending<T(!new)>(rank: T -> seq<string>, s: seq<T>)
    requires Sorted(rank, s)
    requires forall i, j :: 0 <= i < j < |s| ==> rank(s[i]) != rank(s[j])
    ensures Ascending(rank, s)
  {
    forall i, j | 0 <= i < j < |s| ensures Precedes(rank(s[i]), rank(s[j])) {
      PrecedesTotal(rank(s[i]), rank(s[j]));
    }
  }

  lemma AscendingIsDistinct<T(!new)>(rank: T -> seq<string>, s: seq<T>)
    requires Ascending(rank, s)
    ensures forall i, j :: 0 <= i < j < |s| ==> s[i] != s[j]
    ensures forall i, j :: 0 <= i < j < |s| ==> rank(s[i]) != rank(s[j])
  {
    forall i, j | 0 <= i < j < |s| ensures rank(s[i]) != rank(s[j]) {
      PrecedesIrreflexive(rank(s[i]));
    }
  }

  /** Two strictly ascending lists with the same elements are the same list. */
  lemma {:induction false} AscendingUnique<T(!new)>(rank: T -> seq<string>, s: seq<T>, t: seq<T>)
    requires Ascending(rank, s) && Ascending(rank, t)
    requires forall x :: x in s <==> x in t
    ensures s == t
  {
    assert t != [] ==> t[0] in t;
    if s != [] {
      assert s[0] in s && s[0] in t;
      assert t[0] in t && t[0] in s;
      AscendingIsDistinct(rank, s);
      AscendingIsDistinct(rank, t);
      var i :| 0 <= i < |t| && t[i] == s[0];
      var j :| 0 <= j < |s| && s[j] == t[0];
      if i > 0 && j > 0 {
        PrecedesTransitive(rank(s[0]), rank(s[j]), rank(t[i]));
        PrecedesIrreflexive(rank(s[0]));
      }
      assert s[0] == t[0];
      forall x ensures x in s[1..] <==> x in t[1..] {
        if x in s[1..] {
          var k :| 1 <= k < |s| && s[k] == x;
          assert x in t && x != t[0];
        }
        if x in t[1..] {
          var k :| 1 <= k < |t| && t[k] == x;
          assert x in s && x != s[0];
        }
      }
      AscendingUnique(rank, s[1..], t[1..]);
      assert s == [s[0]] + s[1..] && t == [t[0]] + t[1..];
    }
  }

  /** The least element of a set under `rank`. */
  lemma {:induction false} LeastExists<T(!new)>(rank: T -> seq<string>, s: set<T>) returns (m: T)
    requires s != {}
    ensures m in s && forall x :: x in s ==> !Precedes(rank(x), rank(m))
  {
    var e :| e in s;
    if s == {e} {
      m := e;
      PrecedesIrreflexive(rank(e));
    } else {
      assert s == (s - {e}) + {e};
      var n := LeastExists(rank, s - {e});
      if Precedes(rank(e), rank(n)) {
        m := e;
        PrecedesIrreflexive(rank(e));
        forall x | x in s ensures !Precedes(rank(x), rank(e)) {
          if Precedes(rank(x), rank(e)) {
            PrecedesTransitive(rank(x), rank(e), rank(n));
            PrecedesIrreflexive(rank(n));
          }
        }
      } else {
        m := n;
      }
    }
  }

  lemma LeastFirst<T(!new)>(rank: T -> seq<string>, s: set<T>, m: T, rest: seq<T>)
    requires KeyedApart(rank, s) && m in s && forall x :: x in s ==> !Precedes(rank(x), rank(m))
    requires (forall x :: x in rest <==> x in s - {m}) && (KeyedApart(rank, s - {m}) ==> Ascending(rank, rest))
    ensures KeyedApart(rank, s - {m}) && Ascending(rank, [m] + rest)
  {
    hide Precedes;
    forall x | x in rest ensures Precedes(rank(m), rank(x)) { PrecedesTotal(rank(m), rank(x)); }
    forall i, j | 0 <= i < j < |[m] + rest| ensures Precedes(rank(([m] + rest)[i]), rank(([m] + rest)[j])) {
      if i == 0 { assert rest[j - 1] in rest; }
    }
  }

  /** The elements of a set in ascending order. */
  ghost function Arrange<T(!new)>(rank: T -> seq<string>, s: set<T>): (r: seq<T>)
    ensures forall x :: x in r <==> x in s
    ensures |r| == |s|
    ensures KeyedApart(rank, s) ==> Ascending(rank, r)
    decreases s
  {
    if s == {} then []
    else
      assert exists m :: m in s && forall x :: x in s ==> !Precedes(rank(x), rank(m)) by {
        var m := LeastExists(rank, s);
      }
      var m :| m in s && forall x :: x in s ==> !Precedes(rank(x), rank(m));
      var rest := Arrange(rank, s - {m});
      assert KeyedApart(rank, s) ==> KeyedApart(rank, s - {m}) && Ascending(rank, [m] + rest) by {
        if KeyedApart(rank, s) { LeastFirst(rank, s, m, rest); }
      }
      [m] + rest
  }

  /** An ascending list is the arrangement of its own elements. */
  lemma ArrangeIs<T(!new)>(rank: T -> seq<string>, s: set<T>, r: seq<T>)
    requires Ascending(rank, r)
    requires forall x :: x in r <==> x in s
    ensures KeyedApart(rank, s)
    ensures Arrange(rank, s) == r
  {
    AscendingIsDistinct(rank, r);
    assert KeyedApart(rank, s);
    AscendingUnique(rank, Arrange(rank, s), r);
  }

  lemma MultiplicityTwo<T>(t: seq<T>, m: nat, n: nat)
    requires m < n < |t| && t[m] == t[n]
    ensures multiset(t)[t[m]] >= 2
  {
    assert t == t[..m] + [t[m]] + t[m + 1..n] + [t[n]] + t[n + 1..];
  }

  lemma MultiplicityOne<T>(s: seq<T>, i: nat)
    requires i < |s| && forall m, n :: 0 <= m < n < |s| ==> s[m] != s[n]
    ensures multiset(s)[s[i]] == 1
  {
    assert s == s[..i] + [s[i]] + s[i + 1..];
    assert s[i] !in s[..i] && s[i] !in s[i + 1..];
  }

  /** Sorting a list without equal tuples makes it strictly ascending. */
  lemma SortedDistinct<T(!new)>(rank: T -> seq<string>, s: seq<T>, out: seq<T>)
    requires multiset(s) == multiset(out) && Sorted(rank, out)
    requires forall m, n :: 0 <= m < n < |s| ==> rank(s[m]) != rank(s[n])
    ensures Ascending(rank, out)
    ensures forall x :: x in s <==> x in out
  {
    assert forall x :: x in s <==> x in multiset(s);
    assert forall x :: x in out <==> x in multiset(out);
    forall m, n | 0 <= m < n < |out| ensures rank(out[m]) != rank(out[n]) {
      assert out[m] in s && out[n] in s;
      var i :| 0 <= i < |s| && s[i] == out[m];
      var j :| 0 <= j < |s| && s[j] == out[n];
      if out[m] == out[n] {
        MultiplicityTwo(out, m, n);
        MultiplicityOne(s, i);
        assert false;
      }
      assert i != j;
    }
    SortedIsAscending(rank, out);
  }

  function ByItself(k: string): seq<string> { [k] }

  /** The elements of a set of strings, sorted. */
  method SortedKeys(s: set<string>) returns (r: seq<string>)
    ensures r == Arrange(ByItself, s)
  {
    var keys: seq<string> := [];
    var todo := s;
    while todo != {}
      invariant todo <= s
      invariant forall i :: 0 <= i < |keys| ==> keys[i] in s && keys[i] !in todo
      invariant forall k :: k in s && k !in todo ==> k in keys
      invariant forall i, j :: 0 <= i < j < |keys| ==> keys[i] != keys[j]
    {
      var k :| k in todo;
      todo := todo - {k};
      keys := keys + [k];
    }
    r := SortBy(ByItself, keys);
    SortedKeysArranged(s, keys, r);
  }

  lemma SortedKeysArranged(s: set<string>, keys: seq<string>, r: seq<string>)
    requires multiset(r) == multiset(keys) && Sorted(ByItself, r)
    requires forall k :: k in keys <==> k in s
    requires forall i, j :: 0 <= i < j < |keys| ==> keys[i] != keys[j]
    ensures r == Arrange(ByItself, s)
  {
    hide Sorted, Arrange;
    forall i, j | 0 <= i < j < |keys| ensures ByItself(keys[i]) != ByItself(keys[j]) {
      assert ByItself(keys[i])[0] == keys[i] && ByItself(keys[j])[0] == keys[j];
    }
    SortedDistinct(ByItself, keys, r);
    ArrangeIs(ByItself, s, r);
  }
}
