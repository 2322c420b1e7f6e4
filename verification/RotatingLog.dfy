/** The service's log file and its one backup (internal/agent/applog/applog.go). */
module RotatingLog {

  /** What the file system does during one write: the rename, the truncating open, the fallback open, and how
      much of the text reaches the file. */
  datatype Weather = Weather(renames: bool, opens: bool, reopens: bool, written: nat)

  /** `size` is what the logger believes the current file holds. */
  datatype Log = Log(backup: string, current: string, size: nat, isOpen: bool)

  /** rotate. The result of the rename is ignored; only the truncating open resets the size. */
  function Rotated(l: Log, w: Weather): Log {
    var moved := if w.renames then l.(backup := l.current, current := "") else l;
    if w.opens then moved.(current := "", size := 0, isOpen := true) else moved.(isOpen := w.reopens)
  }

  function Overflows(l: Log, p: string, max: nat): bool { max > 0 && l.size + |p| > max }

  function Appended(l: Log, p: string, w: Weather): Log {
    var n := if w.written <= |p| then w.written else |p|;
    if l.isOpen then l.(current := l.current + p[..n], size := l.size + n) else l
  }

  function Wrote(l: Log, p: string, max: nat, w: Weather): Log {
    Appended(if Overflows(l, p, max) then Rotated(l, w) else l, p, w)
  }

  predicate Calm(w: Weather, p: string) { w.renames && w.opens && w.written >= |p| }

  /** The logger knows the size and holds the file. */
  predicate Truthful(l: Log) { l.isOpen && l.size == |l.current| }

  // ---- Calm weather ----

  function Texts(writes: seq<(string, Weather)>): string {
    if writes == [] then "" else Texts(writes[..|writes| - 1]) + writes[|writes| - 1].0
  }

  function WroteAll(l: Log, writes: seq<(string, Weather)>, max: nat): Log {
    if writes == [] then l else Wrote(WroteAll(l, writes[..|writes| - 1], max), writes[|writes| - 1].0, max,
        writes[|writes| - 1].1)
  }

  ghost predicate Suffix(s: string, t: string) { |s| <= |t| && s == t[|t| - |s|..] }

  lemma SuffixGrows(s: string, t: string, p: string)
    requires Suffix(s, t)
    ensures Suffix(s + p, t + p)
  {
  }

  lemma SuffixOfSuffix(b: string, c: string, t: string)
    requires Suffix(b + c, t)
    ensures Suffix(c, t)
  {
    assert (b + c)[|b|..] == c;
  }

  /** A rotation happens exactly when the text would not fit, and it keeps the whole current file as the backup. */
  lemma RotatesExactly(l: Log, p: string, max: nat, w: Weather)
    requires Truthful(l) && Calm(w, p)
    ensures var m := Wrote(l, p, max, w);
            if max > 0 && |l.current| + |p| > max then m.backup == l.current && m.current == p
            else m.backup == l.backup && m.current == l.current + p
  {
    assert p[..|p|] == p;
  }

  lemma StaysTruthful(l: Log, p: string, max: nat, w: Weather)
    requires Truthful(l) && Calm(w, p)
    ensures Truthful(Wrote(l, p, max, w))
  {
    assert p[..|p|] == p;
  }

  lemma TailStep(m: Log, p: string, max: nat, w: Weather, all: string)
    requires Truthful(m) && Calm(w, p) && Suffix(m.backup + m.current, all)
    ensures var n := Wrote(m, p, max, w); Truthful(n) && Suffix(n.backup + n.current, all + p)
    ensures |p| <= max && |m.current| <= max ==> |Wrote(m, p, max, w).current| <= max
  {
    hide Suffix, Wrote;
    RotatesExactly(m, p, max, w);
    StaysTruthful(m, p, max, w);
    SuffixOfSuffix(m.backup, m.current, all);
    SuffixGrows(m.current, all, p);
    SuffixGrows(m.backup + m.current, all, p);
    assert m.backup + m.current + p == m.backup + (m.current + p);
  }

  /** Backup and current together are always the last part of everything written, without a gap; the size is
      right; and the current file stays within the bound if it started so and no single write exceeds it. */
  lemma {:induction false} RetainsTheTail(l: Log, writes: seq<(string, Weather)>, max: nat)
    requires Truthful(l) && forall i :: 0 <= i < |writes| ==> Calm(writes[i].1, writes[i].0)
    ensures var m := WroteAll(l, writes, max);
            Truthful(m) && Suffix(m.backup + m.current, l.backup + l.current + Texts(writes))
    ensures |l.current| <= max && (forall i :: 0 <= i < |writes| ==> |writes[i].0| <= max) ==>
        |WroteAll(l, writes, max).current| <= max
  {
    if writes != [] {
      var front, last := writes[..|writes| - 1], writes[|writes| - 1];
      RetainsTheTail(l, front, max);
      hide Suffix, Wrote, Calm, Truthful;
      var all := l.backup + l.current + Texts(front);
      TailStep(WroteAll(l, front, max), last.0, max, last.1, all);
      assert all + last.0 == l.backup + l.current + Texts(writes);
    }
  }

  // ---- Foul weather ----

  /** A rotation leaves the size right if and only if the truncating open worked, or nothing was renamed
      away and the old file could be opened again, or the file was empty. */
  lemma SizeRightExactly(l: Log, w: Weather)
    requires Truthful(l)
    ensures Truthful(Rotated(l, w)) <==> w.opens || (w.reopens && (!w.renames || l.current == ""))
  {
  }

  /** The current text survives a rotation if and only if the rename worked or the truncation did not: an
      ignored rename error loses the whole current file. */
  lemma TextSurvivesExactly(l: Log, w: Weather)
    ensures (Rotated(l, w).backup == l.current || Rotated(l, w).current == l.current) <==>
        w.renames || !w.opens || l.current == "" || l.backup == l.current
  {
  }

  /** A size left wrong makes the very next write rotate again, however short, and the backup that held
      everything is replaced by the little written since. */
  lemma StaleSizeLosesTheBackup(l: Log, p: string, q: string, max: nat, w: Weather, v: Weather)
    requires Truthful(l) && Overflows(l, p, max)
    requires w.renames && !w.opens && w.reopens && w.written >= |p|
    requires Calm(v, q)
    ensures var m := Wrote(l, p, max, w); m.backup == l.current && m.current == p
    ensures var m := Wrote(Wrote(l, p, max, w), q, max, v); m.backup == p && m.current == q
  {
    assert p[..|p|] == p && q[..|q|] == q;
  }

  // ---- As the agent does it ----

  class Rotating {
    const maxBytes: nat
    var backup: string
    var current: string
    var size: nat
    var isOpen: bool

    function At(): Log
      reads this
    {
      Log(backup, current, size, isOpen)
    }

    /** Open: the size is that of the file found, or 0 if it could not be asked. */
    constructor (maxBytes: nat, backup: string, current: string, statWorks: bool)
      ensures this.maxBytes == maxBytes
      ensures At() == Log(backup, current, if statWorks then |current| else 0, true)
    {
      this.maxBytes, this.backup, this.current := maxBytes, backup, current;
      this.size, this.isOpen := if statWorks then |current| else 0, true;
    }

    method Rotate(w: Weather)
      modifies this
      ensures At() == Rotated(old(At()), w)
    {
      if w.renames { backup, current := current, ""; }
      if !w.opens {
        isOpen := w.reopens;
        return;
      }
      current, size, isOpen := "", 0, true;
    }

    method Write(p: string, w: Weather)
      modifies this
      ensures At() == Wrote(old(At()), p, maxBytes, w)
    {
      if maxBytes > 0 && size + |p| > maxBytes { Rotate(w); }
      if !isOpen { return; }
      var n := if w.written <= |p| then w.written else |p|;
      current := current + p[..n];
      size := size + n;
    }
  }
}
