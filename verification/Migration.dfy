/** Moving the state of an old installation to its new place (cmd/agent/migrate_state.go). Every effect on
    the disk may succeed, fail, or be the last one before a crash. */
module Migration {
  import opened Ordering

  datatype Path = Path(dir: string, name: string)
  datatype Entry = File(bytes: string) | Dir

  type Files = map<Path, Entry>

  /** `written` bytes of a copy reach the disk before it fails or the machine goes down. */
  datatype Outcome = Fine | Fails(written: nat) | Crashes(written: nat)

  /** The disk, the outcomes to come (after them everything is fine), and whether the process is dead. */
  datatype State = State(files: Files, dirs: set<string>, fate: seq<Outcome>, down: bool)

  const TMP_SUFFIX := ".migrate.tmp"

  function Tmp(p: Path): Path { Path(p.dir, p.name + TMP_SUFFIX) }

  // ---- Effects ----

  function Next(s: State): Outcome {
    if s.down then Crashes(0) else if s.fate == [] then Fine else s.fate[0]
  }

  function After(s: State): State {
    if s.down || s.fate == [] then s else s.(fate := s.fate[1..], down := s.fate[0].Crashes?)
  }

  function Start(bytes: string, n: nat): string { if n <= |bytes| then bytes[..n] else bytes }

  function Remove(s: State, p: Path): (State, bool) {
    if Next(s).Fine? && p in s.files then (After(s).(files := s.files - {p}), true) else (After(s), false)
  }

  function Create(s: State, p: Path): (State, bool) {
    if Next(s).Fine? then (After(s).(files := s.files[p := File("")]), true) else (After(s), false)
  }

  /** io.Copy into an open file. */
  function Fill(s: State, bytes: string, p: Path): (State, bool) {
    if s.down then (s, false)
    else
      match Next(s)
      case Fine => (After(s).(files := s.files[p := File(bytes)]), true)
      case Fails(n) => (After(s).(files := s.files[p := File(Start(bytes, n))]), false)
      case Crashes(n) => (After(s).(files := s.files[p := File(Start(bytes, n))]), false)
  }

  function Close(s: State): (State, bool) { (After(s), Next(s).Fine?) }

  function Rename(s: State, a: Path, b: Path): (State, bool) {
    if Next(s).Fine? && a in s.files then (After(s).(files := s.files[b := s.files[a]] - {a}), true)
        else (After(s), false)
  }

  function MakeDir(s: State, d: string): (State, bool) {
    if Next(s).Fine? then (After(s).(dirs := s.dirs + {d}), true) else (After(s), false)
  }

  predicate EmptyDir(files: Files, d: string) { forall p :: p in files ==> p.dir != d }

  function RemoveDir(s: State, d: string): State {
    if Next(s).Fine? && EmptyDir(s.files, d) then After(s).(dirs := s.dirs - {d}) else After(s)
  }

  // ---- The moves ----

  /** copyFresh: into dst.migrate.tmp, then rename. */
  function CopyFresh(s: State, bytes: string, dst: Path): (State, bool) {
    var tmp := Tmp(dst);
    var a := Create(s, tmp);
    if !a.1 then a
    else
      var b := Fill(a.0, bytes, tmp);
      if !b.1 then (Remove(b.0, tmp).0, false)
      else
        var c := Close(b.0);
        if !c.1 then (Remove(c.0, tmp).0, false)
        else
          var d := Rename(c.0, tmp, dst);
          if !d.1 then (Remove(d.0, tmp).0, false) else d
  }

  predicate IsFile(files: Files, p: Path) { p in files && files[p].File? }

  function MigrateFile(s: State, from: Path, to: Path): State {
    if to.name == "" || from == to || !IsFile(s.files, from) then s
    else if to in s.files then Remove(s, from).0
    else
      var made := MakeDir(s, to.dir);
      if !made.1 then made.0
      else
        var copied := CopyFresh(made.0, s.files[from].bytes, to);
        if !copied.1 then copied.0 else Remove(copied.0, from).0
  }

  datatype Progress = Progress(s: State, moved: nat, kept: nat)

  /** One entry of migrateDir's loop. */
  function MoveEntry(g: Progress, from: Path, to: Path): Progress {
    if !IsFile(g.s.files, from) then g
    else if to in g.s.files then
      var r := Remove(g.s, from);
      g.(s := r.0, kept := if r.1 then g.kept else g.kept + 1)
    else
      var c := CopyFresh(g.s, g.s.files[from].bytes, to);
      if !c.1 then g.(s := c.0, kept := g.kept + 1)
      else
        var r := Remove(c.0, from);
        Progress(r.0, g.moved + 1, if r.1 then g.kept else g.kept + 1)
  }

  function MoveAll(g: Progress, names: seq<string>, fromDir: string, toDir: string): Progress {
    if names == [] then g
    else
      var n := names[|names| - 1];
      MoveEntry(MoveAll(g, names[..|names| - 1], fromDir, toDir), Path(fromDir, n), Path(toDir, n))
  }

  function NamesIn(files: Files, d: string): set<string> { set p | p in files && p.dir == d :: p.name }

  ghost function MigrateDir(s: State, fromDir: string, toDir: string): State {
    if toDir == "" || fromDir == toDir || fromDir !in s.dirs then s
    else
      var made := MakeDir(s, toDir);
      if !made.1 then made.0
      else
        var g := MoveAll(Progress(made.0, 0, 0), Arrange(ByItself, NamesIn(s.files, fromDir)), fromDir, toDir);
        if g.kept == 0 then RemoveDir(g.s, fromDir) else g.s
  }

  // ---- One file: where it ends ----

  /** Where the file belongs: at its destination if that was free, nowhere if it was taken. */
  function Settled(files: Files, from: Path, to: Path): Files {
    if !IsFile(files, from) then files
    else if to in files then files - {from}
    else files[to := files[from]] - {from, Tmp(to)}
  }

  /** How far a move from f0 can have come. */
  ghost predicate Midway(f0: Files, f: Files, from: Path, to: Path) {
    if !IsFile(f0, from) then f == f0
    else if to in f0 then f == f0 || f == f0 - {from}
    else f - {Tmp(to)} == f0 - {Tmp(to)} || f == f0[to := f0[from]] - {Tmp(to)} || f == Settled(f0, from, to)
  }

  lemma MidwaySettles(f0: Files, f: Files, from: Path, to: Path)
    requires from != to && from != Tmp(to) && Midway(f0, f, from, to)
    ensures Settled(f, from, to) == Settled(f0, from, to)
  {
    assert to != Tmp(to) by { assert |Tmp(to).name| > |to.name|; }
    if IsFile(f0, from) && to !in f0 && f - {Tmp(to)} == f0 - {Tmp(to)} {
      assert from in f - {Tmp(to)} && (f - {Tmp(to)})[from] == f0[from];
      assert to in f ==> to in f - {Tmp(to)};
      forall p ensures p in Settled(f, from, to) <==> p in Settled(f0, from, to) {
        assert p in f - {Tmp(to)} <==> p in f0 - {Tmp(to)};
      }
      forall p | p in Settled(f, from, to) ensures Settled(f, from, to)[p] == Settled(f0, from, to)[p] {
        if p != to { assert (f - {Tmp(to)})[p] == (f0 - {Tmp(to)})[p]; }
      }
    }
  }

  /** Only the temporary file can differ. */
  ghost predicate SameBut(s: State, t: State, tmp: Path) { t.files - {tmp} == s.files - {tmp} && t.dirs == s.dirs }

  predicate Unharmed(s: State) { s.fate == [] && !s.down }

  lemma TmpEffects(s: State, tmp: Path, bytes: string)
    ensures SameBut(s, Create(s, tmp).0, tmp) && SameBut(s, Fill(s, bytes, tmp).0, tmp)
    ensures SameBut(s, Close(s).0, tmp) && SameBut(s, Remove(s, tmp).0, tmp)
    ensures Close(s).0.files == s.files
    ensures Fill(s, bytes, tmp).1 ==>
        tmp in Fill(s, bytes, tmp).0.files && Fill(s, bytes, tmp).0.files[tmp] == File(bytes)
    ensures Unharmed(s) ==> Create(s, tmp).1 && Fill(s, bytes, tmp).1 && Close(s).1
    ensures Unharmed(s) ==> Unharmed(Create(s, tmp).0) && Unharmed(Fill(s, bytes, tmp).0) && Unharmed(Close(s).0)
  {
  }

  lemma RenameEffect(s: State, tmp: Path, dst: Path)
    requires tmp != dst
    ensures var r := Rename(s, tmp, dst);
            if r.1 then tmp in s.files && r.0.files == s.files[dst := s.files[tmp]] - {tmp} && r.0.dirs == s.dirs
                else SameBut(s, r.0, tmp)
    ensures Unharmed(s) && tmp in s.files ==> Rename(s, tmp, dst).1 && Unharmed(Rename(s, tmp, dst).0)
  {
  }

  /** A copy either leaves all but the temporary file alone, or puts the whole content at the destination. */
  lemma CopyFreshMidway(s: State, bytes: string, dst: Path)
    ensures var c := CopyFresh(s, bytes, dst);
            if c.1 then c.0.files == s.files[dst := File(bytes)] - {Tmp(dst)} && c.0.dirs == s.dirs
                else SameBut(s, c.0, Tmp(dst))
    ensures Unharmed(s) ==> CopyFresh(s, bytes, dst).1 && Unharmed(CopyFresh(s, bytes, dst).0)
  {
    hide Create, Fill, Close, Remove, Rename, Unharmed;
    var tmp := Tmp(dst);
    assert |tmp.name| > |dst.name|;
    TmpEffects(s, tmp, bytes);
    var a := Create(s, tmp).0;
    TmpEffects(a, tmp, bytes);
    var b := Fill(a, bytes, tmp).0;
    TmpEffects(b, tmp, bytes);
    var c := Close(b).0;
    TmpEffects(c, tmp, bytes);
    RenameEffect(c, tmp, dst);
    TmpEffects(Rename(c, tmp, dst).0, tmp, bytes);
    forall p | p != tmp ensures (p in s.files <==> p in c.files) && (p in s.files ==> c.files[p] == s.files[p]) {
      assert p in s.files <==> p in s.files - {tmp};
      assert p in c.files <==> p in c.files - {tmp};
      assert p in s.files ==> (s.files - {tmp})[p] == (c.files - {tmp})[p];
    }
  }

  lemma EntryMidway(g: Progress, from: Path, to: Path)
    requires from != to && from != Tmp(to)
    ensures Midway(g.s.files, MoveEntry(g, from, to).s.files, from, to)
    ensures MoveEntry(g, from, to).s.dirs == g.s.dirs
    ensures Unharmed(g.s) ==> Unharmed(MoveEntry(g, from, to).s) && MoveEntry(g, from, to).kept == g.kept
    ensures Unharmed(g.s) ==> MoveEntry(g, from, to).s.files == Settled(g.s.files, from, to)
  {
    hide CopyFresh;
    var f := g.s.files;
    assert |Tmp(to).name| > |to.name|;
    if IsFile(f, from) && to !in f {
      CopyFreshMidway(g.s, f[from].bytes, to);
      assert f[to := f[from]] - {Tmp(to)} - {from} == Settled(f, from, to);
    }
  }

  lemma FileMidway(s: State, from: Path, to: Path)
    requires to.name != "" && from != to && from != Tmp(to)
    ensures Midway(s.files, MigrateFile(s, from, to).files, from, to)
    ensures Unharmed(s) ==> MigrateFile(s, from, to).files == Settled(s.files, from, to)
  {
    hide CopyFresh;
    var f := s.files;
    assert |Tmp(to).name| > |to.name|;
    if IsFile(f, from) && to !in f {
      var made := MakeDir(s, to.dir).0;
      CopyFreshMidway(made, f[from].bytes, to);
      assert f[to := f[from]] - {Tmp(to)} - {from} == Settled(f, from, to);
    }
  }

  /** Whatever a move met on its way, a crash after any effect included: a destination that was there is
      untouched; otherwise the whole content is at the source or at the destination, and a destination that
      has appeared is complete; nothing else changes but the temporary file. */
  lemma MoveIsCrashSafe(s: State, from: Path, to: Path)
    requires to.name != "" && from != to && from != Tmp(to) && IsFile(s.files, from)
    ensures var f, t := s.files, MigrateFile(s, from, to).files;
            && (to in f ==> to in t && t[to] == f[to])
            && (to !in f ==> (from in t && t[from] == f[from]) || (to in t && t[to] == f[from]))
            && (to !in f && to in t ==> t[to] == f[from])
            && (forall p :: p !in {from, to, Tmp(to)} ==> (p in t <==> p in f) && (p in f ==> t[p] == f[p]))
  {
    hide MigrateFile;
    var f, t := s.files, MigrateFile(s, from, to).files;
    assert |Tmp(to).name| > |to.name|;
    FileMidway(s, from, to);
    if to !in f && t - {Tmp(to)} == f - {Tmp(to)} {
      assert to !in t - {Tmp(to)} && from in t - {Tmp(to)} && (t - {Tmp(to)})[from] == f[from];
    }
    forall p | p !in {from, to, Tmp(to)} ensures (p in t <==> p in f) && (p in f ==> t[p] == f[p]) {
      assert p in t <==> p in t - {Tmp(to)};
      assert p in f <==> p in f - {Tmp(to)};
      assert p in t ==> t[p] == (t - {Tmp(to)})[p];
      assert p in f ==> f[p] == (f - {Tmp(to)})[p];
    }
  }

  /** Any number of attempts, each with its own failures or crash. */
  function Attempts(files: Files, dirs: set<string>, fates: seq<seq<Outcome>>, from: Path, to: Path): Files {
    if fates == [] then files
    else MigrateFile(State(Attempts(files, dirs, fates[..|fates| - 1], from, to), dirs, fates[|fates| - 1], false),
        from, to).files
  }

  /** However often it was interrupted, one undisturbed run ends where an undisturbed first run would have. */
  lemma {:induction false} MoveConverges(files: Files, dirs: set<string>, fates: seq<seq<Outcome>>, from: Path,
                                         to: Path)
    requires to.name != "" && from != to && from != Tmp(to)
    ensures Attempts(files, dirs, fates + [[]], from, to) == Settled(files, from, to)
  {
    AttemptsSettle(files, dirs, fates, from, to);
    assert (fates + [[]])[..|fates|] == fates;
    FileMidway(State(Attempts(files, dirs, fates, from, to), dirs, [], false), from, to);
  }

  lemma {:induction false} AttemptsSettle(files: Files, dirs: set<string>, fates: seq<seq<Outcome>>, from: Path,
                                          to: Path)
    requires to.name != "" && from != to && from != Tmp(to)
    ensures Settled(Attempts(files, dirs, fates, from, to), from, to) == Settled(files, from, to)
  {
    hide MigrateFile, Settled;
    if fates != [] {
      var front := fates[..|fates| - 1];
      AttemptsSettle(files, dirs, front, from, to);
      var s := State(Attempts(files, dirs, front, from, to), dirs, fates[|fates| - 1], false);
      FileMidway(s, from, to);
      MidwaySettles(s.files, MigrateFile(s, from, to).files, from, to);
    }
  }
}
