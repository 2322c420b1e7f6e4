/** Moving the outbox, entry by entry: no record is lost, no record already delivered to the new place is
    touched, and every sequence of interrupted attempts ends in one and the same place. */
module DirMigration {
  import opened Ordering
  import opened Migration

  predicate TmpName(n: string) { |n| >= |TMP_SUFFIX| && n[|n| - |TMP_SUFFIX|..] == TMP_SUFFIX }
  function Base(n: string): string { if TmpName(n) then n[..|n| - |TMP_SUFFIX|] else n }

  lemma TmpNames(n: string)
    ensures TmpName(n + TMP_SUFFIX) && Base(n + TMP_SUFFIX) == n
    ensures TmpName(n) ==> n == Base(n) + TMP_SUFFIX
  {
    assert (n + TMP_SUFFIX)[|n|..] == TMP_SUFFIX && (n + TMP_SUFFIX)[..|n|] == n;
  }

  /** A record waiting in the old directory. */
  predicate Waiting(files: Files, fromDir: string, n: string) { IsFile(files, Path(fromDir, n)) }

  /** No record is named like a temporary file. */
  ghost predicate Clean(files: Files, fromDir: string) {
    forall p :: p in files && p.dir == fromDir && files[p].File? ==> !TmpName(p.name)
  }

  /** What a path holds in the end. */
  function Finally(files: Files, fromDir: string, toDir: string, p: Path): Option<Entry> {
    if p.dir == fromDir && IsFile(files, p) then None
    else if p.dir == toDir && TmpName(p.name) && Waiting(files, fromDir, Base(p.name))
        && Path(toDir, Base(p.name)) !in files then None
    else if p in files then Some(files[p])
    else if p.dir == toDir && Waiting(files, fromDir, p.name) then Some(files[Path(fromDir, p.name)])
    else None
  }

  ghost predicate SameEnd(f: Files, t: Files, fromDir: string, toDir: string) {
    && Clean(t, fromDir) && (forall p :: Finally(t, fromDir, toDir, p) == Finally(f, fromDir, toDir, p))
    && (forall p :: p in f && p.dir == toDir && !TmpName(p.name) ==> p in t && t[p] == f[p])
    && (forall p: Path :: p.dir == fromDir && !IsFile(f, p) ==> (p in t <==> p in f) && (p in f ==> t[p] == f[p]))
  }

  lemma SameOff(f: Files, t: Files, tmp: Path)
    requires t - {tmp} == f - {tmp}
    ensures forall p :: p != tmp ==> (p in t <==> p in f) && (p in f ==> t[p] == f[p])
  {
    forall p | p != tmp ensures (p in t <==> p in f) && (p in f ==> t[p] == f[p]) {
      assert p in t <==> p in t - {tmp};
      assert p in f <==> p in f - {tmp};
      if p in f { assert (t - {tmp})[p] == (f - {tmp})[p]; }
    }
  }

  /** Wherever the move of one record stands, the end is the same. */
  lemma EntryKeepsEnd(f: Files, t: Files, fromDir: string, toDir: string, n: string)
    requires fromDir != toDir && Clean(f, fromDir) && Midway(f, t, Path(fromDir, n), Path(toDir, n))
    ensures SameEnd(f, t, fromDir, toDir)
  {
    var from, to := Path(fromDir, n), Path(toDir, n);
    var tmp := Tmp(to);
    TmpNames(n);
    assert |tmp.name| > |n|;
    if IsFile(f, from) && to !in f && t - {tmp} == f - {tmp} {
      SameOff(f, t, tmp);
    }
    forall p ensures Finally(t, fromDir, toDir, p) == Finally(f, fromDir, toDir, p) {
      TmpNames(p.name);
      EntryKeepsEndAt(f, t, fromDir, toDir, n, p);
    }
  }

  lemma EntryKeepsEndAt(f: Files, t: Files, fromDir: string, toDir: string, n: string, p: Path)
    requires fromDir != toDir && Clean(f, fromDir) && Midway(f, t, Path(fromDir, n), Path(toDir, n))
    ensures Finally(t, fromDir, toDir, p) == Finally(f, fromDir, toDir, p)
  {
    hide Finally, Clean, TmpName;
    var from, to := Path(fromDir, n), Path(toDir, n);
    if !IsFile(f, from) {
    } else if to in f {
      if t != f { DroppedSourceEnd(f, fromDir, toDir, n, p); }
    } else if t - {Tmp(to)} == f - {Tmp(to)} {
      TmpOnlyEnd(f, t, fromDir, toDir, n, p);
    } else {
      CopiedEnd(f, fromDir, toDir, n, p);
      var c := f[to := f[from]] - {Tmp(to)};
      if t != c {
        assert |Tmp(to).name| > |n|;
        assert t == c - {from};
        CopiedClean(f, fromDir, toDir, n);
        DroppedSourceEnd(c, fromDir, toDir, n, p);
      }
    }
  }

  lemma CopiedClean(f: Files, fromDir: string, toDir: string, n: string)
    requires fromDir != toDir && Clean(f, fromDir) && Waiting(f, fromDir, n)
    ensures var c := f[Path(toDir, n) := f[Path(fromDir, n)]] - {Tmp(Path(toDir, n))};
            Clean(c, fromDir) && Waiting(c, fromDir, n)
  {
  }

  lemma DroppedSourceEnd(f: Files, fromDir: string, toDir: string, n: string, p: Path)
    requires fromDir != toDir && Clean(f, fromDir) && Waiting(f, fromDir, n) && Path(toDir, n) in f
    ensures Finally(f - {Path(fromDir, n)}, fromDir, toDir, p) == Finally(f, fromDir, toDir, p)
  {
  }

  lemma TmpOnlyEnd(f: Files, t: Files, fromDir: string, toDir: string, n: string, p: Path)
    requires fromDir != toDir && Clean(f, fromDir) && Waiting(f, fromDir, n) && Path(toDir, n) !in f
    requires t - {Tmp(Path(toDir, n))} == f - {Tmp(Path(toDir, n))}
    ensures Finally(t, fromDir, toDir, p) == Finally(f, fromDir, toDir, p)
  {
    var tmp := Tmp(Path(toDir, n));
    TmpNames(n);
    TmpNames(p.name);
    SameOff(f, t, tmp);
    assert |tmp.name| > |n|;
    assert Waiting(f, fromDir, Base(p.name)) ==> !TmpName(Base(p.name));
    hide TmpName, Base, Clean;
  }

  lemma CopiedEnd(f: Files, fromDir: string, toDir: string, n: string, p: Path)
    requires fromDir != toDir && Clean(f, fromDir) && Waiting(f, fromDir, n) && Path(toDir, n) !in f
    ensures Finally(f[Path(toDir, n) := f[Path(fromDir, n)]] - {Tmp(Path(toDir, n))}, fromDir, toDir, p)
            == Finally(f, fromDir, toDir, p)
  {
    TmpNames(n);
    TmpNames(p.name);
    assert |Tmp(Path(toDir, n)).name| > |n|;
    assert !TmpName(n) by { assert Path(fromDir, n) in f; }
    assert Waiting(f, fromDir, p.name) ==> !TmpName(p.name);
    assert Waiting(f, fromDir, Base(p.name)) ==> !TmpName(Base(p.name));
    hide TmpName, Base, Clean;
  }

  lemma SameEndTransitive(f: Files, g: Files, h: Files, fromDir: string, toDir: string)
    requires SameEnd(f, g, fromDir, toDir) && SameEnd(g, h, fromDir, toDir)
    ensures SameEnd(f, h, fromDir, toDir)
  {
    hide Finally, Clean, TmpName;
  }

  lemma {:induction false} MoveAllKeepsEnd(g: Progress, names: seq<string>, fromDir: string, toDir: string)
    requires fromDir != toDir && Clean(g.s.files, fromDir)
    ensures var h := MoveAll(g, names, fromDir, toDir);
            SameEnd(g.s.files, h.s.files, fromDir, toDir) && h.s.dirs == g.s.dirs
    ensures Unharmed(g.s) ==>
              var h := MoveAll(g, names, fromDir, toDir); Unharmed(h.s) && h.kept == g.kept
  {
    hide MoveEntry, Finally, Midway, Unharmed;
    if names != [] {
      var n := names[|names| - 1];
      var h := MoveAll(g, names[..|names| - 1], fromDir, toDir);
      MoveAllKeepsEnd(g, names[..|names| - 1], fromDir, toDir);
      EntryMidway(h, Path(fromDir, n), Path(toDir, n));
      EntryKeepsEnd(h.s.files, MoveEntry(h, Path(fromDir, n), Path(toDir, n)).s.files, fromDir, toDir, n);
      SameEndTransitive(g.s.files, h.s.files, MoveEntry(h, Path(fromDir, n), Path(toDir, n)).s.files, fromDir, toDir);
    }
  }

  /** An undisturbed pass leaves no listed record waiting. */
  lemma {:induction false} MoveAllEmpties(g: Progress, names: seq<string>, fromDir: string, toDir: string)
    requires fromDir != toDir && Clean(g.s.files, fromDir) && Unharmed(g.s)
    ensures forall m :: Waiting(MoveAll(g, names, fromDir, toDir).s.files, fromDir, m) ==>
        Waiting(g.s.files, fromDir, m) && m !in names
  {
    hide MoveEntry, Midway, Unharmed, Clean, Settled, SameEnd;
    if names != [] {
      var n := names[|names| - 1];
      var h := MoveAll(g, names[..|names| - 1], fromDir, toDir);
      assert forall m :: m in names <==> m in names[..|names| - 1] || m == n;
      CleanStays(g, names[..|names| - 1], fromDir, toDir);
      MoveAllEmpties(g, names[..|names| - 1], fromDir, toDir);
      MoveAllKeepsEnd(g, names[..|names| - 1], fromDir, toDir);
      EntryMidway(h, Path(fromDir, n), Path(toDir, n));
      forall m
        ensures Waiting(Settled(h.s.files, Path(fromDir, n), Path(toDir, n)), fromDir, m) ==>
            Waiting(h.s.files, fromDir, m) && m != n
      {
        SettledEmpties(h.s.files, fromDir, toDir, n, m);
      }
    }
  }

  lemma CleanStays(g: Progress, names: seq<string>, fromDir: string, toDir: string)
    requires fromDir != toDir && Clean(g.s.files, fromDir)
    ensures Clean(MoveAll(g, names, fromDir, toDir).s.files, fromDir)
  {
    hide Clean, MoveAll, Finally;
    MoveAllKeepsEnd(g, names, fromDir, toDir);
  }

  lemma SettledEmpties(files: Files, fromDir: string, toDir: string, n: string, m: string)
    requires fromDir != toDir
    ensures Waiting(Settled(files, Path(fromDir, n), Path(toDir, n)), fromDir, m) ==>
        Waiting(files, fromDir, m) && m != n
  {
  }

  // ---- The directory ----

  ghost predicate HasSubdir(files: Files, d: string) { exists p :: p in files && p.dir == d && files[p].Dir? }

  ghost function FinalDirs(s: State, fromDir: string, toDir: string): set<string> {
    if fromDir !in s.dirs then s.dirs
    else if HasSubdir(s.files, fromDir) then s.dirs + {toDir}
    else s.dirs + {toDir} - {fromDir}
  }

  /** Files live in directories that exist. */
  ghost predicate Housed(s: State, fromDir: string) { fromDir !in s.dirs ==> EmptyDir(s.files, fromDir) }

  ghost predicate SameGoal(s: State, t: State, fromDir: string, toDir: string) {
    SameEnd(s.files, t.files, fromDir, toDir) && FinalDirs(t, fromDir, toDir) == FinalDirs(s, fromDir, toDir)
        && Housed(t, fromDir)
  }

  lemma SubdirsStay(f: Files, t: Files, fromDir: string, toDir: string)
    requires SameEnd(f, t, fromDir, toDir)
    ensures HasSubdir(t, fromDir) <==> HasSubdir(f, fromDir)
  {
    forall p: Path | p.dir == fromDir ensures (p in t && t[p].Dir?) <==> (p in f && f[p].Dir?) {
      if IsFile(f, p) { assert Finally(f, fromDir, toDir, p) == None; }
    }
  }

  lemma SameEndItself(f: Files, fromDir: string, toDir: string)
    requires Clean(f, fromDir)
    ensures SameEnd(f, f, fromDir, toDir)
  {
  }

  lemma AttemptKeepsGoal(s: State, fromDir: string, toDir: string)
    requires fromDir != toDir && toDir != "" && Clean(s.files, fromDir) && Housed(s, fromDir)
    ensures SameGoal(s, MigrateDir(s, fromDir, toDir), fromDir, toDir)
  {
    hide MoveAll, Finally, SameEnd, Arrange, Clean, TmpName;
    SameEndItself(s.files, fromDir, toDir);
    if fromDir in s.dirs {
      var made := MakeDir(s, toDir);
      if made.1 {
        var names := Arrange(ByItself, NamesIn(s.files, fromDir));
        var g := MoveAll(Progress(made.0, 0, 0), names, fromDir, toDir);
        MoveAllKeepsEnd(Progress(made.0, 0, 0), names, fromDir, toDir);
        SubdirsStay(s.files, g.s.files, fromDir, toDir);
      }
    }
  }

  /** Everything is where it belongs. */
  ghost predicate Arrived(s: State, t: State, fromDir: string, toDir: string) {
    && (forall p :: (p in t.files <==> Finally(s.files, fromDir, toDir, p).Some?))
    && (forall p :: p in t.files ==> Some(t.files[p]) == Finally(s.files, fromDir, toDir, p))
    && t.dirs == FinalDirs(s, fromDir, toDir)
  }

  lemma NothingWaitingIsFinal(files: Files, fromDir: string, toDir: string, p: Path)
    requires forall n :: !Waiting(files, fromDir, n)
    ensures Finally(files, fromDir, toDir, p) == if p in files then Some(files[p]) else None
  {
    assert p.dir == fromDir ==> (IsFile(files, p) <==> Waiting(files, fromDir, p.name));
  }

  lemma UndisturbedArrives(s: State, fromDir: string, toDir: string)
    requires fromDir != toDir && toDir != "" && Clean(s.files, fromDir) && Housed(s, fromDir) && Unharmed(s)
    ensures Arrived(s, MigrateDir(s, fromDir, toDir), fromDir, toDir)
  {
    hide MoveAll, Finally, SameEnd, Arrange, Clean, TmpName, HasSubdir;
    AttemptKeepsGoal(s, fromDir, toDir);
    var t := MigrateDir(s, fromDir, toDir);
    if fromDir in s.dirs {
      var made := MakeDir(s, toDir).0;
      var names := Arrange(ByItself, NamesIn(s.files, fromDir));
      var g := MoveAll(Progress(made, 0, 0), names, fromDir, toDir);
      MoveAllKeepsEnd(Progress(made, 0, 0), names, fromDir, toDir);
      MoveAllEmpties(Progress(made, 0, 0), names, fromDir, toDir);
      assert forall n :: Waiting(s.files, fromDir, n) ==> n in names;
      OnlySubdirsLeft(g.s.files, fromDir);
    }
    forall n ensures !Waiting(t.files, fromDir, n) {}
    forall p ensures Finally(s.files, fromDir, toDir, p) == if p in t.files then Some(t.files[p]) else None {
      NothingWaitingIsFinal(t.files, fromDir, toDir, p);
      EndAt(s.files, t.files, fromDir, toDir, p);
    }
  }

  lemma EndAt(f: Files, t: Files, fromDir: string, toDir: string, p: Path)
    requires SameEnd(f, t, fromDir, toDir)
    ensures Finally(t, fromDir, toDir, p) == Finally(f, fromDir, toDir, p)
  {
  }

  lemma OnlySubdirsLeft(files: Files, d: string)
    requires forall n :: !Waiting(files, d, n)
    ensures EmptyDir(files, d) <==> !HasSubdir(files, d)
  {
    forall p | p in files && p.dir == d ensures files[p].Dir? { assert !Waiting(files, d, p.name); }
  }

  // ---- All attempts ----

  ghost function DirAttempts(s: State, fates: seq<seq<Outcome>>, fromDir: string, toDir: string): State {
    if fates == [] then s
    else MigrateDir(DirAttempts(s, fates[..|fates| - 1], fromDir, toDir).(fate := fates[|fates| - 1], down := false),
        fromDir, toDir)
  }

  lemma {:induction false} AttemptsKeepGoal(s: State, fates: seq<seq<Outcome>>, fromDir: string, toDir: string)
    requires fromDir != toDir && toDir != "" && Clean(s.files, fromDir) && Housed(s, fromDir)
    ensures SameGoal(s, DirAttempts(s, fates, fromDir, toDir), fromDir, toDir)
    ensures Clean(DirAttempts(s, fates, fromDir, toDir).files, fromDir)
  {
    hide Finally, MigrateDir, Clean, HasSubdir, TmpName;
    if fates == [] {
      SameEndItself(s.files, fromDir, toDir);
    } else {
      var t := DirAttempts(s, fates[..|fates| - 1], fromDir, toDir);
      AttemptsKeepGoal(s, fates[..|fates| - 1], fromDir, toDir);
      var t' := t.(fate := fates[|fates| - 1], down := false);
      AttemptKeepsGoal(t', fromDir, toDir);
      SameEndTransitive(s.files, t.files, MigrateDir(t', fromDir, toDir).files, fromDir, toDir);
    }
  }

  /** However many attempts failed or crashed, at whatever effects, one undisturbed pass afterwards leaves the
      disk as one undisturbed pass from the start would have. */
  lemma DirConverges(s: State, fates: seq<seq<Outcome>>, fromDir: string, toDir: string)
    requires fromDir != toDir && toDir != "" && Clean(s.files, fromDir) && Housed(s, fromDir)
    ensures Arrived(s, DirAttempts(s, fates + [[]], fromDir, toDir), fromDir, toDir)
  {
    hide Finally, MigrateDir, Clean, HasSubdir, SameEnd;
    AttemptsKeepGoal(s, fates, fromDir, toDir);
    assert (fates + [[]])[..|fates|] == fates;
    var t := DirAttempts(s, fates, fromDir, toDir).(fate := [], down := false);
    UndisturbedArrives(t, fromDir, toDir);
    forall p ensures Finally(t.files, fromDir, toDir, p) == Finally(s.files, fromDir, toDir, p) {
      EndAt(s.files, t.files, fromDir, toDir, p);
    }
  }

  /** At every point of every run of attempts: a record already at the new place is untouched; any other is
      whole at the old place or whole at the new one; and no record at the new place is partial. */
  lemma NoRecordIsLost(s: State, fates: seq<seq<Outcome>>, fromDir: string, toDir: string, n: string)
    requires fromDir != toDir && toDir != "" && Clean(s.files, fromDir) && Housed(s, fromDir)
        && Waiting(s.files, fromDir, n)
    ensures var t := DirAttempts(s, fates, fromDir, toDir).files; var a, b := Path(fromDir, n), Path(toDir, n);
            && (b in s.files ==> b in t && t[b] == s.files[b])
            && (b !in s.files ==> (a in t && t[a] == s.files[a]) || (b in t && t[b] == s.files[a]))
            && (b !in s.files && b in t ==> t[b] == s.files[a])
  {
    hide MigrateDir, HasSubdir, DirAttempts;
    AttemptsKeepGoal(s, fates, fromDir, toDir);
    var t := DirAttempts(s, fates, fromDir, toDir).files;
    assert !TmpName(n) by { assert Path(fromDir, n) in s.files; }
    EndAt(s.files, t, fromDir, toDir, Path(toDir, n));
  }
}
