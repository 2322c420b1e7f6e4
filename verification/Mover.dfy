/** The moves as the agent performs them, effect by effect, on a disk that changes (cmd/agent/migrate_state.go). */
module Mover {
  import opened Ordering
  import opened Migration

  class Disk {
    var files: Files
    var dirs: set<string>
    var fate: seq<Outcome>
    var down: bool

    function At(): State
      reads this
    {
      State(files, dirs, fate, down)
    }

    constructor (files: Files, dirs: set<string>, fate: seq<Outcome>)
      ensures At() == State(files, dirs, fate, false)
    {
      this.files, this.dirs, this.fate, this.down := files, dirs, fate, false;
    }

    /** What happens to the next effect. */
    method Draw() returns (o: Outcome)
      modifies this`fate, this`down
      ensures o == Next(old(At())) && At() == After(old(At()))
    {
      if down { return Crashes(0); }
      if fate == [] { return Fine; }
      o, fate := fate[0], fate[1..];
      down := o.Crashes?;
    }

    method RemoveFile(p: Path) returns (ok: bool)
      modifies this
      ensures (At(), ok) == Remove(old(At()), p)
    {
      var o := Draw();
      ok := o.Fine? && p in files;
      if ok { files := files - {p}; }
    }

    method CreateFile(p: Path) returns (ok: bool)
      modifies this
      ensures (At(), ok) == Create(old(At()), p)
    {
      var o := Draw();
      ok := o.Fine?;
      if ok { files := files[p := File("")]; }
    }

    method FillFile(bytes: string, p: Path) returns (ok: bool)
      modifies this
      ensures (At(), ok) == Fill(old(At()), bytes, p)
    {
      if down { return false; }
      var o := Draw();
      match o {
        case Fine => files := files[p := File(bytes)];
        case Fails(n) => files := files[p := File(Start(bytes, n))];
        case Crashes(n) => files := files[p := File(Start(bytes, n))];
      }
      ok := o.Fine?;
    }

    method CloseFile() returns (ok: bool)
      modifies this`fate, this`down
      ensures (At(), ok) == Close(old(At()))
    {
      var o := Draw();
      ok := o.Fine?;
    }

    method RenameFile(a: Path, b: Path) returns (ok: bool)
      modifies this
      ensures (At(), ok) == Rename(old(At()), a, b)
    {
      var o := Draw();
      ok := o.Fine? && a in files;
      if ok { files := files[b := files[a]] - {a}; }
    }

    method MakeDirectory(d: string) returns (ok: bool)
      modifies this
      ensures (At(), ok) == MakeDir(old(At()), d)
    {
      var o := Draw();
      ok := o.Fine?;
      if ok { dirs := dirs + {d}; }
    }

    method RemoveDirectory(d: string)
      modifies this
      ensures At() == RemoveDir(old(At()), d)
    {
      var o := Draw();
      if o.Fine? && EmptyDir(files, d) { dirs := dirs - {d}; }
    }

    /** copyFresh. */
    method Copy(bytes: string, dst: Path) returns (ok: bool)
      modifies this
      ensures (At(), ok) == CopyFresh(old(At()), bytes, dst)
    {
      hide Create, Fill, Close, Remove, Rename;
      var tmp := Tmp(dst);
      ok := CreateFile(tmp);
      if !ok { return; }
      ok := FillFile(bytes, tmp);
      if ok { ok := CloseFile(); }
      if ok { ok := RenameFile(tmp, dst); }
      if !ok { var _ := RemoveFile(tmp); }
    }

    /** migrateFile. */
    method Move(from: Path, to: Path)
      modifies this
      ensures At() == MigrateFile(old(At()), from, to)
    {
      hide CopyFresh, Remove;
      if to.name == "" || from == to || !IsFile(files, from) { return; }
      if to in files {
        var _ := RemoveFile(from);
        return;
      }
      var bytes := files[from].bytes;
      var ok := MakeDirectory(to.dir);
      if !ok { return; }
      ok := Copy(bytes, to);
      if !ok { return; }
      var _ := RemoveFile(from);
    }

    /** migrateDir. */
    method MoveDirectory(fromDir: string, toDir: string)
      modifies this
      ensures At() == MigrateDir(old(At()), fromDir, toDir)
    {
      hide CopyFresh, Remove, MakeDir, RemoveDir, Arrange;
      if toDir == "" || fromDir == toDir || fromDir !in dirs { return; }
      var entries := SortedKeys(NamesIn(files, fromDir));
      var made := MakeDirectory(toDir);
      if !made { return; }
      ghost var begin := Progress(At(), 0, 0);
      var moved, kept := 0, 0;
      for i := 0 to |entries|
        invariant Progress(At(), moved, kept) == MoveAll(begin, entries[..i], fromDir, toDir)
      {
        assert entries[..i + 1][..i] == entries[..i];
        ghost var before := Progress(At(), moved, kept);
        moved, kept := MoveOne(Path(fromDir, entries[i]), Path(toDir, entries[i]), moved, kept);
        assert Progress(At(), moved, kept) == MoveEntry(before, Path(fromDir, entries[i]), Path(toDir, entries[i]));
      }
      assert entries[..|entries|] == entries;
      if kept == 0 { RemoveDirectory(fromDir); }
    }

    /** One turn of that loop. */
    method MoveOne(from: Path, to: Path, moved: nat, kept: nat) returns (moved': nat, kept': nat)
      modifies this
      ensures Progress(At(), moved', kept') == MoveEntry(Progress(old(At()), moved, kept), from, to)
    {
      hide CopyFresh, Remove;
      moved', kept' := moved, kept;
      if !IsFile(files, from) { return; }
      if to in files {
        var gone := RemoveFile(from);
        if !gone { kept' := kept + 1; }
        return;
      }
      var ok := Copy(files[from].bytes, to);
      if !ok {
        kept' := kept + 1;
        return;
      }
      var gone := RemoveFile(from);
      if !gone { kept' := kept + 1; }
      moved' := moved + 1;
    }
  }
}
