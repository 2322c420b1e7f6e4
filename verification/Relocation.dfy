/** Moving the client identity into the service's directory (cmd/agent/main.go). Paths are directory entries;
    two of them may be the same inode. */
module Relocation {
  import opened Ordering

  type Name = string
  type Inode = nat

  datatype Files = Files(links: map<Name, Inode>, content: map<Inode, string>, next: Inode)

  ghost predicate Sound(f: Files) {
    && (forall p :: p in f.links ==> f.links[p] in f.content && f.links[p] < f.next)
    && (forall i :: i in f.content ==> i < f.next)
  }

  predicate Exists(f: Files, p: Name) { p != "" && p in f.links }

  predicate Alias(f: Files, p: Name, q: Name) { p in f.links && q in f.links && f.links[p] == f.links[q] }

  function Read(f: Files, p: Name): Option<string> {
    if p in f.links && f.links[p] in f.content then Some(f.content[f.links[p]]) else None
  }

  /** Opening for writing with truncation, then writing the whole content. */
  function Write(f: Files, p: Name, bytes: string): Files {
    if p in f.links then f.(content := f.content[f.links[p] := bytes])
    else Files(f.links[p := f.next], f.content[f.next := bytes], f.next + 1)
  }

  /** copyFile: nothing if both names are one file, however it is spelled. */
  function Copied(f: Files, src: Name, dst: Name): Option<Files> {
    if src == dst then Some(f)
    else if Read(f, src).None? then None
    else if Alias(f, src, dst) then Some(f)
    else Some(Write(f, dst, Read(f, src).value))
  }

  function Unlinked(f: Files, p: Name): Files { f.(links := f.links - {p}) }

  datatype Identity = Identity(cert: Name, key: Name)

  /** The identity part of relocateForService. */
  function Relocated(f: Files, from: Identity, dst: Identity): Option<(Files, Identity)> {
    if Exists(f, from.cert) && Exists(f, from.key) then
      var f1 := Copied(f, from.cert, dst.cert);
      if f1.None? then None
      else
        var f2 := Copied(f1.value, from.key, dst.key);
        if f2.None? then None
        else
          var g := f2.value;
          Some((if from.key in g.links && dst.key in g.links && !Alias(g, from.key, dst.key)
              then Unlinked(g, from.key) else g, dst))
    else if Exists(f, dst.cert) && Exists(f, dst.key) then Some((f, dst))
    else None
  }

  /** retargetIdentityToCertDir. */
  function Retargeted(f: Files, from: Identity, dst: Identity): Identity {
    if Exists(f, from.cert) && Exists(f, from.key) then from
    else if Exists(f, dst.cert) && Exists(f, dst.key) then dst
    else from
  }

  predicate Destination(f: Files, dst: Identity) {
    dst.cert != dst.key && dst.cert != "" && dst.key != "" && !Alias(f, dst.cert, dst.key)
  }

  predicate Sources(f: Files, from: Identity) { Exists(f, from.cert) && Exists(f, from.key) }

  /** The installed pair is the pair that was there. */
  ghost predicate PairKept(f: Files, g: Files, from: Identity, dst: Identity) {
    Read(g, dst.cert) == Read(f, from.cert) && Read(g, dst.key) == Read(f, from.key)
  }

  /** The key must not be read from the very file the certificate is about to be written over. */
  predicate KeyInTheWay(f: Files, from: Identity, dst: Identity) {
    || from.key == dst.cert
    || (Alias(f, from.key, dst.cert) && !Alias(f, from.cert, dst.cert) && Read(f, from.cert) != Read(f, from.key))
  }

  /** With both sources present relocation succeeds, and it installs that very pair if and only if the key
      is not read from the certificate's destination. */
  lemma PairKeptExactly(f: Files, from: Identity, dst: Identity)
    requires Sound(f) && Destination(f, dst) && Sources(f, from)
    ensures Relocated(f, from, dst).Some?
    ensures PairKept(f, Relocated(f, from, dst).value.0, from, dst) <==> !KeyInTheWay(f, from, dst)
  {
    var f1 := Copied(f, from.cert, dst.cert).value;
    CopyReads(f, from.cert, dst.cert);
    SoundCopy(f, from.cert, dst.cert);
    assert Read(f1, from.key).Some?;
    hide Copied, Sound;
    CopyReads(f1, from.key, dst.key);
    SoundCopy(f1, from.key, dst.key);
  }

  /** A copy changes exactly the names of the destination's file. */
  lemma CopyReads(f: Files, src: Name, dst: Name)
    requires Sound(f) && src in f.links
    ensures Copied(f, src, dst).Some?
    ensures var g := Copied(f, src, dst).value;
            && Read(g, dst) == Read(f, src)
            && (forall p :: p != dst && !Alias(f, p, dst) ==> Read(g, p) == Read(f, p))
            && (forall p :: Alias(f, p, dst) ==> Read(g, p) == Read(f, src))
            && (forall p, q :: p != dst && q != dst ==> (Alias(g, p, q) <==> Alias(f, p, q)))
            && (dst in f.links ==> forall p :: Alias(g, p, dst) <==> Alias(f, p, dst))
            && (dst !in f.links ==> forall p :: Alias(g, p, dst) <==> p == dst)
            && (forall p :: p in g.links <==> p in f.links || p == dst)
  {
  }

  lemma SoundCopy(f: Files, src: Name, dst: Name)
    requires Sound(f) && src in f.links
    ensures Sound(Copied(f, src, dst).value)
  {
  }

  /** A key path that is a link to the certificate's destination: the certificate is installed as its own key. */
  lemma KeyIsOverwritten()
    ensures var f := Files(map["old.crt" := 0, "dir/agent.crt" := 1], map[0 := "CERT", 1 := "KEY"], 2);
            var from, dst := Identity("old.crt", "link.key"), Identity("dir/agent.crt", "dir/agent.key");
            var f' := f.(links := f.links["link.key" := 1]);
            && Sound(f') && Destination(f', dst) && Sources(f', from) && KeyInTheWay(f', from, dst)
            && Read(Relocated(f', from, dst).value.0, dst.key) == Some("CERT")
  {
    var names := ["old.crt", "dir/agent.crt", "link.key", "dir/agent.key"];
    assert names[0][0] == 'o' && names[1][0] == 'd' && names[2][0] == 'l' && names[3][0] == 'd';
    assert |names[1]| == 13 && names[1][10] == 'c' && names[3][10] == 'k';
    assert "CERT"[0] != "KEY"[0];
  }

  /** A key that already is the destination's file is neither truncated nor removed. */
  lemma SharedKeySurvives(f: Files, from: Identity, dst: Identity)
    requires Sound(f) && Destination(f, dst) && Sources(f, from) && Alias(f, from.key, dst.key)
    ensures var g := Relocated(f, from, dst).value.0;
            Read(g, dst.key) == Read(f, from.key) && Read(g, from.key) == Read(f, from.key)
  {
    CopyReads(f, from.cert, dst.cert);
    SoundCopy(f, from.cert, dst.cert);
    CopyReads(Copied(f, from.cert, dst.cert).value, from.key, dst.key);
  }

  /** The original key is gone afterwards unless it is the installed one. */
  lemma NoSecondKey(f: Files, from: Identity, dst: Identity)
    requires Sound(f) && Destination(f, dst) && Sources(f, from)
    ensures var g := Relocated(f, from, dst).value.0; from.key in g.links <==> Alias(f, from.key, dst.key)
  {
    CopyReads(f, from.cert, dst.cert);
    SoundCopy(f, from.cert, dst.cert);
    CopyReads(Copied(f, from.cert, dst.cert).value, from.key, dst.key);
  }

  /** After a relocation that kept the pair, the next installation finds the identity and changes neither file. */
  lemma SecondRelocationChangesNothing(f: Files, from: Identity, dst: Identity)
    requires Sound(f) && Destination(f, dst) && Relocated(f, from, dst).Some?
    requires Sources(f, from) ==> !KeyInTheWay(f, from, dst)
    ensures var g := Relocated(f, from, dst).value.0; var r := Relocated(g, Retargeted(g, from, dst), dst);
            r.Some? && Read(r.value.0, dst.cert) == Read(g, dst.cert) && Read(r.value.0, dst.key) == Read(g, dst.key)
  {
    var g := Relocated(f, from, dst).value.0;
    if Sources(f, from) {
      PairKeptExactly(f, from, dst);
      NoSecondKey(f, from, dst);
      InstalledIsSound(f, from, dst);
      if Sources(g, from) {
        SharedKeySurvives(f, from, dst);
        RepeatWithSources(f, from, dst);
      } else {
        SecondFromDestination(g, dst);
      }
    } else {
      SecondFromDestination(g, dst);
    }
  }

  lemma InstalledIsSound(f: Files, from: Identity, dst: Identity)
    requires Sound(f) && Destination(f, dst) && Sources(f, from) && !KeyInTheWay(f, from, dst)
    ensures var g := Relocated(f, from, dst).value.0;
            Sound(g) && Destination(g, dst) && dst.cert in g.links && dst.key in g.links
  {
    CopyReads(f, from.cert, dst.cert);
    SoundCopy(f, from.cert, dst.cert);
    CopyReads(Copied(f, from.cert, dst.cert).value, from.key, dst.key);
    SoundCopy(Copied(f, from.cert, dst.cert).value, from.key, dst.key);
  }

  lemma SecondFromDestination(g: Files, dst: Identity)
    requires Destination(g, dst) && dst.cert in g.links && dst.key in g.links
    ensures Relocated(g, dst, dst) == Some((g, dst))
  {
  }

  /** Sources that survive were the installed files already, or equal to them. */
  lemma RepeatWithSources(f: Files, from: Identity, dst: Identity)
    requires Sound(f) && Destination(f, dst) && Sources(f, from) && !KeyInTheWay(f, from, dst)
        && Alias(f, from.key, dst.key)
    ensures var g := Relocated(f, from, dst).value.0; var r := Relocated(g, from, dst);
            r.Some? && Read(r.value.0, dst.cert) == Read(g, dst.cert) && Read(r.value.0, dst.key) == Read(g, dst.key)
  {
    var f1 := Copied(f, from.cert, dst.cert).value;
    CopyReads(f, from.cert, dst.cert);
    SoundCopy(f, from.cert, dst.cert);
    CopyReads(f1, from.key, dst.key);
    assert Copied(f1, from.key, dst.key) == Some(f1);
    assert Relocated(f, from, dst).value.0 == f1;
    CopyReads(f1, from.cert, dst.cert);
    SoundCopy(f1, from.cert, dst.cert);
    CopyReads(Copied(f1, from.cert, dst.cert).value, from.key, dst.key);
  }

  // ---- As the agent does it ----

  class Machine {
    var files: Files
    var certFile: Name
    var keyFile: Name

    constructor (files: Files, certFile: Name, keyFile: Name)
      ensures this.files == files && this.certFile == certFile && this.keyFile == keyFile
    {
      this.files, this.certFile, this.keyFile := files, certFile, keyFile;
    }

    method CopyFile(src: Name, dst: Name) returns (ok: bool)
      modifies this`files
      ensures ok == Copied(old(files), src, dst).Some?
      ensures files == if ok then Copied(old(files), src, dst).value else old(files)
    {
      if src == dst { return true; }
      var bytes := Read(files, src);
      if bytes.None? { return false; }
      if Alias(files, src, dst) { return true; }
      files := Write(files, dst, bytes.value);
      return true;
    }

    method RetargetIdentity(dst: Identity)
      modifies this`certFile, this`keyFile
      ensures Identity(certFile, keyFile) == Retargeted(files, Identity(old(certFile), old(keyFile)), dst)
    {
      if Exists(files, certFile) && Exists(files, keyFile) { return; }
      if !Exists(files, dst.cert) || !Exists(files, dst.key) { return; }
      certFile, keyFile := dst.cert, dst.key;
    }

    method RelocateIdentity(dst: Identity) returns (ok: bool)
      modifies this
      ensures var r := Relocated(old(files), Identity(old(certFile), old(keyFile)), dst);
              ok == r.Some? && (ok ==> files == r.value.0 && Identity(certFile, keyFile) == r.value.1)
    {
      if Exists(files, certFile) && Exists(files, keyFile) {
        ok := CopyFile(certFile, dst.cert);
        if !ok { return; }
        ok := CopyFile(keyFile, dst.key);
        if !ok { return; }
        if keyFile in files.links && dst.key in files.links && !Alias(files, keyFile, dst.key) {
          files := Unlinked(files, keyFile);
        }
      } else if !(Exists(files, dst.cert) && Exists(files, dst.key)) {
        return false;
      }
      certFile, keyFile := dst.cert, dst.key;
      return true;
    }
  }
}
