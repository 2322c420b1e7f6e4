/** The set of command ids already started,
    kept across restarts in an append-only file (internal/agent/command/seen.go). */
module SeenIds {
  import opened Fleet

  /** bufio's largest token: a line this long stops the scanner. */
  const LIMIT := 65536

  function LineEnd(s: string): (n: nat)
    ensures n <= |s| && '\n' !in s[..n] && (n < |s| ==> s[n] == '\n')
  {
    if s == "" || s[0] == '\n' then 0
    else
      var n := LineEnd(s[1..]);
      assert s[..n + 1] == [s[0]] + s[1..][..n];
      n + 1
  }

  /** The ids a file gives back: its lines, trimmed, up to the first line that is too long. */
  function Scan(s: string): set<string> {
    if s == "" then {}
    else
      var n := LineEnd(s);
      if n >= LIMIT then {}
      else
        var id := Trim(s[..n]);
        (if id != "" then {id} else {}) + if n < |s| then Scan(s[n + 1..]) else {}
  }

  /** An id that a file can hold. */
  predicate Storable(id: string) { id != "" && Trim(id) == id && '\n' !in id && |id| < LIMIT }

  /** The file ends its last line and has none that stops the scanner. */
  predicate Tidy(s: string) {
    s == "" || (LineEnd(s) < LIMIT && LineEnd(s) < |s| && Tidy(s[LineEnd(s) + 1..]))
  }

  lemma {:induction false} LineEndIs(a: string, b: string)
    requires '\n' !in a
    ensures LineEnd(a + "\n" + b) == |a|
  {
    if a == "" {
      assert (a + "\n" + b)[0] == '\n';
    } else {
      assert a[0] in a && forall c :: c in a[1..] ==> c in a;
      LineEndIs(a[1..], b);
      assert (a + "\n" + b)[1..] == a[1..] + "\n" + b;
    }
  }

  /** The id of one line, if it has one. */
  function IdOf(line: string): set<string> { if Trim(line) != "" then {Trim(line)} else {} }

  lemma ScanLine(a: string, b: string)
    requires '\n' !in a && |a| < LIMIT
    ensures Scan(a + "\n" + b) == IdOf(a) + Scan(b)
    ensures Tidy(a + "\n" + b) == Tidy(b)
  {
    hide Trim, LineEnd;
    LineEndIs(a, b);
    var s := a + "\n" + b;
    assert s[..|a|] == a && s[|a| + 1..] == b;
  }

  lemma CutAt(s: string, n: nat)
    requires n < |s| && s[n] == '\n'
    ensures s == s[..n] + "\n" + s[n + 1..]
  {
    assert s == s[..n] + [s[n]] + s[n + 1..];
  }

  lemma TidyStep(s: string)
    requires Tidy(s) && s != ""
    ensures LineEnd(s) < |s| && LineEnd(s) < LIMIT && Tidy(s[LineEnd(s) + 1..])
  {
    hide LineEnd;
  }

  lemma TidySplit(s: string)
    requires Tidy(s) && s != ""
    ensures var n := LineEnd(s);
            n < |s| && n < LIMIT && s == s[..n] + "\n" + s[n + 1..] && '\n' !in s[..n] && Tidy(s[n + 1..])
  {
    hide LineEnd, Tidy;
    TidyStep(s);
    CutAt(s, LineEnd(s));
  }

  lemma {:induction false} ScanConcat(s: string, t: string)
    requires Tidy(s)
    ensures Scan(s + t) == Scan(s) + Scan(t)
    ensures Tidy(t) ==> Tidy(s + t)
  {
    if s == "" {
      assert s + t == t;
    } else {
      TidySplit(s);
      hide Scan, Tidy, LineEnd, IdOf, Trim;
      var a, rest := s[..LineEnd(s)], s[LineEnd(s) + 1..];
      assert s + t == a + "\n" + (rest + t);
      ScanLine(a, rest);
      ScanLine(a, rest + t);
      ScanConcat(rest, t);
    }
  }

  lemma TrimShortens(s: string)
    ensures |Trim(s)| <= |s|
    ensures forall c :: c in Trim(s) ==> c in s
  {
    TrimLeftShortens(s);
    TrimRightShortens(TrimLeft(s));
  }

  lemma {:induction false} TrimLeftShortens(s: string)
    ensures |TrimLeft(s)| <= |s| && forall c :: c in TrimLeft(s) ==> c in s
  {
    if s != [] && Blank(s[0]) { TrimLeftShortens(s[1..]); }
  }

  lemma {:induction false} TrimRightShortens(s: string)
    ensures |TrimRight(s)| <= |s| && forall c :: c in TrimRight(s) ==> c in s
  {
    if s != [] && Blank(s[|s| - 1]) { TrimRightShortens(s[..|s| - 1]); }
  }

  /** Whatever the file, only storable ids come back. */
  lemma {:induction false} OnlyStorable(s: string)
    ensures forall id :: id in Scan(s) ==> Storable(id)
  {
    hide Trim;
    if s != "" && LineEnd(s) < LIMIT {
      TrimTwice(s[..LineEnd(s)]);
      TrimShortens(s[..LineEnd(s)]);
      if LineEnd(s) < |s| { OnlyStorable(s[LineEnd(s) + 1..]); }
    }
  }

  lemma OneLine(id: string)
    requires Storable(id)
    ensures Scan(id + "\n") == {id} && Tidy(id + "\n")
  {
    hide Trim;
    LineEndIs(id, "");
    assert id + "\n" + "" == id + "\n";
    assert (id + "\n")[..|id|] == id && (id + "\n")[|id| + 1..] == "";
  }

  /** An appended id comes back exactly when it is storable. */
  lemma ComesBackExactly(file: string, id: string)
    requires Tidy(file)
    ensures id in Scan(file + id + "\n") <==> Storable(id)
    ensures Storable(id) ==> Scan(file + id + "\n") == Scan(file) + {id} && Tidy(file + id + "\n")
  {
    hide Trim, Scan, Tidy;
    assert file + id + "\n" == file + (id + "\n");
    ScanConcat(file, id + "\n");
    OnlyStorable(file + id + "\n");
    if Storable(id) { OneLine(id); }
  }

  // ---- Runs of marks and restarts ----

  datatype Event = Mark(id: string) | Restart

  datatype State = State(ids: set<string>, file: string)

  /** markIfNew with a working file. */
  function Marked(s: State, id: string): State {
    if id in s.ids then s else State(s.ids + {id}, s.file + id + "\n")
  }

  function Step(s: State, e: Event): State {
    match e
    case Mark(id) => Marked(s, id)
    case Restart => State(Scan(s.file), s.file)
  }

  function Run(s: State, events: seq<Event>): State {
    if events == [] then s else Step(Run(s, events[..|events| - 1]), events[|events| - 1])
  }

  function Boot(file: string): State { State(Scan(file), file) }

  /** Whether the call at position i says the command is new. */
  predicate SaysNew(file: string, events: seq<Event>, i: nat)
    requires i < |events| && events[i].Mark?
  {
    events[i].id !in Run(Boot(file), events[..i]).ids
  }

  lemma {:induction false} MemoryIsTheFile(file: string, events: seq<Event>)
    requires Tidy(file) && forall i :: 0 <= i < |events| && events[i].Mark? ==> Storable(events[i].id)
    ensures var s := Run(Boot(file), events);
            && Tidy(s.file) && s.ids == Scan(s.file)
            && (forall id :: id in s.ids <==> id in Scan(file) || Mark(id) in events)
  {
    hide Scan, Tidy, Storable;
    if events != [] {
      var front, last := events[..|events| - 1], events[|events| - 1];
      MemoryIsTheFile(file, front);
      assert events == front + [last];
      assert last.Mark? ==> Storable(events[|events| - 1].id);
      if last.Mark? { ComesBackExactly(Run(Boot(file), front).file, last.id); }
    }
  }

  /** Over any run of calls and restarts a command is reported new exactly once: the first time, if its id was
      not on file. */
  lemma NewExactlyOnce(file: string, events: seq<Event>, i: nat)
    requires Tidy(file) && forall j :: 0 <= j < |events| && events[j].Mark? ==> Storable(events[j].id)
    requires i < |events| && events[i].Mark?
    ensures SaysNew(file, events, i) <==>
        events[i].id !in Scan(file) && forall j :: 0 <= j < i ==> events[j] != events[i]
  {
    hide Scan, Tidy, Storable, Run;
    var front := events[..i];
    assert forall j :: 0 <= j < i ==> front[j] == events[j];
    MemoryIsTheFile(file, front);
    assert Mark(events[i].id) == events[i];
  }

  /** One mark of any id, then a restart: the command runs a second time if and only if its id is not storable. */
  lemma RunsTwiceExactly(file: string, id: string)
    requires Tidy(file) && id !in Scan(file)
    ensures SaysNew(file, [Mark(id), Restart, Mark(id)], 0)
    ensures SaysNew(file, [Mark(id), Restart, Mark(id)], 2) <==> !Storable(id)
  {
    hide Scan, Tidy, Storable;
    var e := [Mark(id), Restart, Mark(id)];
    var one, two := [Mark(id)], [Mark(id), Restart];
    assert e[..0] == [] && e[..2] == two && two[..1] == one && one[..0] == [];
    var s := Boot(file);
    assert Run(s, []) == s;
    assert Run(s, one) == Step(Run(s, one[..0]), one[0]);
    assert Run(s, two) == Step(Run(s, two[..1]), two[1]);
    ComesBackExactly(file, id);
  }

  /** An id with a blank at its end is one: on an empty file its command runs, and after a restart runs again. */
  lemma ABlankRunsTwice()
    ensures !Storable("7 ") && SaysNew("", [Mark("7 "), Restart, Mark("7 ")], 0)
        && SaysNew("", [Mark("7 "), Restart, Mark("7 ")], 2)
  {
    assert "7 "[..1] == "7" && Trim("7 ") == "7";
    assert |"7"| != |"7 "|;
    assert Scan("") == {};
    RunsTwiceExactly("", "7 ");
  }

  /** After an id of a line's length or more, no id marked later is remembered across a restart. */
  lemma LongIdDeafens(file: string, long: string, later: string)
    requires Tidy(file) && '\n' !in long && |long| >= LIMIT
    ensures Scan(file + long + "\n" + later) == Scan(file)
  {
    hide Trim, Tidy;
    assert file + long + "\n" + later == file + (long + "\n" + later);
    ScanConcat(file, long + "\n" + later);
    LineEndIs(long, later);
  }

  // ---- As the agent does it ----

  class SeenSet {
    var ids: set<string>
    var file: string
    const onDisk: bool

    /** loadSeenSet: path "" means memory only; no file reads as empty. */
    constructor (onDisk: bool, file: string)
      ensures this.onDisk == onDisk && this.file == file
      ensures ids == if onDisk then Scan(file) else {}
    {
      this.onDisk, this.file := onDisk, file;
      var found: set<string> := {};
      if onDisk {
        var rest := file;
        while rest != "" && LineEnd(rest) < LIMIT
          invariant found + Scan(rest) == Scan(file)
          decreases |rest|
        {
          var n := LineEnd(rest);
          var id := Trim(rest[..n]);
          if id != "" { found := found + {id}; }
          rest := if n < |rest| then rest[n + 1..] else "";
        }
      }
      this.ids := found;
    }

    method Has(id: string) returns (r: bool)
      ensures r == (id in ids)
    {
      r := id in ids;
    }

    /** `appended`: the best-effort write reached the file. */
    method MarkIfNew(id: string, appended: bool) returns (isNew: bool)
      modifies this`ids, this`file
      ensures isNew == (id !in old(ids))
      ensures ids == old(ids) + {id}
      ensures file == if isNew && onDisk && appended then old(file) + id + "\n" else old(file)
      ensures appended && onDisk ==> State(ids, file) == Marked(State(old(ids), old(file)), id)
    {
      if id in ids { return false; }
      ids := ids + {id};
      if onDisk && appended { file := file + id + "\n"; }
      return true;
    }
  }
}
