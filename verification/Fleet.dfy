/** The server a configuration is applied to, and the calls the CLI makes (cmd/routineops,
    internal/server/api). A call answers None when the server refuses it. */
module Fleet {
  import opened Ordering

  type Id = nat

  // ---- Names ----

  function LowerChar(c: char): char {
    if 'A' <= c <= 'Z' then (c as int + 32) as char else c
  }

  function Lower(s: string): (r: string)
    ensures |r| == |s| && forall i :: 0 <= i < |s| ==> r[i] == LowerChar(s[i])
  {
    if s == [] then [] else [LowerChar(s[0])] + Lower(s[1..])
  }

  predicate Blank(c: char) { c == ' ' || c == '\t' || c == '\n' || c == '\r' }

  function TrimLeft(s: string): (r: string)
    ensures r == [] || !Blank(r[0])
    ensures s == [] || !Blank(s[0]) ==> r == s
    ensures s != [] && !Blank(s[|s| - 1]) ==> r != [] && r[|r| - 1] == s[|s| - 1]
  {
    if s != [] && Blank(s[0]) then TrimLeft(s[1..]) else s
  }

  function TrimRight(s: string): (r: string)
    ensures r == [] || !Blank(r[|r| - 1])
    ensures s == [] || !Blank(s[|s| - 1]) ==> r == s
    ensures s != [] && !Blank(s[0]) ==> r != [] && r[0] == s[0]
  {
    if s != [] && Blank(s[|s| - 1]) then TrimRight(s[..|s| - 1]) else s
  }

  function Trim(s: string): string { TrimRight(TrimLeft(s)) }

  lemma TrimTwice(s: string)
    ensures Trim(Trim(s)) == Trim(s)
  {
    var t := Trim(s);
    if TrimLeft(s) != [] {
      assert t[0] == TrimLeft(s)[0];
      assert TrimLeft(t) == t;
    } else {
      assert t == [];
    }
  }

  /** The comparison key of a name: what the unique indexes of the database compare. */
  function Key(s: string): string { Lower(Trim(s)) }

  /** strings.EqualFold. */
  predicate EqualFold(a: string, b: string) { Lower(a) == Lower(b) }

  lemma LowerTwice(s: string)
    ensures Lower(Lower(s)) == Lower(s)
  {
  }

  /** The spelling the server stores for a platform. */
  function CanonicalPlatform(p: string): Option<string> {
    if Key(p) == "macos" then Some("macOS")
    else if Key(p) == "windows" then Some("Windows")
    else if Key(p) == "linux" then Some("Linux")
    else None
  }

  // ---- Trigger configurations: abstract JSON objects ----

  datatype Json =
    | JNull | JBool(b: bool) | JNum(n: real) | JText(s: string) | JList(xs: seq<Json>) | JObject(o: map<string, Json>)

  type Fields = map<string, Json>

  datatype Raw = Null | NotAnObject | Object(fields: Fields)

  function DecodeMap(raw: Raw): Fields { if raw.Object? then raw.fields else map[] }

  /** sameJSON: by value; nothing and the empty object are the same. */
  predicate SameJSON(raw: Raw, want: Fields) { DecodeMap(raw) == want }

  /** What a request body stores: an absent field becomes null. */
  function Stored(want: Fields): Raw { if want == map[] then Null else Object(want) }

  // ---- The server ----

  datatype Group = Group(name: string, color: string)
  datatype Rule = Rule(software: string, ruleType: string, device: Option<Id>, group: Option<Id>)
  datatype Script = Script(name: string, platform: string, content: string)
  datatype Policy = Policy(name: string, script: Id, trigger: string, schedule: Raw, event: Raw, active: bool,
      groups: set<Id>)

  /** `toggleField` is the field the toggle handler reads; any other field leaves its value false. */
  datatype Server = Server(groups: map<Id, Group>, rules: map<Id, Rule>, scripts: map<Id, Script>,
                           policies: map<Id, Policy>, next: Id, toggleField: string)

  const DEFAULT_COLOR := "#3b82f6"
  const CLI_TOGGLE_FIELD := "is_active"
  const HANDLER_TOGGLE_FIELD := "active"

  function GroupName(g: Group): string { g.name }
  function ScriptName(s: Script): string { s.name }
  function PolicyName(p: Policy): string { p.name }

  ghost predicate Holds<T>(nameOf: T -> string, m: map<Id, T>, k: string, i: Id) {
    i in m && Key(nameOf(m[i])) == k
  }

  ghost predicate UniqueNames<T>(nameOf: T -> string, m: map<Id, T>) {
    forall k, i, j :: Holds(nameOf, m, k, i) && Holds(nameOf, m, k, j) ==> i == j
  }

  /** The object with a given key. */
  ghost function Holder<T>(nameOf: T -> string, m: map<Id, T>, k: string): (r: Option<Id>)
    ensures r.Some? ==> Holds(nameOf, m, k, r.value)
    ensures r.None? ==> forall i :: !Holds(nameOf, m, k, i)
  {
    if exists i :: Holds(nameOf, m, k, i) then
      var i :| Holds(nameOf, m, k, i);
      Some(i)
    else None
  }

  /** The rule binds software of key sk to group gid itself, not to a device. */
  predicate Binds(r: Rule, gid: Id, sk: string) {
    r.group == Some(gid) && r.device.None? && Key(r.software) == sk
  }

  ghost predicate OneRuleEach(rules: map<Id, Rule>) {
    forall g, k, i, j :: i in rules && j in rules && Binds(rules[i], g, k) && Binds(rules[j], g, k) ==> i == j
  }

  ghost predicate Consistent(s: Server) {
    && UniqueNames(GroupName, s.groups) && UniqueNames(ScriptName, s.scripts) && UniqueNames(PolicyName, s.policies)
    && OneRuleEach(s.rules)
    && (forall i :: i in s.groups ==> i < s.next) && (forall i :: i in s.rules ==> i < s.next)
    && (forall i :: i in s.scripts ==> i < s.next) && (forall i :: i in s.policies ==> i < s.next)
    && (forall i :: i in s.policies ==> s.policies[i].script in s.scripts && s.policies[i].groups <= s.groups.Keys)
    && (forall i :: i in s.rules && s.rules[i].group.Some? ==> s.rules[i].group.value in s.groups)
  }

  // ---- Calls ----

  ghost function PostScript(s: Server, name: string, platform: string, content: string): Option<(Server, Id)> {
    if CanonicalPlatform(platform).None? || Holder(ScriptName, s.scripts, Key(name)).Some? then None
    else
      var row := Script(name, CanonicalPlatform(platform).value, content);
      Some((s.(scripts := s.scripts[s.next := row], next := s.next + 1), s.next))
  }

  ghost function PutScript(s: Server, id: Id, name: string, platform: string, content: string): Option<Server> {
    var h := Holder(ScriptName, s.scripts, Key(name));
    if CanonicalPlatform(platform).None? || id !in s.scripts || (h.Some? && h.value != id) then None
    else Some(s.(scripts := s.scripts[id := Script(name, CanonicalPlatform(platform).value, content)]))
  }

  ghost function PostPolicy(s: Server, name: string, script: Id, trigger: string, schedule: Fields,
                            event: Fields): Option<(Server, Id)> {
    if script !in s.scripts || Holder(PolicyName, s.policies, Key(name)).Some? then None
    else
      var row := Policy(name, script, trigger, Stored(schedule), Stored(event), true, {});
      Some((s.(policies := s.policies[s.next := row], next := s.next + 1), s.next))
  }

  ghost function PutPolicy(s: Server, id: Id, name: string, script: Id, trigger: string, schedule: Fields,
                           event: Fields): Option<Server> {
    var h := Holder(PolicyName, s.policies, Key(name));
    if script !in s.scripts || id !in s.policies || (h.Some? && h.value != id) then None
    else
      var row := s.policies[id].(name := name, script := script, trigger := trigger, schedule := Stored(schedule),
          event := Stored(event));
      Some(s.(policies := s.policies[id := row]))
  }

  /** PATCH .../toggle with the single body field `field`. */
  function Toggle(s: Server, id: Id, field: string, value: bool): Option<Server> {
    var active := if field == s.toggleField then value else false;
    if id !in s.policies then Some(s)
    else Some(s.(policies := s.policies[id := s.policies[id].(active := active)]))
  }

  function StoredColor(c: string): string { if c == "" then DEFAULT_COLOR else Lower(c) }

  ghost function PostGroup(s: Server, name: string, color: string): Option<(Server, Id)> {
    if Holder(GroupName, s.groups, Key(name)).Some? then None
    else Some((s.(groups := s.groups[s.next := Group(Trim(name), StoredColor(color))], next := s.next + 1), s.next))
  }

  function PatchColor(s: Server, id: Id, color: string): Option<Server> {
    if id !in s.groups then None
    else Some(s.(groups := s.groups[id := s.groups[id].(color := StoredColor(color))]))
  }

  function PostRule(s: Server, group: Id, software: string, ruleType: string): Option<Server> {
    if group !in s.groups then None
    else Some(s.(rules := s.rules[s.next := Rule(Trim(software), ruleType, None, Some(group))], next := s.next + 1))
  }

  function DeleteRule(s: Server, group: Id, id: Id): Option<Server> {
    Some(s.(rules := if id in s.rules && s.rules[id].group == Some(group) then s.rules - {id} else s.rules))
  }

  function AssignPolicy(s: Server, group: Id, policy: Id): Option<Server> {
    if group !in s.groups || policy !in s.policies then None
    else Some(s.(policies := s.policies[policy := s.policies[policy].(groups := s.policies[policy].groups + {group})]))
  }

  function UnassignPolicy(s: Server, group: Id, policy: Id): Option<Server> {
    if policy !in s.policies then Some(s)
    else Some(s.(policies := s.policies[policy := s.policies[policy].(groups := s.policies[policy].groups - {group})]))
  }
}
