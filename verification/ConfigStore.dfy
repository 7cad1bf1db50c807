/** `ConfigStore`: set, reset and resolution over the configuration file,
    packages/cli/src/config-store.ts:1389-1645. */
module ConfigStore {
  import opened Options
  import opened ConfigTree
  import opened ConfigKeys
  import opened ConfigValues
  import opened JsText

  /** What is outside the file: the environment's override of each key, the defaults, how paths join,
      how `>=` compares values that are not both numbers, whether the variable of the removed
      context-packs setting is set. */
  datatype World = World(
    env: Key -> Option<string>,
    defaults: (Key, string) -> Json,
    join: (string, string) -> string,
    atLeast: (Json, Json) -> bool,
    removedVariable: bool,
    platform: Platform)

  const WARNING := OfHealthContextPressure(HealthContextPressureWarningPercent)
  const CRITICAL := OfHealthContextPressure(HealthContextPressureCriticalPercent)

  predicate Threshold(k: Key) {
    k == WARNING || k == CRITICAL
  }

  function Default(k: Key, root: string, w: World): Json {
    if k == WARNING then Number(95.0) else if k == CRITICAL then Number(99.0) else w.defaults(k, root)
  }

  function Stored(t: Tree, a: Address): Option<Json> {
    Get(Node(t), PathOf(a))
  }

  // ---------------------------------------------------------------------------------------------
  // Resolution: environment, file, default

  datatype Source = FromEnv | FromFile | FromDefault
  datatype Resolved = Resolved(value: Json, source: Source)

  function LegacyDefault(k: Key, root: string, w: World): Option<Json> {
    match k
    case OfWorkspace(WorkspaceSlicesRoot) => Some(Text(w.join(root, "slices")))
    case OfWorkspace(WorkspaceSteeringPath) => Some(Text(w.join(w.join(root, "steering"), "STEERING.md")))
    case _ => None
  }

  predicate Unset(v: Option<Json>) {
    v.None? || v.value == Null || v.value == Text("")
  }

  /** The override if it is accepted, and not empty; else what the file holds, unless it is blank, the default of an older
      layout or unreadable; else the default. */
  function Choose(kind: Kind, override: Option<string>, stored: Option<Json>, legacy: Option<Json>, fallback: Json,
                  p: Platform): Resolved
  {
    var fromEnv := if override.Some? && override.value != "" then Accepted(kind, override.value, p) else None;
    if fromEnv.Some? then Resolved(fromEnv.value, FromEnv)
    else if Unset(stored) || legacy == stored || !Readable(kind, stored.value, p) then Resolved(fallback, FromDefault)
    else Resolved(stored.value, FromFile)
  }

  /** `resolveOneUnpaired`. */
  function ResolveOne(k: Key, t: Tree, root: string, w: World): Resolved {
    Choose(KindOf(k), w.env(k), Stored(t, Registered(k)), LegacyDefault(k, root, w), Default(k, root, w), w.platform)
  }

  /** `a < b` between numbers; nothing else is compared here. */
  predicate Below(a: Json, b: Json) {
    a.Number? && b.Number? && a.n < b.n
  }

  /** `resolveOne`: the two context-pressure thresholds are resolved together. */
  function Resolve(k: Key, t: Tree, root: string, w: World): Resolved {
    var warning, critical := ResolveOne(WARNING, t, root, w), ResolveOne(CRITICAL, t, root, w);
    if !Threshold(k) then ResolveOne(k, t, root, w)
    else if Below(warning.value, critical.value) then (if k == WARNING then warning else critical)
    else Resolved(Default(k, root, w), FromDefault)
  }

  lemma ThresholdInRange(k: Key, t: Tree, root: string, w: World)
    requires Threshold(k)
    ensures InRange(ResolveOne(k, t, root, w).value, Range(1, Some(100)))
  {
  }

  /** Whatever the environment and the file hold, the thresholds in force are whole percentages and the
      warning comes first. */
  lemma ThresholdsAreSound(t: Tree, root: string, w: World)
    ensures var warning, critical := Resolve(WARNING, t, root, w).value, Resolve(CRITICAL, t, root, w).value;
      && InRange(warning, Range(1, Some(100))) && InRange(critical, Range(1, Some(100)))
      && 1.0 <= warning.n < critical.n <= 100.0
  {
    ThresholdInRange(WARNING, t, root, w);
    ThresholdInRange(CRITICAL, t, root, w);
  }

  // ---------------------------------------------------------------------------------------------
  // The two edits, on the tree

  /** JavaScript's `a >= b`. */
  predicate AtLeast(a: Json, b: Json, w: World) {
    if a.Number? && b.Number? then a.n >= b.n else w.atLeast(a, b)
  }

  /** `stored ?? default`. */
  function OrDefault(v: Option<Json>, k: Key, w: World): Json {
    if v.None? || v.value.Null? then Default(k, "", w) else v.value
  }

  /** The file's pair passes the check that set and reset make. */
  predicate PairOrdered(t: Tree, w: World) {
    !AtLeast(OrDefault(Stored(t, Registered(WARNING)), WARNING, w), OrDefault(Stored(t, Registered(CRITICAL)), CRITICAL, w), w)
  }

  function LowerChar(c: char): char {
    if 'A' <= c <= 'Z' then 'a' + (c - 'A') else c
  }

  function Lower(s: string): string {
    seq(|s|, i requires 0 <= i < |s| => LowerChar(s[i]))
  }

  /** What a key takes: a host's toggle is read without regard to case or surrounding space. */
  function Taken(a: Address, raw: string, w: World): Option<Json> {
    match a
    case PerHost(_) =>
      var v := Lower(Trim(raw));
      if v == "true" then Some(Bool(true)) else if v == "false" then Some(Bool(false)) else None
    case Registered(k) => Accepted(KindOf(k), raw, w.platform)
  }

  /** Whether an edit of the key has the pair of thresholds checked. */
  predicate Checked(a: Address) {
    a.Registered? && Threshold(a.key)
  }

  /** The tree with the value stored; None when the pair's check refuses it. */
  function SetAt(t: Tree, path: Path, v: Json, checked: bool, w: World): Option<Tree>
    requires path != []
  {
    var u := Set(t, path, v);
    if checked && !PairOrdered(u, w) then None else Some(u)
  }

  /** The tree after an accepted set; None when it is refused. */
  function AfterSet(t: Tree, a: Address, raw: string, w: World): Option<Tree> {
    var v := Taken(a, raw, w);
    if v.None? then None else SetAt(t, PathOf(a), v.value, Checked(a), w)
  }

  predicate Truthy(v: Option<Json>) {
    v.Some? && match v.value
      case Null => false
      case Bool(b) => b
      case Number(n) => n != 0.0
      case Text(s) => s != ""
      case Node(_) => true
  }

  function ParentOf(path: Path): Path
    requires path != []
  {
    path[..|path| - 1]
  }

  function HostObject(h: string): Path {
    ["feed", "subscriptions", h]
  }

  /** What a reset removes: a registered key, or a host's whole object. */
  function ResetPath(a: Address): (p: Path)
    ensures p != []
  {
    if a.PerHost? then HostObject(a.host) else PathOf(a)
  }

  /** A parent that is a non-empty scalar makes `in` throw. */
  predicate ScalarParent(t: Tree, path: Path)
    requires path != []
  {
    var parent := Get(Node(t), ParentOf(path));
    Truthy(parent) && !parent.value.Node?
  }

  /** The tree with what lies at the path removed; None when that throws or the pair's check refuses it. */
  function ResetAt(t: Tree, path: Path, prunes: bool, checked: bool, w: World): Option<Tree>
    requires path != []
  {
    if ScalarParent(t, path) then None
    else if !Present(t, path) then Some(t)
    else
      var u := Delete(Node(t), path).fields;
      if checked && !PairOrdered(u, w) then None
      else if prunes then Some(Prune(u, ParentOf(path)))
      else Some(u)
  }

  /** The tree after an accepted reset. */
  function AfterReset(t: Tree, a: Address, w: World): Option<Tree> {
    ResetAt(t, ResetPath(a), a.Registered?, Checked(a), w)
  }

  // ---------------------------------------------------------------------------------------------
  // The store

  datatype FileState = Absent | Malformed | Holds(tree: Tree)

  /** `readConfigFile`: an absent file is an empty one; a malformed one, or a setting that was removed,
      stops every operation. */
  function ReadFile(f: FileState, w: World): Option<Tree> {
    var t: Tree := if f.Holds? then f.tree else map[];
    if f.Malformed? || w.removedVariable || Get(Node(t), ["context", "packsRoot"]).Some? then None else Some(t)
  }

  /** What set and reset leave in the file, and whether they succeed. */
  function SetEffect(f: FileState, a: Address, raw: string, w: World): (FileState, bool) {
    var t := ReadFile(f, w);
    var u := if t.Some? then AfterSet(t.value, a, raw, w) else None;
    if u.Some? then (Holds(u.value), true) else (f, false)
  }

  function ResetEffect(f: FileState, a: Address, w: World): (FileState, bool) {
    var t := ReadFile(f, w);
    var u := if t.Some? then AfterReset(t.value, a, w) else None;
    if f.Absent? then (f, true) else if u.Some? then (Holds(u.value), true) else (f, false)
  }

  /** The edit of the tree that set makes. */
  method StoreAt(t: Tree, parts: Path, value: Json, checked: bool, w: World) returns (r: Option<Tree>)
    requires parts != []
    ensures r == SetAt(t, parts, value, checked, w)
  {
    var tree := SetNested(t, parts, value);
    if checked {
      var warning := GetNested(Node(tree), PathOf(Registered(WARNING)));
      var critical := GetNested(Node(tree), PathOf(Registered(CRITICAL)));
      if AtLeast(OrDefault(warning, WARNING, w), OrDefault(critical, CRITICAL, w), w) {
        return None;
      }
    }
    return Some(tree);
  }

  /** The edit of the tree that reset makes. */
  method RemoveAt(t: Tree, parts: Path, prunes: bool, checked: bool, w: World) returns (r: Option<Tree>)
    requires parts != []
    ensures r == ResetAt(t, parts, prunes, checked, w)
  {
    var tree := t;
    var parent := GetNested(Node(tree), ParentOf(parts));
    if Truthy(parent) {
      if !parent.value.Node? {
        return None;
      }
      if parts[|parts| - 1] in parent.value.fields {
        DeleteKeepsParent(tree, parts);
        tree := Delete(Node(tree), parts).fields;
        if checked && !PairOrdered(tree, w) {
          return None;
        }
        if prunes {
          tree := PruneEmptyAncestors(tree, ParentOf(parts));
        }
      }
    }
    return Some(tree);
  }

  class Store {
    var file: FileState

    constructor (f: FileState)
      ensures file == f
    {
      file := f;
    }

    /** `set`. */
    method SetKey(a: Address, raw: string, w: World) returns (ok: bool)
      modifies this
      ensures (file, ok) == SetEffect(old(file), a, raw, w)
      ensures !ok ==> file == old(file)
    {
      var value := Taken(a, raw, w);
      var read := ReadFile(file, w);
      if value.None? || read.None? {
        return false;
      }
      var tree := StoreAt(read.value, PathOf(a), value.value, Checked(a), w);
      if tree.None? {
        return false;
      }
      file := Holds(tree.value);
      return true;
    }

    /** `reset` of one key. */
    method ResetKey(a: Address, w: World) returns (ok: bool)
      modifies this
      ensures (file, ok) == ResetEffect(old(file), a, w)
      ensures !ok ==> file == old(file)
    {
      if file.Absent? {
        return true;
      }
      var read := ReadFile(file, w);
      if read.None? {
        return false;
      }
      var tree := RemoveAt(read.value, ResetPath(a), a.Registered?, Checked(a), w);
      if tree.None? {
        return false;
      }
      file := Holds(tree.value);
      return true;
    }

    /** `reset` with no key removes the file. */
    method ResetAll()
      modifies this
      ensures file == Absent
    {
      file := Absent;
    }
  }

  lemma {:induction false} DeleteKeepsParent(t: Tree, path: Path)
    requires path != [] && IsNode(Get(Node(t), ParentOf(path)))
    ensures IsNode(Get(Delete(Node(t), path), ParentOf(path)))
    decreases |path|
  {
    if |path| > 1 {
      var front := ParentOf(path);
      NodeAbove(t, front);
      assert ParentOf(path[1..]) == front[1..];
      DeleteKeepsParent(t[path[0]].fields, path[1..]);
    }
  }
}
