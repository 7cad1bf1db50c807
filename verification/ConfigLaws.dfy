/** Laws of the configuration store, over every file, environment and run of edits. */
module ConfigLaws {
  import opened Options
  import opened ConfigTree
  import opened ConfigKeys
  import opened ConfigValues
  import opened ConfigStore
  import JsText

  // ---------------------------------------------------------------------------------------------
  // An edit of one key leaves every other key's value as it was

  /** A reset of a registered key is the clearing of its path. */
  lemma ResetAtClears(t: Tree, path: Path, checked: bool, w: World)
    requires path != [] && ResetAt(t, path, true, checked, w).Some?
    ensures ResetAt(t, path, true, checked, w).value == Cleared(t, path)
  {
  }

  lemma {:induction false} DeleteElsewhere(t: Tree, p: Path, q: Path)
    requires Apart(p, q) && IsNode(Get(Node(t), ParentOf(p)))
    ensures Get(Delete(Node(t), p), q) == Get(Node(t), q)
    decreases |p|
  {
    ApartSteps(p, q);
    if |p| > 1 {
      NodeAbove(t, ParentOf(p));
      assert ParentOf(p[1..]) == ParentOf(p)[1..];
      if p[0] == q[0] {
        DeleteElsewhere(t[p[0]].fields, p[1..], q[1..]);
      }
    }
  }

  /** Removing at one path leaves every path apart from it as it was. */
  lemma {:induction false} ResetAtElsewhere(t: Tree, p: Path, q: Path, prunes: bool, checked: bool, w: World)
    requires Apart(p, q) && p != [] && ResetAt(t, p, prunes, checked, w).Some?
    ensures Get(Node(ResetAt(t, p, prunes, checked, w).value), q) == Get(Node(t), q)
  {
    if prunes {
      ResetAtClears(t, p, checked, w);
      ClearedElsewhere(t, p, q);
    } else if Present(t, p) {
      DeleteElsewhere(t, p, q);
    }
  }

  lemma {:induction false} ResetAtRemoves(t: Tree, p: Path, prunes: bool, checked: bool, w: World)
    requires p != [] && ResetAt(t, p, prunes, checked, w).Some?
    ensures Get(Node(ResetAt(t, p, prunes, checked, w).value), p) == None
  {
    PresentIsThere(t, p);
    if prunes {
      ResetAtClears(t, p, checked, w);
      ClearedReads(t, p);
    } else if Present(t, p) {
      DeleteRemoves(t, p);
    }
  }

  lemma {:induction false} DeleteRemoves(t: Tree, path: Path)
    requires path != [] && IsNode(Get(Node(t), ParentOf(path)))
    ensures Get(Delete(Node(t), path), path) == None
    decreases |path|
  {
    if |path| > 1 {
      NodeAbove(t, ParentOf(path));
      assert ParentOf(path[1..]) == ParentOf(path)[1..];
      DeleteRemoves(t[path[0]].fields, path[1..]);
    }
  }

  lemma {:induction false} SetIsLocal(t: Tree, a: Address, raw: string, b: Address, w: World)
    requires WellFormed(a) && WellFormed(b) && a != b
    requires AfterSet(t, a, raw, w).Some?
    ensures Stored(AfterSet(t, a, raw, w).value, b) == Stored(t, b)
  {
    PathsAreApart(a, b);
    SetElsewhere(t, PathOf(a), PathOf(b), Taken(a, raw, w).value);
  }

  lemma {:induction false} ResetPathIsApart(a: Address, b: Address)
    requires WellFormed(a) && WellFormed(b) && a != b
    ensures Apart(ResetPath(a), PathOf(b))
  {
    if a.PerHost? {
      HostObjectIsApart(a.host, b);
    } else {
      PathsAreApart(a, b);
    }
  }

  lemma {:induction false} ResetIsLocal(t: Tree, a: Address, b: Address, w: World)
    requires WellFormed(a) && WellFormed(b) && a != b
    requires AfterReset(t, a, w).Some?
    ensures Stored(AfterReset(t, a, w).value, b) == Stored(t, b)
  {
    ResetPathIsApart(a, b);
    ResetAtElsewhere(t, ResetPath(a), PathOf(b), a.Registered?, Checked(a), w);
  }

  /** A set stores what the key takes. */
  lemma {:induction false} SetTakesEffect(t: Tree, a: Address, raw: string, w: World)
    requires AfterSet(t, a, raw, w).Some?
    ensures Stored(AfterSet(t, a, raw, w).value, a) == Taken(a, raw, w)
  {
    SetReads(t, PathOf(a), Taken(a, raw, w).value);
  }

  /** A reset leaves nothing stored. */
  lemma {:induction false} ResetTakesEffect(t: Tree, a: Address, w: World)
    requires AfterReset(t, a, w).Some?
    ensures Stored(AfterReset(t, a, w).value, a) == None
  {
    var u := AfterReset(t, a, w).value;
    ResetAtRemoves(t, ResetPath(a), a.Registered?, Checked(a), w);
    if a.PerHost? {
      assert PathOf(a) == HostObject(a.host) + ["enabled"];
      GetJoined(Node(u), HostObject(a.host), ["enabled"]);
    }
  }

  // ---------------------------------------------------------------------------------------------
  // Reset undoes set

  lemma {:induction false} ResetAtUndoesSet(t: Tree, path: Path, v: Json, checked: bool, w: World)
    requires path != [] && ResetAt(Set(t, path, v), path, true, checked, w).Some?
    ensures ResetAt(Set(t, path, v), path, true, checked, w) == Some(t)
      <==> Get(Node(t), path) == None && WayIsOpen(t, path)
  {
    ResetAtClears(Set(t, path, v), path, checked, w);
    ClearUndoesSet(t, path, v);
  }

  /** Resetting a registered key just set restores the file's tree exactly when the key was absent and no
      empty object, scalar or null lay on its way. */
  lemma {:induction false} ResetUndoesSet(t: Tree, k: Key, raw: string, u: Tree, w: World)
    requires AfterSet(t, Registered(k), raw, w) == Some(u) && AfterReset(u, Registered(k), w).Some?
    ensures var path := PathOf(Registered(k));
      AfterReset(u, Registered(k), w) == Some(t) <==> Get(Node(t), path) == None && WayIsOpen(t, path)
  {
    ResetAtUndoesSet(t, PathOf(Registered(k)), Taken(Registered(k), raw, w).value, Threshold(k), w);
  }

  /** After a set at a path that held nothing, a removal is accepted, if the pair in the tree before was in
      order. */
  lemma {:induction false} ResetAtAccepted(t: Tree, path: Path, v: Json, checked: bool, other: Path, w: World)
    requires path != []
    requires checked ==> PairOrdered(t, w) && Get(Node(t), path) == None && Apart(path, other)
    requires checked ==> (path == PathOf(Registered(WARNING)) && other == PathOf(Registered(CRITICAL)))
                         || (path == PathOf(Registered(CRITICAL)) && other == PathOf(Registered(WARNING)))
    ensures ResetAt(Set(t, path, v), path, true, checked, w).Some?
  {
    var u := Set(t, path, v);
    SetReads(t, path, v);
    PresentIsThere(u, path);
    if checked {
      var d := Delete(Node(u), path).fields;
      DeleteRemoves(u, path);
      DeleteElsewhere(u, path, other);
      SetElsewhere(t, path, other, v);
      OrderIsByValues(t, d, w);
    }
  }

  /** After a set of any other key, its reset is accepted. */
  lemma {:induction false} ResetAfterSetAccepted(t: Tree, k: Key, raw: string, v: Json, u: Tree, w: World)
    requires !Threshold(k) && Taken(Registered(k), raw, w) == Some(v) && AfterSet(t, Registered(k), raw, w) == Some(u)
    ensures AfterReset(u, Registered(k), w).Some?
  {
    ResetAtAccepted(t, PathOf(Registered(k)), v, false, [], w);
  }

  /** After a set of the warning the reset is accepted if it was absent and the pair in order; otherwise
      its absence may leave the other threshold out of order against the default. */
  lemma {:induction false} WarningResetAccepted(t: Tree, raw: string, u: Tree, w: World)
    requires PairOrdered(t, w) && Stored(t, Registered(WARNING)) == None
    requires AfterSet(t, Registered(WARNING), raw, w) == Some(u)
    ensures AfterReset(u, Registered(WARNING), w).Some?
  {
    var a, b := Registered(WARNING), Registered(CRITICAL);
    PathsAreApart(a, b);
    ResetAtAccepted(t, PathOf(a), Taken(a, raw, w).value, true, PathOf(b), w);
  }

  lemma {:induction false} CriticalResetAccepted(t: Tree, raw: string, u: Tree, w: World)
    requires PairOrdered(t, w) && Stored(t, Registered(CRITICAL)) == None
    requires AfterSet(t, Registered(CRITICAL), raw, w) == Some(u)
    ensures AfterReset(u, Registered(CRITICAL), w).Some?
  {
    var a, b := Registered(CRITICAL), Registered(WARNING);
    PathsAreApart(a, b);
    ResetAtAccepted(t, PathOf(a), Taken(a, raw, w).value, true, PathOf(b), w);
  }

  /** Resetting a host's toggle removes the host's object and nothing above it: the tree is restored
      exactly when the object of the toggles was there already, without that host. */
  lemma {:induction false} HostResetUndoesSet(t: Tree, h: string, raw: string, w: World)
    requires AfterSet(t, PerHost(h), raw, w).Some?
    ensures var u := AfterSet(t, PerHost(h), raw, w).value;
      var toggles := Get(Node(t), ["feed", "subscriptions"]);
      AfterReset(u, PerHost(h), w) == Some(t) <==> IsNode(toggles) && h !in toggles.value.fields
  {
    var v := Taken(PerHost(h), raw, w).value;
    var toggles, path := ["feed", "subscriptions"], HostObject(h);
    assert ParentOf(path) == toggles && path + ["enabled"] == PathOf(PerHost(h));
    DeleteUndoesSetBelow(t, path, "enabled", v);
  }

  /** Writing below an object, and then removing that object. */
  lemma {:induction false} DeleteUndoesSetBelow(t: Tree, r: Path, k: string, v: Json)
    requires r != []
    ensures var u := Set(t, r + [k], v);
      var last := r[|r| - 1];
      var holder := Get(Node(t), ParentOf(r));
      && IsNode(Get(Node(u), ParentOf(r))) && last in Get(Node(u), ParentOf(r)).value.fields
      && (Delete(Node(u), r).fields == t <==> IsNode(holder) && last !in holder.value.fields)
    decreases |r|
  {
    var u := Set(t, r + [k], v);
    assert (r + [k])[1..] == r[1..] + [k];
    if |r| == 1 {
      assert u - {r[0]} == t - {r[0]};
      assert r[0] !in t ==> t - {r[0]} == t;
    } else {
      var below := Child(t, r[0]);
      var inner := Set(below, r[1..] + [k], v);
      DeleteUndoesSetBelow(below, r[1..], k, v);
      FrontBelow(r);
      var d := Delete(Node(inner), r[1..]);
      PutTwice(t, r[0], Node(inner), d);
      assert Delete(Node(u), r).fields == t[r[0] := d];
      PutBack(t, r[0], d);
    }
  }

  lemma PutBack(t: Tree, k: string, d: Json)
    ensures t[k := d] == t <==> k in t && t[k] == d
  {
  }

  // ---------------------------------------------------------------------------------------------
  // What was set is what resolves

  /** With no override in the environment, a value that was accepted resolves back from the file, unless
      it is empty or is the default of an older layout. */
  lemma {:induction false} SetResolves(t: Tree, k: Key, raw: string, v: Json, u: Tree, root: string, w: World)
    requires Taken(Registered(k), raw, w) == Some(v) && AfterSet(t, Registered(k), raw, w) == Some(u)
    requires !Threshold(k) && w.env(k) == None && (v.Number? ==> -PLAIN < v.n < PLAIN)
    ensures Resolve(k, u, root, w) ==
      if v == Text("") || LegacyDefault(k, root, w) == Some(v) then Resolved(Default(k, root, w), FromDefault)
      else Resolved(v, FromFile)
  {
    SetTakesEffect(t, Registered(k), raw, w);
    ChosenFromFile(KindOf(k), raw, v, LegacyDefault(k, root, w), Default(k, root, w), w.platform);
  }

  lemma ChosenFromFile(kind: Kind, raw: string, v: Json, legacy: Option<Json>, fallback: Json, p: Platform)
    requires Accepted(kind, raw, p) == Some(v) && (v.Number? ==> -PLAIN < v.n < PLAIN)
    ensures Choose(kind, None, Some(v), legacy, fallback, p) ==
      if v == Text("") || legacy == Some(v) then Resolved(fallback, FromDefault) else Resolved(v, FromFile)
  {
    AcceptedIsReadable(kind, raw, p);
  }

  /** The environment holds a value for the key that is not empty and that the key takes. */
  predicate Overridden(k: Key, w: World) {
    w.env(k).Some? && w.env(k).value != "" && Accepted(KindOf(k), w.env(k).value, w.platform).Some?
  }

  /** The keys that a key's resolution looks at. */
  function Beside(k: Key): set<Key> {
    if Threshold(k) then {WARNING, CRITICAL} else {k}
  }

  function Without(k: Key, w: World): World {
    w.(env := j => if j == k then None else w.env(j))
  }

  /** Under overrides that are accepted no two files resolve differently. */
  lemma OverridesHideTheFile(k: Key, t: Tree, u: Tree, root: string, w: World)
    requires forall j :: j in Beside(k) ==> Overridden(j, w)
    ensures Resolve(k, t, root, w) == Resolve(k, u, root, w)
  {
    if Threshold(k) {
      OverrideHidesTheFile(WARNING, t, u, root, w);
      OverrideHidesTheFile(CRITICAL, t, u, root, w);
    } else {
      OverrideHidesTheFile(k, t, u, root, w);
    }
  }

  lemma OverrideHidesTheFile(k: Key, t: Tree, u: Tree, root: string, w: World)
    requires Overridden(k, w)
    ensures ResolveOne(k, t, root, w) == ResolveOne(k, u, root, w)
  {
  }

  /** An override that is empty or refused leaves every key as if it were not there. */
  lemma RefusedOverrideIsNone(k: Key, j: Key, t: Tree, root: string, w: World)
    requires !Overridden(j, w)
    ensures Resolve(k, t, root, Without(j, w)) == Resolve(k, t, root, w)
  {
    RefusedIsAbsent(WARNING, j, t, root, w);
    RefusedIsAbsent(CRITICAL, j, t, root, w);
    RefusedIsAbsent(k, j, t, root, w);
    assert Default(k, root, Without(j, w)) == Default(k, root, w);
  }

  lemma RefusedIsAbsent(i: Key, j: Key, t: Tree, root: string, w: World)
    requires !Overridden(j, w)
    ensures ResolveOne(i, t, root, w) == ResolveOne(i, t, root, Without(j, w))
  {
    var v := Without(j, w);
    assert Default(i, root, v) == Default(i, root, w) && LegacyDefault(i, root, v) == LegacyDefault(i, root, w);
  }

  /** What both thresholds take. */
  const PERCENT := Whole(Range(1, Some(100)))

  /** The file holds a value that a reader accepts as a threshold. */
  predicate HoldsPercent(stored: Option<Json>, p: Platform) {
    !Unset(stored) && Readable(PERCENT, stored.value, p)
  }

  /** The threshold in force for one key, with no override, before the pair is compared. */
  function FromFileOr(stored: Option<Json>, fallback: real, p: Platform): (r: Resolved)
    ensures r.value.Number?
  {
    if HoldsPercent(stored, p) then Resolved(stored.value, FromFile) else Resolved(Number(fallback), FromDefault)
  }

  lemma WarningFromFile(t: Tree, root: string, w: World)
    requires w.env(WARNING) == None && w.env(CRITICAL) == None
    ensures var x := FromFileOr(Stored(t, Registered(WARNING)), 95.0, w.platform);
      var y := FromFileOr(Stored(t, Registered(CRITICAL)), 99.0, w.platform);
      Resolve(WARNING, t, root, w) == if x.value.n < y.value.n then x else Resolved(Number(95.0), FromDefault)
  {
    UnpairedFromFile(t, WARNING, root, w);
    UnpairedFromFile(t, CRITICAL, root, w);
  }

  lemma CriticalFromFile(t: Tree, root: string, w: World)
    requires w.env(WARNING) == None && w.env(CRITICAL) == None
    ensures var x := FromFileOr(Stored(t, Registered(WARNING)), 95.0, w.platform);
      var y := FromFileOr(Stored(t, Registered(CRITICAL)), 99.0, w.platform);
      Resolve(CRITICAL, t, root, w) == if x.value.n < y.value.n then y else Resolved(Number(99.0), FromDefault)
  {
    UnpairedFromFile(t, WARNING, root, w);
    UnpairedFromFile(t, CRITICAL, root, w);
  }

  lemma UnpairedFromFile(t: Tree, k: Key, root: string, w: World)
    requires Threshold(k) && w.env(k) == None
    ensures ResolveOne(k, t, root, w) ==
      FromFileOr(Stored(t, Registered(k)), if k == WARNING then 95.0 else 99.0, w.platform)
  {
    assert KindOf(k) == PERCENT && LegacyDefault(k, root, w) == None;
  }

  /** A warning that was accepted resolves back from the file exactly when the critical threshold in the
      file is one a reader accepts, or the warning is below the default critical of 99. The store's check
      of the pair compares with whatever the file holds, a reader with what it accepts of it. */
  lemma {:induction false} WarningResolves(t: Tree, raw: string, v: Json, u: Tree, root: string, w: World)
    requires Taken(Registered(WARNING), raw, w) == Some(v) && AfterSet(t, Registered(WARNING), raw, w) == Some(u)
    requires w.env(WARNING) == None && w.env(CRITICAL) == None
    ensures v.Number?
    ensures Resolve(WARNING, u, root, w) == Resolved(v, FromFile)
      <==> HoldsPercent(Stored(t, Registered(CRITICAL)), w.platform) || v.n < 99.0
  {
    SetTakesEffect(t, Registered(WARNING), raw, w);
    SetIsLocal(t, Registered(WARNING), raw, Registered(CRITICAL), w);
    ThresholdStored(WARNING, raw, w);
    WarningFromFile(u, root, w);
    PairIsChecked(u, w);
  }

  /** The same for a critical threshold and the default warning of 95. */
  lemma {:induction false} CriticalResolves(t: Tree, raw: string, v: Json, u: Tree, root: string, w: World)
    requires Taken(Registered(CRITICAL), raw, w) == Some(v) && AfterSet(t, Registered(CRITICAL), raw, w) == Some(u)
    requires w.env(WARNING) == None && w.env(CRITICAL) == None
    ensures v.Number?
    ensures Resolve(CRITICAL, u, root, w) == Resolved(v, FromFile)
      <==> HoldsPercent(Stored(t, Registered(WARNING)), w.platform) || 95.0 < v.n
  {
    SetTakesEffect(t, Registered(CRITICAL), raw, w);
    SetIsLocal(t, Registered(CRITICAL), raw, Registered(WARNING), w);
    ThresholdStored(CRITICAL, raw, w);
    CriticalFromFile(u, root, w);
    PairIsChecked(u, w);
  }

  lemma ThresholdStored(k: Key, raw: string, w: World)
    requires Threshold(k) && Taken(Registered(k), raw, w).Some?
    ensures HoldsPercent(Taken(Registered(k), raw, w), w.platform)
    ensures Taken(Registered(k), raw, w).value.Number?
  {
    AcceptedIsReadable(KindOf(k), raw, w.platform);
  }

  /** What the store's check tells when both thresholds in the file are readable. */
  lemma PairIsChecked(u: Tree, w: World)
    requires PairOrdered(u, w)
    ensures var x, y := Stored(u, Registered(WARNING)), Stored(u, Registered(CRITICAL));
      HoldsPercent(x, w.platform) && HoldsPercent(y, w.platform) ==>
        x.value.Number? && y.value.Number? && x.value.n < y.value.n
  {
  }

  /** The check accepts a warning of 99 beside an unreadable critical of 500, and then neither counts. */
  lemma {:induction false} AcceptedThresholdCanBeIgnored(root: string, w: World)
    requires w.env(WARNING) == None && w.env(CRITICAL) == None
    ensures var t := Set(map[], PathOf(Registered(CRITICAL)), Number(500.0));
      var u := AfterSet(t, Registered(WARNING), "99", w);
      u.Some? && Resolve(WARNING, u.value, root, w) == Resolved(Number(95.0), FromDefault)
  {
    var t: Tree := Set(map[], PathOf(Registered(CRITICAL)), Number(500.0));
    var u := Set(t, PathOf(Registered(WARNING)), Number(99.0));
    StoredBeside500(t, u);
    NinetyNine(w);
    OrderedBeside500(u, w);
    assert AfterSet(t, Registered(WARNING), "99", w) == SetAt(t, PathOf(Registered(WARNING)), Number(99.0), true, w);
    WarningFromFile(u, root, w);
  }

  lemma StoredBeside500(t: Tree, u: Tree)
    requires t == Set(map[], PathOf(Registered(CRITICAL)), Number(500.0))
    requires u == Set(t, PathOf(Registered(WARNING)), Number(99.0))
    ensures Stored(u, Registered(WARNING)) == Some(Number(99.0)) && Stored(u, Registered(CRITICAL)) == Some(Number(500.0))
  {
    var p, q := PathOf(Registered(WARNING)), PathOf(Registered(CRITICAL));
    SetReads(map[], q, Number(500.0));
    SetReads(t, p, Number(99.0));
    PathsAreApart(Registered(WARNING), Registered(CRITICAL));
    SetElsewhere(t, p, q, Number(99.0));
  }

  lemma OrderedBeside500(u: Tree, w: World)
    requires Stored(u, Registered(WARNING)) == Some(Number(99.0)) && Stored(u, Registered(CRITICAL)) == Some(Number(500.0))
    ensures PairOrdered(u, w)
  {
  }

  lemma NinetyNine(w: World)
    ensures Taken(Registered(WARNING), "99", w) == Some(Number(99.0))
  {
    assert ParseInt("99") == Some(99) by {
      assert "99"[1..] == "9" && "9"[1..] == "";
      assert Leading("", 99) == 99;
    }
    assert JsText.Trim("99") == "99";
  }

  // ---------------------------------------------------------------------------------------------
  // Over runs: the pair in the file stays in order

  datatype Edit = SetTo(address: Address, raw: string) | ResetOf(target: Address) | ResetAllKeys

  predicate Proper(e: Edit) {
    match e
    case SetTo(a, _) => WellFormed(a)
    case ResetOf(a) => WellFormed(a)
    case ResetAllKeys => true
  }

  function Effect(f: FileState, e: Edit, w: World): FileState {
    match e
    case SetTo(a, raw) => SetEffect(f, a, raw, w).0
    case ResetOf(a) => ResetEffect(f, a, w).0
    case ResetAllKeys => Absent
  }

  function TreeOf(f: FileState): Tree {
    if f.Holds? then f.tree else map[]
  }

  lemma OrderIsByValues(t: Tree, u: Tree, w: World)
    requires Stored(t, Registered(WARNING)) == Stored(u, Registered(WARNING))
    requires Stored(t, Registered(CRITICAL)) == Stored(u, Registered(CRITICAL))
    ensures PairOrdered(t, w) == PairOrdered(u, w)
  {
  }

  /** Whatever the file held, it holds an ordered pair after an accepted set of a threshold. */
  lemma ThresholdSetOrders(t: Tree, k: Key, raw: string, u: Tree, w: World)
    requires Threshold(k) && AfterSet(t, Registered(k), raw, w) == Some(u)
    ensures PairOrdered(u, w)
  {
    var path, v := PathOf(Registered(k)), Taken(Registered(k), raw, w);
    assert v.Some? && SetAt(t, path, v.value, true, w) == Some(u);
  }

  /** And after an accepted reset of one that was there. */
  lemma {:induction false} ThresholdResetOrders(t: Tree, k: Key, u: Tree, w: World)
    requires Threshold(k) && AfterReset(t, Registered(k), w) == Some(u) && u != t
    ensures PairOrdered(u, w)
  {
    var path := PathOf(Registered(k));
    assert ResetAt(t, path, true, true, w) == Some(u);
    PrunedKeyStays(Delete(Node(t), path).fields, k, WARNING);
    PrunedKeyStays(Delete(Node(t), path).fields, k, CRITICAL);
    ResetAtOrders(t, path, w);
  }

  lemma ResetAtOrders(t: Tree, path: Path, w: World)
    requires path != []
    requires var r := ResetAt(t, path, true, true, w); r.Some? && r.value != t
    requires var d := Delete(Node(t), path).fields;
      forall k :: Threshold(k) ==> Stored(Prune(d, ParentOf(path)), Registered(k)) == Stored(d, Registered(k))
    ensures PairOrdered(ResetAt(t, path, true, true, w).value, w)
  {
    var d := Delete(Node(t), path).fields;
    OrderIsByValues(d, Prune(d, ParentOf(path)), w);
  }

  lemma {:induction false} PrunedKeyStays(d: Tree, k: Key, j: Key)
    ensures Stored(Prune(d, ParentOf(PathOf(Registered(k)))), Registered(j)) == Stored(d, Registered(j))
  {
    var p, q := PathOf(Registered(k)), PathOf(Registered(j));
    if q <= ParentOf(p) {
      assert q <= p;
      if j != k {
        PathsAreApart(Registered(k), Registered(j));
      }
    }
    PruneElsewhere(d, ParentOf(p), q);
  }

  lemma {:induction false} EditKeepsOrder(f: FileState, e: Edit, w: World)
    requires Proper(e) && PairOrdered(TreeOf(f), w)
    ensures PairOrdered(TreeOf(Effect(f, e, w)), w)
  {
    var t, g := TreeOf(f), Effect(f, e, w);
    if e.ResetAllKeys? {
      assert Stored(map[], Registered(WARNING)) == None && Stored(map[], Registered(CRITICAL)) == None;
    } else if g != f {
      var a := if e.SetTo? then e.address else e.target;
      if a.Registered? && Threshold(a.key) {
        if e.SetTo? {
          ThresholdSetOrders(t, a.key, e.raw, g.tree, w);
        } else if g.tree != t {
          ThresholdResetOrders(t, a.key, g.tree, w);
        }
      } else if e.SetTo? {
        SetIsLocal(t, a, e.raw, Registered(WARNING), w);
        SetIsLocal(t, a, e.raw, Registered(CRITICAL), w);
        OrderIsByValues(t, g.tree, w);
      } else {
        ResetIsLocal(t, a, Registered(WARNING), w);
        ResetIsLocal(t, a, Registered(CRITICAL), w);
        OrderIsByValues(t, g.tree, w);
      }
    }
  }

  function Run(f: FileState, es: seq<Edit>, w: World): FileState
    decreases |es|
  {
    if es == [] then f else Run(Effect(f, es[0], w), es[1..], w)
  }

  predicate Touches(e: Edit, b: Address) {
    match e
    case SetTo(a, _) => a == b
    case ResetOf(a) => a == b
    case ResetAllKeys => true
  }

  /** In every run of edits, accepted or refused, the file's pair of thresholds stays in order, and a key
      that no edit names keeps its value. */
  lemma {:induction false} RunsKeepOrderAndOthers(f: FileState, es: seq<Edit>, b: Address, w: World)
    requires forall i :: 0 <= i < |es| ==> Proper(es[i])
    requires WellFormed(b)
    ensures PairOrdered(TreeOf(f), w) ==> PairOrdered(TreeOf(Run(f, es, w)), w)
    ensures (forall i :: 0 <= i < |es| ==> !Touches(es[i], b)) ==>
      Stored(TreeOf(Run(f, es, w)), b) == Stored(TreeOf(f), b)
    decreases |es|
  {
    if es != [] {
      var e, g := es[0], Effect(f, es[0], w);
      assert forall i :: 0 <= i < |es[1..]| ==> es[1..][i] == es[i + 1];
      RunsKeepOrderAndOthers(g, es[1..], b, w);
      if PairOrdered(TreeOf(f), w) {
        EditKeepsOrder(f, e, w);
      }
      if !Touches(e, b) && g != f {
        if e.SetTo? {
          SetIsLocal(TreeOf(f), e.address, e.raw, b, w);
        } else {
          ResetIsLocal(TreeOf(f), e.target, b, w);
        }
      }
    }
  }
}
