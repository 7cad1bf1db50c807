/** The nested tree a configuration file holds, and the three walks that read, write and tidy it:
    `getNestedValue`, `setNestedValue` and `pruneEmptyAncestors`,
    packages/cli/src/config-store.ts:851-886.

    An object a loop holds a reference to is named here by its path from the root; writing to it is
    `Assign`, and `delete` is `Delete`. */
module ConfigTree {
  import opened Options

  /** Objects, and everything else JSON has but arrays. */
  datatype Json =
    | Null
    | Bool(b: bool)
    | Number(n: real)
    | Text(text: string)
    | Node(fields: map<string, Json>)

  type Tree = map<string, Json>
  type Path = seq<string>

  // ---------------------------------------------------------------------------------------------
  // Reading

  function Get(t: Json, path: Path): Option<Json> {
    if path == [] then Some(t)
    else if t.Node? && path[0] in t.fields then Get(t.fields[path[0]], path[1..])
    else None
  }

  predicate IsNode(v: Option<Json>) {
    v.Some? && v.value.Node?
  }

  lemma NodeAbove(t: Tree, p: Path)
    requires p != [] && IsNode(Get(Node(t), p))
    ensures p[0] in t && t[p[0]].Node? && IsNode(Get(t[p[0]], p[1..]))
  {
    var below := t[p[0]];
    assert Get(below, p[1..]) == Get(Node(t), p);
  }

  lemma {:induction false} GetJoined(t: Json, p: Path, q: Path)
    ensures Get(t, p + q) == if Get(t, p).Some? then Get(Get(t, p).value, q) else None
  {
    if p == [] {
      assert p + q == q;
    } else {
      assert (p + q)[1..] == p[1..] + q;
      if t.Node? && p[0] in t.fields {
        GetJoined(t.fields[p[0]], p[1..], q);
      }
    }
  }

  lemma GetExtended(t: Json, p: Path, k: string)
    ensures Get(t, p + [k]) ==
      if IsNode(Get(t, p)) && k in Get(t, p).value.fields then Some(Get(t, p).value.fields[k]) else None
  {
    GetJoined(t, p, [k]);
  }

  method GetNested(t: Json, parts: Path) returns (r: Option<Json>)
    ensures r == Get(t, parts)
  {
    r := Some(t);
    for i := 0 to |parts|
      invariant r == Get(t, parts[..i])
    {
      assert parts[..i + 1] == parts[..i] + [parts[i]];
      GetExtended(t, parts[..i], parts[i]);
      if !IsNode(r) {
        assert parts == parts[..i + 1] + parts[i + 1..];
        GetJoined(t, parts[..i + 1], parts[i + 1..]);
        return None;
      }
      r := if parts[i] in r.value.fields then Some(r.value.fields[parts[i]]) else None;
    }
    assert parts[..|parts|] == parts;
  }

  // ---------------------------------------------------------------------------------------------
  // Writing through a reference

  /** `current[part] = v`, where `current` is the object at the path without its last part. */
  function Assign(t: Json, path: Path, v: Json): (r: Json)
    requires path != [] && IsNode(Get(t, path[..|path| - 1]))
    ensures r.Node?
  {
    var k := path[0];
    if |path| == 1 then Node(t.fields[k := v])
    else
      assert path[1..][..|path| - 2] == path[..|path| - 1][1..];
      Node(t.fields[k := Assign(t.fields[k], path[1..], v)])
  }

  /** `delete current[part]`. */
  function Delete(t: Json, path: Path): (r: Json)
    requires path != [] && IsNode(Get(t, path[..|path| - 1]))
    ensures r.Node?
  {
    var k := path[0];
    if |path| == 1 then Node(t.fields - {k})
    else
      assert path[1..][..|path| - 2] == path[..|path| - 1][1..];
      Node(t.fields[k := Delete(t.fields[k], path[1..])])
  }

  // ---------------------------------------------------------------------------------------------
  // `setNestedValue`

  /** The object a key leads to: a scalar or a null in the way counts as an empty one. */
  function Child(t: Tree, k: string): Tree {
    if k in t && t[k].Node? then t[k].fields else map[]
  }

  function Set(t: Tree, path: Path, v: Json): Tree
    requires path != []
    decreases |path|
  {
    t[path[0] := if |path| == 1 then v else Node(Set(Child(t, path[0]), path[1..], v))]
  }

  /** Making way for the next part of the path changes nothing that the write will not. */
  lemma {:induction false} SetMakesWay(t: Tree, p: Path, k: string, rest: Path, v: Json)
    requires rest != [] && IsNode(Get(Node(t), p)) && !IsNode(Get(Node(t), p + [k]))
    ensures var u := MadeWay(t, p, k);
      IsNode(Get(Node(u), p + [k])) && Set(u, p + [k] + rest, v) == Set(t, p + [k] + rest, v)
    decreases |p|
  {
    var u := MadeWay(t, p, k);
    if p == [] {
      assert p + [k] + rest == [k] + rest;
      assert ([k] + rest)[1..] == rest;
      assert Child(u, k) == Child(t, k);
      assert p + [k] == [k];
    } else {
      NodeAbove(t, p);
      var t' := t[p[0]].fields;
      assert (p + [k])[1..] == p[1..] + [k];
      assert (p + [k] + rest)[1..] == p[1..] + [k] + rest;
      SetMakesWay(t', p[1..], k, rest, v);
      assert u[p[0]] == Node(MadeWay(t', p[1..], k)) by {
        assert (p + [k])[..|p|] == p && (p[1..] + [k])[..|p| - 1] == p[1..];
      }
    }
  }

  function MadeWay(t: Tree, p: Path, k: string): Tree
    requires IsNode(Get(Node(t), p))
  {
    assert (p + [k])[..|p|] == p;
    Assign(Node(t), p + [k], Node(map[])).fields
  }

  lemma {:induction false} SetWrites(t: Tree, path: Path, v: Json)
    requires path != [] && IsNode(Get(Node(t), path[..|path| - 1]))
    ensures Assign(Node(t), path, v) == Node(Set(t, path, v))
    decreases |path|
  {
    if |path| > 1 {
      assert path[1..][..|path| - 2] == path[..|path| - 1][1..];
      var front := path[..|path| - 1];
      NodeAbove(t, front);
      SetWrites(t[path[0]].fields, path[1..], v);
    }
  }

  method SetNested(t: Tree, parts: Path, value: Json) returns (r: Tree)
    requires parts != []
    ensures r == Set(t, parts, value)
  {
    r := t;
    var last := |parts| - 1;
    for i := 0 to last
      invariant IsNode(Get(Node(r), parts[..i]))
      invariant Set(r, parts, value) == Set(t, parts, value)
    {
      var here := parts[..i] + [parts[i]];
      assert here == parts[..i + 1] && parts == here + parts[i + 1..];
      if !IsNode(Get(Node(r), here)) {
        SetMakesWay(r, parts[..i], parts[i], parts[i + 1..], value);
        r := MadeWay(r, parts[..i], parts[i]);
      }
    }
    SetWrites(r, parts, value);
    r := Assign(Node(r), parts, value).fields;
  }

  // ---------------------------------------------------------------------------------------------
  // `pruneEmptyAncestors`

  /** An object on the path that holds nothing but the chain below it goes. */
  function Prune(t: Tree, path: Path): Tree
    decreases |path|
  {
    if path == [] || path[0] !in t || !t[path[0]].Node? then t
    else
      var below := Prune(t[path[0]].fields, path[1..]);
      if below == map[] then t - {path[0]} else t[path[0] := Node(below)]
  }

  /** A non-empty object is kept, and with it all above it. */
  lemma {:induction false} PruneKeepsFull(t: Tree, path: Path)
    requires IsNode(Get(Node(t), path)) && Get(Node(t), path).value.fields != map[]
    ensures Prune(t, path) == t
    decreases |path|
  {
    if path != [] {
      PruneKeepsFull(t[path[0]].fields, path[1..]);
      EmptyHasNothing(path[1..]);
    }
  }

  lemma EmptyHasNothing(path: Path)
    ensures path != [] ==> Get(Node(map[]), path) == None
  {
  }

  /** Deleting an empty object and pruning from its parent is pruning from it. */
  lemma {:induction false} PruneStep(t: Tree, path: Path)
    requires path != [] && Get(Node(t), path) == Some(Node(map[]))
    ensures IsNode(Get(Node(t), path[..|path| - 1]))
    ensures var u := Delete(Node(t), path).fields;
      Prune(u, path[..|path| - 1]) == Prune(t, path)
      && IsNode(Get(Node(u), path[..|path| - 1]))
    decreases |path|
  {
    var front := path[..|path| - 1];
    assert path == front + [path[|path| - 1]];
    GetExtended(Node(t), front, path[|path| - 1]);
    if |path| > 1 {
      var below := t[path[0]].fields;
      assert path[1..][..|path| - 2] == front[1..];
      PruneStep(below, path[1..]);
      var u := Delete(Node(t), path).fields;
      assert u[path[0]] == Delete(Node(below), path[1..]);
      assert u == t[path[0] := u[path[0]]];
    }
  }

  /** `pruneEmptyAncestors`, deepest first. The caller has just deleted a key of the object at
      `parts`, so that object exists. */
  method PruneEmptyAncestors(t: Tree, parts: Path) returns (r: Tree)
    requires IsNode(Get(Node(t), parts))
    ensures r == Prune(t, parts)
  {
    r := t;
    var depth := |parts|;
    assert parts[..depth] == parts;
    while depth >= 1
      invariant 0 <= depth <= |parts|
      invariant IsNode(Get(Node(r), parts[..depth]))
      invariant Prune(r, parts[..depth]) == Prune(t, parts)
    {
      var obj := Get(Node(r), parts[..depth]);
      if !IsNode(obj) || obj.value.fields != map[] {
        PruneKeepsFull(r, parts[..depth]);
        return;
      }
      PruneStep(r, parts[..depth]);
      assert parts[..depth][..depth - 1] == parts[..depth - 1];
      r := Delete(Node(r), parts[..depth]).fields;
      depth := depth - 1;
    }
  }

  // ---------------------------------------------------------------------------------------------
  // Laws of writing

  /** Neither path leads through the other. */
  predicate Apart(p: Path, q: Path) {
    !(p <= q) && !(q <= p)
  }

  lemma ApartSteps(p: Path, q: Path)
    requires Apart(p, q)
    ensures p != [] && q != []
    ensures p[0] == q[0] ==> Apart(p[1..], q[1..])
  {
    if p[0] == q[0] {
      assert p == [p[0]] + p[1..] && q == [q[0]] + q[1..];
    }
  }

  lemma {:induction false} SetReads(t: Tree, p: Path, v: Json)
    requires p != []
    ensures Get(Node(Set(t, p, v)), p) == Some(v)
    decreases |p|
  {
    if |p| > 1 {
      SetReads(Child(t, p[0]), p[1..], v);
    }
  }

  /** Writing one path changes no path apart from it, present or absent. */
  lemma {:induction false} SetElsewhere(t: Tree, p: Path, q: Path, v: Json)
    requires Apart(p, q)
    ensures Get(Node(Set(t, p, v)), q) == Get(Node(t), q)
    decreases |p|
  {
    ApartSteps(p, q);
    if p[0] == q[0] {
      var below := Child(t, p[0]);
      SetElsewhere(below, p[1..], q[1..], v);
      assert Get(Node(Set(t, p, v)), q) == Get(Node(below), q[1..]);
      if p[0] in t && !t[p[0]].Node? {
        assert Get(t[p[0]], q[1..]) == None;
      }
    }
  }

  // ---------------------------------------------------------------------------------------------
  // Laws of removing a key: the tree part of `ConfigStore.reset`

  /** The object that holds the path's last part is there, and has it. */
  predicate Present(t: Tree, path: Path)
    requires path != []
  {
    var holder := Get(Node(t), path[..|path| - 1]);
    IsNode(holder) && path[|path| - 1] in holder.value.fields
  }

  /** The leaf goes, and then every object on its path that this leaves empty. */
  function Cleared(t: Tree, path: Path): Tree
    requires path != []
  {
    if Present(t, path) then Prune(Delete(Node(t), path).fields, path[..|path| - 1]) else t
  }

  lemma PresentIsThere(t: Tree, path: Path)
    requires path != []
    ensures Present(t, path) <==> Get(Node(t), path).Some?
  {
    assert path == path[..|path| - 1] + [path[|path| - 1]];
    GetExtended(Node(t), path[..|path| - 1], path[|path| - 1]);
  }

  lemma PresentBelow(t: Tree, path: Path)
    requires |path| > 1
    ensures Present(t, path) <==> path[0] in t && t[path[0]].Node? && Present(t[path[0]].fields, path[1..])
  {
    PresentIsThere(t, path);
    if path[0] in t && t[path[0]].Node? {
      PresentIsThere(t[path[0]].fields, path[1..]);
    }
  }

  lemma FrontBelow(path: Path)
    requires |path| > 1
    ensures path[1..][..|path| - 2] == path[..|path| - 1][1..] && path[1..][|path| - 2] == path[|path| - 1]
  {
  }

  lemma PutTwice(t: Tree, k: string, v: Json, w: Json)
    ensures t[k := v][k := w] == t[k := w] && t[k := v] - {k} == t - {k}
  {
  }

  /** The same, one part of the path at a time. */
  lemma {:induction false} ClearedSteps(t: Tree, path: Path)
    requires |path| > 1
    ensures Cleared(t, path) ==
      if path[0] in t && t[path[0]].Node? && Present(t[path[0]].fields, path[1..]) then
        var below := Cleared(t[path[0]].fields, path[1..]);
        if below == map[] then t - {path[0]} else t[path[0] := Node(below)]
      else t
  {
    PresentBelow(t, path);
    if Present(t, path) {
      var k, below := path[0], t[path[0]].fields;
      FrontBelow(path);
      var d := Delete(Node(below), path[1..]);
      assert Delete(Node(t), path) == Node(t[k := d]);
      assert Prune(d.fields, path[1..][..|path| - 2]) == Cleared(below, path[1..]);
      PutTwice(t, k, d, Node(Cleared(below, path[1..])));
    }
  }

  lemma {:induction false} ClearedReads(t: Tree, path: Path)
    requires path != []
    ensures Get(Node(Cleared(t, path)), path) == None
    decreases |path|
  {
    if |path| == 1 {
      assert path[..0] == [];
    } else {
      ClearedSteps(t, path);
      if path[0] in t && t[path[0]].Node? {
        ClearedReads(t[path[0]].fields, path[1..]);
      }
    }
  }

  lemma {:induction false} ClearedElsewhere(t: Tree, p: Path, q: Path)
    requires Apart(p, q)
    ensures Get(Node(Cleared(t, p)), q) == Get(Node(t), q)
    decreases |p|
  {
    ApartSteps(p, q);
    if |p| == 1 {
      assert p[..0] == [];
    } else {
      ClearedSteps(t, p);
      if p[0] == q[0] && p[0] in t && t[p[0]].Node? {
        ClearedElsewhere(t[p[0]].fields, p[1..], q[1..]);
        EmptyHasNothing(q[1..]);
      }
    }
  }

  /** No object on the way to the leaf is empty, and nothing on the way is a scalar or a null. */
  predicate WayIsOpen(t: Tree, path: Path)
    requires path != []
    decreases |path|
  {
    |path| > 1 && path[0] in t ==>
      t[path[0]].Node? && t[path[0]].fields != map[] && WayIsOpen(t[path[0]].fields, path[1..])
  }

  /** Removing a key just written restores the tree exactly when the key was absent and no empty
      object, scalar or null lay on its way. */
  lemma {:induction false} ClearUndoesSet(t: Tree, path: Path, v: Json)
    requires path != []
    ensures Cleared(Set(t, path, v), path) == t <==> Get(Node(t), path) == None && WayIsOpen(t, path)
    decreases |path|
  {
    var k := path[0];
    var u := Set(t, path, v);
    if |path| == 1 {
      assert path[..0] == [];
      assert Cleared(u, path) == u - {k};
      assert k !in t ==> u - {k} == t;
      assert Get(Node(t), path) == if k in t then Some(t[k]) else None;
    } else {
      var below := Child(t, k);
      var inner := Set(below, path[1..], v);
      var after := Cleared(inner, path[1..]);
      SetReads(below, path[1..], v);
      PresentIsThere(inner, path[1..]);
      ClearedSteps(u, path);
      PutTwice(t, k, Node(inner), Node(after));
      assert Cleared(u, path) == if after == map[] then t - {k} else t[k := Node(after)];
      ClearUndoesSet(below, path[1..], v);
      RestoredAbove(t, path, after);
    }
  }

  /** One step up: `after` is what the object below became. */
  lemma RestoredAbove(t: Tree, path: Path, after: Tree)
    requires |path| > 1
    requires var below := Child(t, path[0]);
      after == below <==> Get(Node(below), path[1..]) == None && WayIsOpen(below, path[1..])
    ensures (if after == map[] then t - {path[0]} else t[path[0] := Node(after)]) == t
      <==> Get(Node(t), path) == None && WayIsOpen(t, path)
  {
    var k, below := path[0], Child(t, path[0]);
    if k !in t {
      EmptyHasNothing(path[1..]);
      assert t - {k} == t;
    } else {
      assert k !in t - {k};
      assert t[k := Node(after)] == t <==> t[k] == Node(after);
    }
  }

  // ---------------------------------------------------------------------------------------------
  // Laws of pruning

  lemma {:induction false} PruneElsewhere(t: Tree, p: Path, q: Path)
    requires !(q <= p)
    ensures Get(Node(Prune(t, p)), q) == Get(Node(t), q)
    decreases |p|
  {
    if p != [] && p[0] in t && t[p[0]].Node? && p[0] == q[0] {
      assert q[1..] <= p[1..] ==> q <= p by {
        assert q == [q[0]] + q[1..] && p == [p[0]] + p[1..];
      }
      PruneElsewhere(t[p[0]].fields, p[1..], q[1..]);
      EmptyHasNothing(q[1..]);
    }
  }

  /** An object that holds nothing but the chain of objects along the path, down to an empty one. */
  predicate Hollow(t: Tree, path: Path)
    decreases |path|
  {
    || t == map[]
    || (path != [] && t.Keys == {path[0]} && t[path[0]].Node? && Hollow(t[path[0]].fields, path[1..]))
  }

  lemma {:induction false} PrunedToNothing(t: Tree, path: Path)
    ensures Prune(t, path) == map[] <==> Hollow(t, path)
    decreases |path|
  {
    if path != [] && path[0] in t && t[path[0]].Node? {
      PrunedToNothing(t[path[0]].fields, path[1..]);
      assert t - {path[0]} == map[] <==> t.Keys == {path[0]} by {
        assert (t - {path[0]}).Keys == t.Keys - {path[0]};
        assert t - {path[0]} == map[] <==> t.Keys - {path[0]} == {};
      }
    }
  }

  /** Pruning removes an object on the path exactly when it is empty, or becomes so. */
  lemma {:induction false} PruneRemovesOnlyEmpty(t: Tree, path: Path, q: Path)
    requires q != [] && q <= path && IsNode(Get(Node(t), q))
    ensures Get(Node(Prune(t, path)), q) == None <==> Hollow(Get(Node(t), q).value.fields, path[|q|..])
    decreases |path|
  {
    NodeAbove(t, q);
    var below := t[path[0]].fields;
    if |q| == 1 {
      PrunedToNothing(below, path[1..]);
      assert Get(Node(t), q) == Some(t[path[0]]);
      assert Get(Node(Prune(t, path)), q) == None <==> path[0] !in Prune(t, path);
    } else {
      assert q[1..] <= path[1..] && path[1..][|q| - 1..] == path[|q|..];
      PruneRemovesOnlyEmpty(below, path[1..], q[1..]);
      EmptyHasNothing(q[1..]);
    }
  }
}
