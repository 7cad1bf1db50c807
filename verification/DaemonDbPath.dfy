/** Where the daemon's database file lies: packages/daemon/src/daemon-db-path.ts:6-70.

    A file system is a finite map from absolute paths to entries; a path is its components, without
    "." or empty ones. Symbolic links may form cycles. How far the platform follows links, and how long
    a path it takes, are parameters. */
module DaemonDbPath {

  type Path = seq<string>

  /** A link's target is absolute or relative to the directory that holds the link. */
  datatype Entry = Dir(searchable: bool) | File | Link(absolute: bool, target: Path)

  type Files = map<Path, Entry>

  datatype Outcome = Ok(path: Path) | NoEntry | NotDirectory | NoAccess | TooManyLinks | NameTooLong | Cycle

  datatype Platform = Platform(hops: nat, longest: nat)

  const UP := ".."

  function ParentOf(p: Path): (q: Path)
    ensures p != [] ==> |q| == |p| - 1 && p == q + [p[|p| - 1]]
  {
    if p == [] then [] else p[..|p| - 1]
  }

  predicate Plain(p: Path) {
    UP !in p
  }

  /** The root is a directory, every entry lies in one, and no entry is called "..". */
  ghost predicate WellFormed(fs: Files) {
    && [] in fs && fs[[]].Dir?
    && (forall p: Path, c: string :: p + [c] in fs ==> c != UP && p in fs && fs[p].Dir?)
  }

  /** No link goes up. */
  predicate NoUpwardLinks(fs: Files) {
    forall p :: p in fs && fs[p].Link? ==> Plain(fs[p].target)
  }

  // ---------------------------------------------------------------------------------------------
  // Pathname resolution (section 4.13 of the POSIX.1-2017 Base Definitions)

  /** From the directory `at`, follow the components `rest`, through links. With `create`, a component
      that is missing is taken as one to be created, and so are all below it; there is no way up from one that
      is missing. */
  function Walk(fs: Files, at: Path, rest: Path, hops: nat, create: bool): Outcome
    decreases hops, |rest|
  {
    if rest == [] then Ok(at)
    else if at in fs && !fs[at].Dir? then NotDirectory
    else if at in fs && !fs[at].searchable then NoAccess
    else if rest[0] == UP then (if at in fs then Walk(fs, ParentOf(at), rest[1..], hops, create) else NoEntry)
    else
      var next := at + [rest[0]];
      if next !in fs then (if create then Walk(fs, next, rest[1..], hops, create) else NoEntry)
      else if fs[next].Link? then
        if hops == 0 then TooManyLinks
        else Walk(fs, LinkBase(fs[next], at), fs[next].target + rest[1..], hops - 1, create)
      else Walk(fs, next, rest[1..], hops, create)
  }

  function LinkBase(link: Entry, at: Path): Path
    requires link.Link?
  {
    if link.absolute then [] else at
  }

  /** `realpathSync`. */
  function Realpath(fs: Files, p: Path, sys: Platform): Outcome {
    if |p| > sys.longest then NameTooLong else Walk(fs, [], p, sys.hops, false)
  }

  /** `lstatSync`: the path of the entry itself, a link not followed. */
  function Lstat(fs: Files, p: Path, sys: Platform): Outcome {
    if |p| > sys.longest then NameTooLong
    else if p == [] then Ok([])
    else
      var dir := Walk(fs, [], ParentOf(p), sys.hops, false);
      if !dir.Ok? then dir
      else if dir.path in fs && !fs[dir.path].Dir? then NotDirectory
      else if dir.path in fs && !fs[dir.path].searchable then NoAccess
      else
        var entry := dir.path + [p[|p| - 1]];
        if entry in fs then Ok(entry) else NoEntry
  }

  // ---------------------------------------------------------------------------------------------
  // `resolveForContainment`

  /** `resolve(dir, target)`: on the text alone. */
  function Lexical(dir: Path, parts: Path): Path
    decreases |parts|
  {
    if parts == [] then dir
    else if parts[0] == UP then Lexical(ParentOf(dir), parts[1..])
    else Lexical(dir + [parts[0]], parts[1..])
  }

  predicate Over(p: Path, names: set<string>) {
    forall i :: 0 <= i < |p| ==> p[i] in names
  }

  predicate LinksOver(fs: Files, names: set<string>) {
    forall p :: p in fs && fs[p].Link? ==> Over(fs[p].target, names)
  }

  /** Every path of at most `n` components over the names: finitely many. */
  ghost function PathsUpTo(names: set<string>, n: nat): set<Path> {
    if n == 0 then {[]}
    else
      var shorter := PathsUpTo(names, n - 1);
      shorter + (set p, x | p in shorter && x in names :: p + [x])
  }

  lemma {:induction false} PathsUpToHolds(names: set<string>, n: nat, p: Path)
    requires |p| <= n && Over(p, names)
    ensures p in PathsUpTo(names, n)
  {
    if n > 0 {
      if |p| < n {
        PathsUpToHolds(names, n - 1, p);
      } else {
        PathsUpToHolds(names, n - 1, ParentOf(p));
        assert p == ParentOf(p) + [p[|p| - 1]];
      }
    }
  }

  lemma {:induction false} LexicalOver(dir: Path, parts: Path, names: set<string>)
    requires Over(dir, names) && Over(parts, names)
    ensures Over(Lexical(dir, parts), names)
    decreases |parts|
  {
    if parts != [] {
      LexicalOver(if parts[0] == UP then ParentOf(dir) else dir + [parts[0]], parts[1..], names);
    }
  }

  /** What remains to be seen shrinks by the path taken. */
  lemma UnseenShrinks(names: set<string>, n: nat, p: Path, seen: set<Path>)
    requires p in PathsUpTo(names, n) && p !in seen
    ensures |PathsUpTo(names, n) - (seen + {p})| < |PathsUpTo(names, n) - seen|
  {
    var all := PathsUpTo(names, n);
    assert all - (seen + {p}) == (all - seen) - {p};
  }

  /** The text that a link found at `p` is taken to stand for. */
  function LinkText(link: Entry, p: Path): Path
    requires link.Link?
  {
    Lexical(LinkBase(link, ParentOf(p)), link.target)
  }

  /** One call of `resolveForContainment`: it ends, goes on with the parent, or with the text of a link. */
  datatype Turn = End(outcome: Outcome) | ToParent | ToTarget(link: Entry)

  function TurnAt(fs: Files, p: Path, sys: Platform): (turn: Turn)
    ensures turn.ToTarget? ==> turn.link.Link? && turn.link in fs.Values
    ensures !turn.End? ==> p != [] && |p| <= sys.longest
  {
    var found := Realpath(fs, p, sys);
    if found.Ok? then End(found)
    else
      var entry := Lstat(fs, p, sys);
      if entry.NoEntry? && found.NoEntry? then ToParent
      else if entry.Ok? && entry.path in fs && fs[entry.path].Link? then ToTarget(fs[entry.path])
      else End(found)
  }

  lemma TurnShrinks(fs: Files, p: Path, seen: set<Path>, sys: Platform, names: set<string>)
    requires Over(p, names) && LinksOver(fs, names) && p !in seen && !TurnAt(fs, p, sys).End?
    ensures |PathsUpTo(names, sys.longest) - (seen + {p})| < |PathsUpTo(names, sys.longest) - seen|
    ensures TurnAt(fs, p, sys).ToTarget? ==> Over(LinkText(TurnAt(fs, p, sys).link, p), names)
  {
    PathsUpToHolds(names, sys.longest, p);
    UnseenShrinks(names, sys.longest, p, seen);
    var turn := TurnAt(fs, p, sys);
    if turn.ToTarget? {
      LexicalOver(LinkBase(turn.link, ParentOf(p)), turn.link.target, names);
    }
  }

  /** `resolveForContainment`. It ends on every finite file system, cycles of links included: each call
      but the last has a path not seen before, and there are finitely many of those that the platform
      takes. */
  function Contained(fs: Files, p: Path, seen: set<Path>, sys: Platform, ghost names: set<string>): Outcome
    requires Over(p, names) && LinksOver(fs, names)
    decreases |PathsUpTo(names, sys.longest) - seen|
  {
    var turn := TurnAt(fs, p, sys);
    if p in seen then Cycle
    else if turn.End? then turn.outcome
    else
      TurnShrinks(fs, p, seen, sys, names);
      if turn.ToParent? then
        var parent := Contained(fs, ParentOf(p), seen + {p}, sys, names);
        if parent.Ok? then Ok(parent.path + [p[|p| - 1]]) else parent
      else Contained(fs, LinkText(turn.link, p), seen + {p}, sys, names)
  }

  /** The names a resolution can meet. */
  ghost function Names(fs: Files, p: Path): (names: set<string>)
    ensures Over(p, names) && LinksOver(fs, names)
  {
    (set i | 0 <= i < |p| :: p[i]) +
    (set q, i | q in fs && fs[q].Link? && 0 <= i < |fs[q].target| :: fs[q].target[i])
  }

  // ---------------------------------------------------------------------------------------------
  // `isWithin` and `resolveDaemonDbPath`

  function CommonLength(a: Path, b: Path): (n: nat)
    ensures n <= |a| && n <= |b| && a[..n] == b[..n]
    ensures n < |a| && n < |b| ==> a[n] != b[n]
  {
    if a != [] && b != [] && a[0] == b[0] then
      var n := 1 + CommonLength(a[1..], b[1..]);
      assert a[..n] == [a[0]] + a[1..][..n - 1] && b[..n] == [b[0]] + b[1..][..n - 1];
      n
    else 0
  }

  /** `relative(root, candidate)`. */
  function Relative(root: Path, candidate: Path): Path {
    var n := CommonLength(root, candidate);
    seq(|root| - n, _ => UP) + candidate[n..]
  }

  predicate IsWithin(root: Path, candidate: Path) {
    var rel := Relative(root, candidate);
    rel == [] || rel[0] != UP
  }

  lemma WithinIsPrefix(root: Path, candidate: Path)
    requires Plain(candidate)
    ensures IsWithin(root, candidate) <==> root <= candidate
  {
    var n := CommonLength(root, candidate);
    var rel := Relative(root, candidate);
    if n == |root| {
      assert candidate[..n] == root;
      assert rel == candidate[n..];
    } else {
      assert rel[0] == UP;
      assert n < |candidate| ==> root[n] != candidate[n];
    }
  }

  datatype Choice = Explicit(text: string) | Implicit(path: Path) | Refused | Failed(error: Outcome)

  const DB := "openrig.sqlite"

  /** `resolveDaemonDbPath`; the home is given as an absolute path. */
  function ResolveDbPath(explicitDb: string, home: Path, fs: Files, sys: Platform): Choice {
    if explicitDb != "" then Explicit(explicitDb)
    else
      var db := home + [DB];
      var resolvedHome := Contained(fs, home, {}, sys, Names(fs, home));
      var resolvedDb := Contained(fs, db, {}, sys, Names(fs, db));
      if !resolvedHome.Ok? then Failed(resolvedHome)
      else if !resolvedDb.Ok? then Failed(resolvedDb)
      else if IsWithin(resolvedHome.path, resolvedDb.path) then Implicit(db)
      else Refused
  }

  // ---------------------------------------------------------------------------------------------
  // Laws of resolution

  /** No component on the way is a link. */
  predicate LinkFree(fs: Files, p: Path) {
    forall i :: 0 <= i <= |p| && p[..i] in fs ==> !fs[p[..i]].Link?
  }

  lemma LinkFreeParent(fs: Files, p: Path)
    requires LinkFree(fs, p)
    ensures LinkFree(fs, ParentOf(p))
  {
    if p != [] {
      forall i | 0 <= i <= |p| - 1 ensures ParentOf(p)[..i] == p[..i] {
      }
    }
  }

  lemma LinkFreeChild(fs: Files, p: Path, c: string)
    requires LinkFree(fs, p) && (p + [c] in fs ==> !fs[p + [c]].Link?)
    ensures LinkFree(fs, p + [c])
  {
    var q := p + [c];
    forall i | 0 <= i <= |q| && q[..i] in fs ensures !fs[q[..i]].Link? {
      if i == |q| {
        assert q[..i] == q;
      } else {
        assert q[..i] == p[..i];
      }
    }
  }

  /** Where a walk ends, no component is a link. */
  lemma {:induction false} WalkEndsLinkFree(fs: Files, at: Path, rest: Path, hops: nat, create: bool)
    requires WellFormed(fs) && LinkFree(fs, at)
    requires Walk(fs, at, rest, hops, create).Ok?
    ensures LinkFree(fs, Walk(fs, at, rest, hops, create).path)
    decreases hops, |rest|
  {
    if rest != [] {
      if rest[0] == UP {
        LinkFreeParent(fs, at);
        WalkEndsLinkFree(fs, ParentOf(at), rest[1..], hops, create);
      } else {
        var next := at + [rest[0]];
        if next in fs && fs[next].Link? {
          WalkEndsLinkFree(fs, LinkBase(fs[next], at), fs[next].target + rest[1..], hops - 1, create);
        } else {
          LinkFreeChild(fs, at, rest[0]);
          WalkEndsLinkFree(fs, next, rest[1..], hops, create);
        }
      }
    }
  }

  /** A walk that succeeds, or finds a component missing, does so with more hops too. */
  lemma {:induction false} MoreHops(fs: Files, at: Path, rest: Path, hops: nat, more: nat, create: bool)
    requires hops <= more && !Walk(fs, at, rest, hops, create).TooManyLinks?
    ensures Walk(fs, at, rest, more, create) == Walk(fs, at, rest, hops, create)
    decreases hops, |rest|
  {
    if rest != [] && !(at in fs && (!fs[at].Dir? || !fs[at].searchable)) {
      if rest[0] == UP {
        if at in fs {
          MoreHops(fs, ParentOf(at), rest[1..], hops, more, create);
        }
      } else {
        var next := at + [rest[0]];
        if next !in fs {
          if create {
            MoreHops(fs, next, rest[1..], hops, more, create);
          }
        } else if fs[next].Link? {
          MoreHops(fs, LinkBase(fs[next], at), fs[next].target + rest[1..], hops - 1, more - 1, create);
        } else {
          MoreHops(fs, next, rest[1..], hops, more, create);
        }
      }
    }
  }

  /** A path that resolves is placed where it resolves. */
  lemma {:induction false} ResolvedIsPlaced(fs: Files, at: Path, rest: Path, hops: nat)
    requires Walk(fs, at, rest, hops, false).Ok?
    ensures Walk(fs, at, rest, hops, true) == Walk(fs, at, rest, hops, false)
    decreases hops, |rest|
  {
    if rest != [] {
      if rest[0] == UP {
        ResolvedIsPlaced(fs, ParentOf(at), rest[1..], hops);
      } else {
        var next := at + [rest[0]];
        if fs[next].Link? {
          ResolvedIsPlaced(fs, LinkBase(fs[next], at), fs[next].target + rest[1..], hops - 1);
        } else {
          ResolvedIsPlaced(fs, next, rest[1..], hops);
        }
      }
    }
  }

  /** A walk goes on from where its first part ends; hops left over are no hindrance. */
  lemma {:induction false} WalkOn(fs: Files, at: Path, xs: Path, ys: Path, h: nat, g: nat, create: bool)
    requires Walk(fs, at, xs, h, create).Ok?
    requires !Walk(fs, Walk(fs, at, xs, h, create).path, ys, g, create).TooManyLinks?
    ensures Walk(fs, at, xs + ys, h + g, create) == Walk(fs, Walk(fs, at, xs, h, create).path, ys, g, create)
    decreases h, |xs|
  {
    if xs == [] {
      assert xs + ys == ys;
      MoreHops(fs, at, ys, g, h + g, create);
    } else {
      assert (xs + ys)[0] == xs[0] && (xs + ys)[1..] == xs[1..] + ys;
      if xs[0] == UP {
        WalkOn(fs, ParentOf(at), xs[1..], ys, h, g, create);
      } else {
        var next := at + [xs[0]];
        if next in fs && fs[next].Link? {
          var target := fs[next].target;
          assert target + (xs[1..] + ys) == (target + xs[1..]) + ys;
          WalkOn(fs, LinkBase(fs[next], at), target + xs[1..], ys, h - 1, g, create);
        } else {
          WalkOn(fs, next, xs[1..], ys, h, g, create);
        }
      }
    }
  }

  /** What fails to resolve for want of an entry is placed where there is no entry. */
  lemma {:induction false} MissingIsPlacedMissing(fs: Files, at: Path, rest: Path, hops: nat, more: nat)
    requires WellFormed(fs) && at in fs
    requires Walk(fs, at, rest, hops, false).NoEntry?
    requires Walk(fs, at, rest, more, true).Ok?
    ensures Walk(fs, at, rest, more, true).path !in fs
    decreases hops, |rest|
  {
    if rest[0] == UP {
      assert at != [] ==> ParentOf(at) + [at[|at| - 1]] in fs;
      MissingIsPlacedMissing(fs, ParentOf(at), rest[1..], hops, more);
    } else {
      var next := at + [rest[0]];
      if next !in fs {
        BelowMissing(fs, next, rest[1..], more);
      } else if fs[next].Link? {
        MissingIsPlacedMissing(fs, LinkBase(fs[next], at), fs[next].target + rest[1..], hops - 1, more - 1);
      } else {
        MissingIsPlacedMissing(fs, next, rest[1..], hops, more);
      }
    }
  }

  lemma {:induction false} BelowMissing(fs: Files, at: Path, rest: Path, hops: nat)
    requires WellFormed(fs) && at !in fs && Walk(fs, at, rest, hops, true).Ok?
    ensures Walk(fs, at, rest, hops, true).path !in fs
    decreases |rest|
  {
    if rest != [] {
      var next := at + [rest[0]];
      assert ParentOf(next) == at;
      BelowMissing(fs, next, rest[1..], hops);
    }
  }

  lemma {:induction false} LexicalIsJoin(dir: Path, parts: Path)
    requires Plain(parts)
    ensures Lexical(dir, parts) == dir + parts
    decreases |parts|
  {
    if parts == [] {
      assert dir + parts == dir;
    } else {
      LexicalIsJoin(dir + [parts[0]], parts[1..]);
      assert dir + [parts[0]] + parts[1..] == dir + parts;
    }
  }

  // ---------------------------------------------------------------------------------------------
  // Where a path lies, or would be created

  ghost predicate Leads(fs: Files, dir: Path, parts: Path, place: Path) {
    exists h: nat :: Walk(fs, dir, parts, h, true) == Ok(place)
  }

  ghost predicate PlacedAt(fs: Files, p: Path, place: Path) {
    Leads(fs, [], p, place)
  }

  lemma PlaceIsOne(fs: Files, p: Path, a: Path, b: Path)
    requires PlacedAt(fs, p, a) && PlacedAt(fs, p, b)
    ensures a == b
  {
    var h: nat :| Walk(fs, [], p, h, true) == Ok(a);
    var g: nat :| Walk(fs, [], p, g, true) == Ok(b);
    MoreHops(fs, [], p, h, h + g, true);
    MoreHops(fs, [], p, g, h + g, true);
  }

  ghost predicate SamePlace(fs: Files, p: Path, q: Path) {
    forall place :: PlacedAt(fs, p, place) <==> PlacedAt(fs, q, place)
  }

  /** A walk through a first part that is known passes through its end. */
  lemma {:induction false} SplitWalk(fs: Files, at: Path, xs: Path, ys: Path, h: nat, total: nat)
    requires Walk(fs, at, xs, h, true).Ok? && Walk(fs, at, xs + ys, total, true).Ok?
    ensures Walk(fs, Walk(fs, at, xs, h, true).path, ys, total, true) == Walk(fs, at, xs + ys, total, true)
    decreases h, |xs|
  {
    if xs == [] {
      assert xs + ys == ys;
    } else {
      assert (xs + ys)[0] == xs[0] && (xs + ys)[1..] == xs[1..] + ys;
      if xs[0] == UP {
        SplitWalk(fs, ParentOf(at), xs[1..], ys, h, total);
      } else {
        var next := at + [xs[0]];
        if next in fs && fs[next].Link? {
          var target := fs[next].target;
          var base := LinkBase(fs[next], at);
          assert target + (xs[1..] + ys) == (target + xs[1..]) + ys;
          SplitWalk(fs, base, target + xs[1..], ys, h - 1, total - 1);
          var mid := Walk(fs, base, target + xs[1..], h - 1, true).path;
          MoreHops(fs, mid, ys, total - 1, total, true);
        } else {
          SplitWalk(fs, next, xs[1..], ys, h, total);
        }
      }
    }
  }

  /** The first part of a walk that succeeds does. */
  lemma {:induction false} FirstPartWalks(fs: Files, at: Path, xs: Path, ys: Path, hops: nat)
    requires Walk(fs, at, xs + ys, hops, true).Ok?
    ensures Walk(fs, at, xs, hops, true).Ok?
    decreases hops, |xs|
  {
    if xs != [] {
      assert (xs + ys)[0] == xs[0] && (xs + ys)[1..] == xs[1..] + ys;
      if xs[0] == UP {
        FirstPartWalks(fs, ParentOf(at), xs[1..], ys, hops);
      } else {
        var next := at + [xs[0]];
        if next in fs && fs[next].Link? {
          var target := fs[next].target;
          assert target + (xs[1..] + ys) == (target + xs[1..]) + ys;
          FirstPartWalks(fs, LinkBase(fs[next], at), target + xs[1..], ys, hops - 1);
        } else {
          FirstPartWalks(fs, next, xs[1..], ys, hops);
        }
      }
    }
  }

  /** A path goes on from its first part's place. */
  lemma {:induction false} PlacedThrough(fs: Files, xs: Path, ys: Path, dir: Path, place: Path)
    requires PlacedAt(fs, xs, dir)
    ensures PlacedAt(fs, xs + ys, place) <==> Leads(fs, dir, ys, place)
  {
    var g: nat :| Walk(fs, [], xs, g, true) == Ok(dir);
    if PlacedAt(fs, xs + ys, place) {
      var h: nat :| Walk(fs, [], xs + ys, h, true) == Ok(place);
      SplitWalk(fs, [], xs, ys, g, h);
    }
    if Leads(fs, dir, ys, place) {
      var h: nat :| Walk(fs, dir, ys, h, true) == Ok(place);
      WalkOn(fs, [], xs, ys, g, h, true);
    }
  }

  /** Where a path lies no component is a link. */
  lemma PlaceIsLinkFree(fs: Files, p: Path, place: Path)
    requires WellFormed(fs) && PlacedAt(fs, p, place)
    ensures LinkFree(fs, place)
  {
    var h: nat :| Walk(fs, [], p, h, true) == Ok(place);
    assert LinkFree(fs, []);
    WalkEndsLinkFree(fs, [], p, h, true);
  }

  // ---------------------------------------------------------------------------------------------
  // Each turn of `resolveForContainment`

  lemma PlainParent(p: Path)
    requires Plain(p)
    ensures Plain(ParentOf(p))
  {
  }

  lemma {:induction false} LinkStep(fs: Files, dir: Path, last: string, hops: nat)
    requires dir in fs && fs[dir].Dir? && fs[dir].searchable && last != UP
    requires dir + [last] in fs && fs[dir + [last]].Link?
    ensures var link := fs[dir + [last]];
      Walk(fs, dir, [last], hops + 1, true) == Walk(fs, LinkBase(link, dir), link.target, hops, true)
  {
    var link := fs[dir + [last]];
    assert link.target + [last][1..] == link.target;
  }

  /** A link is placed where its target, walked from the link's directory, is placed. */
  lemma {:induction false} LinkIsPlacedAtTarget(fs: Files, p: Path, sys: Platform)
    requires WellFormed(fs) && Plain(p) && TurnAt(fs, p, sys).ToTarget?
    ensures var link := TurnAt(fs, p, sys).link;
      SamePlace(fs, p, LinkBase(link, ParentOf(p)) + link.target)
  {
    var front, last := ParentOf(p), p[|p| - 1];
    assert front + [last] == p && last in p;
    var dir := Walk(fs, [], front, sys.hops, false).path;
    var link := fs[dir + [last]];
    ResolvedIsPlaced(fs, [], front, sys.hops);
    assert PlacedAt(fs, front, dir);
    forall place ensures PlacedAt(fs, p, place) <==> PlacedAt(fs, LinkBase(link, front) + link.target, place) {
      PlacedThrough(fs, front, [last], dir, place);
      LinkPlaces(fs, dir, last, place);
      if link.absolute {
        assert [] + link.target == link.target;
      } else {
        PlacedThrough(fs, front, link.target, dir, place);
      }
    }
  }

  lemma {:induction false} LinkPlaces(fs: Files, dir: Path, last: string, place: Path)
    requires dir in fs && fs[dir].Dir? && fs[dir].searchable && last != UP
    requires dir + [last] in fs && fs[dir + [last]].Link?
    ensures var link := fs[dir + [last]];
      Leads(fs, dir, [last], place) <==> Leads(fs, LinkBase(link, dir), link.target, place)
  {
    var link := fs[dir + [last]];
    if Leads(fs, dir, [last], place) {
      var h: nat :| Walk(fs, dir, [last], h, true) == Ok(place);
      LinkStep(fs, dir, last, h - 1);
    }
    if Leads(fs, LinkBase(link, dir), link.target, place) {
      var h: nat :| Walk(fs, LinkBase(link, dir), link.target, h, true) == Ok(place);
      LinkStep(fs, dir, last, h);
    }
  }

  /** A missing entry is placed at its name below where its parent is placed. */
  lemma {:induction false} MissingIsPlacedBelowParent(fs: Files, p: Path, sys: Platform, place: Path)
    requires WellFormed(fs) && Plain(p) && TurnAt(fs, p, sys).ToParent?
    ensures PlacedAt(fs, p, place) <==>
      place != [] && place[|place| - 1] == p[|p| - 1] && PlacedAt(fs, ParentOf(p), ParentOf(place))
  {
    var front, last := ParentOf(p), p[|p| - 1];
    assert front + [last] == p && last in p;
    if PlacedAt(fs, p, place) {
      var h: nat :| Walk(fs, [], p, h, true) == Ok(place);
      FirstPartWalks(fs, [], front, [last], h);
      var dir := Walk(fs, [], front, h, true).path;
      MissingAt(fs, front, last, sys, dir);
      PlacedThrough(fs, front, [last], dir, place);
      assert ParentOf(dir + [last]) == dir;
    }
    if place != [] && place[|place| - 1] == last && PlacedAt(fs, front, ParentOf(place)) {
      var dir := ParentOf(place);
      MissingAt(fs, front, last, sys, dir);
      assert Walk(fs, dir, [last], 0, true) == Ok(place);
      PlacedThrough(fs, front, [last], dir, place);
    }
  }

  /** Where the parent of a missing entry is placed, the entry can be created. */
  lemma {:induction false} MissingAt(fs: Files, front: Path, last: string, sys: Platform, dir: Path)
    requires WellFormed(fs) && last != UP && PlacedAt(fs, front, dir)
    requires TurnAt(fs, front + [last], sys).ToParent?
    ensures forall h :: Walk(fs, dir, [last], h, true) == Ok(dir + [last])
  {
    var p := front + [last];
    assert ParentOf(p) == front;
    var found := Walk(fs, [], front, sys.hops, false);
    if found.Ok? {
      ResolvedIsPlaced(fs, [], front, sys.hops);
      assert PlacedAt(fs, front, found.path);
      PlaceIsOne(fs, front, found.path, dir);
    } else {
      var h: nat :| Walk(fs, [], front, h, true) == Ok(dir);
      MissingIsPlacedMissing(fs, [], front, sys.hops, h);
      assert ParentOf(dir + [last]) == dir;
    }
    assert [last][1..] == [];
  }

  // ---------------------------------------------------------------------------------------------
  // What `resolveForContainment` finds is where the path lies, or would be created

  /** The text of the link found at `p` names the place that its target, walked, does. */
  ghost predicate HopAgrees(fs: Files, p: Path, sys: Platform)
    requires TurnAt(fs, p, sys).ToTarget?
  {
    var link := TurnAt(fs, p, sys).link;
    SamePlace(fs, LinkBase(link, ParentOf(p)) + link.target, LinkText(link, p))
  }

  /** How many of the links followed on their text do not agree with it. */
  ghost function Disagreements(fs: Files, p: Path, seen: set<Path>, sys: Platform, names: set<string>): nat
    requires Over(p, names) && LinksOver(fs, names)
    decreases |PathsUpTo(names, sys.longest) - seen|
  {
    var turn := TurnAt(fs, p, sys);
    if p in seen || turn.End? then 0
    else
      TurnShrinks(fs, p, seen, sys, names);
      if turn.ToParent? then Disagreements(fs, ParentOf(p), seen + {p}, sys, names)
      else
        Disagreements(fs, LinkText(turn.link, p), seen + {p}, sys, names) + if HopAgrees(fs, p, sys) then 0 else 1
  }

  /** At a link: if the text of the link is resolved to its place, so is the link, exactly when the two agree;
      if they agree, the link is resolved to its place only if its text is. */
  lemma {:induction false} HopDecides(fs: Files, p: Path, sys: Platform, place: Path)
    requires WellFormed(fs) && Plain(p) && TurnAt(fs, p, sys).ToTarget?
    ensures var text := LinkText(TurnAt(fs, p, sys).link, p);
      && (PlacedAt(fs, text, place) ==> (PlacedAt(fs, p, place) <==> HopAgrees(fs, p, sys)))
      && (HopAgrees(fs, p, sys) ==> (PlacedAt(fs, p, place) <==> PlacedAt(fs, text, place)))
  {
    var link := TurnAt(fs, p, sys).link;
    var walked, text := LinkBase(link, ParentOf(p)) + link.target, LinkText(link, p);
    LinkIsPlacedAtTarget(fs, p, sys);
    if PlacedAt(fs, text, place) && PlacedAt(fs, p, place) {
      forall q ensures PlacedAt(fs, walked, q) <==> PlacedAt(fs, text, q) {
        if PlacedAt(fs, walked, q) {
          PlaceIsOne(fs, walked, q, place);
        }
        if PlacedAt(fs, text, q) {
          PlaceIsOne(fs, text, q, place);
        }
      }
    }
  }

  /** As long as at most one of the links followed on their text disagrees with it: a path is resolved to where
      it lies, or would be created, exactly when none does. */
  lemma {:induction false} ContainedIsPlace(fs: Files, p: Path, seen: set<Path>, sys: Platform, names: set<string>)
    requires WellFormed(fs) && Plain(p)
    requires Over(p, names) && LinksOver(fs, names)
    requires Contained(fs, p, seen, sys, names).Ok? && Disagreements(fs, p, seen, sys, names) <= 1
    ensures PlacedAt(fs, p, Contained(fs, p, seen, sys, names).path) <==> Disagreements(fs, p, seen, sys, names) == 0
    decreases |PathsUpTo(names, sys.longest) - seen|
  {
    var place := Contained(fs, p, seen, sys, names).path;
    var turn := TurnAt(fs, p, sys);
    if turn.End? {
      ResolvedIsPlaced(fs, [], p, sys.hops);
      assert Walk(fs, [], p, sys.hops, true) == Ok(place);
    } else {
      TurnShrinks(fs, p, seen, sys, names);
      if turn.ToParent? {
        PlainParent(p);
        ContainedIsPlace(fs, ParentOf(p), seen + {p}, sys, names);
        MissingIsPlacedBelowParent(fs, p, sys, place);
      } else {
        LexicalIsPlain(LinkBase(turn.link, ParentOf(p)), turn.link.target);
        ContainedIsPlace(fs, LinkText(turn.link, p), seen + {p}, sys, names);
        HopDecides(fs, p, sys, place);
      }
    }
  }

  /** Every path that the resolution goes through is resolved to where it lies. */
  ghost predicate PlacedThroughout(fs: Files, p: Path, seen: set<Path>, sys: Platform, names: set<string>)
    requires Over(p, names) && LinksOver(fs, names) && Contained(fs, p, seen, sys, names).Ok?
    decreases |PathsUpTo(names, sys.longest) - seen|
  {
    var turn := TurnAt(fs, p, sys);
    && PlacedAt(fs, p, Contained(fs, p, seen, sys, names).path)
    && (turn.End? || (
          TurnShrinks(fs, p, seen, sys, names);
          var next := if turn.ToParent? then ParentOf(p) else LinkText(turn.link, p);
          PlacedThroughout(fs, next, seen + {p}, sys, names)))
  }

  /** Whatever the number of links that disagree: all of the resolution is right exactly when there are none. */
  lemma {:induction false} AllIsPlaced(fs: Files, p: Path, seen: set<Path>, sys: Platform, names: set<string>)
    requires WellFormed(fs) && Plain(p)
    requires Over(p, names) && LinksOver(fs, names) && Contained(fs, p, seen, sys, names).Ok?
    ensures PlacedThroughout(fs, p, seen, sys, names) <==> Disagreements(fs, p, seen, sys, names) == 0
    decreases |PathsUpTo(names, sys.longest) - seen|
  {
    var turn := TurnAt(fs, p, sys);
    if turn.End? {
      ContainedIsPlace(fs, p, seen, sys, names);
    } else {
      TurnShrinks(fs, p, seen, sys, names);
      if turn.ToParent? {
        PlainParent(p);
        AllIsPlaced(fs, ParentOf(p), seen + {p}, sys, names);
      } else {
        LexicalIsPlain(LinkBase(turn.link, ParentOf(p)), turn.link.target);
        AllIsPlaced(fs, LinkText(turn.link, p), seen + {p}, sys, names);
        HopDecides(fs, p, sys, Contained(fs, p, seen, sys, names).path);
      }
      if Disagreements(fs, p, seen, sys, names) == 0 {
        ContainedIsPlace(fs, p, seen, sys, names);
      }
    }
  }

  lemma {:induction false} LexicalIsPlain(dir: Path, parts: Path)
    requires Plain(dir)
    ensures Plain(Lexical(dir, parts))
    decreases |parts|
  {
    if parts != [] {
      LexicalIsPlain(if parts[0] == UP then ParentOf(dir) else dir + [parts[0]], parts[1..]);
    }
  }

  // ---------------------------------------------------------------------------------------------
  // When text and walk agree

  /** A directory that can be searched, reached through one that can, and no link. */
  ghost predicate RealDirectory(fs: Files, p: Path) {
    if p == [] then p in fs && fs[p].Dir? && fs[p].searchable
    else exists dir :: PlacedAt(fs, ParentOf(p), dir) && RealIn(fs, dir, p[|p| - 1])
  }

  predicate RealIn(fs: Files, dir: Path, name: string) {
    && name != UP
    && dir in fs && fs[dir].Dir? && fs[dir].searchable
    && dir + [name] in fs && fs[dir + [name]].Dir? && fs[dir + [name]].searchable
  }

  /** Every ".." leaves a directory that is no link. */
  ghost predicate PopsReal(fs: Files, dir: Path, parts: Path)
    decreases |parts|
  {
    parts == [] ||
    (if parts[0] == UP then RealDirectory(fs, dir) && PopsReal(fs, ParentOf(dir), parts[1..])
     else PopsReal(fs, dir + [parts[0]], parts[1..]))
  }

  /** Up from a real directory is to the parent on the text. */
  lemma {:induction false} PopIsTextual(fs: Files, dir: Path, rest: Path)
    requires WellFormed(fs) && RealDirectory(fs, dir)
    ensures SamePlace(fs, dir + [UP] + rest, ParentOf(dir) + rest)
  {
    if dir == [] {
      assert [] + [UP] + rest == [UP] + rest && [] + rest == rest && ([UP] + rest)[1..] == rest;
      assert forall h :: Walk(fs, [], [UP] + rest, h, true) == Walk(fs, [], rest, h, true);
    } else {
      var front, last := ParentOf(dir), dir[|dir| - 1];
      var at :| PlacedAt(fs, front, at) && RealIn(fs, at, last);
      var down := [last] + ([UP] + rest);
      assert dir + [UP] + rest == front + down && down[1..] == [UP] + rest && ([UP] + rest)[1..] == rest;
      assert ParentOf(at + [last]) == at;
      assert forall h :: Walk(fs, at, down, h, true) == Walk(fs, at + [last], [UP] + rest, h, true);
      assert forall h :: Walk(fs, at, down, h, true) == Walk(fs, at, rest, h, true);
      forall place ensures PlacedAt(fs, front + down, place) <==> PlacedAt(fs, front + rest, place) {
        PlacedThrough(fs, front, down, at, place);
        PlacedThrough(fs, front, rest, at, place);
        assert Leads(fs, at, down, place) <==> Leads(fs, at, rest, place);
      }
    }
  }

  /** A link agrees with its text if every ".." in it leaves a directory that is no link. */
  lemma {:induction false} RealPopsAgree(fs: Files, dir: Path, parts: Path)
    requires WellFormed(fs) && PopsReal(fs, dir, parts)
    ensures SamePlace(fs, dir + parts, Lexical(dir, parts))
    decreases |parts|
  {
    if parts == [] {
      assert dir + parts == dir;
    } else if parts[0] == UP {
      PopIsTextual(fs, dir, parts[1..]);
      assert dir + [UP] + parts[1..] == dir + parts;
      RealPopsAgree(fs, ParentOf(dir), parts[1..]);
    } else {
      assert dir + [parts[0]] + parts[1..] == dir + parts;
      RealPopsAgree(fs, dir + [parts[0]], parts[1..]);
    }
  }

  lemma {:induction false} PlainPopsNothing(fs: Files, dir: Path, parts: Path)
    requires Plain(parts)
    ensures PopsReal(fs, dir, parts)
    decreases |parts|
  {
    if parts != [] {
      PlainPopsNothing(fs, dir + [parts[0]], parts[1..]);
    }
  }

  /** Where no link goes up, every link agrees with its text. */
  lemma {:induction false} PlainLinksAgree(fs: Files, p: Path, seen: set<Path>, sys: Platform, names: set<string>)
    requires WellFormed(fs) && NoUpwardLinks(fs) && Over(p, names) && LinksOver(fs, names)
    ensures Disagreements(fs, p, seen, sys, names) == 0
    decreases |PathsUpTo(names, sys.longest) - seen|
  {
    var turn := TurnAt(fs, p, sys);
    if p !in seen && !turn.End? {
      TurnShrinks(fs, p, seen, sys, names);
      if turn.ToParent? {
        PlainLinksAgree(fs, ParentOf(p), seen + {p}, sys, names);
      } else {
        var dir := LinkBase(turn.link, ParentOf(p));
        PlainPopsNothing(fs, dir, turn.link.target);
        RealPopsAgree(fs, dir, turn.link.target);
        PlainLinksAgree(fs, LinkText(turn.link, p), seen + {p}, sys, names);
      }
    }
  }

  // ---------------------------------------------------------------------------------------------
  // The implicit database

  lemma {:induction false} WalkEndsPlain(fs: Files, at: Path, rest: Path, hops: nat, create: bool)
    requires Plain(at) && Walk(fs, at, rest, hops, create).Ok?
    ensures Plain(Walk(fs, at, rest, hops, create).path)
    decreases hops, |rest|
  {
    if rest != [] {
      if rest[0] == UP {
        PlainParent(at);
        WalkEndsPlain(fs, ParentOf(at), rest[1..], hops, create);
      } else {
        var next := at + [rest[0]];
        if next in fs && fs[next].Link? {
          WalkEndsPlain(fs, LinkBase(fs[next], at), fs[next].target + rest[1..], hops - 1, create);
        } else {
          WalkEndsPlain(fs, next, rest[1..], hops, create);
        }
      }
    }
  }

  /** The links followed on their text from `p` agree with it. */
  ghost predicate TextsAgree(fs: Files, p: Path, sys: Platform) {
    Disagreements(fs, p, {}, sys, Names(fs, p)) == 0
  }

  /** An implicit database that is accepted is placed below where the home is placed, if the links followed on
      their text from the two agree with it. */
  lemma {:induction false} ImplicitDbIsUnderHome(home: Path, fs: Files, sys: Platform)
    requires WellFormed(fs) && Plain(home) && TextsAgree(fs, home, sys) && TextsAgree(fs, home + [DB], sys)
    requires ResolveDbPath("", home, fs, sys).Implicit?
    ensures exists homePlace, dbPlace ::
      && PlacedAt(fs, home, homePlace) && PlacedAt(fs, home + [DB], dbPlace) && homePlace <= dbPlace
      && LinkFree(fs, homePlace) && LinkFree(fs, dbPlace)
  {
    var db := home + [DB];
    assert Plain(db);
    ContainedIsPlace(fs, home, {}, sys, Names(fs, home));
    ContainedIsPlace(fs, db, {}, sys, Names(fs, db));
    var homePlace := Contained(fs, home, {}, sys, Names(fs, home)).path;
    var dbPlace := Contained(fs, db, {}, sys, Names(fs, db)).path;
    PlaceIsLinkFree(fs, home, homePlace);
    PlaceIsLinkFree(fs, db, dbPlace);
    var g: nat :| Walk(fs, [], db, g, true) == Ok(dbPlace);
    WalkEndsPlain(fs, [], db, g, true);
    WithinIsPrefix(homePlace, dbPlace);
  }

  // ---------------------------------------------------------------------------------------------
  // With links that go up, the place found need not be the place

  /** The home /h holds the database as a dangling link to d/../db, and d links to /x/y. */
  const ESCAPING: Files := map[
    [] := Dir(true), ["h"] := Dir(true), ["x"] := Dir(true), ["x", "y"] := Dir(true),
    ["h", "d"] := Link(true, ["x", "y"]), ["h", DB] := Link(false, ["d", UP, "db"])]

  lemma EscapeIsWellFormed()
    ensures WellFormed(ESCAPING)
  {
    forall p: Path, c: string | p + [c] in ESCAPING
      ensures c != UP && p in ESCAPING && ESCAPING[p].Dir?
    {
      var q := p + [c];
      assert ParentOf(q) == p && q[|q| - 1] == c;
      assert ParentOf(["h"]) == [] && ParentOf(["x"]) == [] && ParentOf(["x", "y"]) == ["x"];
      assert ParentOf(["h", "d"]) == ["h"] && ParentOf(["h", DB]) == ["h"];
    }
  }

  /** Up from /x/y. */
  lemma EscapeTail(hops: nat, create: bool)
    ensures Walk(ESCAPING, [], ["x", "y", UP, "db"], hops, create) == if create then Ok(["x", "db"]) else NoEntry
  {
    var fs := ESCAPING;
    var rest := ["x", "y", UP, "db"];
    assert rest[1..] == ["y", UP, "db"] && ["y", UP, "db"][1..] == [UP, "db"] && [UP, "db"][1..] == ["db"];
    assert [] + ["x"] == ["x"] && ["x"] + ["y"] == ["x", "y"] && ParentOf(["x", "y"]) == ["x"];
    assert ["db"][1..] == [] && ["x"] + ["db"] == ["x", "db"] && ["x", "db"] !in fs;
    assert Walk(fs, ["x"], ["db"], hops, create) == if create then Ok(["x", "db"]) else NoEntry;
    assert Walk(fs, ["x", "y"], [UP, "db"], hops, create) == Walk(fs, ["x"], ["db"], hops, create);
    assert Walk(fs, ["x"], rest[1..], hops, create) == Walk(fs, ["x", "y"], [UP, "db"], hops, create);
  }

  /** Through both links. */
  lemma EscapeWalk(hops: nat, create: bool)
    requires hops >= 2
    ensures Walk(ESCAPING, [], ["h", DB], hops, create) == if create then Ok(["x", "db"]) else NoEntry
  {
    var fs := ESCAPING;
    assert ["h", DB][1..] == [DB] && [DB][1..] == [] && [] + ["h"] == ["h"] && ["h"] + [DB] == ["h", DB];
    assert Walk(fs, [], ["h", DB], hops, create) == Walk(fs, ["h"], [DB], hops, create);
    var target := ["d", UP, "db"];
    assert target + [] == target && target[1..] == [UP, "db"] && ["h"] + ["d"] == ["h", "d"];
    assert Walk(fs, ["h"], [DB], hops, create) == Walk(fs, ["h"], target, hops - 1, create);
    assert ["x", "y"] + [UP, "db"] == ["x", "y", UP, "db"];
    assert Walk(fs, ["h"], target, hops - 1, create) == Walk(fs, [], ["x", "y", UP, "db"], hops - 2, create);
    EscapeTail(hops - 2, create);
  }

  lemma EscapeHome(hops: nat)
    ensures Walk(ESCAPING, [], ["h"], hops, false) == Ok(["h"])
    ensures Walk(ESCAPING, [], ["h", "db"], hops, false) == NoEntry
  {
    var fs := ESCAPING;
    assert ["h"][1..] == [] && [] + ["h"] == ["h"];
    assert ["h", "db"][1..] == ["db"] && ["h"] + ["db"] == ["h", "db"] && ["h", "db"] !in fs;
    assert Walk(fs, ["h"], ["db"], hops, false) == NoEntry;
  }

  lemma EscapeEntries(sys: Platform)
    requires sys.longest >= 2
    ensures Lstat(ESCAPING, ["h", DB], sys) == Ok(["h", DB])
    ensures Lstat(ESCAPING, ["h", "db"], sys) == NoEntry
    ensures ParentOf(["h", DB]) == ParentOf(["h", "db"]) == ["h"]
  {
    EscapeHome(sys.hops);
    assert ["h", DB][..1] == ["h", "db"][..1] == ["h"];
    assert ["h"] + ["db"] == ["h", "db"] && ["h"] + [DB] == ["h", DB];
  }

  lemma EscapeLexical()
    ensures Lexical(["h"], ["d", UP, "db"]) == ["h", "db"]
  {
    assert ["d", UP, "db"][1..] == [UP, "db"] && [UP, "db"][1..] == ["db"] && ["db"][1..] == [];
    assert ["h"] + ["d"] == ["h", "d"] && ParentOf(["h", "d"]) == ["h"] && ["h"] + ["db"] == ["h", "db"];
    assert Lexical(["h", "db"], []) == ["h", "db"];
    assert Lexical(["h"], ["db"]) == ["h", "db"];
    assert Lexical(["h", "d"], [UP, "db"]) == ["h", "db"];
  }

  lemma EscapeContained(sys: Platform, names: set<string>)
    requires sys.hops >= 2 && sys.longest >= 2
    requires Over(["h", DB], names) && LinksOver(ESCAPING, names)
    ensures Contained(ESCAPING, ["h", DB], {}, sys, names) == Ok(["h", "db"])
  {
    var fs, home, db, moved := ESCAPING, ["h"], ["h", DB], ["h", "db"];
    EscapeWalk(sys.hops, false);
    EscapeHome(sys.hops);
    EscapeEntries(sys);
    EscapeLexical();
    var link := fs[db];
    assert Over(home, names);
    LexicalOver(home, link.target, names);
    assert Contained(fs, home, {db} + {moved}, sys, names) == Ok(home);
    assert home + ["db"] == moved;
    assert Contained(fs, moved, {db}, sys, names) == Ok(moved);
    assert {} + {db} == {db};
  }

  /** The implicit database is accepted, and would be created outside the home: the link disagrees with its
      text. */
  lemma UpwardLinkEscapes(sys: Platform)
    requires sys.hops >= 2 && sys.longest >= 2
    ensures ResolveDbPath("", ["h"], ESCAPING, sys) == Implicit(["h", DB])
    ensures Walk(ESCAPING, [], ["h", DB], sys.hops, true) == Ok(["x", "db"])
    ensures !TextsAgree(ESCAPING, ["h", DB], sys)
  {
    var fs, home, db := ESCAPING, ["h"], ["h", DB];
    assert home + [DB] == db;
    EscapeWalk(sys.hops, true);
    EscapeHome(sys.hops);
    EscapeContained(sys, Names(fs, db));
    assert Contained(fs, home, {}, sys, Names(fs, home)) == Ok(home);
    WithinIsPrefix(home, ["h", "db"]);
    if TextsAgree(fs, db, sys) {
      EscapeIsWellFormed();
      ContainedIsPlace(fs, db, {}, sys, Names(fs, db));
      assert PlacedAt(fs, db, ["x", "db"]);
      PlaceIsOne(fs, db, ["x", "db"], ["h", "db"]);
    }
  }
}
