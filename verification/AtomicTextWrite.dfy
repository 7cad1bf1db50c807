/** `writeTextAtomically`, packages/cli/src/atomic-text-write.ts:6-64.

    The disk is a map from absolute paths to what lies there, and a ghost history of every state it went
    through: a crash leaves one of those. Each system call may fail as a fault plan says. A link holds the
    absolute path its target text resolves to. */
module AtomicTextWrite {
  import opened Options

  type Path = string

  datatype Meta = Meta(owner: int, perms: int)

  datatype Entry = Regular(text: string, meta: Meta) | LinkTo(to: Path) | Device

  type Files = map<Path, Entry>

  datatype Code = EACCES | EPERM | EBUSY | ELOOP | OtherCode

  datatype Result = Written | Threw(code: Code)

  // ---------------------------------------------------------------------------------------------
  // The disk

  class Disk {
    var entries: Files
    ghost var history: seq<Files>

    ghost predicate Valid()
      reads this
    {
      history != [] && history[|history| - 1] == entries
    }

    constructor (start: Files)
      ensures Valid() && entries == start && history == [start]
    {
      entries := start;
      history := [start];
    }

    method Put(p: Path, e: Entry)
      requires Valid()
      modifies this
      ensures Valid() && entries == old(entries)[p := e] && history == old(history) + [entries]
    {
      entries := entries[p := e];
      history := history + [entries];
    }

    method Unlink(p: Path)
      requires Valid()
      modifies this
      ensures Valid() && entries == old(entries) - {p} && history == old(history) + [entries]
    {
      entries := entries - {p};
      history := history + [entries];
    }

    /** Replaces whatever lies at `to` in one step. */
    method Rename(from: Path, to: Path)
      requires Valid() && from in entries && from != to
      modifies this
      ensures Valid() && entries == (old(entries) - {from})[to := old(entries)[from]]
      ensures history == old(history) + [entries]
    {
      entries := (entries - {from})[to := entries[from]];
      history := history + [entries];
    }

    /** Writes a file's text in place: it is truncated, then filled; a fault leaves a part of it. */
    method Fill(p: Path, text: string, mode: Meta, fault: Option<Code>, reached: nat) returns (r: Result)
      requires Valid() && (p in entries ==> entries[p].Regular?)
      modifies this
      ensures Valid() && r == (if fault.Some? then Threw(fault.value) else Written)
      ensures old(history) <= history
      ensures forall i :: |old(history)| <= i < |history| ==> history[i] - {p} == old(entries) - {p}
      ensures entries - {p} == old(entries) - {p} && p in entries && entries[p].Regular?
      ensures entries[p].meta == if p in old(entries) then old(entries)[p].meta else mode
      ensures fault.None? ==> entries[p].text == text
    {
      var meta := if p in entries then entries[p].meta else mode;
      Put(p, Regular("", meta));
      if fault.Some? {
        Put(p, Regular(if reached <= |text| then text[..reached] else text, meta));
        return Threw(fault.value);
      }
      Put(p, Regular(text, meta));
      return Written;
    }
  }

  // ---------------------------------------------------------------------------------------------
  // Following links

  const HOPS := 40

  /** The end of the chain of links from `p`, if it is at most `hops` links away. */
  function Chase(fs: Files, p: Path, hops: nat): Option<Path>
    decreases hops
  {
    if p !in fs || !fs[p].LinkTo? then Some(p)
    else if hops == 0 then None
    else Chase(fs, fs[p].to, hops - 1)
  }

  /** The path `n` links on. */
  function Hop(fs: Files, p: Path, n: nat): Path
    decreases n
  {
    if n == 0 || p !in fs || !fs[p].LinkTo? then p else Hop(fs, fs[p].to, n - 1)
  }

  predicate IsLink(fs: Files, p: Path) {
    p in fs && fs[p].LinkTo?
  }

  /** The chase ends within its hops exactly when the chain does, and there. */
  lemma {:induction false} ChaseIsTheChain(fs: Files, p: Path, hops: nat)
    ensures Chase(fs, p, hops) == if IsLink(fs, Hop(fs, p, hops)) then None else Some(Hop(fs, p, hops))
    decreases hops
  {
    if IsLink(fs, p) && hops > 0 {
      ChaseIsTheChain(fs, fs[p].to, hops - 1);
    }
  }

  /** The link-chasing loop. */
  method ChaseLinks(fs: Files, path: Path) returns (target: Option<Path>)
    ensures target == Chase(fs, path, HOPS)
    ensures target.Some? ==> !IsLink(fs, target.value)
  {
    var at, depth := path, 0;
    while IsLink(fs, at)
      invariant 0 <= depth <= HOPS
      invariant Chase(fs, path, HOPS) == Chase(fs, at, HOPS - depth)
      decreases HOPS - depth
    {
      if depth >= HOPS {
        return None;
      }
      at, depth := fs[at].to, depth + 1;
    }
    return Some(at);
  }

  // ---------------------------------------------------------------------------------------------
  // The publisher

  /** Mode 0600. */
  const PRIVATE := 0x180

  /** What each call does when its turn comes. `reached` and `directReached` are how much of the text a
      failed write left; `cleanup` is the final unlink. */
  datatype Plan = Plan(
    stat: Option<Code>, access: Option<Code>, create: Option<Code>, write: Option<Code>, reached: nat,
    restore: Option<Code>, chmod: Option<Code>, rename: Option<Code>, direct: Option<Code>, directReached: nat,
    cleanup: Option<Code>, self: int, mode: int, windows: bool)

  predicate Forgiving(c: Code) {
    c == EACCES || c == EPERM || c == EBUSY
  }

  /** The target holds what it held, or the whole new text. */
  predicate OldOrNew(start: Files, fs: Files, target: Path, content: string) {
    || ((target in fs <==> target in start) && (target in fs ==> fs[target] == start[target]))
    || (target in fs && fs[target].Regular? && fs[target].text == content)
  }

  /** Nothing but the target and the temporary file differs from the start; links are as they were. */
  predicate OnlyTarget(start: Files, fs: Files, target: Path, temporary: Path) {
    fs - {target, temporary} == start - {target, temporary}
  }

  /** Every link is still the same link. */
  predicate LinksKept(start: Files, fs: Files) {
    forall p :: p in start && start[p].LinkTo? ==> p in fs && fs[p] == start[p]
  }

  lemma OnlyTargetKeepsLinks(start: Files, fs: Files, target: Path, temporary: Path)
    requires OnlyTarget(start, fs, target, temporary)
    requires !IsLink(start, target) && temporary !in start
    ensures LinksKept(start, fs)
  {
    forall p | p in start && start[p].LinkTo? ensures p in fs && fs[p] == start[p] {
      assert p in start - {target, temporary};
      assert p in fs - {target, temporary};
      assert (fs - {target, temporary})[p] == (start - {target, temporary})[p];
    }
  }

  /** What the staged file becomes. */
  function FinalMeta(existing: Option<Entry>, plan: Plan): Meta
    requires existing.Some? ==> existing.value.Regular?
  {
    if existing.None? then Meta(plan.self, plan.mode)
    else if plan.windows then Meta(plan.self, existing.value.meta.perms)
    else existing.value.meta
  }

  /** States from `from` on that differ from the start in the temporary file alone. */
  ghost predicate StagedOnly(start: Files, history: seq<Files>, from: nat, temporary: Path) {
    forall i :: from <= i < |history| ==> history[i] - {temporary} == start
  }

  /** States from `from` up to `to` in which the target is whole. */
  ghost predicate AllWhole(start: Files, history: seq<Files>, from: nat, to: nat, target: Path, content: string)
    requires to <= |history|
  {
    forall i :: from <= i < to ==> OldOrNew(start, history[i], target, content)
  }

  ghost predicate AllOnlyTarget(start: Files, history: seq<Files>, from: nat, target: Path, temporary: Path) {
    forall i :: from <= i < |history| ==> OnlyTarget(start, history[i], target, temporary)
  }

  /** Everything up to the rename. `canFallBack` is what the source's flag holds when a call threw. */
  method StageText(disk: Disk, existing: Option<Entry>, content: string, temporary: Path, plan: Plan)
    returns (r: Result, owned: bool, canFallBack: bool)
    requires disk.Valid() && temporary !in disk.entries
    requires existing.Some? ==> existing.value.Regular?
    modifies disk
    ensures disk.Valid() && old(disk.history) <= disk.history
    ensures StagedOnly(old(disk.entries), disk.history, |old(disk.history)|, temporary)
    ensures disk.entries - {temporary} == old(disk.entries)
    ensures r == Written ==>
      temporary in disk.entries && disk.entries[temporary] == Regular(content, FinalMeta(existing, plan))
    ensures r == Written ==> plan.create.None? && plan.write.None?
    ensures r != Written && plan.write.Some? && plan.create.None? ==> !canFallBack
    ensures owned == plan.create.None?
    ensures !owned ==> r != Written && disk.entries == old(disk.entries)
  {
    assert disk.entries - {temporary} == disk.entries;
    if plan.create.Some? {
      return Threw(plan.create.value), false, true;
    }
    ghost var start := disk.entries;
    var meta := Meta(plan.self, PRIVATE);
    disk.Put(temporary, Regular("", meta));
    assert disk.entries - {temporary} == start;
    r := disk.Fill(temporary, content, meta, plan.write, plan.reached);
    if r != Written {
      return r, true, false;
    }
    if existing.Some? && !plan.windows && existing.value.meta.owner != plan.self {
      if plan.restore.Some? {
        return Threw(plan.restore.value), true, true;
      }
      meta := meta.(owner := existing.value.meta.owner);
      disk.Put(temporary, Regular(content, meta));
      assert disk.entries - {temporary} == start;
    }
    if plan.chmod.Some? {
      return Threw(plan.chmod.value), true, true;
    }
    meta := meta.(perms := if existing.Some? then existing.value.meta.perms else plan.mode);
    disk.Put(temporary, Regular(content, meta));
    assert disk.entries - {temporary} == start;
    return Written, true, true;
  }

  /** Staging and the rename. */
  method Stage(disk: Disk, target: Path, content: string, temporary: Path, plan: Plan)
    returns (r: Result, owned: bool, canFallBack: bool)
    requires disk.Valid() && temporary !in disk.entries && temporary != target
    requires target in disk.entries ==> disk.entries[target].Regular?
    modifies disk
    ensures disk.Valid() && old(disk.history) <= disk.history
    ensures AllWhole(old(disk.entries), disk.history, |old(disk.history)|, |disk.history|, target, content)
    ensures AllOnlyTarget(old(disk.entries), disk.history, |old(disk.history)|, target, temporary)
    ensures OnlyTarget(old(disk.entries), disk.entries, target, temporary)
    ensures var existing := if target in old(disk.entries) then Some(old(disk.entries)[target]) else None;
      r == Written ==> (target in disk.entries && temporary !in disk.entries
                        && disk.entries[target] == Regular(content, FinalMeta(existing, plan)))
    ensures r != Written ==> disk.entries - {temporary} == old(disk.entries)
    ensures r != Written && plan.write.Some? && plan.create.None? ==> !canFallBack
    ensures owned == plan.create.None?
    ensures !owned ==> r != Written && disk.entries == old(disk.entries)
  {
    ghost var start := disk.entries;
    var existing := if target in disk.entries then Some(disk.entries[target]) else None;
    r, owned, canFallBack := StageText(disk, existing, content, temporary, plan);
    StagedIsWhole(start, disk.history, |old(disk.history)|, target, temporary, content);
    assert disk.entries - {target, temporary} == (disk.entries - {temporary}) - {target};
    assert start - {target, temporary} == start - {target};
    if r != Written {
      return;
    }
    if plan.rename.Some? {
      return Threw(plan.rename.value), true, true;
    }
    ghost var staged := disk.entries;
    disk.Rename(temporary, target);
    assert disk.entries - {target, temporary} == staged - {target, temporary};
  }

  lemma StagedIsWhole(start: Files, history: seq<Files>, from: nat, target: Path, temporary: Path, content: string)
    requires temporary != target && StagedOnly(start, history, from, temporary)
    ensures AllWhole(start, history, from, |history|, target, content)
    ensures AllOnlyTarget(start, history, from, target, temporary)
  {
    forall i | from <= i < |history|
      ensures OldOrNew(start, history[i], target, content) && OnlyTarget(start, history[i], target, temporary)
    {
      var h := history[i];
      assert target in h <==> target in h - {temporary};
      assert target in h ==> h[target] == (h - {temporary})[target];
      assert h - {target, temporary} == (h - {temporary}) - {target, temporary};
    }
  }

  /** The name of the temporary file is new. */
  predicate FreshName(fs: Files, path: Path, temporary: Path) {
    temporary !in fs && path != temporary && forall p :: p in fs && fs[p].LinkTo? ==> fs[p].to != temporary
  }

  lemma {:induction false} ChaseAvoids(fs: Files, path: Path, hops: nat, temporary: Path)
    requires FreshName(fs, path, temporary) && Chase(fs, path, hops).Some?
    ensures Chase(fs, path, hops).value != temporary
    decreases hops
  {
    if IsLink(fs, path) {
      ChaseAvoids(fs, fs[path].to, hops - 1, temporary);
    }
  }

  /** Publishing to a file, once the chain of links has been followed to `target`. `mark` is where in the
      history the direct write begins, if it does. */
  method Publish(disk: Disk, target: Path, content: string, temporary: Path, plan: Plan)
    returns (r: Result, fellBack: bool, ghost mark: nat)
    requires disk.Valid() && temporary !in disk.entries && temporary != target
    requires target in disk.entries ==> disk.entries[target].Regular?
    modifies disk
    ensures disk.Valid() && old(disk.history) <= disk.history && |old(disk.history)| <= mark <= |disk.history|
    ensures !fellBack ==> mark == |disk.history|
    ensures AllWhole(old(disk.entries), disk.history, |old(disk.history)|, mark, target, content)
    ensures AllOnlyTarget(old(disk.entries), disk.history, |old(disk.history)|, target, temporary)
    ensures r == Written ==>
      target in disk.entries && disk.entries[target].Regular? && disk.entries[target].text == content
    ensures r == Written && !fellBack ==> disk.entries[target].meta == FinalMeta(
      if target in old(disk.entries) then Some(old(disk.entries)[target]) else None, plan)
    ensures r != Written && !fellBack ==> disk.entries - {temporary} == old(disk.entries)
    ensures fellBack ==> plan.create.Some? || plan.write.None?
    ensures plan.cleanup.None? ==> temporary !in disk.entries
  {
    mark := |disk.history|;
    fellBack := false;
    if target in disk.entries && plan.access.Some? {
      return Threw(plan.access.value), false, mark;
    }
    var owned, canFallBack;
    ghost var start := disk.entries;
    r, owned, canFallBack := Stage(disk, target, content, temporary, plan);
    mark := |disk.history|;
    if r != Written && canFallBack && Forgiving(r.code) {
      fellBack := true;
      ghost var before := disk.entries;
      UnlinkedOnly(before, target, temporary);
      r := disk.Fill(target, content, Meta(plan.self, plan.mode), plan.direct, plan.directReached);
      FilledOnly(start, before, disk.history, mark, target, temporary);
      assert temporary in disk.entries <==> temporary in disk.entries - {target};
    }
    if owned && plan.cleanup.None? {
      ghost var before := disk.entries;
      disk.Unlink(temporary);
      UnlinkedOnly(before, target, temporary);
      assert before in disk.history[..|disk.history| - 1];
      if !fellBack {
        mark := |disk.history|;
      }
    }
  }

  lemma UnlinkedOnly(before: Files, target: Path, temporary: Path)
    requires target != temporary
    ensures var after := before - {temporary};
      && after - {temporary} == after && after - {target, temporary} == before - {target, temporary}
      && (target in before <==> target in after) && (target in before ==> before[target] == after[target])
  {
  }

  lemma FilledOnly(start: Files, before: Files, history: seq<Files>, from: nat, target: Path, temporary: Path)
    requires OnlyTarget(start, before, target, temporary)
    requires forall i :: from <= i < |history| ==> history[i] - {target} == before - {target}
    ensures forall i :: from <= i < |history| ==> OnlyTarget(start, history[i], target, temporary)
  {
    forall i | from <= i < |history| ensures OnlyTarget(start, history[i], target, temporary) {
      assert history[i] - {target, temporary} == (history[i] - {target}) - {temporary};
      assert before - {target, temporary} == (before - {target}) - {temporary};
    }
  }

  /** `writeTextAtomically`. In every state the disk goes through, so after a crash at any point, a reader
      of the target sees the whole old or the whole new text until the direct write begins, and that never
      begins after a failed write of the staged text. No link is replaced, and nothing but the target and
      the temporary file changes. A call that throws without the direct write leaves the target as it was;
      a call whose cleanup succeeds leaves no temporary file. */
  method WriteTextAtomically(disk: Disk, path: Path, content: string, temporary: Path, plan: Plan)
    returns (r: Result, fellBack: bool, ghost mark: nat)
    requires disk.Valid() && FreshName(disk.entries, path, temporary)
    modifies disk
    ensures disk.Valid() && old(disk.history) <= disk.history && |old(disk.history)| <= mark <= |disk.history|
    ensures !fellBack ==> mark == |disk.history|
    ensures var target := Chase(old(disk.entries), path, HOPS);
      target.None? ==> r.Threw? && disk.entries == old(disk.entries)
    ensures Chase(old(disk.entries), path, HOPS).Some? ==>
      var target := Chase(old(disk.entries), path, HOPS).value;
      && AllWhole(old(disk.entries), disk.history, |old(disk.history)|, mark, target, content)
      && AllOnlyTarget(old(disk.entries), disk.history, |old(disk.history)|, target, temporary)
      && (forall i :: |old(disk.history)| <= i < |disk.history| ==> LinksKept(old(disk.entries), disk.history[i]))
      && (r != Written && !fellBack ==> disk.entries - {temporary} == old(disk.entries))
      && (target in old(disk.entries) && old(disk.entries)[target].Device? ==> disk.entries == old(disk.entries))
      && (r == Written && !(target in old(disk.entries) && old(disk.entries)[target].Device?) ==>
            target in disk.entries && disk.entries[target].Regular? && disk.entries[target].text == content)
    ensures fellBack ==> plan.create.Some? || plan.write.None?
    ensures plan.cleanup.None? ==> temporary !in disk.entries
  {
    mark := |disk.history|;
    fellBack := false;
    assert disk.entries - {temporary} == disk.entries;
    if plan.stat.Some? {
      return Threw(plan.stat.value), false, mark;
    }
    var found := Chase(disk.entries, path, HOPS);
    if found.None? {
      return Threw(ELOOP), false, mark;
    }
    if found.value in disk.entries && disk.entries[found.value].Device? {
      return if plan.direct.Some? then Threw(plan.direct.value) else Written, false, mark;
    }
    var target := ChaseLinks(disk.entries, path);
    ChaseAvoids(disk.entries, path, HOPS, temporary);
    r, fellBack, mark := Publish(disk, target.value, content, temporary, plan);
    forall i | |old(disk.history)| <= i < |disk.history| ensures LinksKept(old(disk.entries), disk.history[i]) {
      OnlyTargetKeepsLinks(old(disk.entries), disk.history[i], target.value, temporary);
    }
  }
}
