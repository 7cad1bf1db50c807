/** Learned host identities, packages/cli/src/host-bindings.ts: trust on first use, contradictions kept
    visible, and a read-modify-write of one JSON file under an advisory directory lock. */
module HostBindings {
  import opened Options

  datatype Conflict = Conflict(hostId: string, observedAt: string)

  datatype Binding = Binding(
    hostId: string,
    firstObservedAt: string,
    lastObservedAt: string,
    observedUrl: Option<string>,
    conflict: Option<Conflict>)

  type Bindings = map<string, Binding>

  /** One observation of an alias; an empty `url` is none. */
  datatype Observation = Observation(alias: string, hostId: string, url: string, at: string)

  datatype Outcome = Bound | Confirmed | Contradicted

  // ---------------------------------------------------------------------------------------------
  // The file

  /** What the reader sees of a stored conflict and binding; None is an absent or non-string field. */
  datatype RawConflict = NoConflict | RawConflict(hostId: Option<string>, observedAt: Option<string>)

  datatype RawBinding =
    | NotAnObject
    | Fields(hostId: Option<string>, firstObservedAt: Option<string>, lastObservedAt: Option<string>,
             observedUrl: Option<string>, conflict: RawConflict)

  /** Missing, corrupt and future-version files all read as empty. */
  datatype File = Unreadable | Entries(raw: map<string, RawBinding>)

  function OrEmpty(s: Option<string>): string {
    if s.Some? then s.value else ""
  }

  predicate Loads(raw: RawBinding) {
    raw.Fields? && raw.hostId.Some? && raw.hostId.value != ""
  }

  function LoadBinding(raw: RawBinding): Binding
    requires Loads(raw)
  {
    Binding(raw.hostId.value, OrEmpty(raw.firstObservedAt), OrEmpty(raw.lastObservedAt),
            if raw.observedUrl == Some("") then None else raw.observedUrl,
            if raw.conflict.RawConflict? && raw.conflict.hostId.Some?
            then Some(Conflict(raw.conflict.hostId.value, OrEmpty(raw.conflict.observedAt))) else None)
  }

  function LoadEntries(raw: map<string, RawBinding>): Bindings {
    map alias | alias in raw && Loads(raw[alias]) :: LoadBinding(raw[alias])
  }

  function Load(file: File): Bindings {
    if file.Unreadable? then map[] else LoadEntries(file.raw)
  }

  function WriteBinding(b: Binding): RawBinding {
    Fields(Some(b.hostId), Some(b.firstObservedAt), Some(b.lastObservedAt), b.observedUrl,
           if b.conflict.Some? then RawConflict(Some(b.conflict.value.hostId), Some(b.conflict.value.observedAt))
           else NoConflict)
  }

  function Write(bindings: Bindings): File {
    Entries(map alias | alias in bindings :: WriteBinding(bindings[alias]))
  }

  /** `loadHostBindings`: fills a record entry by entry. */
  method LoadHostBindings(file: File) returns (out: Bindings)
    ensures out == Load(file)
  {
    out := map[];
    if file.Unreadable? {
      return;
    }
    var left := file.raw.Keys;
    while left != {}
      invariant left <= file.raw.Keys
      invariant out == map alias | alias in file.raw && alias !in left && Loads(file.raw[alias]) :: LoadBinding(file.raw[alias])
      decreases left
    {
      var alias :| alias in left;
      left := left - {alias};
      if Loads(file.raw[alias]) {
        out := out[alias := LoadBinding(file.raw[alias])];
      }
    }
  }

  /** A binding that survives being written and read. */
  predicate Durable(b: Binding) {
    b.hostId != "" && b.observedUrl != Some("")
  }

  lemma BindingRoundTrip(b: Binding)
    ensures Loads(WriteBinding(b)) && LoadBinding(WriteBinding(b)) == b <==> Durable(b)
  {
  }

  /** Reading undoes writing exactly when every binding has an id and no empty url. */
  lemma LoadUndoesWrite(bindings: Bindings)
    ensures Load(Write(bindings)) == bindings <==> forall alias :: alias in bindings ==> Durable(bindings[alias])
  {
    var back := Load(Write(bindings));
    forall alias | alias in bindings
      ensures alias in back && back[alias] == bindings[alias] <==> Durable(bindings[alias])
    {
      BindingRoundTrip(bindings[alias]);
    }
    if forall alias :: alias in bindings ==> Durable(bindings[alias]) {
      assert back == bindings;
    }
  }

  // ---------------------------------------------------------------------------------------------
  // One observation

  function Record(bindings: Bindings, o: Observation): (r: (Bindings, Outcome)) {
    if o.alias !in bindings then
      (bindings[o.alias := Binding(o.hostId, o.at, o.at, if o.url != "" then Some(o.url) else None, None)], Bound)
    else
      var existing := bindings[o.alias];
      if existing.hostId == o.hostId then
        (bindings[o.alias := existing.(lastObservedAt := o.at,
           observedUrl := if o.url != "" && existing.conflict.None? then Some(o.url) else existing.observedUrl)], Confirmed)
      else
        (bindings[o.alias := existing.(conflict := Some(Conflict(o.hostId, o.at)))], Contradicted)
  }

  /** The sidecar as the object that reads, edits and rewrites it. */
  class Sidecar {
    var file: File

    constructor (file: File)
      ensures this.file == file
    {
      this.file := file;
    }

    /** `recordUnderLock`. */
    method RecordUnderLock(o: Observation) returns (outcome: Outcome)
      modifies this
      ensures file == Write(Record(Load(old(file)), o).0)
      ensures outcome == Record(Load(old(file)), o).1
    {
      var bindings := LoadHostBindings(file);
      if o.alias !in bindings {
        bindings := bindings[o.alias := Binding(o.hostId, o.at, o.at, if o.url != "" then Some(o.url) else None, None)];
        outcome := Bound;
      } else if bindings[o.alias].hostId == o.hostId {
        var binding := bindings[o.alias].(lastObservedAt := o.at);
        if o.url != "" && binding.conflict.None? {
          binding := binding.(observedUrl := Some(o.url));
        }
        bindings := bindings[o.alias := binding];
        outcome := Confirmed;
      } else {
        bindings := bindings[o.alias := bindings[o.alias].(conflict := Some(Conflict(o.hostId, o.at)))];
        outcome := Contradicted;
      }
      file := Write(bindings);
    }
  }

  // ---------------------------------------------------------------------------------------------
  // A whole history

  /** The file after a history of observations, each read, applied and written back. */
  function FileAfter(file: File, history: seq<Observation>): File {
    if history == [] then file
    else Write(Record(Load(FileAfter(file, history[..|history| - 1])), history[|history| - 1]).0)
  }

  function About(history: seq<Observation>, alias: string): seq<Observation> {
    if history == [] then []
    else
      var k := |history| - 1;
      About(history[..k], alias) + (if history[k].alias == alias then [history[k]] else [])
  }

  /** The observations from the first one that carries an id. */
  function FromFirstId(h: seq<Observation>): (r: seq<Observation>)
    ensures r != [] ==> r[0].hostId != ""
  {
    if h == [] || h[0].hostId != "" then h else FromFirstId(h[1..])
  }

  /** When `id` was last seen. */
  function LastSeen(h: seq<Observation>, id: string): string {
    if h == [] then ""
    else if h[|h| - 1].hostId == id then h[|h| - 1].at
    else LastSeen(h[..|h| - 1], id)
  }

  /** The latest observation of any other id. */
  function LatestOther(h: seq<Observation>, id: string): Option<Conflict> {
    if h == [] then None
    else if h[|h| - 1].hostId != id then Some(Conflict(h[|h| - 1].hostId, h[|h| - 1].at))
    else LatestOther(h[..|h| - 1], id)
  }

  /** The last url seen with `id` before any other id was seen. */
  function LastUrl(h: seq<Observation>, id: string): Option<string> {
    if h == [] || h[0].hostId != id then None
    else
      var later := LastUrl(h[1..], id);
      if later.Some? then later else if h[0].url != "" then Some(h[0].url) else None
  }

  /** What a history of one alias amounts to, said without replaying it. */
  function Summary(history: seq<Observation>): Option<Binding> {
    var h := FromFirstId(history);
    if h == [] then None
    else
      var id := h[0].hostId;
      Some(Binding(id, h[0].at, LastSeen(h, id), LastUrl(h, id), LatestOther(h, id)))
  }

  lemma {:induction false} FromFirstIdExtends(h: seq<Observation>, o: Observation)
    ensures FromFirstId(h + [o]) ==
      if FromFirstId(h) != [] then FromFirstId(h) + [o] else if o.hostId != "" then [o] else []
  {
    if h == [] {
      assert h + [o] == [o];
      assert [o][1..] == [];
    } else if h[0].hostId == "" {
      assert (h + [o])[1..] == h[1..] + [o];
      FromFirstIdExtends(h[1..], o);
    }
  }

  lemma {:induction false} LastUrlExtends(h: seq<Observation>, id: string, o: Observation)
    ensures LastUrl(h + [o], id) ==
      if o.hostId == id && o.url != "" && LatestOther(h, id).None? then Some(o.url) else LastUrl(h, id)
  {
    if h == [] {
      assert h + [o] == [o];
      assert [o][1..] == [];
    } else {
      assert (h + [o])[1..] == h[1..] + [o];
      LatestOtherFront(h, id);
      if h[0].hostId == id {
        LastUrlExtends(h[1..], id, o);
      }
    }
  }

  lemma {:induction false} LatestOtherFront(h: seq<Observation>, id: string)
    requires h != []
    ensures LatestOther(h, id).None? <==> h[0].hostId == id && LatestOther(h[1..], id).None?
  {
    if |h| > 1 {
      assert h[1..][..|h| - 2] == h[..|h| - 1][1..];
      LatestOtherFront(h[..|h| - 1], id);
    }
  }

  function View(file: File, alias: string): Option<Binding> {
    if alias in Load(file) then Some(Load(file)[alias]) else None
  }

  /** One write seen through the reader. */
  lemma WriteSeen(file: File, o: Observation, alias: string)
    ensures var next := Write(Record(Load(file), o).0);
      View(next, alias) ==
        if alias != o.alias then View(file, alias)
        else if View(file, alias).None? then
          if o.hostId == "" then None
          else Some(Binding(o.hostId, o.at, o.at, if o.url != "" then Some(o.url) else None, None))
        else Some(Record(Load(file), o).0[o.alias])
  {
    var bindings := Load(file);
    var b := Record(bindings, o).0;
    forall a | a in bindings ensures Durable(bindings[a]) {
      LoadedDurable(file, a);
    }
    if alias in b {
      BindingRoundTrip(b[alias]);
    }
  }

  lemma LoadedDurable(file: File, alias: string)
    requires alias in Load(file)
    ensures Durable(Load(file)[alias])
  {
  }

  lemma SummaryExtends(h: seq<Observation>, o: Observation)
    ensures Summary(h + [o]) ==
      match Summary(h)
      case None =>
        if o.hostId == "" then None
        else Some(Binding(o.hostId, o.at, o.at, if o.url != "" then Some(o.url) else None, None))
      case Some(b) =>
        if o.hostId == b.hostId then
          Some(b.(lastObservedAt := o.at,
                  observedUrl := if o.url != "" && b.conflict.None? then Some(o.url) else b.observedUrl))
        else Some(b.(conflict := Some(Conflict(o.hostId, o.at))))
  {
    FromFirstIdExtends(h, o);
    var f := FromFirstId(h);
    if f != [] {
      assert (f + [o])[..|f|] == f;
      LastUrlExtends(f, f[0].hostId, o);
    } else if o.hostId != "" {
      SummaryOfOne(o);
    }
  }

  lemma SummaryOfOne(o: Observation)
    requires o.hostId != ""
    ensures LastSeen([o], o.hostId) == o.at && LatestOther([o], o.hostId) == None
    ensures LastUrl([o], o.hostId) == if o.url != "" then Some(o.url) else None
  {
    var none: seq<Observation> := [];
    assert [o][1..] == none && [o][..0] == none;
    assert LastUrl(none, o.hostId).None? && LatestOther(none, o.hostId).None?;
  }

  /** Main result: after any history, what a reader finds for an alias is its summary: the first id ever
      seen, the latest contradiction (never cleared), and the last url seen with the bound id before
      any contradiction. */
  lemma {:induction false} HistoryIsSummarized(history: seq<Observation>, alias: string)
    ensures View(FileAfter(Unreadable, history), alias) == Summary(About(history, alias))
  {
    if history != [] {
      var k := |history| - 1;
      HistoryIsSummarized(history[..k], alias);
      var file := FileAfter(Unreadable, history[..k]);
      WriteSeen(file, history[k], alias);
      if history[k].alias == alias {
        SummaryExtends(About(history[..k], alias), history[k]);
      } else {
        assert About(history[..k], alias) + [] == About(history[..k], alias);
      }
    }
  }

  lemma {:induction false} ConflictIsNeverCleared(h: seq<Observation>, more: seq<Observation>)
    requires Summary(h).Some? && Summary(h).value.conflict.Some?
    ensures Summary(h + more).Some? && Summary(h + more).value.conflict.Some?
    ensures Summary(h + more).value.hostId == Summary(h).value.hostId
    ensures Summary(h + more).value.observedUrl == Summary(h).value.observedUrl
  {
    if more == [] {
      assert h + more == h;
    } else {
      var k := |more| - 1;
      ConflictIsNeverCleared(h, more[..k]);
      assert h + more == (h + more[..k]) + [more[k]];
      SummaryExtends(h + more[..k], more[k]);
    }
  }

  // ---------------------------------------------------------------------------------------------
  // Concurrent writers

  const LOCK_STALE_MS := 2_000

  /** Where a writer of one observation is. */
  datatype Writer =
    | Waiting
    | Holding
    | Loaded(view: Bindings)
    | Staged(next: File)
    | Renamed
    | Done

  datatype Lock = Free | Taken(owner: nat, since: nat)

  /** `order` is history: the writers in the order in which they won the lock. */
  datatype World = World(clock: nat, lock: Lock, file: File, writers: seq<Writer>, order: seq<nat>)

  datatype Step =
    | Tick(ms: nat)
    | Win(i: nat)                 // mkdir succeeds
    | RemoveStale(i: nat)         // a waiter finds the lock older than the limit and removes it
    | Read(i: nat)
    | Stage(i: nat)
    | Rename(i: nat)
    | Unlock(i: nat)

  /** Runs in which no lock outlives the limit: time does not pass it while the lock is held. A writer
      that gives up waiting writes nothing here. */
  predicate Enabled(w: World, step: Step) {
    match step
    case Tick(ms) => w.lock.Taken? ==> w.clock + ms - w.lock.since <= LOCK_STALE_MS
    case Win(i) => i < |w.writers| && w.writers[i].Waiting? && w.lock.Free?
    case RemoveStale(i) =>
      i < |w.writers| && w.writers[i].Waiting? && w.lock.Taken? && w.clock - w.lock.since > LOCK_STALE_MS
    case Read(i) => i < |w.writers| && w.writers[i].Holding?
    case Stage(i) => i < |w.writers| && w.writers[i].Loaded?
    case Rename(i) => i < |w.writers| && w.writers[i].Staged?
    case Unlock(i) => i < |w.writers| && w.writers[i].Renamed?
  }

  function Put(w: World, i: nat, x: Writer): World
    requires i < |w.writers|
  {
    w.(writers := w.writers[i := x])
  }

  function Apply(w: World, observations: seq<Observation>, step: Step): World
    requires Enabled(w, step) && |observations| == |w.writers|
  {
    match step
    case Tick(ms) => w.(clock := w.clock + ms)
    case Win(i) => Put(w, i, Holding).(lock := Taken(i, w.clock), order := w.order + [i])
    case RemoveStale(_) => w.(lock := Free)
    case Read(i) => Put(w, i, Loaded(Load(w.file)))
    case Stage(i) => Put(w, i, Staged(Write(Record(w.writers[i].view, observations[i]).0)))
    case Rename(i) => Put(w, i, Renamed).(file := w.writers[i].next)
    case Unlock(i) => Put(w, i, Done).(lock := Free)
  }

  predicate Critical(x: Writer) {
    x.Holding? || x.Loaded? || x.Staged? || x.Renamed?
  }

  function Ordered(observations: seq<Observation>, order: seq<nat>): seq<Observation>
    requires forall k :: 0 <= k < |order| ==> order[k] < |observations|
  {
    seq(|order|, k requires 0 <= k < |order| => observations[order[k]])
  }

  /** The winners whose rename has happened. */
  function Published(w: World): seq<nat> {
    if w.lock.Taken? && w.lock.owner < |w.writers| && !w.writers[w.lock.owner].Renamed? && |w.order| > 0
    then w.order[..|w.order| - 1] else w.order
  }

  ghost predicate OrderOk(w: World) {
    && (forall k :: 0 <= k < |w.order| ==> w.order[k] < |w.writers| && !w.writers[w.order[k]].Waiting?)
    && (forall j, k :: 0 <= j < k < |w.order| ==> w.order[j] != w.order[k])
    && (forall i :: 0 <= i < |w.writers| && !w.writers[i].Waiting? ==> i in w.order)
  }

  ghost predicate LockOk(w: World) {
    && (w.lock.Taken? ==>
          && w.lock.owner < |w.writers| && Critical(w.writers[w.lock.owner])
          && |w.order| > 0 && w.order[|w.order| - 1] == w.lock.owner
          && w.lock.since <= w.clock && w.clock - w.lock.since <= LOCK_STALE_MS)
    && (forall i :: 0 <= i < |w.writers| && Critical(w.writers[i]) ==> w.lock.Taken? && w.lock.owner == i)
  }

  ghost predicate Good(w: World, start: File, observations: seq<Observation>) {
    && |observations| == |w.writers| && OrderOk(w) && LockOk(w)
    && (w.lock.Taken? && w.writers[w.lock.owner].Loaded? ==> w.writers[w.lock.owner].view == Load(w.file))
    && (w.lock.Taken? && w.writers[w.lock.owner].Staged? ==>
          w.writers[w.lock.owner].next == Write(Record(Load(w.file), observations[w.lock.owner]).0))
    && w.file == FileAfter(start, Ordered(observations, Published(w)))
  }

  lemma FileAfterExtends(start: File, history: seq<Observation>, o: Observation)
    ensures FileAfter(start, history + [o]) == Write(Record(Load(FileAfter(start, history)), o).0)
  {
    assert (history + [o])[..|history|] == history;
  }

  lemma WinKeeps(w: World, start: File, observations: seq<Observation>, i: nat)
    requires Good(w, start, observations) && Enabled(w, Win(i))
    ensures Good(Apply(w, observations, Win(i)), start, observations)
  {
    var v := Apply(w, observations, Win(i));
    WinOrders(w, v, i);
    assert Published(v) == w.order == Published(w);
    assert Ordered(observations, Published(v)) == Ordered(observations, Published(w));
  }

  /** The winner comes last in the order. */
  lemma WinOrders(w: World, v: World, i: nat)
    requires OrderOk(w) && i < |w.writers| && w.writers[i].Waiting?
    requires v.order == w.order + [i] && v.writers == w.writers[i := Holding]
    ensures OrderOk(v) && v.order[..|w.order|] == w.order && v.order[|w.order|] == i
  {
    assert i !in w.order;
    forall j | 0 <= j < |v.writers| && !v.writers[j].Waiting? ensures j in v.order {
      if j != i {
        assert j in w.order;
      }
    }
  }

  lemma OrderedSplits(observations: seq<Observation>, order: seq<nat>)
    requires order != [] && forall k :: 0 <= k < |order| ==> order[k] < |observations|
    ensures Ordered(observations, order)
         == Ordered(observations, order[..|order| - 1]) + [observations[order[|order| - 1]]]
  {
  }

  /** The owner of the lock stays in it. */
  lemma LockKept(w: World, v: World, i: nat)
    requires LockOk(w) && i < |w.writers| && Critical(w.writers[i]) && |v.writers| == |w.writers|
    requires v.lock == w.lock && v.clock == w.clock && v.order == w.order && Critical(v.writers[i])
    requires forall j :: 0 <= j < |w.writers| && j != i ==> v.writers[j] == w.writers[j]
    ensures LockOk(v)
  {
  }

  lemma RenameFile(w: World, start: File, observations: seq<Observation>, i: nat)
    requires Good(w, start, observations) && Enabled(w, Rename(i))
    ensures w.lock == Taken(i, w.lock.since) && w.order != []
    ensures w.writers[i].next == FileAfter(start, Ordered(observations, w.order))
  {
    assert Critical(w.writers[i]);
    OrderedSplits(observations, w.order);
    FileAfterExtends(start, Ordered(observations, w.order[..|w.order| - 1]), observations[i]);
  }

  lemma RenameKeeps(w: World, start: File, observations: seq<Observation>, i: nat)
    requires Good(w, start, observations) && Enabled(w, Rename(i))
    ensures Good(Apply(w, observations, Rename(i)), start, observations)
  {
    var v := Apply(w, observations, Rename(i));
    RenameFile(w, start, observations, i);
    OrderKept(w, v, i);
    LockKept(w, v, i);
    assert Published(v) == w.order;
  }

  /** Moving a writer between non-waiting states keeps the order. */
  lemma OrderKept(w: World, v: World, i: nat)
    requires OrderOk(w) && i < |w.writers| && !w.writers[i].Waiting? && v.order == w.order
    requires |v.writers| == |w.writers| && !v.writers[i].Waiting?
    requires forall j :: 0 <= j < |w.writers| && j != i ==> v.writers[j] == w.writers[j]
    ensures OrderOk(v)
  {
    forall j | 0 <= j < |v.writers| && !v.writers[j].Waiting? ensures j in v.order {
      assert j in w.order;
    }
  }

  lemma TickKeeps(w: World, start: File, observations: seq<Observation>, ms: nat)
    requires Good(w, start, observations) && Enabled(w, Tick(ms))
    ensures Good(Apply(w, observations, Tick(ms)), start, observations)
  {
    var v := Apply(w, observations, Tick(ms));
    OrderSame(w, v);
    assert LockOk(v);
    assert Published(v) == Published(w);
  }

  lemma OrderSame(w: World, v: World)
    requires OrderOk(w) && v.order == w.order && v.writers == w.writers
    ensures OrderOk(v)
  {
  }

  /** No lock is ever stale. */
  lemma NeverStale(w: World, start: File, observations: seq<Observation>, i: nat)
    requires Good(w, start, observations)
    ensures !Enabled(w, RemoveStale(i))
  {
  }

  lemma ReadKeeps(w: World, start: File, observations: seq<Observation>, i: nat)
    requires Good(w, start, observations) && Enabled(w, Read(i))
    ensures Good(Apply(w, observations, Read(i)), start, observations)
  {
    var v := Apply(w, observations, Read(i));
    assert Critical(w.writers[i]);
    OrderKept(w, v, i);
    assert Published(v) == Published(w);
  }

  lemma StageKeeps(w: World, start: File, observations: seq<Observation>, i: nat)
    requires Good(w, start, observations) && Enabled(w, Stage(i))
    ensures Good(Apply(w, observations, Stage(i)), start, observations)
  {
    var v := Apply(w, observations, Stage(i));
    assert Critical(w.writers[i]);
    OrderKept(w, v, i);
    assert Published(v) == Published(w);
  }

  lemma UnlockKeeps(w: World, start: File, observations: seq<Observation>, i: nat)
    requires Good(w, start, observations) && Enabled(w, Unlock(i))
    ensures Good(Apply(w, observations, Unlock(i)), start, observations)
  {
    var v := Apply(w, observations, Unlock(i));
    assert Critical(w.writers[i]);
    OrderKept(w, v, i);
    assert Published(v) == Published(w);
  }

  lemma StepKeeps(w: World, start: File, observations: seq<Observation>, step: Step)
    requires Good(w, start, observations) && Enabled(w, step)
    ensures Good(Apply(w, observations, step), start, observations)
  {
    match step
    case Tick(ms) => TickKeeps(w, start, observations, ms);
    case Win(i) => WinKeeps(w, start, observations, i);
    case RemoveStale(i) => NeverStale(w, start, observations, i);
    case Read(i) => ReadKeeps(w, start, observations, i);
    case Stage(i) => StageKeeps(w, start, observations, i);
    case Rename(i) => RenameKeeps(w, start, observations, i);
    case Unlock(i) => UnlockKeeps(w, start, observations, i);
  }

  function Start(start: File, observations: seq<Observation>): World {
    World(0, Free, start, seq(|observations|, _ => Waiting), [])
  }

  predicate Runs(w: World, observations: seq<Observation>, steps: seq<Step>)
    requires |observations| == |w.writers|
    decreases steps
  {
    steps == [] || (Enabled(w, steps[0]) && Runs(Apply(w, observations, steps[0]), observations, steps[1..]))
  }

  function Reached(w: World, observations: seq<Observation>, steps: seq<Step>): World
    requires |observations| == |w.writers| && Runs(w, observations, steps)
    decreases steps
  {
    if steps == [] then w else Reached(Apply(w, observations, steps[0]), observations, steps[1..])
  }

  lemma {:induction false} RunKeeps(w: World, start: File, observations: seq<Observation>, steps: seq<Step>)
    requires Good(w, start, observations) && Runs(w, observations, steps)
    ensures Good(Reached(w, observations, steps), start, observations)
    decreases steps
  {
    if steps != [] {
      StepKeeps(w, start, observations, steps[0]);
      RunKeeps(Apply(w, observations, steps[0]), start, observations, steps[1..]);
    }
  }

  /** Main result for concurrent writers: the file is always the fold of the observations whose rename
      happened, in lock order, each once; when every writer is done none is missing; and no lock is
      ever taken over. */
  lemma WritersAreSerialized(start: File, observations: seq<Observation>, steps: seq<Step>)
    requires Runs(Start(start, observations), observations, steps)
    ensures var w := Reached(Start(start, observations), observations, steps);
      && (forall k :: 0 <= k < |w.order| ==> w.order[k] < |observations|)
      && (forall j, k :: 0 <= j < k < |w.order| ==> w.order[j] != w.order[k])
      && w.file == FileAfter(start, Ordered(observations, Published(w)))
      && ((forall i :: 0 <= i < |w.writers| ==> w.writers[i].Done?) ==>
            Published(w) == w.order && forall i: nat :: i < |observations| ==> i in w.order)
      && (forall i: nat :: !Enabled(w, RemoveStale(i)))
  {
    RunKeeps(Start(start, observations), start, observations, steps);
    var w := Reached(Start(start, observations), observations, steps);
    if forall i :: 0 <= i < |w.writers| ==> w.writers[i].Done? {
      assert !w.lock.Taken?;
      forall i: nat | i < |observations| ensures i in w.order {
        assert w.writers[i].Done?;
      }
    }
  }
}
