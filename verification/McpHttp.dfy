/** The grants of the MCP endpoint: the token file, the commands that change it under a lock, and the
    server's rule for serving without a grant. packages/cli/src/mcp-http.ts:45-142 and 342-474.

    Hashing is a parameter; distinct tokens are taken to have distinct digests where that is said. A
    command runs in steps, interleaved with others, and may die between any two of them. */
module McpHttp {
  import opened Options

  type Digest = string

  /** One caller's grant; `access` is its seat, rigs, roots and flags. */
  datatype Grant = Grant(name: string, digest: Digest, access: string)

  /** The token file: absent, unreadable or malformed, or a list of grants. */
  datatype Tokens = Missing | Broken | Grants(grants: seq<Grant>)

  // ---------------------------------------------------------------------------------------------
  // The two commands, one at a time

  datatype Op = Add(grant: Grant) | Revoke(name: string)

  /** Whether a grant was added or removed; a refused add and an unreadable file throw. `ThrewLate` is a throw
      after the update took effect. */
  datatype Result = Done(changed: bool) | Threw | ThrewLate

  predicate Named(gs: seq<Grant>, name: string) {
    exists i :: 0 <= i < |gs| && gs[i].name == name
  }

  function Without(gs: seq<Grant>, name: string): (r: seq<Grant>)
    ensures forall g :: g in r <==> g in gs && g.name != name
  {
    if gs == [] then []
    else if gs[0].name == name then Without(gs[1..], name)
    else [gs[0]] + Without(gs[1..], name)
  }

  function ListOf(t: Tokens): seq<Grant> {
    if t.Grants? then t.grants else []
  }

  /** What a command makes of the file it read, and what it returns. */
  function Apply(t: Tokens, op: Op): (Tokens, Result) {
    if t.Broken? then (t, Threw)
    else
      match op
      case Add(g) =>
        if Named(ListOf(t), g.name) then (t, Threw) else (Grants(ListOf(t) + [g]), Done(true))
      case Revoke(name) =>
        if Named(ListOf(t), name) then (Grants(Without(ListOf(t), name)), Done(true)) else (t, Done(false))
  }

  // ---------------------------------------------------------------------------------------------
  // Many commands at once

  /** Where a command is. `at` is its place in the order the lock gave. */
  datatype Command =
    | Waiting(op: Op)
    | Holding(op: Op)
    | HasRead(op: Op, seen: Tokens)
    | Published(op: Op, at: nat, result: Result)
    | Unwritten(op: Op)
    | Finished(op: Op, at: nat, result: Result)
    | GaveUp(op: Op)
    | Died(op: Op)

  /** `log` is the commands whose update has taken effect, in the order the lock was held. */
  datatype World = World(file: Tokens, lock: Option<nat>, commands: map<nat, Command>, log: seq<Op>)

  datatype Step =
    | Start(op: Op)
    | Acquire           // the exclusive create succeeds
    | TimeOut           // the lock stayed taken for the whole wait
    | ReadFile
    | Publish           // the temporary file is renamed over the token file, or there is nothing to write
    | WriteFails        // the temporary file is not written, or not renamed
    | ModeFails         // the mode of the renamed file is not set
    | Release
    | Die               // or the lock could not be removed
    | Recover           // an operator removes the lock that a dead holder left

  predicate Writes(c: Command)
    requires c.HasRead?
  {
    Apply(c.seen, c.op).1 == Done(true)
  }

  predicate Enabled(w: World, p: nat, step: Step) {
    match step
    case Start(_) => p !in w.commands
    case Acquire => p in w.commands && w.commands[p].Waiting? && w.lock.None?
    case TimeOut => p in w.commands && w.commands[p].Waiting? && w.lock.Some?
    case ReadFile => p in w.commands && w.commands[p].Holding?
    case Publish => p in w.commands && w.commands[p].HasRead?
    case WriteFails => p in w.commands && w.commands[p].HasRead? && Writes(w.commands[p])
    case ModeFails => p in w.commands && w.commands[p].HasRead? && Writes(w.commands[p])
    case Release => p in w.commands && (w.commands[p].Published? || w.commands[p].Unwritten?)
    case Die => p in w.commands && !w.commands[p].Finished? && !w.commands[p].GaveUp?
    case Recover => p in w.commands && w.commands[p].Died? && w.lock == Some(p)
  }

  function Now(w: World, p: nat, c: Command): World {
    w.(commands := w.commands[p := c])
  }

  function TakePublish(w: World, p: nat, result: Result): World
    requires p in w.commands && w.commands[p].HasRead?
  {
    var c := w.commands[p];
    var file := if Writes(c) then Apply(c.seen, c.op).0 else w.file;
    Now(w.(file := file, log := w.log + [c.op]), p, Published(c.op, |w.log|, result))
  }

  function Take(w: World, p: nat, step: Step): World
    requires Enabled(w, p, step)
  {
    match step
    case Start(op) => Now(w, p, Waiting(op))
    case Acquire => Now(w.(lock := Some(p)), p, Holding(w.commands[p].op))
    case TimeOut => Now(w, p, GaveUp(w.commands[p].op))
    case ReadFile => Now(w, p, HasRead(w.commands[p].op, w.file))
    case Publish => TakePublish(w, p, Apply(w.commands[p].seen, w.commands[p].op).1)
    case WriteFails => Now(w, p, Unwritten(w.commands[p].op))
    case ModeFails => TakePublish(w, p, ThrewLate)
    case Release =>
      var c := w.commands[p];
      Now(w.(lock := None), p, if c.Unwritten? then GaveUp(c.op) else Finished(c.op, c.at, c.result))
    case Die => Now(w, p, Died(w.commands[p].op))
    case Recover => w.(lock := None)
  }

  predicate Begins(w: World) {
    w.lock.None? && w.commands == map[] && w.log == []
  }

  /** A run from `w` by the numbered commands' steps. */
  ghost predicate Runs(w: World, steps: seq<(nat, Step)>, end: World)
    decreases |steps|
  {
    if steps == [] then w == end
    else Enabled(w, steps[0].0, steps[0].1) && Runs(Take(w, steps[0].0, steps[0].1), steps[1..], end)
  }

  /** The commands run one after the other. */
  function Replay(t: Tokens, log: seq<Op>): Tokens {
    if log == [] then t else Apply(Replay(t, log[..|log| - 1]), log[|log| - 1]).0
  }

  predicate InLock(c: Command) {
    c.Holding? || c.HasRead? || c.Published? || c.Unwritten?
  }

  predicate Placed(c: Command) {
    c.Published? || c.Finished?
  }

  /** A command answers what it does, or throws though it did it. */
  predicate Answers(result: Result, before: Tokens, op: Op) {
    var due := Apply(before, op).1;
    result == due || (due == Done(true) && result == ThrewLate)
  }

  /** What holds of a command in every reachable world. */
  predicate Sound(first: Tokens, w: World, p: nat)
    requires p in w.commands
  {
    var c := w.commands[p];
    && (InLock(c) ==> w.lock == Some(p))
    && (c.HasRead? ==> c.seen == w.file)
    && (Placed(c) ==>
          (c.at < |w.log| && w.log[c.at] == c.op && Answers(c.result, Replay(first, w.log[..c.at]), c.op)))
  }

  /** Two commands that have a place have different ones. */
  predicate PlacesDiffer(w: World, p: nat, q: nat)
    requires p in w.commands && q in w.commands
  {
    p != q && Placed(w.commands[p]) && Placed(w.commands[q]) ==> w.commands[p].at != w.commands[q].at
  }

  ghost predicate Inv(first: Tokens, w: World) {
    && w.file == Replay(first, w.log)
    && (forall p :: p in w.commands ==> Sound(first, w, p))
    && (forall p, q :: p in w.commands && q in w.commands ==> PlacesDiffer(w, p, q))
  }

  lemma LogGrows(log: seq<Op>, op: Op)
    ensures (log + [op])[..|log|] == log
    ensures forall i :: 0 <= i <= |log| ==> (log + [op])[..i] == log[..i]
  {
  }

  predicate Publishes(w: World, p: nat, result: Result) {
    p in w.commands && w.commands[p].HasRead? && Answers(result, w.commands[p].seen, w.commands[p].op)
  }

  /** A publication does not disturb the other commands: none of them is in the lock. */
  lemma {:induction false} OthersStaySound(first: Tokens, w: World, p: nat, result: Result, q: nat)
    requires p in w.commands && q in w.commands && p != q
    requires Sound(first, w, p) && Sound(first, w, q) && Publishes(w, p, result)
    ensures Sound(first, TakePublish(w, p, result), q)
    ensures Placed(w.commands[q]) ==> w.commands[q].at < |w.log|
  {
    LogGrows(w.log, w.commands[p].op);
  }

  lemma {:induction false} PublishedIsSound(first: Tokens, w: World, p: nat, result: Result)
    requires p in w.commands && Sound(first, w, p) && Publishes(w, p, result) && w.file == Replay(first, w.log)
    ensures var u := TakePublish(w, p, result);
      Sound(first, u, p) && u.file == Replay(first, u.log)
  {
    LogGrows(w.log, w.commands[p].op);
  }

  lemma {:induction false} PublishKeeps(first: Tokens, w: World, p: nat, result: Result)
    requires Inv(first, w) && Publishes(w, p, result)
    ensures Inv(first, TakePublish(w, p, result))
  {
    var u := TakePublish(w, p, result);
    PublishedIsSound(first, w, p, result);
    forall q | q in u.commands ensures Sound(first, u, q) {
      if q != p {
        OthersStaySound(first, w, p, result, q);
      }
    }
    forall q, r | q in u.commands && r in u.commands ensures PlacesDiffer(u, q, r) {
      assert PlacesDiffer(w, q, r);
      if q != p {
        OthersStaySound(first, w, p, result, q);
      }
      if r != p {
        OthersStaySound(first, w, p, result, r);
      }
    }
  }

  lemma {:induction false} StepKeeps(first: Tokens, w: World, p: nat, step: Step)
    requires Inv(first, w) && Enabled(w, p, step)
    ensures Inv(first, Take(w, p, step))
  {
    if step.Publish? {
      PublishKeeps(first, w, p, Apply(w.commands[p].seen, w.commands[p].op).1);
    } else if step.ModeFails? {
      PublishKeeps(first, w, p, ThrewLate);
    } else {
      QuietStepKeeps(first, w, p, step);
    }
  }

  /** A step that publishes nothing. */
  lemma {:induction false} QuietStepKeeps(first: Tokens, w: World, p: nat, step: Step)
    requires Inv(first, w) && Enabled(w, p, step) && !step.Publish? && !step.ModeFails?
    ensures Inv(first, Take(w, p, step))
  {
    var u := Take(w, p, step);
    assert u.file == w.file && u.log == w.log;
    forall q | q in u.commands ensures Sound(first, u, q) {
      if q in w.commands {
        assert Sound(first, w, q);
      }
      if p in w.commands {
        assert Sound(first, w, p);
      }
    }
    forall q, r | q in u.commands && r in u.commands ensures PlacesDiffer(u, q, r) {
      if q in w.commands && r in w.commands {
        assert PlacesDiffer(w, q, r);
      }
    }
  }

  lemma {:induction false} RunKeeps(first: Tokens, w: World, steps: seq<(nat, Step)>, end: World)
    requires Inv(first, w) && Runs(w, steps, end)
    ensures Inv(first, end)
    decreases |steps|
  {
    if steps != [] {
      StepKeeps(first, w, steps[0].0, steps[0].1);
      RunKeeps(first, Take(w, steps[0].0, steps[0].1), steps[1..], end);
    }
  }

  /** A command that finished has its place in the order, and the answer that place gives. */
  predicate FinishedInPlace(first: Tokens, end: World, c: Command)
    requires c.Finished?
  {
    c.at < |end.log| && end.log[c.at] == c.op && Answers(c.result, Replay(first, end.log[..c.at]), c.op)
  }

  /** However commands interleave and die, the file is what the updates give one after the other in lock
      order; no two commands share a place in that order, and each that finished got the answer its place
      gives. */
  lemma {:induction false} CommandsAreSequential(w: World, steps: seq<(nat, Step)>, end: World)
    requires Begins(w) && Runs(w, steps, end)
    ensures end.file == Replay(w.file, end.log)
    ensures forall p :: p in end.commands && end.commands[p].Finished? ==> FinishedInPlace(w.file, end, end.commands[p])
    ensures forall p, q :: p in end.commands && q in end.commands ==> PlacesDiffer(end, p, q)
  {
    assert Replay(w.file, []) == w.file;
    RunKeeps(w.file, w, steps, end);
    forall p | p in end.commands && end.commands[p].Finished?
      ensures FinishedInPlace(w.file, end, end.commands[p])
    {
      assert Sound(w.file, end, p);
    }
  }

  /** The commands that are not in `known` have later places than the first `n`. */
  predicate NewAreLater(known: set<nat>, n: nat, w: World) {
    n <= |w.log| && forall q :: q in w.commands && q !in known && Placed(w.commands[q]) ==> n <= w.commands[q].at
  }

  lemma {:induction false} NewStayLater(known: set<nat>, n: nat, p: nat, w: World, steps: seq<(nat, Step)>, end: World)
    requires NewAreLater(known, n, w) && Runs(w, steps, end) && p in w.commands && w.commands[p].Finished?
    ensures NewAreLater(known, n, end) && p in end.commands && end.commands[p] == w.commands[p]
    decreases |steps|
  {
    if steps != [] {
      NewStayLater(known, n, p, Take(w, steps[0].0, steps[0].1), steps[1..], end);
    }
  }

  /** The lock order is in real time: a command that finished before another started has the lower place. */
  lemma {:induction false} FinishedComesBefore(
      w: World, steps: seq<(nat, Step)>, mid: World, more: seq<(nat, Step)>, end: World, p: nat, q: nat)
    requires Begins(w) && Runs(w, steps, mid) && Runs(mid, more, end)
    requires p in mid.commands && mid.commands[p].Finished? && q !in mid.commands
    requires q in end.commands && Placed(end.commands[q])
    ensures p in end.commands && end.commands[p] == mid.commands[p]
    ensures end.commands[p].at < end.commands[q].at
  {
    assert Replay(w.file, []) == w.file;
    RunKeeps(w.file, w, steps, mid);
    assert Sound(w.file, mid, p);
    NewStayLater(mid.commands.Keys, |mid.log|, p, mid, more, end);
  }

  // ---------------------------------------------------------------------------------------------
  // Names stay unique, and a token finds its grant for as long as that is not revoked

  predicate UniqueNames(gs: seq<Grant>) {
    forall i, j :: 0 <= i < j < |gs| ==> gs[i].name != gs[j].name
  }

  lemma {:induction false} WithoutIsUnique(gs: seq<Grant>, name: string)
    requires UniqueNames(gs)
    ensures UniqueNames(Without(gs, name))
  {
    if gs != [] {
      assert UniqueNames(gs[1..]);
      WithoutIsUnique(gs[1..], name);
      var rest := Without(gs[1..], name);
      forall i | 0 <= i < |rest| ensures rest[i].name != gs[0].name {
        assert rest[i] in rest;
        assert rest[i] in gs[1..];
      }
    }
  }

  lemma {:induction false} NamesStayUnique(first: Tokens, log: seq<Op>)
    requires UniqueNames(ListOf(first))
    ensures UniqueNames(ListOf(Replay(first, log)))
  {
    if log != [] {
      var before, op := Replay(first, log[..|log| - 1]), log[|log| - 1];
      NamesStayUnique(first, log[..|log| - 1]);
      if op.Revoke? {
        WithoutIsUnique(ListOf(before), op.name);
      }
    }
  }

  /** The last grant with the digest. */
  function Match(gs: seq<Grant>, d: Digest): Option<Grant> {
    if gs == [] then None
    else if gs[|gs| - 1].digest == d then Some(gs[|gs| - 1])
    else Match(gs[..|gs| - 1], d)
  }

  /** `grantFor`. */
  method GrantFor(gs: seq<Grant>, d: Digest) returns (found: Option<Grant>)
    ensures found == Match(gs, d)
  {
    found := None;
    for i := 0 to |gs|
      invariant found == Match(gs[..i], d)
    {
      assert gs[..i + 1][..i] == gs[..i];
      if gs[i].digest == d {
        found := Some(gs[i]);
      }
    }
    assert gs[..|gs|] == gs;
  }

  lemma {:induction false} MatchFinds(gs: seq<Grant>, d: Digest)
    ensures Match(gs, d).Some? ==> Match(gs, d).value in gs && Match(gs, d).value.digest == d
    ensures Match(gs, d).None? ==> forall g :: g in gs ==> g.digest != d
  {
    if gs != [] {
      var front := gs[..|gs| - 1];
      MatchFinds(front, d);
      assert gs == front + [gs[|gs| - 1]];
    }
  }

  /** No grant in the file before, and no other add, has the digest. */
  predicate Fresh(first: Tokens, log: seq<Op>, i: nat, d: Digest) {
    && (forall g :: g in ListOf(first) ==> g.digest != d)
    && (forall j :: 0 <= j < |log| && j != i && log[j].Add? ==> log[j].grant.digest != d)
  }

  predicate RevokedSince(log: seq<Op>, i: nat, name: string) {
    exists j :: i < j < |log| && log[j] == Revoke(name)
  }

  /** The add at place `i` took effect. */
  predicate Added(first: Tokens, log: seq<Op>, i: nat)
    requires i < |log|
  {
    log[i].Add? && Apply(Replay(first, log[..i]), log[i]).1 == Done(true)
  }

  /** A grant with the digest is in the list exactly when it is the one added, and not since revoked. */
  lemma {:induction false} HoldersOf(first: Tokens, log: seq<Op>, i: nat, d: Digest, g: Grant)
    requires i < |log| && Added(first, log, i) && log[i].grant.digest == d && Fresh(first, log, i, d)
    requires g.digest == d
    ensures !Replay(first, log).Broken?
    ensures g in ListOf(Replay(first, log)) <==> g == log[i].grant && !RevokedSince(log, i, g.name)
  {
    var n := |log| - 1;
    var front, op := log[..n], log[n];
    if n == i {
      NotYetThere(first, front, log, i, d);
    } else {
      assert front[..i] == log[..i];
      assert Fresh(first, front, i, d);
      HoldersOf(first, front, i, d, g);
      RevokedOneMore(log, i, g.name);
    }
  }

  lemma RevokedOneMore(log: seq<Op>, i: nat, name: string)
    requires i < |log| - 1
    ensures RevokedSince(log, i, name) <==>
      RevokedSince(log[..|log| - 1], i, name) || log[|log| - 1] == Revoke(name)
  {
    var front := log[..|log| - 1];
    if RevokedSince(front, i, name) {
      var j :| i < j < |front| && front[j] == Revoke(name);
      assert log[j] == Revoke(name);
    }
    if RevokedSince(log, i, name) && log[|log| - 1] != Revoke(name) {
      var j :| i < j < |log| && log[j] == Revoke(name);
      assert front[j] == Revoke(name);
    }
  }

  lemma {:induction false} NotYetThere(first: Tokens, front: seq<Op>, log: seq<Op>, i: nat, d: Digest)
    requires i < |log| && Fresh(first, log, i, d) && |front| <= i && front == log[..|front|]
    ensures forall g :: g in ListOf(Replay(first, front)) ==> g.digest != d
  {
    if front != [] {
      var n := |front| - 1;
      assert front[..n] == log[..n];
      NotYetThere(first, front[..n], log, i, d);
      assert front[n] == log[n];
    }
  }

  /** A new token resolves to its grant until that grant is revoked, and to nothing from then on, whatever
      else is added and revoked, and also if the name is granted anew. */
  lemma {:induction false} TokenFindsItsGrant(first: Tokens, log: seq<Op>, i: nat)
    requires i < |log| && Added(first, log, i) && Fresh(first, log, i, log[i].grant.digest)
    ensures var g := log[i].grant;
      Match(ListOf(Replay(first, log)), g.digest) == if RevokedSince(log, i, g.name) then None else Some(g)
  {
    var g := log[i].grant;
    var gs := ListOf(Replay(first, log));
    MatchFinds(gs, g.digest);
    HoldersOf(first, log, i, g.digest, g);
    if Match(gs, g.digest).Some? {
      HoldersOf(first, log, i, g.digest, Match(gs, g.digest).value);
    }
  }

  // ---------------------------------------------------------------------------------------------
  // The server, without a grant service

  datatype Reply = ServedAsOwner | ServedAs(grant: Grant) | NoCredential | NotValidHere | Unreadable

  /** What a request gets, from the file as it is read and the digest of the token presented. */
  function Answer(authSeen: bool, file: Tokens, presented: Option<Digest>): Reply {
    match file
    case Broken => Unreadable
    case Missing => if authSeen then Unreadable else ServedAsOwner
    case Grants(gs) =>
      if presented.None? then NoCredential
      else
        var g := Match(gs, presented.value);
        if g.Some? then ServedAs(g.value) else NotValidHere
  }

  class Server {
    var authSeen: bool

    /** A server that starts with a token file counts auth as seen. */
    constructor (configured: bool)
      ensures authSeen == configured
    {
      authSeen := configured;
    }

    method Handle(file: Tokens, presented: Option<Digest>) returns (reply: Reply)
      modifies this
      ensures reply == Answer(old(authSeen), file, presented)
      ensures authSeen == (old(authSeen) || file.Grants?)
    {
      if file.Broken? || (file.Missing? && authSeen) {
        return Unreadable;
      }
      if file.Missing? {
        return ServedAsOwner;
      }
      authSeen := true;
      if presented.None? {
        return NoCredential;
      }
      var g := GrantFor(file.grants, presented.value);
      reply := if g.Some? then ServedAs(g.value) else NotValidHere;
    }
  }

  /** A request, with the file as it was when it was read. */
  datatype Request = Request(file: Tokens, presented: Option<Digest>)

  function AuthSeenAfter(configured: bool, rs: seq<Request>): bool {
    if rs == [] then configured
    else AuthSeenAfter(configured, rs[..|rs| - 1]) || rs[|rs| - 1].file.Grants?
  }

  predicate SawGrants(rs: seq<Request>) {
    exists j :: 0 <= j < |rs| && rs[j].file.Grants?
  }

  lemma {:induction false} AuthSeenMeans(configured: bool, rs: seq<Request>)
    ensures AuthSeenAfter(configured, rs) <==> configured || SawGrants(rs)
  {
    if rs != [] {
      var n := |rs| - 1;
      AuthSeenMeans(configured, rs[..n]);
      if SawGrants(rs[..n]) {
        var j :| 0 <= j < n && rs[..n][j].file.Grants?;
        assert rs[j].file.Grants?;
      }
      if SawGrants(rs) && !rs[n].file.Grants? {
        var j :| 0 <= j < |rs| && rs[j].file.Grants?;
        assert rs[..n][j].file.Grants?;
      }
    }
  }

  /** Over every run of file edits and requests: a request is served with no grant exactly when the file is
      absent then, the server started with none, and no earlier request read a list of grants from it; a
      request served with a grant presented that grant's token. A file that could not be read leaves no
      trace. */
  lemma {:induction false} ServedWithoutGrant(configured: bool, rs: seq<Request>, i: nat)
    requires i < |rs|
    ensures var reply := Answer(AuthSeenAfter(configured, rs[..i]), rs[i].file, rs[i].presented);
      && (reply == ServedAsOwner <==> rs[i].file.Missing? && !configured && !SawGrants(rs[..i]))
      && (reply.ServedAs? ==>
            rs[i].file.Grants? && reply.grant in rs[i].file.grants && rs[i].presented == Some(reply.grant.digest))
  {
    AuthSeenMeans(configured, rs[..i]);
    if rs[i].file.Grants? && rs[i].presented.Some? {
      MatchFinds(rs[i].file.grants, rs[i].presented.value);
    }
  }
}
