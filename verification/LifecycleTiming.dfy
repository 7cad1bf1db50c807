/** Deadlines of the lifecycle commands: the status probe's settle loop, the readiness loop of a
    start, and the exit wait of a stop (packages/cli/src/daemon-lifecycle.ts:285-306, 792-924,
    1008-1016 and 1386-1410).

    Time is a count of milliseconds that only moves while something is awaited. What an endpoint does
    is a script: how long each request takes and how it turns out. A request races its timer and, in a start,
    the child's exit; the earliest decides, and of two at one time the exit before the timer before the answer. */
module LifecycleTiming {
  import opened Options
  import DaemonShutdown
  import opened JsText

  const STATUS_PROBE_DEADLINE_MS := 5000
  const STATUS_PROBE_MAX_ATTEMPTS := 5
  const STATUS_PROBE_RETRY_DELAY_MS := 200
  const STARTUP_READINESS_DEADLINE_MS := 20_000
  const STARTUP_PROBE_TIMEOUT_MS := 2_000
  const HEALTHZ_DELAY_MS := 250
  const EXIT_POLL_MS := 100

  function Min(a: nat, b: nat): nat {
    if a < b then a else b
  }

  // ---------------------------------------------------------------------------------------------
  // The status probe

  /** What one request would do if nothing cut it short. */
  datatype Request = Request(takes: nat, responds: bool)

  /** How an attempt ended, and when it began. */
  datatype Attempt = Attempt(at: nat, ended: Ending)

  datatype Ending = Answered | Refused | OutOfTime

  function EndingOf(request: Request, timeout: nat): Ending {
    if request.takes >= timeout then OutOfTime else if request.responds then Answered else Refused
  }

  /** When the next attempt may begin after an immediate failure. */
  function Backoff(attempt: nat, now: nat, deadline: nat): nat {
    if attempt < STATUS_PROBE_MAX_ATTEMPTS && now + STATUS_PROBE_RETRY_DELAY_MS < deadline
    then now + STATUS_PROBE_RETRY_DELAY_MS else now
  }

  /** When the attempt after these would begin, if they all failed at once: the first at the start, another
      after the backoff. */
  function NextAt(script: nat -> Request, start: nat, attempts: seq<Attempt>): nat {
    if attempts == [] then start
    else
      var deadline, last := start + STATUS_PROBE_DEADLINE_MS, attempts[|attempts| - 1].at;
      var allowed := if last < deadline then deadline - last else 0;
      Backoff(|attempts|, last + Min(script(|attempts|).takes, allowed), deadline)
  }

  /** The attempts are those the settle loop makes: each one is allowed all that is left of the one
      deadline, and another follows only an immediate failure. */
  ghost predicate Settles(script: nat -> Request, start: nat, attempts: seq<Attempt>)
    decreases |attempts|
  {
    attempts == [] || (
      var n, deadline := |attempts| - 1, start + STATUS_PROBE_DEADLINE_MS;
      && Settles(script, start, attempts[..n])
      && (n > 0 ==> attempts[n - 1].ended == Refused)
      && attempts[n].at == NextAt(script, start, attempts[..n])
      && start <= attempts[n].at < deadline
      && attempts[n].ended == EndingOf(script(n + 1), deadline - attempts[n].at))
  }

  lemma SettlesExtends(script: nat -> Request, start: nat, attempts: seq<Attempt>)
    requires Settles(script, start, attempts)
    requires attempts != [] ==> attempts[|attempts| - 1].ended == Refused
    requires start <= NextAt(script, start, attempts) < start + STATUS_PROBE_DEADLINE_MS
    ensures var now := NextAt(script, start, attempts);
      var ended := EndingOf(script(|attempts| + 1), start + STATUS_PROBE_DEADLINE_MS - now);
      Settles(script, start, attempts + [Attempt(now, ended)])
  {
    var now := NextAt(script, start, attempts);
    var longer := attempts + [Attempt(now, EndingOf(script(|attempts| + 1), start + STATUS_PROBE_DEADLINE_MS - now))];
    assert longer[..|attempts|] == attempts;
  }

  /** `probeHealthzWithSettle`: `answered` says whether it returned an answer or threw. */
  method ProbeHealthzWithSettle(script: nat -> Request, start: nat)
    returns (answered: bool, attempts: seq<Attempt>, now: nat)
    ensures 1 <= |attempts| <= STATUS_PROBE_MAX_ATTEMPTS && Settles(script, start, attempts)
    ensures start <= now <= start + STATUS_PROBE_DEADLINE_MS
    ensures answered <==> exists i :: 0 <= i < |attempts| && attempts[i].ended == Answered
    ensures !answered ==>
      || |attempts| == STATUS_PROBE_MAX_ATTEMPTS
      || now == start + STATUS_PROBE_DEADLINE_MS
  {
    var deadline := start + STATUS_PROBE_DEADLINE_MS;
    now, attempts, answered := start, [], false;
    var attempt := 1;
    while attempt <= STATUS_PROBE_MAX_ATTEMPTS
      invariant 1 <= attempt <= STATUS_PROBE_MAX_ATTEMPTS + 1 && start <= now <= deadline && !answered
      invariant |attempts| == attempt - 1 && Settles(script, start, attempts)
      invariant forall i :: 0 <= i < |attempts| ==> attempts[i].ended == Refused
      invariant now == NextAt(script, start, attempts)
    {
      var remaining := deadline - now;
      if remaining <= 0 {
        break;
      }
      var request := script(attempt);
      var ended := EndingOf(request, remaining);
      SettlesExtends(script, start, attempts);
      attempts := attempts + [Attempt(now, ended)];
      now := now + Min(request.takes, remaining);
      if ended == Answered {
        answered := true;
        assert attempts[attempt - 1].ended == Answered;
        return;
      }
      if ended == OutOfTime {
        return;
      }
      now := Backoff(attempt, now, deadline);
      attempt := attempt + 1;
    }
  }

  // ---------------------------------------------------------------------------------------------
  // The readiness loop of a start

  /** What a probed address does: a bad status, an unreadable body, a body naming a pid (the child's
      or another), a refused connection, or some other failure. */
  datatype Reply = NotOk | Unreadable | Names(own: bool) | RefusedConnection | OtherFailure

  datatype Probe = Probe(takes: nat, reply: Reply)

  /** The bind report in a health answer. */
  datatype Bind = Bind(explicit: bool, hosts: seq<string>, tailscaleDetected: bool)

  datatype Round = Round(primary: Probe, bind: Bind, bindWellFormed: bool, listener: string -> Probe)

  const LOOPBACK := "127.0.0.1"

  /** The hosts the adoption gate asks, each once. */
  function RequiredHosts(bind: Bind): seq<string> {
    Distinct(if bind.explicit then bind.hosts else bind.hosts + [LOOPBACK])
  }

  function Distinct(hosts: seq<string>): (r: seq<string>)
    ensures forall h :: h in r <==> h in hosts
  {
    if hosts == [] then []
    else
      var rest := Distinct(hosts[..|hosts| - 1]);
      var last := hosts[|hosts| - 1];
      assert forall h :: h in hosts <==> h in hosts[..|hosts| - 1] || h == last;
      if last in rest then rest else rest + [last]
  }

  /** The silently dropped listener: a default bind with a tailscale interface reports one address. */
  predicate DroppedListener(bind: Bind) {
    !bind.explicit && bind.tailscaleDetected && |bind.hosts| < 2
  }

  /** A time, or never. */
  type Moment = Option<nat>

  predicate GoneBy(exitAt: Moment, now: nat) {
    exitAt.Some? && exitAt.value <= now
  }

  /** A listener whose check stayed open, and when it was asked. */
  datatype Unclear = Unclear(host: string, at: nat)

  datatype Verdict =
    | Ready                            // every required listener verified
    | ReadyUnverified(uncertain: seq<Unclear>)
    | Rejected                         // positive evidence against this child
    | ChildGone                        // its exit was seen
    | Undecided(primaryAnswered: bool) // deadline without a verdict

  ghost predicate NamedOwn(round: Round) {
    round.primary.reply == Names(true) && round.bindWellFormed
  }

  /** Every required listener was asked and named the child. */
  ghost predicate AllListenersProved(round: Round) {
    !DroppedListener(round.bind) && forall h :: h in RequiredHosts(round.bind) ==> round.listener(h).reply == Names(true)
  }

  /** What a fetch opened at a time is allowed. */
  function Allowed(at: nat, deadline: nat): nat {
    Min(STARTUP_PROBE_TIMEOUT_MS, if at < deadline then deadline - at else 0)
  }

  /** No clear answer: the fetch failed in some other way than by refusal, or its timer won. */
  predicate NoClearAnswer(probe: Probe, at: nat, deadline: nat) {
    probe.reply == OtherFailure || probe.takes >= Allowed(at, deadline)
  }

  ghost predicate Lists(uncertain: seq<Unclear>, host: string) {
    exists i :: 0 <= i < |uncertain| && uncertain[i].host == host
  }

  /** The hosts named the child, but those listed, which are hosts and gave no clear answer. */
  ghost predicate Cleared(round: Round, hosts: seq<string>, uncertain: seq<Unclear>, deadline: nat) {
    && (forall h :: h in hosts && !Lists(uncertain, h) ==> round.listener(h).reply == Names(true))
    && (forall j :: 0 <= j < |uncertain| ==>
          && uncertain[j].host in hosts
          && NoClearAnswer(round.listener(uncertain[j].host), uncertain[j].at, deadline))
  }

  /** Every required listener named the child, but those listed, which are required and gave no clear answer. */
  ghost predicate OnlyUncertain(round: Round, uncertain: seq<Unclear>, deadline: nat) {
    !DroppedListener(round.bind) && Cleared(round, RequiredHosts(round.bind), uncertain, deadline)
  }

  /** How a read of a health address ends. */
  datatype Reading = Said(reply: Reply) | TimedOut | SawExit

  /** `readOwnedHealth`: the child's exit, the timer and the answer race. */
  method ReadOwnedHealth(probe: Probe, exitAt: Moment, now: nat, deadline: nat, openings: seq<nat>)
    returns (reading: Reading, after: nat, log: seq<nat>)
    requires now <= deadline
    ensures now <= after <= deadline && after <= now + STARTUP_PROBE_TIMEOUT_MS
    ensures log == if now < deadline && !GoneBy(exitAt, now) then openings + [now] else openings
    ensures reading.SawExit? <==> GoneBy(exitAt, after)
    ensures reading.SawExit? ==> after == now || exitAt == Some(after)
    ensures reading.TimedOut? ==> after == now + Allowed(now, deadline) && NoClearAnswer(probe, now, deadline)
    ensures reading.Said? ==>
      reading.reply == probe.reply && probe.takes < Allowed(now, deadline) && after == now + probe.takes
  {
    log := openings;
    if GoneBy(exitAt, now) {
      return SawExit, now, log;
    }
    if now >= deadline {
      return TimedOut, now, log;
    }
    var timeout := Min(STARTUP_PROBE_TIMEOUT_MS, deadline - now);
    log := openings + [now];
    after := now + Min(probe.takes, timeout);
    if GoneBy(exitAt, after) {
      return SawExit, exitAt.value, log;
    }
    reading := if probe.takes >= timeout then TimedOut else Said(probe.reply);
  }

  predicate OpenedBefore(openings: seq<nat>, entered: nat, deadline: nat) {
    forall i :: 0 <= i < |openings| ==> entered <= openings[i] < deadline
  }

  /** What the adoption gate finds. */
  datatype Gate = Passed | Missing | Mismatch | Left

  /** A listener showed that the child does not serve it. */
  ghost predicate SomeListenerBad(round: Round) {
    exists h :: h in RequiredHosts(round.bind) && Bad(round.listener(h).reply)
  }

  predicate Bad(reply: Reply) {
    reply in {NotOk, RefusedConnection, Unreadable, Names(false)}
  }

  /** One more host that named the child. */
  lemma ClearedOne(round: Round, hosts: seq<string>, host: string, uncertain: seq<Unclear>, deadline: nat)
    requires Cleared(round, hosts, uncertain, deadline) && round.listener(host).reply == Names(true)
    ensures Cleared(round, hosts + [host], uncertain, deadline)
  {
  }

  /** One more host that gave no clear answer. */
  lemma UnclearOne(round: Round, hosts: seq<string>, one: Unclear, uncertain: seq<Unclear>, deadline: nat)
    requires Cleared(round, hosts, uncertain, deadline)
    requires NoClearAnswer(round.listener(one.host), one.at, deadline)
    ensures Cleared(round, hosts + [one.host], uncertain + [one], deadline)
  {
    ListsGrows(uncertain, one);
  }

  /** The adoption gate: asks every required host in turn. */
  method VerifyRequiredListeners(
      round: Round, exitAt: Moment, entered: nat, start: nat, deadline: nat, before: seq<nat>)
    returns (gate: Gate, uncertain: seq<Unclear>, now: nat, openings: seq<nat>)
    requires entered <= start <= deadline && OpenedBefore(before, entered, deadline) && !GoneBy(exitAt, start)
    ensures start <= now <= deadline && OpenedBefore(openings, entered, deadline)
    ensures gate.Left? <==> GoneBy(exitAt, now)
    ensures gate.Left? ==> exitAt == Some(now)
    ensures gate.Passed? ==> OnlyUncertain(round, uncertain, deadline)
    ensures gate.Missing? || gate.Mismatch? ==> DroppedListener(round.bind) || SomeListenerBad(round)
    ensures DroppedListener(round.bind) ==> gate.Missing?
  {
    now, openings, gate, uncertain := start, before, Passed, [];
    if DroppedListener(round.bind) {
      return Missing, uncertain, now, openings;
    }
    var hosts := RequiredHosts(round.bind);
    for i := 0 to |hosts|
      invariant start <= now <= deadline && OpenedBefore(openings, entered, deadline) && !GoneBy(exitAt, now)
      invariant gate == Passed || (gate == Missing && SomeListenerBad(round))
      invariant gate.Passed? ==> Cleared(round, hosts[..i], uncertain, deadline)
    {
      var host := hosts[i];
      assert hosts[..i + 1] == hosts[..i] + [host];
      var asked, reading := now, TimedOut;
      reading, now, openings := ReadOwnedHealth(round.listener(host), exitAt, asked, deadline, openings);
      if reading.SawExit? {
        return Left, uncertain, now, openings;
      }
      if reading == Said(Names(false)) || reading == Said(Unreadable) {
        return Mismatch, uncertain, now, openings;
      }
      if reading == Said(NotOk) || reading == Said(RefusedConnection) {
        gate := Missing;
      } else if reading == Said(Names(true)) {
        if gate.Passed? {
          ClearedOne(round, hosts[..i], host, uncertain, deadline);
        }
      } else {
        if gate.Passed? {
          UnclearOne(round, hosts[..i], Unclear(host, asked), uncertain, deadline);
        }
        uncertain := uncertain + [Unclear(host, asked)];
      }
    }
    assert hosts[..|hosts|] == hosts;
  }

  lemma ListsGrows(uncertain: seq<Unclear>, one: Unclear)
    ensures Lists(uncertain + [one], one.host)
    ensures forall h :: Lists(uncertain, h) ==> Lists(uncertain + [one], h)
  {
    var more := uncertain + [one];
    assert more[|uncertain|] == one;
    forall h | Lists(uncertain, h) ensures Lists(more, h) {
      var i :| 0 <= i < |uncertain| && uncertain[i].host == h;
      assert more[i].host == h;
    }
  }

  /** A round's positive evidence against the child. */
  ghost predicate Against(round: Round) {
    || round.primary.reply == Unreadable
    || round.primary.reply == Names(false)
    || (round.primary.reply == Names(true)
        && (!round.bindWellFormed || DroppedListener(round.bind) || SomeListenerBad(round)))
  }

  /** `formatDaemonHostForUrl`: one address has one spelling in a URL. */
  function UrlHost(host: string): string {
    var trimmed := Trim(host);
    if "[" <= trimmed && trimmed != "" && trimmed[|trimmed| - 1] == ']' then trimmed
    else if ':' in trimmed then "[" + trimmed + "]"
    else trimmed
  }

  predicate PrimaryOpen(uncertain: seq<Unclear>, probeHost: string) {
    exists i :: 0 <= i < |uncertain| && UrlHost(uncertain[i].host) == UrlHost(probeHost)
  }

  /** The loop of `startOwnedDaemon` from entering readiness to a verdict. */
  method AwaitReadiness(script: nat -> Round, probeHost: string, exitAt: Moment, entered: nat)
    returns (verdict: Verdict, now: nat, openings: seq<nat>)
    ensures entered <= now <= entered + STARTUP_READINESS_DEADLINE_MS
    ensures OpenedBefore(openings, entered, entered + STARTUP_READINESS_DEADLINE_MS)
    ensures verdict.ChildGone? <==> GoneBy(exitAt, now)
    ensures verdict.Ready? ==> exists k :: NamedOwn(script(k)) && AllListenersProved(script(k))
    ensures verdict.ReadyUnverified? ==>
      && !PrimaryOpen(verdict.uncertain, probeHost)
      && exists k :: NamedOwn(script(k))
                     && OnlyUncertain(script(k), verdict.uncertain, entered + STARTUP_READINESS_DEADLINE_MS)
    ensures verdict.Rejected? ==> exists k :: Against(script(k))
    ensures verdict.ReadyUnverified? || verdict.Undecided? ==> now == entered + STARTUP_READINESS_DEADLINE_MS
  {
    var deadline := entered + STARTUP_READINESS_DEADLINE_MS;
    now, openings := entered, [];
    if GoneBy(exitAt, now) {
      return ChildGone, now, openings;
    }
    var k, answered := 0, false;
    var uncertain: seq<Unclear> := [];
    while now < deadline
      invariant entered <= now <= deadline && OpenedBefore(openings, entered, deadline) && !GoneBy(exitAt, now)
      invariant answered ==> exists j :: NamedOwn(script(j)) && OnlyUncertain(script(j), uncertain, deadline)
      decreases deadline - now
    {
      var round := script(k);
      answered := false;
      var reading;
      reading, now, openings := ReadOwnedHealth(round.primary, exitAt, now, deadline, openings);
      if reading.SawExit? {
        return ChildGone, now, openings;
      }
      if reading == Said(Unreadable) || reading == Said(Names(false))
        || (reading == Said(Names(true)) && !round.bindWellFormed) {
        assert Against(script(k));
        return Rejected, now, openings;
      }
      if reading == Said(Names(true)) {
        var gate;
        gate, uncertain, now, openings := VerifyRequiredListeners(round, exitAt, entered, now, deadline, openings);
        if gate.Left? {
          return ChildGone, now, openings;
        }
        if !gate.Passed? {
          assert Against(script(k));
          return Rejected, now, openings;
        }
        if uncertain == [] {
          assert NamedOwn(script(k)) && AllListenersProved(script(k));
          return Ready, now, openings;
        }
        assert NamedOwn(script(k)) && OnlyUncertain(script(k), uncertain, deadline);
        answered := true;
      }
      var woken := now + Min(HEALTHZ_DELAY_MS, deadline - now);
      if GoneBy(exitAt, woken) {
        return ChildGone, exitAt.value, openings;
      }
      now := woken;
      k := k + 1;
    }
    verdict := if answered && !PrimaryOpen(uncertain, probeHost) then ReadyUnverified(uncertain) else Undecided(answered);
  }

  /** How a start ends: with a published child; with the child left, its reservation kept; or failed.
      `signalled` is when cleanup sent SIGTERM, if it did. */
  datatype Start =
    | Started(unverified: seq<Unclear>)
    | LeftPending(signalled: Moment)
    | Failed(signalled: Moment)

  /** When the child exits: on its own, or some time after it was signalled. */
  function ExitOf(exitAt: Moment, signalled: Moment, exitsAfter: Moment): Moment {
    if signalled.None? || exitsAfter.None? then exitAt
    else
      var t := signalled.value + exitsAfter.value;
      if exitAt.Some? && exitAt.value <= t then exitAt else Some(t)
  }

  /** Cleaning up after a failed start: the owned child is signalled, and its exit awaited. */
  method CleanUp(exitAt: Moment, exitsAfter: Moment, killed: nat) returns (start: Start, now: nat)
    requires !GoneBy(exitAt, killed)
    ensures killed <= now <= killed + DaemonShutdown.DAEMON_STOP_WAIT_MS
    ensures start == Failed(Some(killed)) || start == LeftPending(Some(killed))
    ensures start.Failed? <==> GoneBy(ExitOf(exitAt, Some(killed), exitsAfter), now)
    ensures start.LeftPending? ==> now == killed + DaemonShutdown.DAEMON_STOP_WAIT_MS
  {
    var leaves, latest := ExitOf(exitAt, Some(killed), exitsAfter), killed + DaemonShutdown.DAEMON_STOP_WAIT_MS;
    if GoneBy(leaves, latest) {
      return Failed(Some(killed)), leaves.value;
    }
    return LeftPending(Some(killed)), latest;
  }

  /** A start from entering readiness to its return or throw, whatever the probed addresses, the child (which
      exits at `exitAt`, or `exitsAfter` a signal, or never), the liveness check (`seesAlive`) and the
      publication do (`publishes`: the record was written and its child then seen alive). */
  method StartReturns(
      script: nat -> Round, probeHost: string, exitAt: Moment, exitsAfter: Moment, entered: nat,
      seesAlive: bool, publishes: bool)
    returns (start: Start, now: nat, openings: seq<nat>)
    ensures now <= entered + STARTUP_READINESS_DEADLINE_MS + DaemonShutdown.DAEMON_STOP_WAIT_MS
    ensures OpenedBefore(openings, entered, entered + STARTUP_READINESS_DEADLINE_MS)
    ensures start.Started? ==>
      && seesAlive && publishes && !GoneBy(exitAt, now) && now <= entered + STARTUP_READINESS_DEADLINE_MS
      && !PrimaryOpen(start.unverified, probeHost)
      && exists k :: NamedOwn(script(k))
                     && OnlyUncertain(script(k), start.unverified, entered + STARTUP_READINESS_DEADLINE_MS)
    ensures start.Failed? <==>
      GoneBy(ExitOf(exitAt, if start.Started? then None else start.signalled, exitsAfter), now)
    ensures start.LeftPending? && start.signalled.None? ==> now == entered + STARTUP_READINESS_DEADLINE_MS
    ensures start.LeftPending? && start.signalled.Some? ==>
      now == start.signalled.value + DaemonShutdown.DAEMON_STOP_WAIT_MS
  {
    var verdict;
    verdict, now, openings := AwaitReadiness(script, probeHost, exitAt, entered);
    match verdict
    case ChildGone =>
      start := Failed(None);
    case Rejected =>
      start, now := CleanUp(exitAt, exitsAfter, now);
    case Undecided(answered) =>
      if answered || seesAlive {
        start := LeftPending(None);
      } else {
        start, now := CleanUp(exitAt, exitsAfter, now);
      }
    case Ready =>
      if seesAlive && publishes {
        start := Started([]);
        ghost var k :| NamedOwn(script(k)) && AllListenersProved(script(k));
        assert OnlyUncertain(script(k), [], entered + STARTUP_READINESS_DEADLINE_MS);
      } else {
        start, now := CleanUp(exitAt, exitsAfter, now);
      }
    case ReadyUnverified(uncertain) =>
      if seesAlive && publishes {
        start := Started(uncertain);
      } else {
        start, now := CleanUp(exitAt, exitsAfter, now);
      }
  }

  // ---------------------------------------------------------------------------------------------
  // The exit wait of a stop

  /** Polls every 100 ms for a process that exits at `exitAt` (never, if None) until the deadline;
      `present` is the final check. */
  method AwaitExit(exitAt: Moment, killed: nat) returns (present: bool, now: nat)
    ensures killed <= now <= killed + DaemonShutdown.DAEMON_STOP_WAIT_MS
    ensures present <==> !GoneBy(exitAt, killed + DaemonShutdown.DAEMON_STOP_WAIT_MS)
    ensures present ==> now == killed + DaemonShutdown.DAEMON_STOP_WAIT_MS
  {
    now := killed;
    var deadline := killed + DaemonShutdown.DAEMON_STOP_WAIT_MS;
    ghost var polls := 0;
    while !GoneBy(exitAt, now) && now < deadline
      invariant now == killed + polls * EXIT_POLL_MS && polls <= 120
      decreases deadline - now
    {
      now := now + EXIT_POLL_MS;
      polls := polls + 1;
    }
    present := !GoneBy(exitAt, now);
  }

  /** When a shutdown whose phases never settle exits: its budget runs from its callback. */
  function HungExit(callback: nat): nat {
    callback + DaemonShutdown.DAEMON_SHUTDOWN_TIMEOUT_MS
  }

  /** The two programs' constants fit: a shutdown that uses its whole budget is waited out exactly when
      its callback began within 2,000 ms of the signal. */
  method StopWaitsOutHungShutdown(killed: nat, callback: nat) returns (present: bool, now: nat)
    requires killed <= callback
    ensures present <==> callback > killed + 2_000
    ensures now <= killed + DaemonShutdown.DAEMON_STOP_WAIT_MS
  {
    present, now := AwaitExit(Some(HungExit(callback)), killed);
  }
}
