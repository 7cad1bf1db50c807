/** The daemon's graceful shutdown, packages/daemon/src/daemon-shutdown.ts.

    A runner owns a list of named phases. The first signal starts them one after another; a timer
    bounds the whole run; the outcome is published as a receipt file and the process exits.
    Every callback of the runner (a signal, a settled phase, the budget timer) is one event here,
    carrying what that callback finds outside: the clock, what `markClean` does, and whether the
    receipt can be written. */
module DaemonShutdown {

  const DAEMON_SHUTDOWN_TIMEOUT_MS := 10_000
  const DAEMON_STOP_WAIT_MS := DAEMON_SHUTDOWN_TIMEOUT_MS + 2_000

  datatype Settlement = Resolved | Rejected(error: string)

  datatype Failure = Failure(phase: string, error: string)

  datatype Outcome = Clean | Failed | TimedOut

  datatype Receipt = Receipt(pid: nat, startedAt: nat, completedAt: nat,
                             outcome: Outcome, phase: string, failures: seq<Failure>)

  datatype Env = Env(now: nat, markClean: Settlement, publishes: bool)

  datatype Event = Signal(env: Env) | Settle(result: Settlement, env: Env) | Budget(env: Env)

  /** What an observer of the process sees, in order. */
  datatype Effect =
    | Began(index: nat)
    | Ended(index: nat, result: Settlement)
    | Marked(result: Settlement)
    | Published(receipt: Receipt)
    | Exited(code: nat)

  const BUDGET_EXHAUSTED := "whole-shutdown budget exhausted"

  /** `results` lists how the phases that have settled did so, in list order; `awaiting` says that
      the next phase has been started and not settled. */
  datatype Runner = Runner(
    pid: nat,
    phases: seq<string>,
    started: bool,
    startedAt: nat,
    finished: bool,
    phase: string,
    failures: seq<Failure>,
    results: seq<Settlement>,
    awaiting: bool,
    log: seq<Effect>)

  function Fresh(pid: nat, phases: seq<string>): Runner {
    Runner(pid, phases, false, 0, false, "starting", [], [], false, [])
  }

  function Fail(r: Runner, error: string): Runner {
    r.(failures := r.failures + [Failure(r.phase, error)])
  }

  function ReceiptOf(r: Runner, outcome: Outcome, now: nat): Receipt {
    Receipt(r.pid, r.startedAt, now, outcome, if outcome.Clean? then "complete" else r.phase, r.failures)
  }

  function Finish(r: Runner, outcome: Outcome, env: Env): Runner {
    if r.finished then r
    else
      var code := if outcome.Clean? && env.publishes then 0 else 1;
      r.(finished := true,
         log := r.log + (if env.publishes then [Published(ReceiptOf(r, outcome, env.now))] else []) + [Exited(code)])
  }

  function MarkClean(r: Runner, env: Env): Runner {
    var s := r.(phase := "lifecycle-stop", log := r.log + [Marked(env.markClean)]);
    if env.markClean.Rejected? then Fail(s, env.markClean.error) else s
  }

  /** After the last phase. */
  function Conclude(r: Runner, env: Env): Runner {
    var s := if r.failures == [] then MarkClean(r, env) else r;
    if s.failures == [] then Finish(s, Clean, env)
    else Finish(s.(phase := s.failures[0].phase), Failed, env)
  }

  /** The phase loop between two awaits. */
  function Advance(r: Runner, env: Env): Runner {
    if r.finished then r
    else if |r.results| < |r.phases| then
      r.(phase := r.phases[|r.results|], awaiting := true, log := r.log + [Began(|r.results|)])
    else Conclude(r, env)
  }

  function OnSignal(r: Runner, env: Env): Runner {
    if r.started then r
    else Advance(r.(started := true, startedAt := env.now, phase := "starting"), env)
  }

  function OnSettle(r: Runner, result: Settlement, env: Env): Runner {
    if !r.awaiting then r
    else
      var s := r.(log := r.log + [Ended(|r.results|, result)], results := r.results + [result], awaiting := false);
      Advance(if result.Rejected? && !r.finished then Fail(s, result.error) else s, env)
  }

  function OnBudget(r: Runner, env: Env): Runner {
    if !r.started || r.finished then r
    else Finish(Fail(r, BUDGET_EXHAUSTED), TimedOut, env)
  }

  function Step(r: Runner, e: Event): Runner {
    match e
    case Signal(env) => OnSignal(r, env)
    case Settle(result, env) => OnSettle(r, result, env)
    case Budget(env) => OnBudget(r, env)
  }

  /** The runner after `events`, whatever their order. */
  function After(pid: nat, phases: seq<string>, events: seq<Event>): Runner {
    if events == [] then Fresh(pid, phases)
    else Step(After(pid, phases, events[..|events| - 1]), events[|events| - 1])
  }

  // ---------------------------------------------------------------------------------------------
  // What every run shows

  ghost predicate StartsInOrder(phases: seq<string>, log: seq<Effect>) {
    && (forall p :: 0 <= p < |log| && log[p].Began? ==> log[p].index < |phases|)
    && (forall p, q :: 0 <= p < q < |log| && log[p].Began? && log[q].Began? ==> log[p].index < log[q].index)
    && (forall q :: 0 <= q < |log| && log[q].Began? && log[q].index > 0 ==>
          exists p :: 0 <= p < q && log[p].Ended? && log[p].index == log[q].index - 1)
  }

  ghost predicate ExitsOnce(log: seq<Effect>) {
    forall p, q :: 0 <= p < |log| && 0 <= q < |log| && log[p].Exited? && log[q].Exited? ==> p == q
  }

  ghost predicate AllResolvedBefore(phases: seq<string>, log: seq<Effect>, p: nat)
    requires p <= |log|
  {
    forall i: nat :: i < |phases| ==> Ended(i, Resolved) in log[..p]
  }

  ghost predicate MarksOnlyAfterSuccess(phases: seq<string>, log: seq<Effect>) {
    forall p :: 0 <= p < |log| && log[p].Marked? ==> AllResolvedBefore(phases, log, p)
  }

  predicate IsCleanReceipt(receipt: Receipt) {
    receipt.outcome.Clean? && receipt.phase == "complete" && receipt.failures == []
  }

  ghost predicate PublishedClean(log: seq<Effect>) {
    exists p :: 0 <= p < |log| && log[p].Published? && IsCleanReceipt(log[p].receipt)
  }

  /** `phase` is the first thing that failed: a phase with none failing before it, or `markClean`. */
  ghost predicate FirstFailure(phases: seq<string>, log: seq<Effect>, phase: string) {
    || (exists q :: && 0 <= q < |log| && log[q].Ended? && log[q].result.Rejected? && log[q].index < |phases|
                    && phases[log[q].index] == phase
                    && forall p :: 0 <= p < q && log[p].Ended? ==> log[p].result.Resolved?)
    || (phase == "lifecycle-stop" && exists q :: 0 <= q < |log| && log[q].Marked? && log[q].result.Rejected?)
  }

  ghost predicate FailedReceiptsNameFirst(phases: seq<string>, log: seq<Effect>) {
    forall p :: 0 <= p < |log| && log[p].Published? && log[p].receipt.outcome.Failed? ==>
      FirstFailure(phases, log, log[p].receipt.phase)
  }

  /** A timed-out receipt names the phase it was still waiting for. */
  ghost predicate TimedOutReceiptsNamePending(phases: seq<string>, log: seq<Effect>) {
    forall p :: 0 <= p < |log| && log[p].Published? && log[p].receipt.outcome.TimedOut? ==>
      exists i: nat :: && i < |phases| && phases[i] == log[p].receipt.phase
                       && Began(i) in log[..p] && forall q :: 0 <= q < p && log[q].Ended? ==> log[q].index < i
  }

  ghost predicate Orderly(phases: seq<string>, log: seq<Effect>) {
    && StartsInOrder(phases, log)
    && ExitsOnce(log)
    && MarksOnlyAfterSuccess(phases, log)
    && (Exited(0) in log <==> PublishedClean(log))
    && (Exited(0) in log ==> Marked(Resolved) in log)
    && FailedReceiptsNameFirst(phases, log)
    && TimedOutReceiptsNamePending(phases, log)
  }

  // ---------------------------------------------------------------------------------------------
  // The invariant behind it

  predicate AllResolved(results: seq<Settlement>) {
    forall i :: 0 <= i < |results| ==> results[i].Resolved?
  }

  /** The log's starts and settlements are exactly those the runner remembers. */
  ghost predicate Tracks(phases: seq<string>, log: seq<Effect>, results: seq<Settlement>, awaiting: bool) {
    && |results| + (if awaiting then 1 else 0) <= |phases|
    && StartsInOrder(phases, log)
    && (forall p :: 0 <= p < |log| && log[p].Began? ==> log[p].index < |results| + (if awaiting then 1 else 0))
    && (forall p :: 0 <= p < |log| && log[p].Ended? ==>
          log[p].index < |results| && log[p].result == results[log[p].index])
    && (forall i: nat :: i < |results| ==> Ended(i, results[i]) in log)
    && (awaiting ==> Began(|results|) in log)
  }

  /** Nothing has ended the run yet. */
  predicate Quiet(log: seq<Effect>) {
    forall p :: 0 <= p < |log| ==> log[p].Began? || log[p].Ended?
  }

  ghost predicate Ends(phases: seq<string>, log: seq<Effect>) {
    && ExitsOnce(log)
    && MarksOnlyAfterSuccess(phases, log)
    && (Exited(0) in log <==> PublishedClean(log))
    && (Exited(0) in log ==> Marked(Resolved) in log)
    && FailedReceiptsNameFirst(phases, log)
    && TimedOutReceiptsNamePending(phases, log)
  }

  ghost predicate Pending(r: Runner) {
    && r.awaiting && Quiet(r.log)
    && |r.results| < |r.phases| && r.phase == r.phases[|r.results|]
    && (r.failures == [] <==> AllResolved(r.results))
    && (r.failures != [] ==> FirstFailure(r.phases, r.log, r.failures[0].phase))
  }

  ghost predicate Inv(r: Runner) {
    if !r.started then r == Fresh(r.pid, r.phases)
    else
      && Tracks(r.phases, r.log, r.results, r.awaiting)
      && (if r.finished then Ends(r.phases, r.log) else Pending(r))
  }

  lemma TracksBegan(phases: seq<string>, log: seq<Effect>, results: seq<Settlement>)
    requires Tracks(phases, log, results, false) && |results| < |phases|
    ensures Tracks(phases, log + [Began(|results|)], results, true)
  {
    var longer := log + [Began(|results|)];
    forall q | 0 <= q < |longer| && longer[q].Began? && longer[q].index > 0
      ensures exists p :: 0 <= p < q && longer[p].Ended? && longer[p].index == longer[q].index - 1
    {
      if q < |log| {
        var p :| 0 <= p < q && log[p].Ended? && log[p].index == log[q].index - 1;
        assert longer[p] == log[p];
      } else {
        var last := Ended(|results| - 1, results[|results| - 1]);
        var p :| 0 <= p < |log| && log[p] == last;
        assert longer[p] == last;
      }
    }
    assert longer[|log|] == Began(|results|);
  }

  lemma TracksOther(phases: seq<string>, log: seq<Effect>, results: seq<Settlement>, awaiting: bool, e: Effect)
    requires Tracks(phases, log, results, awaiting) && !e.Began? && !e.Ended?
    ensures Tracks(phases, log + [e], results, awaiting)
  {
    StartsKept(phases, log, e);
  }

  lemma StartsKept(phases: seq<string>, log: seq<Effect>, e: Effect)
    requires StartsInOrder(phases, log) && !e.Began?
    ensures StartsInOrder(phases, log + [e])
  {
    var longer := log + [e];
    forall q | 0 <= q < |longer| && longer[q].Began? && longer[q].index > 0
      ensures exists p :: 0 <= p < q && longer[p].Ended? && longer[p].index == longer[q].index - 1
    {
      var p :| 0 <= p < q && log[p].Ended? && log[p].index == log[q].index - 1;
      assert longer[p] == log[p];
    }
  }

  lemma TracksEnded(phases: seq<string>, log: seq<Effect>, results: seq<Settlement>, result: Settlement)
    requires Tracks(phases, log, results, true)
    ensures Tracks(phases, log + [Ended(|results|, result)], results + [result], false)
  {
    var longer := log + [Ended(|results|, result)];
    StartsKept(phases, log, Ended(|results|, result));
    forall i: nat | i < |results + [result]| ensures Ended(i, (results + [result])[i]) in longer {
      if i < |results| {
        assert Ended(i, results[i]) in log;
      } else {
        assert longer[|log|] == Ended(i, result);
      }
    }
  }

  lemma FirstFailureKept(phases: seq<string>, log: seq<Effect>, phase: string, e: Effect)
    requires FirstFailure(phases, log, phase)
    ensures FirstFailure(phases, log + [e], phase)
  {
    var longer := log + [e];
    assert forall q :: 0 <= q < |log| ==> longer[q] == log[q];
    if q :| && 0 <= q < |log| && log[q].Ended? && log[q].result.Rejected? && log[q].index < |phases|
            && phases[log[q].index] == phase
            && forall p :: 0 <= p < q && log[p].Ended? ==> log[p].result.Resolved? {
      assert longer[q] == log[q];
    } else {
      var q :| 0 <= q < |log| && log[q].Marked? && log[q].result.Rejected?;
      assert longer[q] == log[q];
    }
  }

  lemma FailureFound(phases: seq<string>, log: seq<Effect>, results: seq<Settlement>, result: Settlement)
    requires Tracks(phases, log, results, true) && AllResolved(results) && result.Rejected?
    ensures FirstFailure(phases, log + [Ended(|results|, result)], phases[|results|])
  {
    var longer := log + [Ended(|results|, result)];
    var q := |log|;
    assert longer[q] == Ended(|results|, result);
    forall p | 0 <= p < q && longer[p].Ended? ensures longer[p].result.Resolved? {
      assert longer[p] == log[p];
    }
  }

  // How a run ends: a receipt may be published, and the process exits

  lemma ExitOnly(phases: seq<string>, log: seq<Effect>)
    requires Unfinished(phases, log)
    ensures Ends(phases, log + [Exited(1)])
  {
    var longer := log + [Exited(1)];
    assert forall p :: 0 <= p < |log| ==> longer[p] == log[p] && longer[..p] == log[..p];
    assert longer[..|log|] == log;
  }

  /** No publication or exit so far, and any mark came after every phase resolved. */
  ghost predicate Unfinished(phases: seq<string>, log: seq<Effect>) {
    && (forall p :: 0 <= p < |log| ==> !log[p].Published? && !log[p].Exited?)
    && MarksOnlyAfterSuccess(phases, log)
  }

  lemma FailedExit(phases: seq<string>, log: seq<Effect>, receipt: Receipt)
    requires Unfinished(phases, log) && receipt.outcome.Failed? && FirstFailure(phases, log, receipt.phase)
    ensures Ends(phases, log + [Published(receipt)] + [Exited(1)])
  {
    FirstFailureKept(phases, log, receipt.phase, Published(receipt));
    FirstFailureKept(phases, log + [Published(receipt)], receipt.phase, Exited(1));
    PublishedNotClean(phases, log, receipt);
  }

  /** A receipt that is not clean, and exit code 1. */
  lemma PublishedNotClean(phases: seq<string>, log: seq<Effect>, receipt: Receipt)
    requires Unfinished(phases, log) && !receipt.outcome.Clean?
    ensures var longer := log + [Published(receipt)] + [Exited(1)];
      && ExitsOnce(longer) && MarksOnlyAfterSuccess(phases, longer)
      && Exited(0) !in longer && !PublishedClean(longer)
      && (forall p :: 0 <= p < |longer| && longer[p].Published? ==> p == |log| && longer[p].receipt == receipt)
      && longer[..|log|] == log
  {
    var longer := log + [Published(receipt)] + [Exited(1)];
    assert forall p :: 0 <= p < |log| ==> longer[p] == log[p] && longer[..p] == log[..p];
  }

  lemma TimedOutExit(phases: seq<string>, log: seq<Effect>, results: seq<Settlement>, receipt: Receipt)
    requires Unfinished(phases, log) && Tracks(phases, log, results, true)
    requires receipt.outcome.TimedOut? && receipt.phase == phases[|results|]
    ensures Ends(phases, log + [Published(receipt)] + [Exited(1)])
  {
    PublishedNotClean(phases, log, receipt);
    var longer := log + [Published(receipt)] + [Exited(1)];
    var i := |results|;
    assert Began(i) in longer[..|log|];
    forall q | 0 <= q < |log| && longer[q].Ended? ensures longer[q].index < i {
      assert longer[q] == log[q];
    }
  }

  lemma CleanExit(phases: seq<string>, log: seq<Effect>, receipt: Receipt)
    requires Unfinished(phases, log) && Marked(Resolved) in log && IsCleanReceipt(receipt)
    ensures Ends(phases, log + [Published(receipt)] + [Exited(0)])
  {
    var longer := log + [Published(receipt)] + [Exited(0)];
    assert forall p :: 0 <= p < |log| ==> longer[p] == log[p] && longer[..p] == log[..p];
    assert longer[|log|] == Published(receipt) && longer[|log| + 1] == Exited(0);
    var m :| 0 <= m < |log| && log[m] == Marked(Resolved);
    assert longer[m] == Marked(Resolved);
  }

  /** A phase that settles after the end changes nothing that was shown. */
  lemma EndsKept(phases: seq<string>, log: seq<Effect>, index: nat, result: Settlement)
    requires Ends(phases, log)
    ensures Ends(phases, log + [Ended(index, result)])
  {
    var longer := log + [Ended(index, result)];
    assert forall p :: 0 <= p < |log| ==> longer[p] == log[p] && longer[..p] == log[..p];
    forall p | 0 <= p < |longer| && longer[p].Published? && longer[p].receipt.outcome.Failed?
      ensures FirstFailure(phases, longer, longer[p].receipt.phase)
    {
      FirstFailureKept(phases, log, log[p].receipt.phase, Ended(index, result));
    }
    CleanKept(log, Ended(index, result));
  }

  lemma CleanKept(log: seq<Effect>, e: Effect)
    requires e.Ended?
    ensures PublishedClean(log + [e]) <==> PublishedClean(log)
    ensures Exited(0) in log + [e] <==> Exited(0) in log
    ensures Marked(Resolved) in log ==> Marked(Resolved) in log + [e]
  {
    var longer := log + [e];
    if PublishedClean(log) {
      var p :| 0 <= p < |log| && log[p].Published? && IsCleanReceipt(log[p].receipt);
      assert longer[p] == log[p];
    }
  }

  // One event

  lemma FinishInv(r: Runner, outcome: Outcome, env: Env)
    requires r.started && !r.finished && Tracks(r.phases, r.log, r.results, r.awaiting)
    requires Unfinished(r.phases, r.log)
    requires outcome.Clean? ==> r.failures == [] && Marked(Resolved) in r.log
    requires outcome.Failed? ==> FirstFailure(r.phases, r.log, r.phase)
    requires outcome.TimedOut? ==> r.awaiting && r.phase == r.phases[|r.results|]
    ensures Inv(Finish(r, outcome, env))
  {
    var s := Finish(r, outcome, env);
    if !env.publishes {
      assert s.log == r.log + [Exited(1)];
      TracksOther(r.phases, r.log, r.results, r.awaiting, Exited(1));
      ExitOnly(r.phases, r.log);
    } else {
      var receipt := ReceiptOf(r, outcome, env.now);
      var code: nat := if outcome.Clean? then 0 else 1;
      assert s.log == r.log + [Published(receipt)] + [Exited(code)];
      TracksOther(r.phases, r.log, r.results, r.awaiting, Published(receipt));
      TracksOther(r.phases, r.log + [Published(receipt)], r.results, r.awaiting, Exited(code));
      match outcome
      case Clean => CleanExit(r.phases, r.log, receipt);
      case Failed => FailedExit(r.phases, r.log, receipt);
      case TimedOut => TimedOutExit(r.phases, r.log, r.results, receipt);
    }
  }

  /** Between two awaits: every started phase has settled. */
  ghost predicate Between(r: Runner) {
    && r.started && !r.finished && !r.awaiting
    && Tracks(r.phases, r.log, r.results, false) && Quiet(r.log)
    && (r.failures == [] <==> AllResolved(r.results))
    && (r.failures != [] ==> FirstFailure(r.phases, r.log, r.failures[0].phase))
  }

  lemma MarkedUnfinished(phases: seq<string>, log: seq<Effect>, results: seq<Settlement>, mark: Settlement)
    requires Tracks(phases, log, results, false) && Quiet(log)
    requires |results| == |phases| && AllResolved(results)
    ensures Unfinished(phases, log + [Marked(mark)])
  {
    var longer := log + [Marked(mark)];
    assert longer[..|log|] == log;
    forall i: nat | i < |phases| ensures Ended(i, Resolved) in log {
      assert Ended(i, results[i]) in log;
    }
    assert AllResolvedBefore(phases, longer, |log|);
  }

  lemma MarkSeen(phases: seq<string>, log: seq<Effect>, mark: Settlement)
    ensures mark.Resolved? ==> Marked(Resolved) in log + [Marked(mark)]
    ensures mark.Rejected? ==> FirstFailure(phases, log + [Marked(mark)], "lifecycle-stop")
  {
    var longer := log + [Marked(mark)];
    assert longer[|log|] == Marked(mark);
  }

  lemma MarkInv(r: Runner, env: Env)
    requires Between(r) && |r.results| == |r.phases| && r.failures == []
    ensures var s := MarkClean(r, env);
      && Tracks(s.phases, s.log, s.results, false) && Unfinished(s.phases, s.log)
      && (s.failures == [] ==> Marked(Resolved) in s.log)
      && (s.failures != [] ==> FirstFailure(s.phases, s.log, s.failures[0].phase))
  {
    TracksOther(r.phases, r.log, r.results, false, Marked(env.markClean));
    MarkedUnfinished(r.phases, r.log, r.results, env.markClean);
    MarkSeen(r.phases, r.log, env.markClean);
    if env.markClean.Rejected? {
      assert MarkClean(r, env).failures == [Failure("lifecycle-stop", env.markClean.error)];
    }
  }

  lemma AdvanceInv(r: Runner, env: Env)
    requires Between(r)
    ensures Inv(Advance(r, env))
  {
    if |r.results| < |r.phases| {
      TracksBegan(r.phases, r.log, r.results);
      if r.failures != [] {
        FirstFailureKept(r.phases, r.log, r.failures[0].phase, Began(|r.results|));
      }
    } else if r.failures == [] {
      MarkInv(r, env);
      var s := MarkClean(r, env);
      if s.failures == [] {
        FinishInv(s, Clean, env);
      } else {
        FinishInv(s.(phase := s.failures[0].phase), Failed, env);
      }
    } else {
      FinishInv(r.(phase := r.failures[0].phase), Failed, env);
    }
  }

  lemma AllResolvedExtends(results: seq<Settlement>, result: Settlement)
    ensures AllResolved(results + [result]) <==> AllResolved(results) && result.Resolved?
  {
    var longer := results + [result];
    assert longer[|results|] == result;
    assert forall i :: 0 <= i < |results| ==> longer[i] == results[i];
  }

  lemma SettleInv(r: Runner, result: Settlement, env: Env)
    requires Inv(r) && r.awaiting
    ensures Inv(OnSettle(r, result, env))
  {
    var k := |r.results|;
    TracksEnded(r.phases, r.log, r.results, result);
    if r.finished {
      EndsKept(r.phases, r.log, k, result);
    } else {
      var s := r.(log := r.log + [Ended(k, result)], results := r.results + [result], awaiting := false);
      var t := if result.Rejected? then Fail(s, result.error) else s;
      AllResolvedExtends(r.results, result);
      if r.failures != [] {
        FirstFailureKept(r.phases, r.log, r.failures[0].phase, Ended(k, result));
      } else if result.Rejected? {
        FailureFound(r.phases, r.log, r.results, result);
      }
      AdvanceInv(t, env);
    }
  }

  lemma StepInv(r: Runner, e: Event)
    requires Inv(r)
    ensures Inv(Step(r, e))
  {
    match e
    case Signal(env) =>
      if !r.started {
        AdvanceInv(r.(started := true, startedAt := env.now, phase := "starting"), env);
      }
    case Settle(result, env) =>
      if r.awaiting {
        SettleInv(r, result, env);
      }
    case Budget(env) =>
      if r.started && !r.finished {
        FinishInv(Fail(r, BUDGET_EXHAUSTED), TimedOut, env);
      }
  }

  lemma StepFixed(r: Runner, e: Event)
    ensures Step(r, e).pid == r.pid && Step(r, e).phases == r.phases
  {
  }

  lemma {:induction false} AfterInv(pid: nat, phases: seq<string>, events: seq<Event>)
    ensures Inv(After(pid, phases, events))
    ensures After(pid, phases, events).pid == pid && After(pid, phases, events).phases == phases
  {
    if events != [] {
      AfterInv(pid, phases, events[..|events| - 1]);
      StepInv(After(pid, phases, events[..|events| - 1]), events[|events| - 1]);
      StepFixed(After(pid, phases, events[..|events| - 1]), events[|events| - 1]);
    }
  }

  lemma InvOrderly(r: Runner)
    requires Inv(r)
    ensures Orderly(r.phases, r.log)
  {
  }

  /** Main result: every run of the runner, under any order of repeated signals, settlements and
      budget expiry, starts the phases in list order and at most once, exits at most once, marks the
      daemon clean only after every phase succeeded, exits with 0 exactly when it published a clean
      receipt, and names the first failure (or the pending phase) in any other receipt. */
  lemma ShutdownIsOrderly(pid: nat, phases: seq<string>, events: seq<Event>)
    ensures Orderly(phases, After(pid, phases, events).log)
  {
    AfterInv(pid, phases, events);
    InvOrderly(After(pid, phases, events));
  }

  lemma EndedIsRemembered(r: Runner, i: nat, result: Settlement)
    requires Tracks(r.phases, r.log, r.results, r.awaiting) && Ended(i, result) in r.log
    ensures i < |r.results| && r.results[i] == result
  {
  }

  /** A clean receipt is evidence that every phase resolved and the daemon was marked clean. */
  lemma CleanReceiptMeaning(r: Runner)
    requires Inv(r) && PublishedClean(r.log)
    ensures |r.results| == |r.phases| && AllResolved(r.results)
    ensures Marked(Resolved) in r.log && Exited(0) in r.log
  {
    InvOrderly(r);
    var m :| 0 <= m < |r.log| && r.log[m] == Marked(Resolved);
    forall i: nat | i < |r.phases| ensures i < |r.results| && r.results[i] == Resolved {
      assert Ended(i, Resolved) in r.log[..m];
      EndedIsRemembered(r, i, Resolved);
    }
    if |r.phases| > 0 {
      var last: nat := |r.phases| - 1;
      assert Ended(last, Resolved) in r.log[..m];
      EndedIsRemembered(r, last, Resolved);
    }
  }

  /** Every receipt carries the runner's own pid and start time, and only an ended run has one. */
  ghost predicate Stamped(r: Runner) {
    && (forall p :: 0 <= p < |r.log| && r.log[p].Published? ==>
          r.finished && r.log[p].receipt.pid == r.pid && r.log[p].receipt.startedAt == r.startedAt)
    && (r.finished || r.awaiting ==> r.started)
    && (!r.started ==> r.log == [])
  }

  /** `s` is `r` some effects later, in the same run. */
  ghost predicate Continues(r: Runner, s: Runner) {
    && Stamped(s) && s.started && s.startedAt == r.startedAt
    && (r.finished ==> s.finished)
    && r.log <= s.log
  }

  lemma FinishStamped(r: Runner, outcome: Outcome, env: Env)
    requires Stamped(r) && r.started
    ensures Continues(r, Finish(r, outcome, env))
  {
    if !r.finished && env.publishes {
      assert Finish(r, outcome, env).log
          == r.log + [Published(ReceiptOf(r, outcome, env.now))]
             + [Exited(if outcome.Clean? then 0 else 1)];
    }
  }

  lemma MarkStamped(r: Runner, env: Env)
    requires Stamped(r) && r.started
    ensures Continues(r, MarkClean(r, env))
  {
  }

  lemma AdvanceStamped(r: Runner, env: Env)
    requires Stamped(r) && r.started
    ensures Continues(r, Advance(r, env))
  {
    if !r.finished && |r.results| >= |r.phases| {
      var s := if r.failures == [] then MarkClean(r, env) else r;
      if r.failures == [] {
        MarkStamped(r, env);
      }
      if s.failures == [] {
        FinishStamped(s, Clean, env);
      } else {
        FinishStamped(s.(phase := s.failures[0].phase), Failed, env);
      }
    }
  }

  lemma StepStamped(r: Runner, e: Event)
    requires Stamped(r)
    ensures Stamped(Step(r, e))
    ensures r.started ==> Continues(r, Step(r, e))
    ensures !r.started && Step(r, e).started ==> Step(r, e).startedAt == e.env.now
    ensures r.log <= Step(r, e).log
  {
    match e
    case Signal(env) =>
      if !r.started {
        AdvanceStamped(r.(started := true, startedAt := env.now, phase := "starting"), env);
      }
    case Settle(result, env) =>
      if r.awaiting && r.started {
        var s := r.(log := r.log + [Ended(|r.results|, result)], results := r.results + [result], awaiting := false);
        AdvanceStamped(if result.Rejected? && !r.finished then Fail(s, result.error) else s, env);
      }
    case Budget(env) =>
      if r.started && !r.finished {
        FinishStamped(Fail(r, BUDGET_EXHAUSTED), TimedOut, env);
      }
  }

  // ---------------------------------------------------------------------------------------------
  // The runner itself, as the closures that share its variables

  class ShutdownRunner {
    const pid: nat
    const phases: seq<string>
    var started: bool
    var startedAt: nat
    var finished: bool
    var phase: string
    var failures: seq<Failure>
    var results: seq<Settlement>
    var awaiting: bool
    var log: seq<Effect>

    ghost function State(): Runner
      reads this
    {
      Runner(pid, phases, started, startedAt, finished, phase, failures, results, awaiting, log)
    }

    constructor (pid: nat, phases: seq<string>)
      ensures State() == Fresh(pid, phases)
    {
      this.pid, this.phases := pid, phases;
      started, startedAt, finished, phase := false, 0, false, "starting";
      failures, results, awaiting, log := [], [], false, [];
    }

    method RecordFailure(error: string)
      modifies this`failures
      ensures State() == Fail(old(State()), error)
    {
      failures := failures + [Failure(phase, error)];
    }

    method EndRun(outcome: Outcome, env: Env)
      modifies this`finished, this`log
      ensures State() == Finish(old(State()), outcome, env)
    {
      if finished {
        return;
      }
      finished := true;
      var code := if outcome.Clean? then 0 else 1;
      var receipt := Receipt(pid, startedAt, env.now, outcome, if outcome.Clean? then "complete" else phase, failures);
      if env.publishes {
        log := log + [Published(receipt)];
      } else {
        log := log + [];
        code := 1;
      }
      log := log + [Exited(code)];
    }

    /** The phase loop, from the point where every started phase has settled. */
    method Continue(env: Env)
      modifies this
      ensures State() == Advance(old(State()), env)
    {
      if finished {
        return;
      }
      if |results| < |phases| {
        phase := phases[|results|];
        awaiting := true;
        log := log + [Began(|results|)];
        return;
      }
      if failures == [] {
        phase := "lifecycle-stop";
        log := log + [Marked(env.markClean)];
        if env.markClean.Rejected? {
          RecordFailure(env.markClean.error);
        }
      }
      if failures != [] {
        phase := failures[0].phase;
      }
      EndRun(if failures != [] then Failed else Clean, env);
    }

    method OnSignalled(env: Env)
      modifies this
      ensures State() == OnSignal(old(State()), env)
      ensures old(Inv(State())) ==> Inv(State())
    {
      StepInvIf(State(), Signal(env));
      if started {
        return;
      }
      started, startedAt, phase := true, env.now, "starting";
      Continue(env);
    }

    method OnSettled(result: Settlement, env: Env)
      modifies this
      ensures State() == OnSettle(old(State()), result, env)
      ensures old(Inv(State())) ==> Inv(State())
    {
      StepInvIf(State(), Settle(result, env));
      if !awaiting {
        return;
      }
      log := log + [Ended(|results|, result)];
      results, awaiting := results + [result], false;
      if result.Rejected? && !finished {
        RecordFailure(result.error);
      }
      Continue(env);
    }

    method OnBudgetExhausted(env: Env)
      modifies this
      ensures State() == OnBudget(old(State()), env)
      ensures old(Inv(State())) ==> Inv(State())
    {
      StepInvIf(State(), Budget(env));
      if !started || finished {
        return;
      }
      RecordFailure(BUDGET_EXHAUSTED);
      EndRun(TimedOut, env);
    }
  }

  lemma StepInvIf(r: Runner, e: Event)
    ensures Inv(r) ==> Inv(Step(r, e))
  {
    if Inv(r) {
      StepInv(r, e);
    }
  }
}
