/** Starting and stopping the daemon: packages/cli/src/daemon-lifecycle.ts and
    packages/cli/src/daemon-start-lock.ts together with the daemon's own shutdown runner.

    Launchers, spawned children and stoppers share nothing but files (`daemon.json`,
    `daemon-start.lock`, `daemon-shutdown.json`), signals, exits and the health endpoint. Each action
    below is one externally visible step of one of them; any interleaving is a run.

    Assumptions: file creation, rename and unlink are atomic; all parties read one clock; a pid is
    not given to a new process while `daemon.json` or a stop in progress names it, nor in the
    millisecond its last holder exited. An operator archives a reservation once the processes that it
    records are absent; a child that it does not record may be alive. */
module DaemonLifecycle {
  import opened Options
  import opened DaemonShutdown

  /** The contents of daemon.json. */
  datatype DaemonState = DaemonState(pid: nat, port: nat, host: string, db: string, startedAt: nat)

  datatype StateFile = Absent | Malformed | Holding(state: DaemonState)

  /** One incarnation. The last four are history: its own /healthz named its pid to its launcher; the record
      that was written for it; a failed start could not withdraw that record; it was killed between renaming
      its receipt and exiting. */
  datatype Process = Process(
    pid: nat,
    port: nat,
    launcher: nat,
    spawnedAt: nat,
    exitedAt: Option<nat>,
    listening: bool,
    runner: Runner,
    answered: bool,
    published: Option<DaemonState>,
    kept: bool,
    cut: bool)

  datatype Reservation = Reservation(launcher: nat, child: Option<nat>)

  /** What the last readiness round established: nothing, or an answer naming the child's pid whose
      listener check stayed uncertain for the primary address or only for another one. */
  datatype Round = Nothing | PrimaryUncertain | SecondaryUncertain

  /** Where a launcher (startDaemon with startOwnedDaemon) is. `ok` is whether startOwnedDaemon returned;
      `unreleased` whether releasing the reservation then threw, and startDaemon with it. */
  datatype Launcher =
    | Idle
    | Checking                                           // reservation held, nothing spawned
    | Recording(child: nat)                              // spawned, not yet in the reservation
    | Probing(child: nat, last: Round)                   // readiness loop
    | Confirmed(child: nat)                              // loop left with an accepted answer
    | Publishing(child: nat, state: DaemonState)         // seen alive, record about to be written
    | Rechecking(child: nat, state: DaemonState)         // record written, liveness asked again
    | Comparing(child: nat, state: DaemonState)          // retracting: about to read daemon.json
    | Removing(child: nat, state: DaemonState)           // retracting: it matched
    | Failing(child: nat)                                // start failed, own child to be cleaned up
    | Stopping(child: nat)                               // own child signalled, exit awaited
    | Leaving(spawned: Option<nat>, preserve: bool, ok: bool)
    | Gone(spawned: Option<nat>, ok: bool, unreleased: bool)
    | Crashed

  /** Where a stop is, or a status read that finds the recorded daemon dead and may clear its record too.
      `target` is history: the incarnation `state` names. So is `left`: the last step could not read
      daemon.json, or not unlink it. */
  datatype Stopper =
    | Ready
    | Targeting(state: DaemonState, target: nat)
    | Awaiting(state: DaemonState, target: nat, notBefore: nat, deadline: nat)
    | Verifying(state: DaemonState, target: nat, notBefore: nat)
    | Judging(state: DaemonState, target: nat, notBefore: nat)
    | Auditing(state: DaemonState, target: nat)          // a status read
    | Reviewing(state: DaemonState, target: nat)         // a status read: the process is gone
    | Clearing(state: DaemonState, target: nat)
    | Unlinking(state: DaemonState, target: nat)
    | Stopped(state: DaemonState, target: nat, left: bool)
    | NoTarget
    | Reported                                           // a status read that clears nothing
    | Threw

  datatype World = World(
    clock: nat,
    procs: seq<Process>,
    record: StateFile,
    receipt: Option<Receipt>,
    lock: Option<Reservation>,
    launchers: seq<Launcher>,
    stoppers: seq<Stopper>)

  function Start(launchers: nat, stoppers: nat): World {
    World(0, [], Absent, None, None, seq(launchers, _ => Idle), seq(stoppers, _ => Ready))
  }

  predicate Live(w: World, i: nat) {
    i < |w.procs| && w.procs[i].exitedAt.None?
  }

  predicate PidLive(w: World, pid: nat) {
    exists i :: 0 <= i < |w.procs| && w.procs[i].pid == pid && Live(w, i)
  }

  predicate PortOpen(w: World, port: nat) {
    exists i :: 0 <= i < |w.procs| && w.procs[i].port == port && w.procs[i].listening
  }

  /** The latest incarnation with a pid. */
  predicate Latest(w: World, i: nat, pid: nat) {
    && i < |w.procs| && w.procs[i].pid == pid
    && forall j :: i < j < |w.procs| ==> w.procs[j].pid != pid
  }

  // ---------------------------------------------------------------------------------------------
  // Edits

  function SetProc(w: World, i: nat, p: Process): World
    requires i < |w.procs|
  {
    w.(procs := w.procs[i := p])
  }

  function SetLauncher(w: World, l: nat, x: Launcher): World
    requires l < |w.launchers|
  {
    w.(launchers := w.launchers[l := x])
  }

  function SetStopper(w: World, s: nat, x: Stopper): World
    requires s < |w.stoppers|
  {
    w.(stoppers := w.stoppers[s := x])
  }

  /** A process with the runner it moved on to; when that ends the run, the process exits. */
  function Moved(p: Process, r: Runner, now: nat): Process {
    if r.finished && !p.runner.finished then p.(runner := r, exitedAt := Some(now), listening := false)
    else p.(runner := r)
  }

  /** The receipt that the end of a run renamed into place. */
  function ReceiptBetween(before: Runner, r: Runner): Option<Receipt> {
    if r.finished && !before.finished && |r.log| >= 2 && r.log[|r.log| - 2].Published?
    then Some(r.log[|r.log| - 2].receipt)
    else None
  }

  /** A callback of the process's shutdown runner. */
  function RunnerStep(p: Process, e: Event): Process {
    Moved(p, Step(p.runner, e), e.env.now)
  }

  function NewReceipt(p: Process, e: Event): Option<Receipt> {
    ReceiptBetween(p.runner, Step(p.runner, e))
  }

  function Spawned(pid: nat, port: nat, launcher: nat, now: nat, phases: seq<string>): Process {
    Process(pid, port, launcher, now, None, false, Fresh(pid, phases), false, None, false, false)
  }

  // ---------------------------------------------------------------------------------------------
  // Actions

  /** Time and the daemon processes. */
  datatype SystemStep =
    | Tick(ms: nat)
    | Listen(i: nat)
    | Deafen(i: nat)
    | Callback(i: nat, event: Event)
    | CutShort(i: nat, event: Event)         // killed between the receipt's rename and the exit
    | Crash(i: nat)
    | Archive                                // an operator, the recorded processes proved absent

  datatype LauncherStep =
    | Acquire
    | RefusedByLock
    | Abort                                  // a check, the initialization or the spawn refused
    | Spawn(pid: nat, port: nat, phases: seq<string>)
    | RecordChild
    | ProbeRound(round: Round)
    | ProbeAccepted                          // every required listener verified
    | DeadlineAccepts                        // deadline: only another listener is uncertain
    | DeadlinePends                          // deadline: child kept, reservation retained
    | Confirm(host: string, db: string)
    | WriteRecord
    | WriteFails(left: StateFile)
    | RecheckPasses
    | RecheckFails
    | CompareOwn
    | CompareBlind                           // daemon.json cannot be read
    | RemoveOwn
    | RemoveFails                            // the unlink fails, which nobody reports
    | FailStart
    | SignalOwn
    | SeeOwnExit
    | GiveUpOnExit
    | Release
    | ReleaseFails(unlinked: bool)           // the unlink throws, or the close after it
    | Die

  datatype StopperStep =
    | ReadState(target: nat)
    | ReadNoState(outcome: Stopper)
    | RefuseStop
    | SeeDead
    | Kill
    | SeeAbsent
    | SeePresent
    | SeeRefused
    | SeeOpen
    | Judge
    | AuditRead(seen: nat)
    | AuditDead
    | AuditJudge
    | AuditEnds
    | CompareTarget
    | CompareUnread                          // daemon.json cannot be read
    | Unlink
    | UnlinkFails                            // nobody reports it

  datatype Action =
    | System(sys: SystemStep)
    | Launch(l: nat, launch: LauncherStep)
    | Stop(s: nat, stop: StopperStep)

  predicate Held(w: World, l: nat) {
    w.lock.Some? && w.lock.value.launcher == l
  }

  /** Pids some record still names. */
  predicate Named(w: World, pid: nat) {
    || (w.record.Holding? && w.record.state.pid == pid)
    || (exists s :: 0 <= s < |w.stoppers| && InFlight(w.stoppers[s]) && w.stoppers[s].state.pid == pid)
  }

  predicate InFlight(x: Stopper) {
    x.Targeting? || x.Awaiting? || x.Verifying? || x.Judging? || x.Auditing? || x.Reviewing?
    || x.Clearing? || x.Unlinking?
  }

  predicate PidFree(w: World, pid: nat) {
    && !Named(w, pid)
    && forall i :: 0 <= i < |w.procs| && w.procs[i].pid == pid ==>
         w.procs[i].exitedAt.Some? && w.procs[i].exitedAt.value < w.clock
  }

  predicate LauncherEnabled(w: World, l: nat, step: LauncherStep) {
    && l < |w.launchers|
    && var x := w.launchers[l];
    && ChildExists(w, x)
    && match step
       case Acquire => x.Idle? && w.lock.None?
       case RefusedByLock => x.Idle? && w.lock.Some?
       case Abort => x.Checking?
       case Spawn(pid, _, _) => x.Checking? && PidFree(w, pid)
       case RecordChild => x.Recording?
       case ProbeRound(round) => x.Probing? && (round.Nothing? || Answers(w, x.child))
       case ProbeAccepted => x.Probing? && Answers(w, x.child)
       case DeadlineAccepts => x.Probing? && x.last.SecondaryUncertain?
       case DeadlinePends => x.Probing? && (x.last.PrimaryUncertain? || (x.last.Nothing? && Live(w, x.child)))
       case Confirm(_, _) => x.Confirmed? && Live(w, x.child)
       case WriteRecord => x.Publishing?
       case WriteFails(left) => x.Publishing? && (left == w.record || left.Malformed? || left == Holding(x.state))
       case RecheckPasses => x.Rechecking? && Live(w, x.child)
       case RecheckFails => x.Rechecking?
       case CompareOwn => x.Comparing?
       case CompareBlind => x.Comparing?
       case RemoveOwn => x.Removing?
       case RemoveFails => x.Removing?
       case FailStart => x.Recording? || x.Probing? || x.Confirmed?
       case SignalOwn => x.Failing?
       case SeeOwnExit => (x.Failing? || x.Stopping?) && !Live(w, x.child)
       case GiveUpOnExit => x.Stopping?
       case Release => x.Leaving?
       case ReleaseFails(_) => x.Leaving?
       case Die => !x.Gone? && !x.Crashed?
  }

  /** The incarnation a launcher refers to has been spawned; every reachable world satisfies it. */
  predicate ChildExists(w: World, x: Launcher) {
    match x
    case Idle => true
    case Checking => true
    case Leaving(c, _, _) => c.Some? ==> c.value < |w.procs|
    case Gone(c, _, _) => c.Some? ==> c.value < |w.procs|
    case Crashed => true
    case _ => x.child < |w.procs|
  }

  /** The child's endpoint responds and names the child's pid. */
  predicate Answers(w: World, child: nat) {
    Live(w, child) && w.procs[child].listening
  }

  predicate StopperEnabled(w: World, s: nat, step: StopperStep) {
    && s < |w.stoppers|
    && var x := w.stoppers[s];
    match step
    case ReadState(target) => x.Ready? && w.record.Holding? && Latest(w, target, w.record.state.pid)
    case ReadNoState(outcome) => x.Ready? && (outcome.Threw? || (outcome.NoTarget? && !w.record.Holding?))
    case RefuseStop => x.Targeting?
    case SeeDead => x.Targeting? && !PidLive(w, x.state.pid)
    case Kill => x.Targeting?
    case SeeAbsent => x.Awaiting? && !PidLive(w, x.state.pid)
    case SeePresent => x.Awaiting? && PidLive(w, x.state.pid) && x.deadline <= w.clock
    case SeeRefused => x.Verifying? && !PortOpen(w, x.state.port)
    case SeeOpen => x.Verifying?
    case Judge => x.Judging?
    case AuditRead(seen) => x.Ready? && w.record.Holding? && Latest(w, seen, w.record.state.pid)
    case AuditDead => x.Auditing? && !PidLive(w, x.state.pid)
    case AuditJudge => x.Reviewing?
    case AuditEnds => x.Auditing?
    case CompareTarget => x.Clearing?
    case CompareUnread => x.Clearing?
    case Unlink => x.Unlinking?
    case UnlinkFails => x.Unlinking?
  }

  predicate SystemEnabled(w: World, step: SystemStep) {
    match step
    case Tick(_) => true
    case Listen(i) => Live(w, i)
    case Deafen(i) => Live(w, i)
    case Callback(i, event) => Live(w, i) && event.env.now == w.clock
    case CutShort(i, event) => Live(w, i) && event.env.now == w.clock && NewReceipt(w.procs[i], event).Some?
    case Crash(i) => Live(w, i)
    case Archive =>
      && w.lock.Some? && w.lock.value.launcher < |w.launchers|
      && (w.launchers[w.lock.value.launcher].Crashed? || w.launchers[w.lock.value.launcher].Gone?)
      && (w.lock.value.child.Some? ==> !PidLive(w, w.lock.value.child.value))
  }

  predicate Enabled(w: World, a: Action) {
    match a
    case System(step) => SystemEnabled(w, step)
    case Launch(l, step) => LauncherEnabled(w, l, step)
    case Stop(s, step) => StopperEnabled(w, s, step)
  }

  function LauncherApply(w: World, l: nat, step: LauncherStep): World
    requires LauncherEnabled(w, l, step)
  {
    var x := w.launchers[l];
    match step
    case Acquire => SetLauncher(w.(lock := Some(Reservation(l, None))), l, Checking)
    case RefusedByLock => SetLauncher(w, l, Gone(None, false, false))
    case Abort => SetLauncher(w, l, Leaving(None, false, false))
    case Spawn(pid, port, phases) =>
      SetLauncher(w.(procs := w.procs + [Spawned(pid, port, l, w.clock, phases)]), l, Recording(|w.procs|))
    case RecordChild =>
      SetLauncher(if Held(w, l) then w.(lock := Some(Reservation(l, Some(w.procs[x.child].pid)))) else w,
                  l, Probing(x.child, Nothing))
    case ProbeRound(round) =>
      SetLauncher(if round.Nothing? then w else MarkAnswered(w, x.child), l, Probing(x.child, round))
    case ProbeAccepted => SetLauncher(MarkAnswered(w, x.child), l, Confirmed(x.child))
    case DeadlineAccepts => SetLauncher(w, l, Confirmed(x.child))
    case DeadlinePends => SetLauncher(w, l, Leaving(Some(x.child), true, false))
    case Confirm(host, db) =>
      SetLauncher(w, l, Publishing(x.child,
        DaemonState(w.procs[x.child].pid, w.procs[x.child].port, host, db, w.clock)))
    case WriteRecord => SetLauncher(Write(w, x.child, x.state), l, Rechecking(x.child, x.state))
    case WriteFails(left) =>
      SetLauncher(if left == Holding(x.state) then Write(w, x.child, x.state) else w.(record := left),
                  l, Comparing(x.child, x.state))
    case RecheckPasses => SetLauncher(w, l, Leaving(Some(x.child), false, true))
    case RecheckFails => SetLauncher(w, l, Comparing(x.child, x.state))
    case CompareOwn =>
      SetLauncher(w, l, if w.record == Holding(x.state) then Removing(x.child, x.state) else Failing(x.child))
    case CompareBlind => SetLauncher(MarkKept(w, x.child), l, Failing(x.child))
    case RemoveOwn => SetLauncher(w.(record := Absent), l, Failing(x.child))
    case RemoveFails => SetLauncher(MarkKept(w, x.child), l, Failing(x.child))
    case FailStart => SetLauncher(w, l, Failing(x.child))
    case SignalOwn => SetLauncher(w, l, Stopping(x.child))
    case SeeOwnExit => SetLauncher(w, l, Leaving(Some(x.child), false, false))
    case GiveUpOnExit => SetLauncher(w, l, Leaving(Some(x.child), true, false))
    case Release => SetLauncher(LetGo(w, l, !x.preserve), l, Gone(x.spawned, x.ok, false))
    case ReleaseFails(unlinked) => SetLauncher(LetGo(w, l, !x.preserve && unlinked), l, Gone(x.spawned, x.ok, true))
    case Die => SetLauncher(w, l, Crashed)
  }

  /** The reservation is unlinked, if it is the launcher's own. */
  function LetGo(w: World, l: nat, unlinks: bool): World {
    if unlinks && Held(w, l) then w.(lock := None) else w
  }

  function MarkAnswered(w: World, i: nat): World
    requires i < |w.procs|
  {
    SetProc(w, i, w.procs[i].(answered := true))
  }

  function MarkKept(w: World, i: nat): World
    requires i < |w.procs|
  {
    SetProc(w, i, w.procs[i].(kept := true))
  }

  /** daemon.json now names incarnation `c`. */
  function Write(w: World, c: nat, state: DaemonState): World
    requires c < |w.procs|
  {
    SetProc(w, c, w.procs[c].(published := Some(state))).(record := Holding(state))
  }

  function StopperApply(w: World, s: nat, step: StopperStep): World
    requires StopperEnabled(w, s, step)
  {
    var x := w.stoppers[s];
    match step
    case ReadState(target) => SetStopper(w, s, Targeting(w.record.state, target))
    case ReadNoState(outcome) => SetStopper(w, s, outcome)
    case RefuseStop => SetStopper(w, s, Threw)
    case SeeDead => SetStopper(w, s, Awaiting(x.state, x.target, x.state.startedAt, w.clock))
    case Kill => SetStopper(w, s, Awaiting(x.state, x.target, w.clock, w.clock + DAEMON_STOP_WAIT_MS))
    case SeeAbsent => SetStopper(w, s, Verifying(x.state, x.target, x.notBefore))
    case SeePresent => SetStopper(w, s, Threw)
    case SeeRefused => SetStopper(w, s, Judging(x.state, x.target, x.notBefore))
    case SeeOpen => SetStopper(w, s, Threw)
    case Judge =>
      SetStopper(w, s, if ReceiptMatches(w.receipt, x.state, x.notBefore) && IsCleanReceipt(w.receipt.value)
                       then Clearing(x.state, x.target) else Threw)
    case AuditRead(seen) => SetStopper(w, s, Auditing(w.record.state, seen))
    case AuditDead => SetStopper(w, s, Reviewing(x.state, x.target))
    case AuditJudge =>
      SetStopper(w, s, if ReceiptMatches(w.receipt, x.state, x.state.startedAt) && IsCleanReceipt(w.receipt.value)
                       then Clearing(x.state, x.target) else Reported)
    case AuditEnds => SetStopper(w, s, Reported)
    case CompareTarget =>
      SetStopper(w, s, if w.record == Holding(x.state) then Unlinking(x.state, x.target)
                       else Stopped(x.state, x.target, false))
    case CompareUnread => SetStopper(w, s, Stopped(x.state, x.target, true))
    case Unlink => SetStopper(w.(record := Absent), s, Stopped(x.state, x.target, false))
    case UnlinkFails => SetStopper(w, s, Stopped(x.state, x.target, true))
  }

  predicate ReceiptMatches(receipt: Option<Receipt>, state: DaemonState, notBefore: nat) {
    receipt.Some? && receipt.value.pid == state.pid && receipt.value.startedAt >= notBefore
  }

  function SystemApply(w: World, step: SystemStep): World
    requires SystemEnabled(w, step)
  {
    match step
    case Tick(ms) => w.(clock := w.clock + ms)
    case Listen(i) => SetProc(w, i, w.procs[i].(listening := true))
    case Deafen(i) => SetProc(w, i, w.procs[i].(listening := false))
    case Callback(i, e) =>
      var receipt := NewReceipt(w.procs[i], e);
      SetProc(w, i, RunnerStep(w.procs[i], e)).(receipt := if receipt.Some? then receipt else w.receipt)
    case CutShort(i, e) =>
      SetProc(w, i, RunnerStep(w.procs[i], e).(cut := true)).(receipt := NewReceipt(w.procs[i], e))
    case Crash(i) => SetProc(w, i, w.procs[i].(exitedAt := Some(w.clock), listening := false))
    case Archive => w.(lock := None)
  }

  function Apply(w: World, a: Action): World
    requires Enabled(w, a)
  {
    match a
    case System(step) => SystemApply(w, step)
    case Launch(l, step) => LauncherApply(w, l, step)
    case Stop(s, step) => StopperApply(w, s, step)
  }

  /** A run: every action is enabled where it happens. */
  predicate Runs(w: World, actions: seq<Action>)
    decreases actions
  {
    actions == [] || (Enabled(w, actions[0]) && Runs(Apply(w, actions[0]), actions[1..]))
  }

  function Reached(w: World, actions: seq<Action>): World
    requires Runs(w, actions)
    decreases actions
  {
    if actions == [] then w else Reached(Apply(w, actions[0]), actions[1..])
  }

  // ---------------------------------------------------------------------------------------------
  // The invariant

  ghost predicate ProcOk(w: World, i: nat)
    requires i < |w.procs|
  {
    var p := w.procs[i];
    && p.spawnedAt <= Until(w, p) <= w.clock
    && (p.exitedAt.Some? ==> !p.listening)
    && p.runner.pid == p.pid && Inv(p.runner) && Stamped(p.runner)
    && (p.runner.started ==> p.spawnedAt <= p.runner.startedAt <= Until(w, p))
    && (p.runner.finished ==> p.exitedAt.Some?)
    && (p.published.Some? ==> p.answered && StampOk(w, p, p.published.value))
  }

  /** The end of an incarnation's life so far. */
  function Until(w: World, p: Process): nat {
    if p.exitedAt.Some? then p.exitedAt.value else w.clock
  }

  ghost predicate StampOk(w: World, p: Process, state: DaemonState) {
    state.pid == p.pid && state.port == p.port && p.spawnedAt <= state.startedAt <= Until(w, p)
  }

  ghost predicate ProcsOk(w: World) {
    forall i :: 0 <= i < |w.procs| ==> ProcOk(w, i)
  }

  /** Lifetimes of the holders of one pid do not overlap, and no launcher has two children. */
  ghost predicate LifetimesOk(w: World) {
    && (forall i, j :: 0 <= i < j < |w.procs| && w.procs[i].pid == w.procs[j].pid ==>
          w.procs[i].exitedAt.Some? && w.procs[i].exitedAt.value < w.procs[j].spawnedAt)
    && (forall i, j :: 0 <= i < j < |w.procs| ==> w.procs[i].launcher != w.procs[j].launcher)
  }

  ghost predicate Wrote(w: World, i: nat, receipt: Receipt) {
    && i < |w.procs| && w.procs[i].pid == receipt.pid
    && w.procs[i].runner.started && w.procs[i].runner.startedAt == receipt.startedAt
    && Published(receipt) in w.procs[i].runner.log
  }

  ghost predicate ReceiptOk(w: World) {
    w.receipt.Some? ==> exists i: nat :: Wrote(w, i, w.receipt.value)
  }

  ghost predicate RecordOk(w: World) {
    w.record.Holding? ==> exists i: nat :: Names(w, i, w.record.state)
  }

  ghost predicate Names(w: World, i: nat, state: DaemonState) {
    Latest(w, i, state.pid) && w.procs[i].published == Some(state)
  }

  ghost predicate NoChild(w: World, l: nat) {
    forall i :: 0 <= i < |w.procs| ==> w.procs[i].launcher != l
  }

  ghost predicate Child(w: World, l: nat, c: nat) {
    c < |w.procs| && w.procs[c].launcher == l
  }

  /** The launcher holds the reservation, and its child is the last process spawned. */
  ghost predicate Owns(w: World, l: nat, c: nat) {
    Held(w, l) && Child(w, l, c) && c == |w.procs| - 1
  }

  ghost predicate Unpublished(w: World, c: nat)
    requires c < |w.procs|
  {
    w.procs[c].published.None?
  }

  /** daemon.json does not hold the record written for `c`, if one ever was. */
  ghost predicate Unrecorded(w: World, c: nat)
    requires c < |w.procs|
  {
    w.procs[c].published.Some? ==> w.record != Holding(w.procs[c].published.value)
  }

  /** daemon.json does not hold the record written for `c`, save that it could not be withdrawn. */
  ghost predicate Withdrawn(w: World, c: nat)
    requires c < |w.procs|
  {
    w.procs[c].kept || Unrecorded(w, c)
  }

  ghost predicate LauncherOk(w: World, l: nat, x: Launcher) {
    match x
    case Idle => NoChild(w, l)
    case Checking => Held(w, l) && NoChild(w, l)
    case Recording(c) => Owns(w, l, c) && Unpublished(w, c)
    case Probing(c, last) => Owns(w, l, c) && Unpublished(w, c) && (!last.Nothing? ==> w.procs[c].answered)
    case Confirmed(c) => Owns(w, l, c) && Unpublished(w, c) && w.procs[c].answered
    case Publishing(c, state) =>
      Owns(w, l, c) && Unpublished(w, c) && w.procs[c].answered && StampOk(w, w.procs[c], state)
    case Rechecking(c, state) => Owns(w, l, c) && w.procs[c].published == Some(state)
    case Comparing(c, state) =>
      && Owns(w, l, c)
      && (w.procs[c].published == Some(state) || (Unpublished(w, c) && w.record != Holding(state)))
    case Removing(c, state) => Owns(w, l, c) && w.procs[c].published == Some(state)
    case Failing(c) => Owns(w, l, c) && Withdrawn(w, c)
    case Stopping(c) => Owns(w, l, c) && Withdrawn(w, c)
    case Leaving(spawned, preserve, ok) =>
      && Held(w, l)
      && (spawned.None? ==> NoChild(w, l) && !ok)
      && (spawned.Some? ==> Child(w, l, spawned.value) && OutcomeOk(w, spawned.value, ok))
      && (spawned.Some? && !preserve ==> ok || w.procs[spawned.value].exitedAt.Some?)
    case Gone(spawned, ok, _) =>
      && (spawned.None? ==> NoChild(w, l) && !ok)
      && (spawned.Some? ==> Child(w, l, spawned.value) && OutcomeOk(w, spawned.value, ok))
    case Crashed => true
  }

  /** A start that returned published an answering child; one that threw left no record of its child that it
      could withdraw. */
  ghost predicate OutcomeOk(w: World, c: nat, ok: bool)
    requires c < |w.procs|
  {
    if ok then w.procs[c].published.Some? && w.procs[c].answered else Withdrawn(w, c)
  }

  ghost predicate LaunchersOk(w: World) {
    && (forall l :: 0 <= l < |w.launchers| ==> LauncherOk(w, l, w.launchers[l]))
    && (forall i :: 0 <= i < |w.procs| ==> w.procs[i].launcher < |w.launchers|)
  }

  ghost predicate Target(w: World, state: DaemonState, t: nat) {
    t < |w.procs| && w.procs[t].published == Some(state)
  }

  ghost predicate CleanlyGone(w: World, t: nat)
    requires t < |w.procs|
  {
    w.procs[t].exitedAt.Some? && PublishedClean(w.procs[t].runner.log)
  }

  ghost predicate StopperOk(w: World, x: Stopper) {
    match x
    case Ready => true
    case Targeting(state, t) => Target(w, state, t) && Latest(w, t, state.pid)
    case Awaiting(state, t, notBefore, _) =>
      Target(w, state, t) && Latest(w, t, state.pid) && state.startedAt <= notBefore
    case Verifying(state, t, notBefore) =>
      Target(w, state, t) && Latest(w, t, state.pid) && state.startedAt <= notBefore && w.procs[t].exitedAt.Some?
    case Judging(state, t, notBefore) =>
      Target(w, state, t) && Latest(w, t, state.pid) && state.startedAt <= notBefore && w.procs[t].exitedAt.Some?
    case Auditing(state, t) => Target(w, state, t) && Latest(w, t, state.pid)
    case Reviewing(state, t) => Target(w, state, t) && Latest(w, t, state.pid) && w.procs[t].exitedAt.Some?
    case Clearing(state, t) => Target(w, state, t) && Latest(w, t, state.pid) && CleanlyGone(w, t)
    case Unlinking(state, t) => Target(w, state, t) && Latest(w, t, state.pid) && CleanlyGone(w, t)
    case Stopped(state, t, left) => Target(w, state, t) && CleanlyGone(w, t) && (!left ==> w.record != Holding(state))
    case NoTarget => true
    case Reported => true
    case Threw => true
  }

  ghost predicate StoppersOk(w: World) {
    forall s :: 0 <= s < |w.stoppers| ==> StopperOk(w, w.stoppers[s])
  }

  ghost predicate Good(w: World) {
    && ProcsOk(w) && LifetimesOk(w) && ReceiptOk(w) && RecordOk(w) && LaunchersOk(w) && StoppersOk(w)
  }

  // ---------------------------------------------------------------------------------------------
  // Edits that keep it

  /** The same process, perhaps later in its life. */
  ghost predicate Ages(w: World, p: Process, v: World, q: Process) {
    && q.pid == p.pid && q.port == p.port && q.launcher == p.launcher && q.spawnedAt == p.spawnedAt
    && q.published == p.published
    && (p.answered ==> q.answered) && (p.kept ==> q.kept)
    && (p.exitedAt.Some? ==> q.exitedAt == p.exitedAt)
    && Until(w, p) <= Until(v, q)
    && (p.runner.started ==> q.runner.started && q.runner.startedAt == p.runner.startedAt)
    && p.runner.log <= q.runner.log
  }

  /** Only time and the daemon processes have moved. */
  ghost predicate Passes(w: World, v: World) {
    && w.clock <= v.clock && v.record == w.record && v.receipt == w.receipt && v.lock == w.lock
    && v.launchers == w.launchers && v.stoppers == w.stoppers
    && |v.procs| == |w.procs|
    && forall i :: 0 <= i < |w.procs| ==> Ages(w, w.procs[i], v, v.procs[i])
  }

  lemma CleanExtends(log: seq<Effect>, longer: seq<Effect>)
    requires log <= longer && PublishedClean(log)
    ensures PublishedClean(longer)
  {
    var p :| 0 <= p < |log| && log[p].Published? && IsCleanReceipt(log[p].receipt);
    assert longer[p] == log[p];
  }

  lemma PassesLauncher(w: World, v: World, l: nat, x: Launcher)
    requires Passes(w, v) && LauncherOk(w, l, x)
    ensures LauncherOk(v, l, x)
  {
    if !x.Idle? && !x.Checking? && !x.Leaving? && !x.Gone? && !x.Crashed? {
      assert Ages(w, w.procs[x.child], v, v.procs[x.child]);
    }
  }

  lemma PassesStopper(w: World, v: World, x: Stopper)
    requires Passes(w, v) && StopperOk(w, x)
    ensures StopperOk(v, x)
  {
    if InFlight(x) || x.Stopped? {
      assert Ages(w, w.procs[x.target], v, v.procs[x.target]);
      if x.Clearing? || x.Unlinking? || x.Stopped? {
        CleanExtends(w.procs[x.target].runner.log, v.procs[x.target].runner.log);
      }
    }
  }

  lemma PassesFiles(w: World, v: World)
    requires Passes(w, v) && ReceiptOk(w) && RecordOk(w)
    ensures ReceiptOk(v) && RecordOk(v)
  {
    if w.receipt.Some? {
      var i: nat :| Wrote(w, i, w.receipt.value);
      assert Ages(w, w.procs[i], v, v.procs[i]);
      assert Wrote(v, i, v.receipt.value);
    }
    if w.record.Holding? {
      var i: nat :| Names(w, i, w.record.state);
      assert Ages(w, w.procs[i], v, v.procs[i]);
      assert Names(v, i, v.record.state);
    }
  }

  lemma PassesLifetimes(w: World, v: World)
    requires Passes(w, v) && LifetimesOk(w)
    ensures LifetimesOk(v)
  {
    forall i, j | 0 <= i < j < |v.procs|
      ensures v.procs[i].pid == v.procs[j].pid ==>
        v.procs[i].exitedAt.Some? && v.procs[i].exitedAt.value < v.procs[j].spawnedAt
      ensures v.procs[i].launcher != v.procs[j].launcher
    {
      assert Ages(w, w.procs[i], v, v.procs[i]) && Ages(w, w.procs[j], v, v.procs[j]);
    }
  }

  lemma PassesKeeps(w: World, v: World)
    requires Good(w) && Passes(w, v) && ProcsOk(v)
    ensures Good(v)
  {
    PassesLifetimes(w, v);
    PassesFiles(w, v);
    forall l | 0 <= l < |v.launchers| ensures LauncherOk(v, l, v.launchers[l]) {
      PassesLauncher(w, v, l, v.launchers[l]);
    }
    forall i | 0 <= i < |v.procs| ensures v.procs[i].launcher < |v.launchers| {
      assert Ages(w, w.procs[i], v, v.procs[i]);
    }
    forall s | 0 <= s < |v.stoppers| ensures StopperOk(v, v.stoppers[s]) {
      PassesStopper(w, v, v.stoppers[s]);
    }
  }

  lemma TickKeeps(w: World, ms: nat)
    requires Good(w)
    ensures Good(w.(clock := w.clock + ms))
  {
    var v := w.(clock := w.clock + ms);
    forall i | 0 <= i < |v.procs| ensures ProcOk(v, i) {
      assert ProcOk(w, i);
    }
    PassesKeeps(w, v);
  }

  /** One live process moves on. */
  lemma ProcKeeps(w: World, i: nat, p: Process)
    requires Good(w) && i < |w.procs|
    requires Ages(w, w.procs[i], SetProc(w, i, p), p) && ProcOk(SetProc(w, i, p), i)
    ensures Good(SetProc(w, i, p))
  {
    var v := SetProc(w, i, p);
    forall j | 0 <= j < |v.procs| ensures ProcOk(v, j) {
      assert ProcOk(w, j);
    }
    PassesKeeps(w, v);
  }

  lemma RunnerStepAges(w: World, i: nat, e: Event)
    requires Good(w) && Live(w, i) && e.env.now == w.clock
    ensures var v := SetProc(w, i, RunnerStep(w.procs[i], e));
      Ages(w, w.procs[i], v, v.procs[i]) && ProcOk(v, i)
  {
    var p := w.procs[i];
    var v, r := SetProc(w, i, RunnerStep(p, e)), Step(p.runner, e);
    assert ProcOk(w, i);
    StepInv(p.runner, e);
    StepFixed(p.runner, e);
    StepStamped(p.runner, e);
    RunnerContinues(p.runner, e);
    ProcessMoves(w, v, p, r);
    assert v.procs[i] == Moved(p, r, w.clock);
  }

  lemma ProcessMoves(w: World, v: World, p: Process, r: Runner)
    requires p.exitedAt.None? && v.clock == w.clock && p.spawnedAt <= w.clock && !p.runner.finished
    requires p.runner.started ==>
      p.spawnedAt <= p.runner.startedAt <= w.clock && r.started && r.startedAt == p.runner.startedAt
    requires !p.runner.started && r.started ==> r.startedAt == w.clock
    requires p.runner.log <= r.log
    ensures var q := Moved(p, r, w.clock);
      && Ages(w, p, v, q)
      && q.spawnedAt <= Until(v, q) == v.clock
      && (q.exitedAt.Some? ==> !q.listening)
      && (q.runner.started ==> q.spawnedAt <= q.runner.startedAt <= Until(v, q))
      && (q.runner.finished ==> q.exitedAt.Some?)
  {
  }

  lemma RunnerContinues(r: Runner, e: Event)
    requires Stamped(r)
    ensures var s := Step(r, e);
      (r.started ==> s.started && s.startedAt == r.startedAt) && (!r.started && s.started ==> s.startedAt == e.env.now)
      && r.log <= s.log
  {
    StepStamped(r, e);
  }

  lemma ReceiptWritten(w: World, i: nat, e: Event)
    requires Live(w, i) && ProcOk(w, i) && NewReceipt(w.procs[i], e).Some?
    ensures Wrote(SetProc(w, i, RunnerStep(w.procs[i], e)), i, NewReceipt(w.procs[i], e).value)
  {
    StepStamped(w.procs[i].runner, e);
    StepFixed(w.procs[i].runner, e);
    ReceiptInLog(w, i, Step(w.procs[i].runner, e), e.env.now);
  }

  lemma ReceiptInLog(w: World, i: nat, r: Runner, now: nat)
    requires i < |w.procs| && Stamped(r) && r.pid == w.procs[i].pid
    requires ReceiptBetween(w.procs[i].runner, r).Some?
    ensures Wrote(SetProc(w, i, Moved(w.procs[i], r, now)), i, ReceiptBetween(w.procs[i].runner, r).value)
  {
    assert Published(ReceiptBetween(w.procs[i].runner, r).value) == r.log[|r.log| - 2];
  }

  lemma CallbackKeeps(w: World, i: nat, e: Event)
    requires Good(w) && SystemEnabled(w, Callback(i, e))
    ensures Good(SystemApply(w, Callback(i, e)))
  {
    RunnerStepAges(w, i, e);
    var v := SetProc(w, i, RunnerStep(w.procs[i], e));
    ProcKeeps(w, i, RunnerStep(w.procs[i], e));
    var receipt := NewReceipt(w.procs[i], e);
    if receipt.Some? {
      assert ProcOk(w, i);
      ReceiptWritten(w, i, e);
      ReceiptKeeps(v, i, receipt.value);
    }
  }

  lemma CutShortKeeps(w: World, i: nat, e: Event)
    requires Good(w) && SystemEnabled(w, CutShort(i, e))
    ensures Good(SystemApply(w, CutShort(i, e)))
  {
    CallbackKeeps(w, i, e);
    CutKeeps(SystemApply(w, Callback(i, e)), i);
    CutShortIsCallback(w, i, e);
  }

  lemma CutKeeps(w: World, i: nat)
    requires Good(w) && i < |w.procs|
    ensures Good(SetProc(w, i, w.procs[i].(cut := true)))
  {
    assert ProcOk(w, i);
    ProcKeeps(w, i, w.procs[i].(cut := true));
  }

  lemma CutShortIsCallback(w: World, i: nat, e: Event)
    requires SystemEnabled(w, CutShort(i, e))
    ensures var v := SystemApply(w, Callback(i, e));
      |v.procs| == |w.procs| && SystemApply(w, CutShort(i, e)) == SetProc(v, i, v.procs[i].(cut := true))
  {
  }

  lemma ReceiptKeeps(w: World, i: nat, receipt: Receipt)
    requires Good(w) && Wrote(w, i, receipt)
    ensures Good(w.(receipt := Some(receipt)))
  {
    var v := w.(receipt := Some(receipt));
    assert Wrote(v, i, receipt);
    forall j | 0 <= j < |v.procs| ensures ProcOk(v, j) {
      assert ProcOk(w, j);
    }
    RecordFrame(w, v);
    forall l | 0 <= l < |v.launchers| ensures LauncherOk(v, l, v.launchers[l]) {
      LauncherFrame(w, v, l, v.launchers[l]);
    }
    StoppersFrame(w, v);
  }

  lemma RecordFrame(w: World, v: World)
    requires v.record == w.record && v.procs == w.procs
    ensures RecordOk(w) ==> RecordOk(v)
  {
    if RecordOk(w) && w.record.Holding? {
      var i: nat :| Names(w, i, w.record.state);
      assert Names(v, i, v.record.state);
    }
  }

  lemma LauncherKeeps(w: World, l: nat, x: Launcher)
    requires Good(w) && l < |w.launchers| && LauncherOk(w, l, x)
    ensures Good(SetLauncher(w, l, x))
  {
    var v := SetLauncher(w, l, x);
    SameExceptParties(w, v);
    forall k | 0 <= k < |v.launchers| ensures LauncherOk(v, k, v.launchers[k]) {
      LauncherFrame(w, v, k, v.launchers[k]);
    }
    StoppersFrame(w, v);
  }

  lemma StopperKeeps(w: World, s: nat, x: Stopper)
    requires Good(w) && s < |w.stoppers| && StopperOk(w, x)
    ensures Good(SetStopper(w, s, x))
  {
    var v := SetStopper(w, s, x);
    SameExceptParties(w, v);
    forall k | 0 <= k < |v.launchers| ensures LauncherOk(v, k, v.launchers[k]) {
      LauncherFrame(w, v, k, v.launchers[k]);
    }
    forall k | 0 <= k < |v.stoppers| ensures StopperOk(v, v.stoppers[k]) {
      assert k != s ==> StopperOk(w, w.stoppers[k]);
      StopperFrame(w, v, v.stoppers[k]);
    }
  }

  /** Files, processes and the clock agree. */
  predicate SameGround(w: World, v: World) {
    && v.clock == w.clock && v.procs == w.procs && v.record == w.record
    && v.receipt == w.receipt && v.lock == w.lock
  }

  lemma SameExceptParties(w: World, v: World)
    requires SameGround(w, v)
    ensures ProcsOk(w) ==> ProcsOk(v)
    ensures LifetimesOk(w) ==> LifetimesOk(v)
    ensures ReceiptOk(w) ==> ReceiptOk(v)
    ensures RecordOk(w) ==> RecordOk(v)
  {
    if ProcsOk(w) {
      forall i | 0 <= i < |v.procs| ensures ProcOk(v, i) {
        assert ProcOk(w, i);
      }
    }
    if ReceiptOk(w) && w.receipt.Some? {
      var i: nat :| Wrote(w, i, w.receipt.value);
      assert Wrote(v, i, v.receipt.value);
    }
    if RecordOk(w) && w.record.Holding? {
      var i: nat :| Names(w, i, w.record.state);
      assert Names(v, i, v.record.state);
    }
  }

  lemma LauncherFrame(w: World, v: World, l: nat, x: Launcher)
    requires v.clock == w.clock && v.procs == w.procs && v.record == w.record && v.lock == w.lock
    ensures LauncherOk(w, l, x) ==> LauncherOk(v, l, x)
  {
  }

  lemma StopperFrame(w: World, v: World, x: Stopper)
    requires v.procs == w.procs && v.record == w.record
    ensures StopperOk(w, x) ==> StopperOk(v, x)
  {
  }

  lemma StoppersFrame(w: World, v: World)
    requires StoppersOk(w) && v.stoppers == w.stoppers && v.procs == w.procs && v.record == w.record
    ensures StoppersOk(v)
  {
    forall s | 0 <= s < |v.stoppers| ensures StopperOk(v, v.stoppers[s]) {
      StopperFrame(w, v, v.stoppers[s]);
    }
  }

  // ---------------------------------------------------------------------------------------------
  // Edits of the shared files

  lemma FilesFrame(w: World, v: World)
    requires v.procs == w.procs && v.clock == w.clock && v.receipt == w.receipt
    requires ProcsOk(w) && LifetimesOk(w) && ReceiptOk(w)
    ensures ProcsOk(v) && LifetimesOk(v) && ReceiptOk(v)
  {
    forall i | 0 <= i < |v.procs| ensures ProcOk(v, i) {
      assert ProcOk(w, i);
    }
    if w.receipt.Some? {
      var i: nat :| Wrote(w, i, w.receipt.value);
      assert Wrote(v, i, v.receipt.value);
    }
  }

  /** daemon.json stops holding a state. */
  lemma ForgetKeeps(w: World, left: StateFile)
    requires Good(w) && !left.Holding?
    ensures Good(w.(record := left))
  {
    var v := w.(record := left);
    FilesFrame(w, v);
    forall l | 0 <= l < |v.launchers| ensures LauncherOk(v, l, v.launchers[l]) {
      ForgetLauncher(w, left, l, w.launchers[l]);
    }
    forall s | 0 <= s < |v.stoppers| ensures StopperOk(v, v.stoppers[s]) {
      ForgetStopper(w, left, w.stoppers[s]);
    }
  }

  lemma ForgetLauncher(w: World, left: StateFile, l: nat, x: Launcher)
    requires LauncherOk(w, l, x) && !left.Holding?
    ensures LauncherOk(w.(record := left), l, x)
  {
  }

  lemma ForgetStopper(w: World, left: StateFile, x: Stopper)
    requires StopperOk(w, x) && !left.Holding?
    ensures StopperOk(w.(record := left), x)
  {
  }

  /** The reservation changes hands, or its recorded child is added. */
  lemma LockKeeps(w: World, lock: Option<Reservation>)
    requires Good(w)
    requires forall l :: 0 <= l < |w.launchers| && Held(w, l) && Needs(w.launchers[l]) ==> Held(w.(lock := lock), l)
    ensures Good(w.(lock := lock))
  {
    var v := w.(lock := lock);
    FilesFrame(w, v);
    RecordFrame(w, v);
    forall l | 0 <= l < |v.launchers| ensures LauncherOk(v, l, v.launchers[l]) {
      LockLauncher(w, lock, l, w.launchers[l]);
    }
    StoppersFrame(w, v);
  }

  lemma LockLauncher(w: World, lock: Option<Reservation>, l: nat, x: Launcher)
    requires LauncherOk(w, l, x) && (Held(w, l) && Needs(x) ==> Held(w.(lock := lock), l))
    ensures LauncherOk(w.(lock := lock), l, x)
  {
  }

  /** The launcher is between acquiring and releasing the reservation. */
  predicate Needs(x: Launcher) {
    !x.Idle? && !x.Gone? && !x.Crashed?
  }

  /** Two incarnations never share a record. */
  lemma RecordsDistinct(w: World, c: nat, state: DaemonState, i: nat)
    requires ProcsOk(w) && LifetimesOk(w)
    requires c < |w.procs| && Unpublished(w, c) && StampOk(w, w.procs[c], state)
    requires i < |w.procs|
    ensures w.procs[i].published != Some(state)
  {
    assert ProcOk(w, c) && ProcOk(w, i);
    assert i < c && w.procs[i].pid == w.procs[c].pid ==>
      w.procs[i].exitedAt.Some? && w.procs[i].exitedAt.value < w.procs[c].spawnedAt;
    assert c < i && w.procs[i].pid == w.procs[c].pid ==>
      w.procs[c].exitedAt.Some? && w.procs[c].exitedAt.value < w.procs[i].spawnedAt;
  }

  lemma WriteLauncher(w: World, c: nat, state: DaemonState, l: nat, k: nat, x: Launcher)
    requires ProcsOk(w) && LifetimesOk(w)
    requires Owns(w, l, c) && Unpublished(w, c) && StampOk(w, w.procs[c], state)
    requires k != l && LauncherOk(w, k, x)
    ensures LauncherOk(Write(w, c, state), k, x)
  {
    if x.Gone? && x.spawned.Some? {
      RecordsDistinct(w, c, state, x.spawned.value);
    }
  }

  lemma WriteStopper(w: World, c: nat, state: DaemonState, x: Stopper)
    requires ProcsOk(w) && LifetimesOk(w)
    requires c < |w.procs| && Unpublished(w, c) && StampOk(w, w.procs[c], state)
    requires StopperOk(w, x)
    ensures StopperOk(Write(w, c, state), x)
  {
    if x.Stopped? {
      RecordsDistinct(w, c, state, x.target);
    }
  }

  lemma WriteKeeps(w: World, l: nat, c: nat, state: DaemonState)
    requires Good(w) && l < |w.launchers| && w.launchers[l].Crashed?
    requires Owns(w, l, c) && Unpublished(w, c) && w.procs[c].answered && StampOk(w, w.procs[c], state)
    ensures Good(Write(w, c, state))
  {
    WriteGround(w, c, state);
    WriteFiles(w, c, state);
    WriteParties(w, l, c, state);
  }

  lemma WriteGround(w: World, c: nat, state: DaemonState)
    requires ProcsOk(w) && LifetimesOk(w)
    requires c < |w.procs| && w.procs[c].answered && StampOk(w, w.procs[c], state)
    ensures var v := Write(w, c, state); ProcsOk(v) && LifetimesOk(v)
  {
    var v := Write(w, c, state);
    forall i | 0 <= i < |v.procs| ensures ProcOk(v, i) {
      WriteProc(w, c, state, i);
    }
    SameLifetimes(w, v);
  }

  lemma WriteProc(w: World, c: nat, state: DaemonState, i: nat)
    requires c < |w.procs| && w.procs[c].answered && StampOk(w, w.procs[c], state)
    requires i < |w.procs| && ProcOk(w, i)
    ensures ProcOk(Write(w, c, state), i)
  {
  }

  lemma SameLifetimes(w: World, v: World)
    requires LifetimesOk(w) && |v.procs| == |w.procs|
    requires forall i :: 0 <= i < |w.procs| ==>
      && v.procs[i].pid == w.procs[i].pid && v.procs[i].launcher == w.procs[i].launcher
      && v.procs[i].exitedAt == w.procs[i].exitedAt && v.procs[i].spawnedAt == w.procs[i].spawnedAt
    ensures LifetimesOk(v)
  {
    forall i, j | 0 <= i < j < |v.procs|
      ensures v.procs[i].pid == v.procs[j].pid ==>
        v.procs[i].exitedAt.Some? && v.procs[i].exitedAt.value < v.procs[j].spawnedAt
      ensures v.procs[i].launcher != v.procs[j].launcher
    {
      assert w.procs[i].launcher != w.procs[j].launcher;
    }
  }

  lemma WriteFiles(w: World, c: nat, state: DaemonState)
    requires ReceiptOk(w) && c == |w.procs| - 1 && state.pid == w.procs[c].pid
    ensures var v := Write(w, c, state); ReceiptOk(v) && RecordOk(v)
  {
    var v := Write(w, c, state);
    if w.receipt.Some? {
      var i: nat :| Wrote(w, i, w.receipt.value);
      assert Wrote(v, i, v.receipt.value);
    }
    assert Names(v, c, state);
  }

  lemma WriteParties(w: World, l: nat, c: nat, state: DaemonState)
    requires Good(w) && l < |w.launchers| && w.launchers[l].Crashed?
    requires Owns(w, l, c) && Unpublished(w, c) && StampOk(w, w.procs[c], state)
    ensures var v := Write(w, c, state); LaunchersOk(v) && StoppersOk(v)
  {
    var v := Write(w, c, state);
    forall k | 0 <= k < |v.launchers| ensures LauncherOk(v, k, v.launchers[k]) {
      if k != l {
        WriteLauncher(w, c, state, l, k, w.launchers[k]);
      }
    }
    forall s | 0 <= s < |v.stoppers| ensures StopperOk(v, v.stoppers[s]) {
      WriteStopper(w, c, state, w.stoppers[s]);
    }
  }

  // ---------------------------------------------------------------------------------------------
  // A new process

  lemma SpawnProcs(w: World, p: Process)
    requires ProcsOk(w) && LifetimesOk(w) && ReceiptOk(w)
    requires p == Spawned(p.pid, p.port, p.launcher, w.clock, p.runner.phases)
    requires PidFree(w, p.pid) && NoChild(w, p.launcher)
    ensures var v := w.(procs := w.procs + [p]); ProcsOk(v) && LifetimesOk(v) && ReceiptOk(v)
  {
    var v := w.(procs := w.procs + [p]);
    forall i | 0 <= i < |v.procs| ensures ProcOk(v, i) {
      if i < |w.procs| {
        assert ProcOk(w, i);
      }
    }
    if w.receipt.Some? {
      var i: nat :| Wrote(w, i, w.receipt.value);
      assert v.procs[i] == w.procs[i] && Wrote(v, i, v.receipt.value);
    }
  }

  lemma SpawnRecord(w: World, p: Process)
    requires RecordOk(w) && !Named(w, p.pid)
    ensures RecordOk(w.(procs := w.procs + [p]))
  {
    var v := w.(procs := w.procs + [p]);
    if w.record.Holding? {
      var i: nat :| Names(w, i, w.record.state);
      assert v.procs[i] == w.procs[i] && Names(v, i, v.record.state);
    }
  }

  lemma SpawnStopper(w: World, p: Process, x: Stopper)
    requires StopperOk(w, x) && (InFlight(x) ==> x.state.pid != p.pid)
    ensures StopperOk(w.(procs := w.procs + [p]), x)
  {
    var v := w.(procs := w.procs + [p]);
    if InFlight(x) || x.Stopped? {
      assert v.procs[x.target] == w.procs[x.target];
    }
  }

  lemma SpawnLauncher(w: World, p: Process, k: nat, x: Launcher)
    requires Held(w, p.launcher) && k != p.launcher && LauncherOk(w, k, x)
    ensures LauncherOk(w.(procs := w.procs + [p]), k, x)
  {
    var v := w.(procs := w.procs + [p]);
    assert forall i :: 0 <= i < |w.procs| ==> v.procs[i] == w.procs[i];
  }

  lemma SpawnKeeps(w: World, l: nat, p: Process)
    requires Good(w) && l < |w.launchers| && w.launchers[l].Crashed?
    requires Held(w, l) && NoChild(w, l) && p.launcher == l
    requires p == Spawned(p.pid, p.port, l, w.clock, p.runner.phases) && PidFree(w, p.pid)
    ensures Good(w.(procs := w.procs + [p]))
  {
    var v := w.(procs := w.procs + [p]);
    SpawnProcs(w, p);
    SpawnRecord(w, p);
    forall k | 0 <= k < |v.launchers| ensures LauncherOk(v, k, v.launchers[k]) {
      assert LauncherOk(w, k, w.launchers[k]);
      if k != l {
        SpawnLauncher(w, p, k, w.launchers[k]);
      }
    }
    forall s | 0 <= s < |v.stoppers| ensures StopperOk(v, v.stoppers[s]) {
      assert StopperOk(w, w.stoppers[s]);
      SpawnStopper(w, p, w.stoppers[s]);
    }
  }

  // ---------------------------------------------------------------------------------------------
  // Every action keeps it

  lemma ListenKeeps(w: World, i: nat, listening: bool)
    requires Good(w) && Live(w, i)
    ensures Good(SetProc(w, i, w.procs[i].(listening := listening)))
  {
    assert ProcOk(w, i);
    ProcKeeps(w, i, w.procs[i].(listening := listening));
  }

  lemma CrashKeeps(w: World, i: nat)
    requires Good(w) && Live(w, i)
    ensures Good(SetProc(w, i, w.procs[i].(exitedAt := Some(w.clock), listening := false)))
  {
    assert ProcOk(w, i);
    ProcKeeps(w, i, w.procs[i].(exitedAt := Some(w.clock), listening := false));
  }

  lemma SystemKeeps(w: World, step: SystemStep)
    requires Good(w) && SystemEnabled(w, step)
    ensures Good(SystemApply(w, step))
  {
    match step
    case Tick(ms) => TickKeeps(w, ms);
    case Listen(i) => ListenKeeps(w, i, true);
    case Deafen(i) => ListenKeeps(w, i, false);
    case Callback(i, e) => CallbackKeeps(w, i, e);
    case CutShort(i, e) => CutShortKeeps(w, i, e);
    case Crash(i) => CrashKeeps(w, i);
    case Archive => LockKeeps(w, None);
  }

  lemma AcquireKeeps(w: World, l: nat)
    requires Good(w) && LauncherEnabled(w, l, Acquire)
    ensures Good(LauncherApply(w, l, Acquire))
  {
    assert LauncherOk(w, l, w.launchers[l]);
    forall k | 0 <= k < |w.launchers| ensures !Held(w, k) {
    }
    var v := w.(lock := Some(Reservation(l, None)));
    LockKeeps(w, v.lock);
    LauncherKeeps(v, l, Checking);
  }

  lemma SpawnStepKeeps(w: World, l: nat, pid: nat, port: nat, phases: seq<string>)
    requires Good(w) && LauncherEnabled(w, l, Spawn(pid, port, phases))
    ensures Good(LauncherApply(w, l, Spawn(pid, port, phases)))
  {
    assert LauncherOk(w, l, w.launchers[l]);
    var u := SetLauncher(w, l, Crashed);
    LauncherKeeps(w, l, Crashed);
    var p := Spawned(pid, port, l, w.clock, phases);
    assert PidFree(u, pid);
    SpawnKeeps(u, l, p);
    var v := u.(procs := u.procs + [p]);
    LauncherKeeps(v, l, Recording(|w.procs|));
    assert SetLauncher(v, l, Recording(|w.procs|))
        == SetLauncher(w.(procs := w.procs + [p]), l, Recording(|w.procs|));
  }

  lemma RecordChildKeeps(w: World, l: nat)
    requires Good(w) && LauncherEnabled(w, l, RecordChild)
    ensures Good(LauncherApply(w, l, RecordChild))
  {
    var c := w.launchers[l].child;
    assert LauncherOk(w, l, w.launchers[l]);
    var v := w.(lock := Some(Reservation(l, Some(w.procs[c].pid))));
    LockKeeps(w, v.lock);
    LauncherKeeps(v, l, Probing(c, Nothing));
  }

  /** A round in which the child's endpoint answered with its pid. */
  lemma AnsweredKeeps(w: World, l: nat, c: nat, x: Launcher)
    requires Good(w) && l < |w.launchers| && LauncherOk(w, l, w.launchers[l])
    requires Owns(w, l, c) && Unpublished(w, c)
    requires x.Probing? || x.Confirmed?
    requires x.child == c
    ensures Good(SetLauncher(MarkAnswered(w, c), l, x))
  {
    assert ProcOk(w, c);
    ProcKeeps(w, c, w.procs[c].(answered := true));
    LauncherKeeps(MarkAnswered(w, c), l, x);
  }

  lemma WriteStepKeeps(w: World, l: nat, x: Launcher)
    requires Good(w) && l < |w.launchers| && w.launchers[l].Publishing?
    requires x == Rechecking(w.launchers[l].child, w.launchers[l].state)
          || x == Comparing(w.launchers[l].child, w.launchers[l].state)
    ensures ChildExists(w, w.launchers[l])
    ensures Good(SetLauncher(Write(w, w.launchers[l].child, w.launchers[l].state), l, x))
  {
    var c, state := w.launchers[l].child, w.launchers[l].state;
    assert LauncherOk(w, l, w.launchers[l]);
    var u := SetLauncher(w, l, Crashed);
    LauncherKeeps(w, l, Crashed);
    WriteKeeps(u, l, c, state);
    LauncherKeeps(Write(u, c, state), l, x);
    assert SetLauncher(Write(u, c, state), l, x) == SetLauncher(Write(w, c, state), l, x);
  }

  /** A failed write left the file as it was, or unreadable. */
  lemma TornWriteKeeps(w: World, l: nat, left: StateFile)
    requires Good(w) && LauncherEnabled(w, l, WriteFails(left)) && left != Holding(w.launchers[l].state)
    ensures Good(LauncherApply(w, l, WriteFails(left)))
  {
    var c, state := w.launchers[l].child, w.launchers[l].state;
    assert LauncherOk(w, l, w.launchers[l]);
    if left.Malformed? {
      ForgetKeeps(w, left);
    }
    LauncherKeeps(w.(record := left), l, Comparing(c, state));
  }

  lemma ReleaseKeeps(w: World, l: nat, step: LauncherStep)
    requires Good(w) && LauncherEnabled(w, l, step) && (step.Release? || step.ReleaseFails?)
    ensures Good(LauncherApply(w, l, step))
  {
    var x := w.launchers[l];
    var gone := Gone(x.spawned, x.ok, step.ReleaseFails?);
    var unlinks := !x.preserve && (step.Release? || step.unlinked);
    assert LauncherOk(w, l, x);
    LauncherKeeps(w, l, gone);
    var u := SetLauncher(w, l, gone);
    if unlinks && Held(w, l) {
      LockKeeps(u, None);
    }
    assert LauncherApply(w, l, step) == LetGo(u, l, unlinks);
  }

  /** The record could not be withdrawn. */
  lemma KeptKeeps(w: World, l: nat)
    requires Good(w) && l < |w.launchers| && (w.launchers[l].Comparing? || w.launchers[l].Removing?)
    ensures ChildExists(w, w.launchers[l])
    ensures Good(SetLauncher(MarkKept(w, w.launchers[l].child), l, Failing(w.launchers[l].child)))
  {
    var c := w.launchers[l].child;
    assert LauncherOk(w, l, w.launchers[l]);
    assert ProcOk(w, c);
    ProcKeeps(w, c, w.procs[c].(kept := true));
    LauncherKeeps(MarkKept(w, c), l, Failing(c));
  }

  lemma CompareOwnKeeps(w: World, l: nat)
    requires Good(w) && LauncherEnabled(w, l, CompareOwn)
    ensures Good(LauncherApply(w, l, CompareOwn))
  {
    var x := w.launchers[l];
    assert LauncherOk(w, l, x);
    if w.record == Holding(x.state) {
      LauncherKeeps(w, l, Removing(x.child, x.state));
    } else {
      LauncherKeeps(w, l, Failing(x.child));
    }
  }

  lemma ProbeKeeps(w: World, l: nat, step: LauncherStep)
    requires Good(w) && LauncherEnabled(w, l, step) && (step.ProbeRound? || step.ProbeAccepted?)
    ensures Good(LauncherApply(w, l, step))
  {
    var x := w.launchers[l];
    assert LauncherOk(w, l, x);
    if step.ProbeAccepted? {
      AnsweredKeeps(w, l, x.child, Confirmed(x.child));
    } else if step.round.Nothing? {
      LauncherKeeps(w, l, Probing(x.child, step.round));
    } else {
      AnsweredKeeps(w, l, x.child, Probing(x.child, step.round));
    }
  }

  lemma WriteFailsKeeps(w: World, l: nat, left: StateFile)
    requires Good(w) && LauncherEnabled(w, l, WriteFails(left))
    ensures Good(LauncherApply(w, l, WriteFails(left)))
  {
    var x := w.launchers[l];
    if left == Holding(x.state) {
      WriteStepKeeps(w, l, Comparing(x.child, x.state));
    } else {
      TornWriteKeeps(w, l, left);
    }
  }

  lemma RemoveOwnKeeps(w: World, l: nat)
    requires Good(w) && LauncherEnabled(w, l, RemoveOwn)
    ensures Good(LauncherApply(w, l, RemoveOwn))
  {
    var x := w.launchers[l];
    assert LauncherOk(w, l, x);
    ForgetKeeps(w, Absent);
    LauncherKeeps(w.(record := Absent), l, Failing(x.child));
  }

  lemma LauncherStepKeeps(w: World, l: nat, step: LauncherStep)
    requires Good(w) && LauncherEnabled(w, l, step)
    ensures Good(LauncherApply(w, l, step))
  {
    if FileStep(step) {
      FileStepKeeps(w, l, step);
    } else {
      match step
      case Acquire => AcquireKeeps(w, l);
      case Spawn(pid, port, phases) => SpawnStepKeeps(w, l, pid, port, phases);
      case RecordChild => RecordChildKeeps(w, l);
      case ProbeRound(_) => ProbeKeeps(w, l, step);
      case ProbeAccepted => ProbeKeeps(w, l, step);
      case Release => ReleaseKeeps(w, l, step);
      case ReleaseFails(_) => ReleaseKeeps(w, l, step);
      case _ => SimpleStepKeeps(w, l, step);
    }
  }

  /** The steps that write daemon.json, or withdraw what was written. */
  predicate FileStep(step: LauncherStep) {
    step.WriteRecord? || step.WriteFails? || step.CompareOwn? || step.CompareBlind? || step.RemoveOwn? || step.RemoveFails?
  }

  lemma FileStepKeeps(w: World, l: nat, step: LauncherStep)
    requires Good(w) && LauncherEnabled(w, l, step) && FileStep(step)
    ensures Good(LauncherApply(w, l, step))
  {
    match step
    case WriteRecord => WriteStepKeeps(w, l, Rechecking(w.launchers[l].child, w.launchers[l].state));
    case WriteFails(left) => WriteFailsKeeps(w, l, left);
    case CompareOwn => CompareOwnKeeps(w, l);
    case CompareBlind => KeptKeeps(w, l);
    case RemoveFails => KeptKeeps(w, l);
    case RemoveOwn => RemoveOwnKeeps(w, l);
  }

  /** Steps that only move the launcher itself. */
  predicate EarlyStep(step: LauncherStep) {
    step.RefusedByLock? || step.Abort? || step.DeadlineAccepts? || step.DeadlinePends? || step.Confirm?
    || step.RecheckPasses?
  }

  predicate LateStep(step: LauncherStep) {
    step.RecheckFails? || step.FailStart? || step.SignalOwn? || step.SeeOwnExit? || step.GiveUpOnExit? || step.Die?
  }

  lemma SimpleStepKeeps(w: World, l: nat, step: LauncherStep)
    requires Good(w) && LauncherEnabled(w, l, step)
    requires EarlyStep(step) || LateStep(step)
    ensures Good(LauncherApply(w, l, step))
  {
    assert LauncherOk(w, l, w.launchers[l]);
    if EarlyStep(step) {
      EarlyStepKeeps(w, l, step);
    } else {
      LateStepKeeps(w, l, step);
    }
  }

  lemma EarlyStepKeeps(w: World, l: nat, step: LauncherStep)
    requires Good(w) && LauncherEnabled(w, l, step) && LauncherOk(w, l, w.launchers[l]) && EarlyStep(step)
    ensures Good(LauncherApply(w, l, step))
  {
    var x := w.launchers[l];
    match step
    case RefusedByLock => LauncherKeeps(w, l, Gone(None, false, false));
    case Abort => LauncherKeeps(w, l, Leaving(None, false, false));
    case DeadlineAccepts => LauncherKeeps(w, l, Confirmed(x.child));
    case DeadlinePends => LauncherKeeps(w, l, Leaving(Some(x.child), true, false));
    case Confirm(host, db) =>
      assert ProcOk(w, x.child);
      LauncherKeeps(w, l, Publishing(x.child,
        DaemonState(w.procs[x.child].pid, w.procs[x.child].port, host, db, w.clock)));
    case RecheckPasses =>
      assert ProcOk(w, x.child);
      LauncherKeeps(w, l, Leaving(Some(x.child), false, true));
  }

  lemma LateStepKeeps(w: World, l: nat, step: LauncherStep)
    requires Good(w) && LauncherEnabled(w, l, step) && LauncherOk(w, l, w.launchers[l]) && LateStep(step)
    ensures Good(LauncherApply(w, l, step))
  {
    var x := w.launchers[l];
    match step
    case RecheckFails => LauncherKeeps(w, l, Comparing(x.child, x.state));
    case FailStart => LauncherKeeps(w, l, Failing(x.child));
    case SignalOwn => LauncherKeeps(w, l, Stopping(x.child));
    case SeeOwnExit => LauncherKeeps(w, l, Leaving(Some(x.child), false, false));
    case GiveUpOnExit => LauncherKeeps(w, l, Leaving(Some(x.child), true, false));
    case Die => LauncherKeeps(w, l, Crashed);
  }

  // Stopping

  lemma ReadTarget(w: World, t: nat)
    requires Good(w) && w.record.Holding? && Latest(w, t, w.record.state.pid)
    ensures StopperOk(w, Targeting(w.record.state, t))
  {
    var i: nat :| Names(w, i, w.record.state);
    assert i == t;
  }

  lemma AbsentTarget(w: World, t: nat, pid: nat)
    requires t < |w.procs| && w.procs[t].pid == pid && !PidLive(w, pid)
    ensures w.procs[t].exitedAt.Some?
  {
  }

  /** The receipt a stop accepts was written by the incarnation it targets: receipts that earlier
      holders of the pid left behind are too old. */
  lemma ReceiptIsTargets(w: World, state: DaemonState, t: nat, notBefore: nat)
    requires Good(w) && Target(w, state, t) && Latest(w, t, state.pid) && state.startedAt <= notBefore
    requires ReceiptMatches(w.receipt, state, notBefore)
    ensures Published(w.receipt.value) in w.procs[t].runner.log
  {
    var i: nat :| Wrote(w, i, w.receipt.value);
    assert ProcOk(w, i) && ProcOk(w, t);
    EarlierIsOver(w, i, t);
  }

  lemma EarlierIsOver(w: World, i: nat, t: nat)
    requires LifetimesOk(w) && i < |w.procs| && t < |w.procs| && w.procs[i].pid == w.procs[t].pid
    ensures i < t ==> Until(w, w.procs[i]) < w.procs[t].spawnedAt
  {
  }

  /** The steps of a status read. */
  predicate AuditStep(step: StopperStep) {
    step.AuditRead? || step.AuditDead? || step.AuditJudge? || step.AuditEnds?
  }

  lemma AuditStepKeeps(w: World, s: nat, step: StopperStep)
    requires Good(w) && StopperEnabled(w, s, step) && AuditStep(step)
    ensures Good(StopperApply(w, s, step))
  {
    var x := w.stoppers[s];
    assert StopperOk(w, x);
    match step
    case AuditRead(seen) =>
      ReadTarget(w, seen);
      StopperKeeps(w, s, Auditing(w.record.state, seen));
    case AuditDead =>
      AbsentTarget(w, x.target, x.state.pid);
      StopperKeeps(w, s, Reviewing(x.state, x.target));
    case AuditJudge =>
      if ReceiptMatches(w.receipt, x.state, x.state.startedAt) && IsCleanReceipt(w.receipt.value) {
        ReceiptIsClean(w, x.state, x.target, x.state.startedAt);
        StopperKeeps(w, s, Clearing(x.state, x.target));
      } else {
        StopperKeeps(w, s, Reported);
      }
    case AuditEnds => StopperKeeps(w, s, Reported);
  }

  lemma ReceiptIsClean(w: World, state: DaemonState, t: nat, notBefore: nat)
    requires Good(w) && Target(w, state, t) && Latest(w, t, state.pid) && state.startedAt <= notBefore
    requires ReceiptMatches(w.receipt, state, notBefore) && IsCleanReceipt(w.receipt.value)
    ensures PublishedClean(w.procs[t].runner.log)
  {
    ReceiptIsTargets(w, state, t, notBefore);
    var log := w.procs[t].runner.log;
    var p :| 0 <= p < |log| && log[p] == Published(w.receipt.value);
  }

  lemma JudgeKeeps(w: World, s: nat)
    requires Good(w) && StopperEnabled(w, s, Judge)
    ensures Good(StopperApply(w, s, Judge))
  {
    var x := w.stoppers[s];
    assert StopperOk(w, x);
    if ReceiptMatches(w.receipt, x.state, x.notBefore) && IsCleanReceipt(w.receipt.value) {
      ReceiptIsClean(w, x.state, x.target, x.notBefore);
      StopperKeeps(w, s, Clearing(x.state, x.target));
    } else {
      StopperKeeps(w, s, Threw);
    }
  }

  /** The steps up to the signal, or past it for a target that is already gone. */
  predicate TargetStep(step: StopperStep) {
    step.ReadState? || step.ReadNoState? || step.RefuseStop? || step.SeeDead? || step.Kill?
  }

  lemma TargetStepKeeps(w: World, s: nat, step: StopperStep)
    requires Good(w) && StopperEnabled(w, s, step) && TargetStep(step)
    ensures Good(StopperApply(w, s, step))
  {
    var x := w.stoppers[s];
    assert StopperOk(w, x);
    match step
    case ReadState(target) =>
      ReadTarget(w, target);
      StopperKeeps(w, s, Targeting(w.record.state, target));
    case ReadNoState(outcome) => StopperKeeps(w, s, outcome);
    case RefuseStop => StopperKeeps(w, s, Threw);
    case SeeDead => StopperKeeps(w, s, Awaiting(x.state, x.target, x.state.startedAt, w.clock));
    case Kill =>
      assert ProcOk(w, x.target);
      StopperKeeps(w, s, Awaiting(x.state, x.target, w.clock, w.clock + DAEMON_STOP_WAIT_MS));
  }

  /** The steps that look at the process and its listener. */
  predicate LookStep(step: StopperStep) {
    step.SeeAbsent? || step.SeePresent? || step.SeeRefused? || step.SeeOpen?
  }

  lemma LookStepKeeps(w: World, s: nat, step: StopperStep)
    requires Good(w) && StopperEnabled(w, s, step) && LookStep(step)
    ensures Good(StopperApply(w, s, step))
  {
    var x := w.stoppers[s];
    assert StopperOk(w, x);
    match step
    case SeeAbsent =>
      AbsentTarget(w, x.target, x.state.pid);
      StopperKeeps(w, s, Verifying(x.state, x.target, x.notBefore));
    case SeePresent => StopperKeeps(w, s, Threw);
    case SeeRefused => StopperKeeps(w, s, Judging(x.state, x.target, x.notBefore));
    case SeeOpen => StopperKeeps(w, s, Threw);
  }

  /** The steps of `removeMatchingState`. */
  predicate ClearStep(step: StopperStep) {
    step.CompareTarget? || step.CompareUnread? || step.Unlink? || step.UnlinkFails?
  }

  lemma ClearStepKeeps(w: World, s: nat, step: StopperStep)
    requires Good(w) && StopperEnabled(w, s, step) && ClearStep(step)
    ensures Good(StopperApply(w, s, step))
  {
    var x := w.stoppers[s];
    assert StopperOk(w, x);
    match step
    case CompareTarget =>
      if w.record == Holding(x.state) {
        StopperKeeps(w, s, Unlinking(x.state, x.target));
      } else {
        StopperKeeps(w, s, Stopped(x.state, x.target, false));
      }
    case CompareUnread => StopperKeeps(w, s, Stopped(x.state, x.target, true));
    case Unlink =>
      ForgetKeeps(w, Absent);
      StopperKeeps(w.(record := Absent), s, Stopped(x.state, x.target, false));
    case UnlinkFails => StopperKeeps(w, s, Stopped(x.state, x.target, true));
  }

  lemma StopperStepKeeps(w: World, s: nat, step: StopperStep)
    requires Good(w) && StopperEnabled(w, s, step)
    ensures Good(StopperApply(w, s, step))
  {
    if TargetStep(step) {
      TargetStepKeeps(w, s, step);
    } else if LookStep(step) {
      LookStepKeeps(w, s, step);
    } else if step.Judge? {
      JudgeKeeps(w, s);
    } else if ClearStep(step) {
      ClearStepKeeps(w, s, step);
    } else {
      AuditStepKeeps(w, s, step);
    }
  }

  lemma ActionKeeps(w: World, a: Action)
    requires Good(w) && Enabled(w, a)
    ensures Good(Apply(w, a))
  {
    match a
    case System(step) => SystemKeeps(w, step);
    case Launch(l, step) => LauncherStepKeeps(w, l, step);
    case Stop(s, step) => StopperStepKeeps(w, s, step);
  }

  lemma {:induction false} RunKeeps(w: World, actions: seq<Action>)
    requires Good(w) && Runs(w, actions)
    ensures Good(Reached(w, actions))
    decreases actions
  {
    if actions != [] {
      ActionKeeps(w, actions[0]);
      RunKeeps(Apply(w, actions[0]), actions[1..]);
    }
  }

  // ---------------------------------------------------------------------------------------------
  // Main results

  lemma StartGood(launchers: nat, stoppers: nat)
    ensures Good(Start(launchers, stoppers))
  {
  }

  /** A world some run from the start reaches. */
  ghost predicate Reachable(w: World) {
    exists launchers: nat, stoppers: nat, actions ::
      Runs(Start(launchers, stoppers), actions) && Reached(Start(launchers, stoppers), actions) == w
  }

  lemma ReachableGood(w: World)
    requires Reachable(w)
    ensures Good(w)
  {
    var launchers: nat, stoppers: nat, actions :|
      Runs(Start(launchers, stoppers), actions) && Reached(Start(launchers, stoppers), actions) == w;
    StartGood(launchers, stoppers);
    RunKeeps(Start(launchers, stoppers), actions);
  }

  lemma {:induction false} RunsThen(w: World, actions: seq<Action>, a: Action)
    requires Runs(w, actions) && Enabled(Reached(w, actions), a)
    ensures Runs(w, actions + [a]) && Reached(w, actions + [a]) == Apply(Reached(w, actions), a)
    decreases actions
  {
    if actions == [] {
      assert ([a])[1..] == [];
      assert Runs(Apply(w, a), []);
      assert actions + [a] == [a];
    } else {
      assert (actions + [a])[1..] == actions[1..] + [a];
      RunsThen(Apply(w, actions[0]), actions[1..], a);
    }
  }

  lemma ReachStep(w: World, a: Action)
    requires Reachable(w) && Enabled(w, a)
    ensures Reachable(Apply(w, a))
  {
    var launchers: nat, stoppers: nat, actions :|
      Runs(Start(launchers, stoppers), actions) && Reached(Start(launchers, stoppers), actions) == w;
    RunsThen(Start(launchers, stoppers), actions, a);
  }

  lemma StartReachable(launchers: nat, stoppers: nat)
    ensures Reachable(Start(launchers, stoppers))
  {
    assert Runs(Start(launchers, stoppers), []);
  }

  /** In every run, a stop that returned "stopped" targeted an incarnation that has exited after all its
      shutdown phases succeeded and it was marked clean, with exit code 0 unless it was killed after its
      receipt. daemon.json does not name it, save where the stop could not read or not unlink the file. */
  lemma StoppedMeansCleanlyStopped(w: World, s: nat)
    requires Reachable(w) && s < |w.stoppers| && w.stoppers[s].Stopped?
    ensures var t := w.stoppers[s].target;
      && t < |w.procs|
      && w.procs[t].published == Some(w.stoppers[s].state)
      && w.procs[t].exitedAt.Some?
      && |w.procs[t].runner.results| == |w.procs[t].runner.phases| && AllResolved(w.procs[t].runner.results)
      && Marked(Resolved) in w.procs[t].runner.log
      && (w.procs[t].cut || Exited(0) in w.procs[t].runner.log)
      && (w.record.Holding? && !w.stoppers[s].left ==> exists i: nat :: Names(w, i, w.record.state) && i != t)
  {
    ReachableGood(w);
    assert StopperOk(w, w.stoppers[s]);
    var t := w.stoppers[s].target;
    assert ProcOk(w, t);
    CleanReceiptMeaning(w.procs[t].runner);
    if w.record.Holding? && !w.stoppers[s].left {
      var i: nat :| Names(w, i, w.record.state);
      assert i != t;
    }
  }

  /** A stop reads a receipt only after its target's process was seen gone and its listener refused;
      a stop that throws leaves daemon.json as it was. */
  lemma StopStepsAreGuarded(w: World, s: nat, step: StopperStep)
    requires Reachable(w) && StopperEnabled(w, s, step)
    ensures var v := StopperApply(w, s, step);
      && (v.stoppers[s].Threw? ==> v.record == w.record)
      && (v.stoppers[s].Judging? ==>
            && v.stoppers[s].target < |w.procs| && w.procs[v.stoppers[s].target].exitedAt.Some?
            && !PortOpen(w, v.stoppers[s].state.port))
      && (v.record != w.record ==> v.stoppers[s].Stopped? && v.record.Absent?)
  {
    ReachableGood(w);
    assert StopperOk(w, w.stoppers[s]);
  }

  /** When a stop returns, daemon.json still names its target exactly when it did before that last step and
      the step could not read the file, or not unlink it. */
  lemma StopLeavesRecord(w: World, s: nat, step: StopperStep)
    requires Reachable(w) && StopperEnabled(w, s, step)
    requires !w.stoppers[s].Stopped? && StopperApply(w, s, step).stoppers[s].Stopped?
    ensures var v := StopperApply(w, s, step);
      var state := v.stoppers[s].state;
      && (v.record == Holding(state) <==> w.record == Holding(state) && (step.UnlinkFails? || step.CompareUnread?))
      && (v.stoppers[s].left <==> step.UnlinkFails? || step.CompareUnread?)
  {
    ReachableGood(w);
    assert StopperOk(w, w.stoppers[s]);
  }

  /** startDaemon threw, or never got as far as spawning. */
  predicate StartThrew(x: Launcher) {
    x.Gone? && (!x.ok || x.unreleased)
  }

  /** The child was published and confirmed, and only releasing the reservation failed. */
  predicate OnlyReleaseFailed(x: Launcher) {
    x.Gone? && x.ok && x.unreleased
  }

  /** daemon.json names only children whose own endpoint answered with their pid. A start that threw leaves no
      record of its child, save one it could not withdraw and where only the release failed; one that returned
      has published it. */
  lemma RecordsAreEarned(w: World)
    requires Reachable(w)
    ensures w.record.Holding? ==> exists i: nat :: Names(w, i, w.record.state) && w.procs[i].answered
    ensures forall l :: 0 <= l < |w.launchers| && StartThrew(w.launchers[l]) && w.launchers[l].spawned.Some? ==>
      && w.launchers[l].spawned.value < |w.procs|
      && (Withdrawn(w, w.launchers[l].spawned.value) || OnlyReleaseFailed(w.launchers[l]))
    ensures forall l :: 0 <= l < |w.launchers| && w.launchers[l].Gone? && w.launchers[l].ok ==>
      && w.launchers[l].spawned.Some? && w.launchers[l].spawned.value < |w.procs|
      && w.procs[w.launchers[l].spawned.value].published.Some?
  {
    ReachableGood(w);
    if w.record.Holding? {
      var i: nat :| Names(w, i, w.record.state);
      assert ProcOk(w, i);
    }
    forall l | 0 <= l < |w.launchers| && w.launchers[l].Gone?
      ensures LauncherOk(w, l, w.launchers[l])
    {
    }
  }

  /** When a start throws, daemon.json still names its child exactly when it did before that last step and the
      record could not be withdrawn, or only the release failed. */
  lemma ThrownStartLeavesRecord(w: World, l: nat, step: LauncherStep)
    requires Reachable(w) && LauncherEnabled(w, l, step) && w.launchers[l].Leaving?
    requires StartThrew(LauncherApply(w, l, step).launchers[l])
    ensures w.launchers[l].spawned.Some? ==>
      var v, c := LauncherApply(w, l, step), w.launchers[l].spawned.value;
      && c < |w.procs| && c < |v.procs|
      && (v.procs[c].published.Some? ==>
            var own := Holding(v.procs[c].published.value);
            v.record == own <==> w.record == own && (w.procs[c].kept || OnlyReleaseFailed(v.launchers[l])))
  {
    ReachableGood(w);
    assert LauncherOk(w, l, w.launchers[l]);
  }

  /** When a failed start has done what it can to withdraw its record, daemon.json still names its child
      exactly when it did before that step and the step could not read the file, or not unlink it; only
      then does the child count as kept. */
  lemma FailedStartLeavesRecord(w: World, l: nat, step: LauncherStep)
    requires Reachable(w) && LauncherEnabled(w, l, step)
    requires (w.launchers[l].Comparing? || w.launchers[l].Removing?) && LauncherApply(w, l, step).launchers[l].Failing?
    ensures var v, x := LauncherApply(w, l, step), w.launchers[l];
      && (v.record == Holding(x.state) <==> w.record == Holding(x.state) && (step.RemoveFails? || step.CompareBlind?))
      && (v.procs[x.child].kept <==> w.procs[x.child].kept || step.RemoveFails? || step.CompareBlind?)
  {
  }

  /** Nothing else makes a child count as kept. */
  lemma KeptByFailureOnly(w: World, a: Action, i: nat)
    requires Enabled(w, a) && i < |w.procs| && !w.procs[i].kept
    requires i < |Apply(w, a).procs| && Apply(w, a).procs[i].kept
    ensures a.Launch? && (a.launch.RemoveFails? || a.launch.CompareBlind?) && w.launchers[a.l].child == i
  {
    match a
    case System(step) => SystemKeepsNothing(w, step, i);
    case Launch(l, step) => KeptByLauncher(w, l, step, i);
    case Stop(_, _) =>
  }

  lemma SystemKeepsNothing(w: World, step: SystemStep, i: nat)
    requires SystemEnabled(w, step) && i < |w.procs|
    ensures i < |SystemApply(w, step).procs| && SystemApply(w, step).procs[i].kept == w.procs[i].kept
  {
  }

  lemma KeptByLauncher(w: World, l: nat, step: LauncherStep, i: nat)
    requires LauncherEnabled(w, l, step) && i < |w.procs| && !w.procs[i].kept
    requires i < |LauncherApply(w, l, step).procs| && LauncherApply(w, l, step).procs[i].kept
    ensures (step.RemoveFails? || step.CompareBlind?) && w.launchers[l].child == i
  {
  }

  // Deadlines of the two programs

  /** The budget timer of every running shutdown fires on time: no process outlives it. */
  ghost predicate Timely(w: World) {
    forall i :: 0 <= i < |w.procs| && Live(w, i) && w.procs[i].runner.started ==>
      w.clock < w.procs[i].runner.startedAt + DAEMON_SHUTDOWN_TIMEOUT_MS
  }

  /** A daemon whose shutdown callback began within 2,000 ms of the stop's signal is never reported
      as not exiting: by the stop's deadline it is gone. */
  lemma StopOutwaitsTimelyShutdown(w: World, s: nat)
    requires Reachable(w) && Timely(w) && s < |w.stoppers| && w.stoppers[s].Awaiting?
    requires w.stoppers[s].deadline == w.stoppers[s].notBefore + DAEMON_STOP_WAIT_MS
    requires var t := w.stoppers[s].target;
      t < |w.procs| && w.procs[t].runner.started && w.procs[t].runner.startedAt <= w.stoppers[s].notBefore + 2_000
    ensures !StopperEnabled(w, s, SeePresent)
  {
    ReachableGood(w);
    var x := w.stoppers[s];
    assert StopperOk(w, x);
    forall i: nat | i < |w.procs| && w.procs[i].pid == x.state.pid
      ensures Live(w, i) ==> i == x.target
    {
      EarlierIsOver(w, i, x.target);
      assert ProcOk(w, i) && ProcOk(w, x.target);
    }
  }
}
