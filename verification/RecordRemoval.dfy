/** What `removeMatchingState` does, packages/cli/src/daemon-lifecycle.ts:946-952: it reads daemon.json and then
    unlinks it. Between the two other parties move, and either of the two can fail unseen. Runs that show it,
    and exactly when it happens. */
module RecordRemoval {
  import opened Options
  import opened DaemonShutdown
  import opened DaemonLifecycle

  // ---------------------------------------------------------------------------------------------
  // Parts of runs

  /** Launcher `l` has spawned child `c`, which does not answer yet. */
  predicate JustSpawned(w: World, l: nat, c: nat, p: Process) {
    && l < |w.launchers| && w.launchers[l] == Probing(c, Nothing)
    && Held(w, l) && c < |w.procs| && w.procs[c] == p
    && p.exitedAt.None?
  }

  lemma LaunchSpawns(w: World, l: nat, pid: nat) returns (v: World)
    requires Reachable(w) && l < |w.launchers| && w.launchers[l].Idle? && w.lock.None? && PidFree(w, pid)
    ensures Reachable(v) && JustSpawned(v, l, |w.procs|, Spawned(pid, 7433, l, w.clock, []))
    ensures v.lock == Some(Reservation(l, Some(pid)))
    ensures v.procs == w.procs + [Spawned(pid, 7433, l, w.clock, [])]
    ensures v.clock == w.clock && v.record == w.record && v.receipt == w.receipt && v.stoppers == w.stoppers
    ensures |v.launchers| == |w.launchers| && forall k :: 0 <= k < |w.launchers| && k != l ==> v.launchers[k] == w.launchers[k]
  {
    ReachStep(w, Launch(l, Acquire));
    v := LauncherApply(w, l, Acquire);
    assert PidFree(v, pid);
    ReachStep(v, Launch(l, Spawn(pid, 7433, [])));
    v := LauncherApply(v, l, Spawn(pid, 7433, []));
    ReachStep(v, Launch(l, RecordChild));
    v := LauncherApply(v, l, RecordChild);
  }

  function Recorded(p: Process, now: nat): DaemonState {
    DaemonState(p.pid, p.port, "127.0.0.1", "openrig.sqlite", now)
  }

  lemma LaunchConfirms(w: World, l: nat, c: nat, p: Process) returns (v: World)
    requires Reachable(w) && JustSpawned(w, l, c, p)
    ensures Reachable(v) && Held(v, l) && v.lock == w.lock
    ensures v.procs == w.procs[c := p.(listening := true, answered := true)]
    ensures v.clock == w.clock && v.record == w.record && v.receipt == w.receipt && v.stoppers == w.stoppers
    ensures v.launchers == w.launchers[l := Publishing(c, Recorded(p, w.clock))]
  {
    ReachStep(w, System(Listen(c)));
    v := SystemApply(w, Listen(c));
    ReachStep(v, Launch(l, ProbeAccepted));
    v := LauncherApply(v, l, ProbeAccepted);
    ReachStep(v, Launch(l, Confirm("127.0.0.1", "openrig.sqlite")));
    v := LauncherApply(v, l, Confirm("127.0.0.1", "openrig.sqlite"));
  }

  lemma LaunchPublishes(w: World, l: nat, c: nat, state: DaemonState) returns (v: World)
    requires Reachable(w) && l < |w.launchers| && w.launchers[l] == Publishing(c, state) && Held(w, l) && Live(w, c)
    ensures Reachable(v) && v.lock.None? && v.record == Holding(state)
    ensures v.procs == w.procs[c := w.procs[c].(published := Some(state))]
    ensures v.clock == w.clock && v.receipt == w.receipt && v.stoppers == w.stoppers
    ensures v.launchers == w.launchers[l := Gone(Some(c), true, false)]
  {
    ReachStep(w, Launch(l, WriteRecord));
    v := LauncherApply(w, l, WriteRecord);
    v := LaunchReturns(v, l, c, state);
    assert v.launchers == w.launchers[l := Gone(Some(c), true, false)];
  }

  lemma LaunchReturns(w: World, l: nat, c: nat, state: DaemonState) returns (v: World)
    requires Reachable(w) && l < |w.launchers| && w.launchers[l] == Rechecking(c, state) && Held(w, l) && Live(w, c)
    ensures Reachable(v) && v == w.(lock := None, launchers := w.launchers[l := Gone(Some(c), true, false)])
  {
    ReachStep(w, Launch(l, RecheckPasses));
    v := LauncherApply(w, l, RecheckPasses);
    v := LaunchReleases(v, l, c);
  }

  lemma LaunchReleases(w: World, l: nat, c: nat) returns (v: World)
    requires Reachable(w) && l < |w.launchers| && w.launchers[l] == Leaving(Some(c), false, true) && Held(w, l)
    requires c < |w.procs|
    ensures Reachable(v) && v == w.(lock := None, launchers := w.launchers[l := Gone(Some(c), true, false)])
  {
    ReachStep(w, Launch(l, Release));
    v := LauncherApply(w, l, Release);
  }

  function Launched(pid: nat, l: nat, now: nat): Process {
    var p := Spawned(pid, 7433, l, now, []);
    p.(listening := true, answered := true, published := Some(Recorded(p, now)))
  }

  lemma LaunchReaches(w: World, l: nat, pid: nat) returns (v: World)
    requires Reachable(w) && l < |w.launchers| && w.launchers[l].Idle? && w.lock.None? && PidFree(w, pid)
    ensures Reachable(v) && v.lock.None?
    ensures v.procs == w.procs + [Launched(pid, l, w.clock)]
    ensures v.record == Holding(Launched(pid, l, w.clock).published.value)
    ensures v.clock == w.clock && v.receipt == w.receipt && v.stoppers == w.stoppers
    ensures |v.launchers| == |w.launchers| && forall k :: 0 <= k < |w.launchers| && k != l ==> v.launchers[k] == w.launchers[k]
  {
    var c := |w.procs|;
    var p := Spawned(pid, 7433, l, w.clock, []);
    v := LaunchSpawns(w, l, pid);
    v := LaunchConfirms(v, l, c, p);
    v := LaunchPublishes(v, l, c, Recorded(p, w.clock));
  }

  /** The recorded daemon shuts down cleanly under a stop that gets as far as the final unlink. */
  lemma StopReachesUnlink(w: World, s: nat, state: DaemonState) returns (v: World)
    requires Reachable(w) && s < |w.stoppers| && w.stoppers[s].Ready? && w.record == Holding(state)
    requires |w.procs| == 1 && w.procs[0].exitedAt.None? && w.procs[0].published == Some(state)
    requires w.procs[0].runner == Fresh(w.procs[0].pid, []) && state.pid == w.procs[0].pid
    ensures Reachable(v) && v.stoppers == w.stoppers[s := Unlinking(state, 0)]
    ensures v.record == w.record && v.lock == w.lock && v.launchers == w.launchers && v.clock == w.clock
    ensures |v.procs| == 1 && v.procs[0].exitedAt == Some(w.clock) && v.procs[0].pid == w.procs[0].pid
    ensures v.procs[0].launcher == w.procs[0].launcher
  {
    v := StopSignals(w, s, state);
    v := TargetExits(v);
    v := StopFinishes(v, s, state);
  }

  lemma StopSignals(w: World, s: nat, state: DaemonState) returns (v: World)
    requires Reachable(w) && s < |w.stoppers| && w.stoppers[s].Ready? && w.record == Holding(state)
    requires |w.procs| == 1 && state.pid == w.procs[0].pid
    ensures Reachable(v) && v == SetStopper(w, s, Awaiting(state, 0, w.clock, w.clock + DAEMON_STOP_WAIT_MS))
  {
    ReachStep(w, Stop(s, ReadState(0)));
    v := StopperApply(w, s, ReadState(0));
    ReachStep(v, Stop(s, Kill));
    v := StopperApply(v, s, Kill);
  }

  /** The one process shuts down, with nothing to do, on its signal. */
  lemma TargetExits(w: World) returns (v: World)
    requires Reachable(w) && |w.procs| == 1 && w.procs[0].exitedAt.None?
    requires w.procs[0].runner == Fresh(w.procs[0].pid, [])
    ensures Reachable(v) && |v.procs| == 1 && v.procs[0].exitedAt == Some(w.clock)
    ensures v.procs[0].pid == w.procs[0].pid && v.procs[0].launcher == w.procs[0].launcher
    ensures v == w.(procs := v.procs, receipt := Some(Receipt(w.procs[0].pid, w.clock, w.clock, Clean, "complete", [])))
  {
    var signal := Signal(Env(w.clock, Resolved, true));
    EmptyShutdown(w.procs[0].pid, signal.env);
    ReachStep(w, System(Callback(0, signal)));
    v := SystemApply(w, Callback(0, signal));
  }

  lemma EmptyShutdown(pid: nat, env: Env)
    requires env.markClean.Resolved? && env.publishes
    ensures var r := Step(Fresh(pid, []), Signal(env));
      && r.finished && |r.log| == 3
      && r.log[1] == Published(Receipt(pid, env.now, env.now, Clean, "complete", []))
  {
  }

  lemma StopFinishes(w: World, s: nat, state: DaemonState) returns (v: World)
    requires Reachable(w) && s < |w.stoppers| && w.record == Holding(state)
    requires |w.procs| == 1 && w.procs[0].exitedAt.Some? && w.procs[0].pid == state.pid
    requires w.stoppers[s] == Awaiting(state, 0, w.clock, w.clock + DAEMON_STOP_WAIT_MS)
    requires w.receipt == Some(Receipt(state.pid, w.clock, w.clock, Clean, "complete", []))
    ensures Reachable(v) && v == SetStopper(w, s, Unlinking(state, 0))
  {
    v := StopLooks(w, s, state);
    v := StopClears(v, s, state);
  }

  lemma StopLooks(w: World, s: nat, state: DaemonState) returns (v: World)
    requires Reachable(w) && s < |w.stoppers| && |w.procs| == 1 && w.procs[0].exitedAt.Some?
    requires w.stoppers[s] == Awaiting(state, 0, w.clock, w.clock + DAEMON_STOP_WAIT_MS)
    ensures Reachable(v) && v == SetStopper(w, s, Judging(state, 0, w.clock))
  {
    ExitedIsDeaf(w);
    ReachStep(w, Stop(s, SeeAbsent));
    v := StopperApply(w, s, SeeAbsent);
    assert v == SetStopper(w, s, Verifying(state, 0, w.clock));
    ReachStep(v, Stop(s, SeeRefused));
    v := StopperApply(v, s, SeeRefused);
  }

  lemma ExitedIsDeaf(w: World)
    requires Reachable(w) && |w.procs| == 1 && w.procs[0].exitedAt.Some?
    ensures !w.procs[0].listening
  {
    ReachableGood(w);
    assert ProcOk(w, 0);
  }

  lemma StopClears(w: World, s: nat, state: DaemonState) returns (v: World)
    requires Reachable(w) && s < |w.stoppers| && w.record == Holding(state)
    requires w.stoppers[s] == Judging(state, 0, w.clock)
    requires w.receipt == Some(Receipt(state.pid, w.clock, w.clock, Clean, "complete", []))
    ensures Reachable(v) && v == SetStopper(w, s, Unlinking(state, 0))
  {
    ReachStep(w, Stop(s, Judge));
    v := StopperApply(w, s, Judge);
    assert v == SetStopper(w, s, Clearing(state, 0));
    ReachStep(v, Stop(s, CompareTarget));
    v := StopperApply(v, s, CompareTarget);
  }

  /** A concrete run in which a stop, between reading daemon.json and unlinking it, is overtaken by a
      complete launch: the successor is live and published, and no record is left. */
  lemma StopCanUnlinkSuccessor() returns (w: World)
    ensures Reachable(w) && w.record.Absent? && |w.stoppers| == 1
    ensures w.stoppers[0].Stopped? && w.stoppers[0].target == 0
    ensures |w.procs| == 2 && Live(w, 1) && w.procs[1].listening && w.procs[1].published.Some?
  {
    StartReachable(2, 1);
    w := LaunchReaches(Start(2, 1), 0, 10);
    w := StopReachesUnlink(w, 0, Launched(10, 0, 0).published.value);
    w := LaunchReaches(w, 1, 11);
    ReachStep(w, Stop(0, Unlink));
    w := StopperApply(w, 0, Unlink);
  }

  /** A concrete run in which the unlink fails: the stop returns, and daemon.json still names its target. */
  lemma StopCanLeaveRecord() returns (w: World)
    ensures Reachable(w) && |w.stoppers| == 1
    ensures w.stoppers[0].Stopped? && w.record == Holding(w.stoppers[0].state)
  {
    StartReachable(1, 1);
    w := LaunchReaches(Start(1, 1), 0, 10);
    w := StopReachesUnlink(w, 0, Launched(10, 0, 0).published.value);
    ReachStep(w, Stop(0, UnlinkFails));
    w := StopperApply(w, 0, UnlinkFails);
  }

  /** A concrete run in which a start fails after publishing and cannot withdraw: it throws, and
      daemon.json still names its child. */
  lemma FailedStartCanLeaveRecord() returns (w: World)
    ensures Reachable(w) && |w.launchers| == 1 && |w.procs| == 1
    ensures w.launchers[0] == Gone(Some(0), false, false)
    ensures w.procs[0].published.Some? && w.record == Holding(w.procs[0].published.value)
  {
    StartReachable(1, 0);
    w := LaunchSpawns(Start(1, 0), 0, 10);
    var p := Spawned(10, 7433, 0, 0, []);
    w := LaunchConfirms(w, 0, 0, p);
    w := StartFails(w, Recorded(p, 0));
  }

  /** A concrete run in which only releasing the reservation fails: the start throws, its child is alive and
      daemon.json names it; the reservation stays and records the child. */
  lemma UnreleasedStartLeavesRecord() returns (w: World)
    ensures Reachable(w) && |w.launchers| == 1 && |w.procs| == 1
    ensures w.launchers[0] == Gone(Some(0), true, true) && StartThrew(w.launchers[0]) && Live(w, 0)
    ensures w.procs[0].published.Some? && w.record == Holding(w.procs[0].published.value)
    ensures w.lock == Some(Reservation(0, Some(w.procs[0].pid)))
  {
    StartReachable(1, 0);
    w := LaunchSpawns(Start(1, 0), 0, 10);
    var p := Spawned(10, 7433, 0, 0, []);
    w := LaunchConfirms(w, 0, 0, p);
    w := ReleaseThrows(w, Recorded(p, 0));
  }

  lemma ReleaseThrows(w: World, state: DaemonState) returns (v: World)
    requires Reachable(w) && |w.launchers| == 1 && w.launchers[0] == Publishing(0, state)
    requires |w.procs| == 1 && Live(w, 0)
    ensures Reachable(v) && v.launchers == [Gone(Some(0), true, true)] && v.lock == w.lock
    ensures |v.procs| == 1 && v.procs[0] == w.procs[0].(published := Some(state)) && v.record == Holding(state)
  {
    ReachStep(w, Launch(0, WriteRecord));
    v := LauncherApply(w, 0, WriteRecord);
    v := ConfirmedThrows(v, state);
  }

  lemma ConfirmedThrows(w: World, state: DaemonState) returns (v: World)
    requires Reachable(w) && |w.launchers| == 1 && w.launchers[0] == Rechecking(0, state)
    requires |w.procs| == 1 && Live(w, 0)
    ensures Reachable(v) && v.launchers == [Gone(Some(0), true, true)] && v.lock == w.lock
    ensures v.procs == w.procs && v.record == w.record
  {
    ReachStep(w, Launch(0, RecheckPasses));
    v := LauncherApply(w, 0, RecheckPasses);
    ReachStep(v, Launch(0, ReleaseFails(false)));
    v := LauncherApply(v, 0, ReleaseFails(false));
  }

  lemma StartFails(w: World, state: DaemonState) returns (v: World)
    requires Reachable(w) && |w.launchers| == 1 && w.launchers[0] == Publishing(0, state) && Held(w, 0)
    requires |w.procs| == 1 && Live(w, 0)
    ensures Reachable(v) && |v.launchers| == 1 && v.launchers[0] == Gone(Some(0), false, false)
    ensures |v.procs| == 1 && v.procs[0].published == Some(state) && v.record == Holding(state)
  {
    ReachStep(w, Launch(0, WriteRecord));
    v := LauncherApply(w, 0, WriteRecord);
    ReachStep(v, System(Crash(0)));
    v := SystemApply(v, Crash(0));
    ReachStep(v, Launch(0, RecheckFails));
    v := LauncherApply(v, 0, RecheckFails);
    v := RetractionFails(v, state);
  }

  lemma RetractionFails(w: World, state: DaemonState) returns (v: World)
    requires Reachable(w) && |w.launchers| == 1 && w.launchers[0] == Comparing(0, state) && Held(w, 0)
    requires |w.procs| == 1 && !Live(w, 0) && w.procs[0].published == Some(state) && w.record == Holding(state)
    ensures Reachable(v) && |v.launchers| == 1 && v.launchers[0] == Gone(Some(0), false, false)
    ensures |v.procs| == 1 && v.procs[0].published == Some(state) && v.record == Holding(state)
  {
    ReachStep(w, Launch(0, CompareBlind));
    v := LauncherApply(w, 0, CompareBlind);
    v := FailedStartEnds(v);
  }

  lemma FailedStartEnds(w: World) returns (v: World)
    requires Reachable(w) && |w.launchers| == 1 && w.launchers[0] == Failing(0) && |w.procs| == 1 && !Live(w, 0)
    ensures Reachable(v) && v.launchers == [Gone(Some(0), false, false)] && v.procs == w.procs && v.record == w.record
  {
    ReachStep(w, Launch(0, SeeOwnExit));
    v := LauncherApply(w, 0, SeeOwnExit);
    ReachStep(v, Launch(0, Release));
    v := LauncherApply(v, 0, Release);
  }

  // ---------------------------------------------------------------------------------------------
  // Exactly when an unlink takes another's record

  /** The action makes daemon.json hold a new state. */
  predicate Publishes(w: World, a: Action)
    requires Enabled(w, a)
  {
    && a.Launch?
    && (a.launch.WriteRecord? || (a.launch.WriteFails? && a.launch.left == Holding(w.launchers[a.l].state)))
  }

  /** The action makes daemon.json hold none: a retraction, a torn write, or another party's unlink. */
  predicate Withdraws(w: World, a: Action)
    requires Enabled(w, a)
  {
    || (a.Launch? && (a.launch.RemoveOwn? || (a.launch.WriteFails? && !a.launch.left.Holding? && a.launch.left != w.record)))
    || (a.Stop? && a.stop.Unlink?)
  }

  /** Of the actions that touched daemon.json, if any, the last one published; `soFar` stands for those
      before. */
  predicate LastPublished(w: World, actions: seq<Action>, soFar: bool)
    requires Runs(w, actions)
    decreases actions
  {
    if actions == [] then soFar
    else
      LastPublished(Apply(w, actions[0]), actions[1..],
                    if Publishes(w, actions[0]) then true else if Withdraws(w, actions[0]) then false else soFar)
  }

  /** The stop does not move. */
  predicate Waits(s: nat, actions: seq<Action>) {
    forall i :: 0 <= i < |actions| && actions[i].Stop? ==> actions[i].s != s
  }

  /** daemon.json holds a state, and not this one. */
  predicate HoldsAnother(w: World, state: DaemonState) {
    w.record.Holding? && w.record.state != state
  }

  /** What a launcher's step leaves in daemon.json. */
  function LaunchLeaves(w: World, l: nat, step: LauncherStep): StateFile
    requires LauncherEnabled(w, l, step)
  {
    match step
    case WriteRecord => Holding(w.launchers[l].state)
    case WriteFails(left) => left
    case RemoveOwn => Absent
    case _ => w.record
  }

  lemma LauncherMovesRecord(w: World, l: nat, step: LauncherStep)
    requires LauncherEnabled(w, l, step)
    ensures var v := LauncherApply(w, l, step); v.stoppers == w.stoppers && v.record == LaunchLeaves(w, l, step)
  {
  }

  lemma StopperMovesRecord(w: World, s: nat, step: StopperStep)
    requires StopperEnabled(w, s, step)
    ensures var v := StopperApply(w, s, step);
      && v.stoppers == w.stoppers[s := v.stoppers[s]]
      && v.record == if step.Unlink? then Absent else w.record
  {
  }

  /** A record about to be published is not the one that a stop compared, or ended with. */
  lemma NewRecordIsAnother(w: World, l: nat, s: nat)
    requires Good(w) && l < |w.launchers| && w.launchers[l].Publishing?
    requires s < |w.stoppers| && (w.stoppers[s].Unlinking? || w.stoppers[s].Stopped?)
    ensures w.launchers[l].state != w.stoppers[s].state
  {
    var x := w.launchers[l];
    assert LauncherOk(w, l, x);
    assert StopperOk(w, w.stoppers[s]);
    RecordsDistinct(w, x.child, x.state, w.stoppers[s].target);
  }

  /** What one action does to daemon.json while a stop is about to unlink it, or after it ended. */
  lemma RecordMoves(w: World, a: Action, s: nat)
    requires Good(w) && Enabled(w, a)
    requires s < |w.stoppers| && (w.stoppers[s].Unlinking? || w.stoppers[s].Stopped?)
    requires a.Stop? ==> a.s != s
    ensures var v, state := Apply(w, a), w.stoppers[s].state;
      && |v.stoppers| == |w.stoppers| && v.stoppers[s] == w.stoppers[s]
      && (Publishes(w, a) ==> HoldsAnother(v, state))
      && (!Publishes(w, a) && Withdraws(w, a) ==> !v.record.Holding?)
      && (!Publishes(w, a) && !Withdraws(w, a) ==> v.record == w.record)
  {
    match a
    case System(_) =>
    case Launch(l, step) =>
      LauncherMovesRecord(w, l, step);
      if Publishes(w, a) {
        NewRecordIsAnother(w, l, s);
      }
    case Stop(r, step) => StopperMovesRecord(w, r, step);
  }

  lemma {:induction false} AnothersIffLastPublished(w: World, actions: seq<Action>, s: nat)
    requires Good(w) && Runs(w, actions) && Waits(s, actions)
    requires s < |w.stoppers| && w.stoppers[s].Unlinking?
    ensures var v := Reached(w, actions);
      && Good(v) && |v.stoppers| == |w.stoppers| && v.stoppers[s] == w.stoppers[s]
      && (HoldsAnother(v, w.stoppers[s].state)
          <==> LastPublished(w, actions, HoldsAnother(w, w.stoppers[s].state)))
    decreases actions
  {
    if actions != [] {
      var a := actions[0];
      RecordMoves(w, a, s);
      ActionKeeps(w, a);
      assert forall i :: 0 <= i < |actions[1..]| ==> actions[1..][i] == actions[i + 1];
      AnothersIffLastPublished(Apply(w, a), actions[1..], s);
    }
  }

  /** daemon.json names an incarnation other than `t`. */
  ghost predicate NamesAnother(w: World, t: nat) {
    exists i: nat :: w.record.Holding? && Names(w, i, w.record.state) && i != t
  }

  lemma AnotherStateIsAnothers(w: World, s: nat)
    requires Good(w) && s < |w.stoppers| && w.stoppers[s].Unlinking?
    ensures HoldsAnother(w, w.stoppers[s].state) <==> NamesAnother(w, w.stoppers[s].target)
  {
    var state, t := w.stoppers[s].state, w.stoppers[s].target;
    assert StopperOk(w, w.stoppers[s]);
    if HoldsAnother(w, state) {
      var i: nat :| Names(w, i, w.record.state);
      assert i != t;
    }
  }

  /** A stop compared daemon.json with its target and found it; others moved; now it unlinks. It takes the
      record of another incarnation exactly when the last of those moves that touched the file published
      one. */
  lemma UnlinkTakesAnothersIffOvertaken(w: World, s: nat, actions: seq<Action>)
    requires Reachable(w) && StopperEnabled(w, s, CompareTarget) && w.record == Holding(w.stoppers[s].state)
    requires var u := StopperApply(w, s, CompareTarget); Runs(u, actions) && Waits(s, actions)
    ensures var u := StopperApply(w, s, CompareTarget);
      var v := Reached(u, actions);
      && StopperEnabled(v, s, Unlink)
      && (NamesAnother(v, w.stoppers[s].target) <==> LastPublished(u, actions, false))
  {
    ReachableGood(w);
    StopperStepKeeps(w, s, CompareTarget);
    var u := StopperApply(w, s, CompareTarget);
    assert u == SetStopper(w, s, Unlinking(w.stoppers[s].state, w.stoppers[s].target));
    AnothersIffLastPublished(u, actions, s);
    AnotherStateIsAnothers(Reached(u, actions), s);
  }

  // ---------------------------------------------------------------------------------------------
  // A stop that returned

  /** Once daemon.json does not name the target of a stop that returned, it never does again. */
  lemma {:induction false} StoppedStaysForgotten(w: World, actions: seq<Action>, s: nat)
    requires Good(w) && Runs(w, actions) && s < |w.stoppers| && w.stoppers[s].Stopped?
    requires w.record != Holding(w.stoppers[s].state)
    ensures var v := Reached(w, actions);
      |v.stoppers| == |w.stoppers| && v.stoppers[s] == w.stoppers[s] && v.record != Holding(w.stoppers[s].state)
    decreases actions
  {
    if actions != [] {
      var a := actions[0];
      ForgottenStep(w, a, s);
      ActionKeeps(w, a);
      StoppedStaysForgotten(Apply(w, a), actions[1..], s);
    }
  }

  lemma ForgottenStep(w: World, a: Action, s: nat)
    requires Good(w) && Enabled(w, a) && s < |w.stoppers| && w.stoppers[s].Stopped?
    requires w.record != Holding(w.stoppers[s].state)
    ensures var v := Apply(w, a);
      |v.stoppers| == |w.stoppers| && v.stoppers[s] == w.stoppers[s] && v.record != Holding(w.stoppers[s].state)
  {
    if a.Stop? && a.s == s {
      assert false;
    } else {
      RecordMoves(w, a, s);
    }
  }
}
