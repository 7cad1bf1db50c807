/** The launch reservation, packages/cli/src/daemon-start-lock.ts: what it excludes, how long it is kept, and
    what an operator who archives one by the processes it records can let in. */
module StartReservation {
  import opened Options
  import opened DaemonShutdown
  import opened DaemonLifecycle

  // ---------------------------------------------------------------------------------------------
  // Who is covered

  /** The start of an incarnation accepted it: its launcher published it, confirmed it and is done. */
  predicate Accepted(w: World, i: nat)
    requires i < |w.procs|
  {
    var l := w.procs[i].launcher;
    l < |w.launchers| && w.launchers[l].Gone? && w.launchers[l].ok && w.launchers[l].spawned == Some(i)
  }

  /** A live child that its start has not accepted: unpublished, published and not yet confirmed, or of a start
      that failed or died. */
  predicate Pending(w: World, i: nat) {
    Live(w, i) && !Accepted(w, i)
  }

  /** Every pending child's launcher has the reservation. */
  ghost predicate Covered(w: World) {
    forall i :: 0 <= i < |w.procs| && Pending(w, i) ==> Held(w, w.procs[i].launcher)
  }

  /** An operator archives a reservation that records no child, though its launcher has a live one. */
  predicate ArchivesBlindly(w: World, a: Action) {
    && a == System(Archive) && w.lock.Some? && w.lock.value.child.None?
    && exists i :: 0 <= i < |w.procs| && w.procs[i].launcher == w.lock.value.launcher && Live(w, i)
  }

  /** The launcher is past recording its child, and did not fail. */
  predicate PastRecording(x: Launcher) {
    x.Probing? || x.Confirmed? || x.Publishing? || x.Rechecking? || ((x.Leaving? || x.Gone?) && x.ok)
  }

  ghost predicate ChildWithPid(w: World, l: nat, pid: nat) {
    exists c: nat :: Child(w, l, c) && w.procs[c].pid == pid
  }

  /** The child that a reservation records is its launcher's, and it records one by the time that matters. */
  ghost predicate RecordsRightly(w: World) {
    w.lock.Some? ==>
      var r := w.lock.value;
      && (r.child.Some? ==> ChildWithPid(w, r.launcher, r.child.value))
      && (r.launcher < |w.launchers| && PastRecording(w.launchers[r.launcher]) ==> r.child.Some?)
  }

  ghost predicate Sound(w: World) {
    Good(w) && RecordsRightly(w)
  }

  // ---------------------------------------------------------------------------------------------
  // What one action does

  /** Processes stay, with their pid and their launcher, and none comes back to life. */
  predicate Continues(w: World, v: World) {
    && |w.procs| <= |v.procs| && |v.launchers| == |w.launchers|
    && forall i :: 0 <= i < |w.procs| ==>
         && v.procs[i].launcher == w.procs[i].launcher && v.procs[i].pid == w.procs[i].pid
         && (Live(v, i) ==> Live(w, i))
  }

  lemma LauncherContinues(w: World, l: nat, step: LauncherStep)
    requires LauncherEnabled(w, l, step)
    ensures Continues(w, LauncherApply(w, l, step))
    ensures !step.Spawn? ==> |LauncherApply(w, l, step).procs| == |w.procs|
  {
    LauncherMovesOnlyItself(w, l, step);
  }

  lemma LauncherMovesOnlyItself(w: World, l: nat, step: LauncherStep)
    requires LauncherEnabled(w, l, step)
    ensures var v := LauncherApply(w, l, step);
      |v.launchers| == |w.launchers| && v.launchers == w.launchers[l := v.launchers[l]]
  {
  }

  /** What a launcher's step leaves of the reservation. */
  function LockAfter(w: World, l: nat, step: LauncherStep): Option<Reservation>
    requires LauncherEnabled(w, l, step)
  {
    var x := w.launchers[l];
    match step
    case Acquire => Some(Reservation(l, None))
    case RecordChild => if Held(w, l) then Some(Reservation(l, Some(w.procs[x.child].pid))) else w.lock
    case Release => if !x.preserve && Held(w, l) then None else w.lock
    case ReleaseFails(unlinked) => if !x.preserve && unlinked && Held(w, l) then None else w.lock
    case _ => w.lock
  }

  lemma LauncherMovesLock(w: World, l: nat, step: LauncherStep)
    requires LauncherEnabled(w, l, step)
    ensures LauncherApply(w, l, step).lock == LockAfter(w, l, step)
  {
  }

  lemma SystemContinues(w: World, step: SystemStep)
    requires SystemEnabled(w, step)
    ensures var v := SystemApply(w, step);
      && Continues(w, v) && |v.procs| == |w.procs| && v.launchers == w.launchers
      && v.lock == if step.Archive? then None else w.lock
  {
  }

  lemma RecordedStays(w: World, v: World, l: nat, pid: nat)
    requires Continues(w, v) && ChildWithPid(w, l, pid)
    ensures ChildWithPid(v, l, pid)
  {
    var c: nat :| Child(w, l, c) && w.procs[c].pid == pid;
    assert Child(v, l, c) && v.procs[c].pid == pid;
  }

  /** A step after which a launcher is past recording is one from there, or the recording. */
  lemma PastStays(w: World, l: nat, step: LauncherStep)
    requires Good(w) && LauncherEnabled(w, l, step) && PastRecording(LauncherApply(w, l, step).launchers[l])
    ensures PastRecording(w.launchers[l]) || step.RecordChild?
  {
    assert LauncherOk(w, l, w.launchers[l]);
  }

  lemma RecordChildRecords(w: World, l: nat)
    requires Good(w) && LauncherEnabled(w, l, RecordChild)
    ensures Held(w, l) && ChildWithPid(LauncherApply(w, l, RecordChild), l, w.procs[w.launchers[l].child].pid)
  {
    assert LauncherOk(w, l, w.launchers[l]);
    assert Child(LauncherApply(w, l, RecordChild), l, w.launchers[l].child);
  }

  lemma LauncherRecordsRightly(w: World, l: nat, step: LauncherStep)
    requires Sound(w) && LauncherEnabled(w, l, step)
    ensures RecordsRightly(LauncherApply(w, l, step))
  {
    var v := LauncherApply(w, l, step);
    LauncherContinues(w, l, step);
    LauncherMovesOnlyItself(w, l, step);
    LauncherMovesLock(w, l, step);
    if step.RecordChild? {
      RecordChildRecords(w, l);
    } else if v.lock.Some? && !step.Acquire? {
      if w.lock.value.child.Some? {
        RecordedStays(w, v, w.lock.value.launcher, w.lock.value.child.value);
      }
      if w.lock.value.launcher == l && PastRecording(v.launchers[l]) {
        PastStays(w, l, step);
      }
    }
  }

  lemma ActionRecordsRightly(w: World, a: Action)
    requires Sound(w) && Enabled(w, a)
    ensures Sound(Apply(w, a))
  {
    ActionKeeps(w, a);
    match a
    case System(step) =>
      SystemContinues(w, step);
      if !step.Archive? {
        SameLockRecordsRightly(w, SystemApply(w, step));
      }
    case Launch(l, step) => LauncherRecordsRightly(w, l, step);
    case Stop(s, step) => SameLockRecordsRightly(w, StopperApply(w, s, step));
  }

  lemma SameLockRecordsRightly(w: World, v: World)
    requires RecordsRightly(w) && Continues(w, v) && v.lock == w.lock && v.launchers == w.launchers
    ensures RecordsRightly(v)
  {
    if w.lock.Some? && w.lock.value.child.Some? {
      RecordedStays(w, v, w.lock.value.launcher, w.lock.value.child.value);
    }
  }

  lemma {:induction false} RunIsSound(w: World, actions: seq<Action>)
    requires Sound(w) && Runs(w, actions)
    ensures Sound(Reached(w, actions))
    decreases actions
  {
    if actions != [] {
      ActionRecordsRightly(w, actions[0]);
      RunIsSound(Apply(w, actions[0]), actions[1..]);
    }
  }

  lemma ReachableSound(w: World)
    requires Reachable(w)
    ensures Sound(w)
  {
    var launchers: nat, stoppers: nat, actions :|
      Runs(Start(launchers, stoppers), actions) && Reached(Start(launchers, stoppers), actions) == w;
    StartGood(launchers, stoppers);
    RunIsSound(Start(launchers, stoppers), actions);
  }

  // ---------------------------------------------------------------------------------------------
  // When coverage is lost

  /** When a launcher gives the reservation up, its child has exited or is accepted. */
  lemma NothingPending(w: World, l: nat, i: nat)
    requires Good(w) && l < |w.launchers| && w.launchers[l].Leaving? && !w.launchers[l].preserve
    requires Live(w, i) && w.procs[i].launcher == l
    ensures w.launchers[l].ok && w.launchers[l].spawned == Some(i)
  {
    var x := w.launchers[l];
    assert LauncherOk(w, l, x);
    assert x.spawned.Some? && w.procs[x.spawned.value].launcher == l;
    assert i == x.spawned.value;
  }

  /** Archiving a reservation that records a child, or whose launcher has none alive, uncovers nobody. */
  lemma RecordedIsDead(w: World, i: nat)
    requires Sound(w) && SystemEnabled(w, Archive) && !ArchivesBlindly(w, System(Archive))
    requires i < |w.procs| && w.procs[i].launcher == w.lock.value.launcher
    ensures !Live(w, i)
  {
    var r := w.lock.value;
    if r.child.Some? {
      var c: nat :| Child(w, r.launcher, c) && w.procs[c].pid == r.child.value;
      assert c == i;
    }
  }

  lemma SystemCovers(w: World, step: SystemStep)
    requires Sound(w) && Covered(w) && SystemEnabled(w, step) && !ArchivesBlindly(w, System(step))
    ensures Covered(SystemApply(w, step))
  {
    var v := SystemApply(w, step);
    SystemContinues(w, step);
    forall i | 0 <= i < |v.procs| && Pending(v, i) ensures Held(v, v.procs[i].launcher) {
      assert Pending(w, i);
      if step.Archive? {
        RecordedIsDead(w, i);
      }
    }
  }

  lemma LauncherCovers(w: World, l: nat, step: LauncherStep)
    requires Sound(w) && Covered(w) && LauncherEnabled(w, l, step)
    ensures Covered(LauncherApply(w, l, step))
  {
    var v := LauncherApply(w, l, step);
    LauncherContinues(w, l, step);
    LauncherMovesOnlyItself(w, l, step);
    LauncherMovesLock(w, l, step);
    assert LauncherOk(w, l, w.launchers[l]);
    forall i | 0 <= i < |v.procs| && Pending(v, i) ensures Held(v, v.procs[i].launcher) {
      if i < |w.procs| {
        LauncherCoversOne(w, l, step, i);
      } else {
        assert step.Spawn? && v.procs[i].launcher == l && Held(w, l);
      }
    }
  }

  /** An old child that is pending after the step was pending before. */
  lemma LauncherCoversOne(w: World, l: nat, step: LauncherStep, i: nat)
    requires Sound(w) && Covered(w) && LauncherEnabled(w, l, step) && i < |w.procs|
    requires Continues(w, LauncherApply(w, l, step)) && Pending(LauncherApply(w, l, step), i)
    requires LauncherApply(w, l, step).lock == LockAfter(w, l, step)
    requires var v := LauncherApply(w, l, step); v.launchers == w.launchers[l := v.launchers[l]]
    ensures Held(LauncherApply(w, l, step), w.procs[i].launcher)
  {
    var k := w.procs[i].launcher;
    assert k == l ==> !w.launchers[l].Gone?;
    assert Pending(w, i) && Held(w, k);
    if k == l && w.launchers[l].Leaving? && !w.launchers[l].preserve {
      NothingPending(w, l, i);
    }
  }

  /** One action keeps every pending child covered exactly when it does not archive blindly. */
  lemma CoverageIsLostBlindly(w: World, a: Action)
    requires Sound(w) && Covered(w) && Enabled(w, a)
    ensures Covered(Apply(w, a)) <==> !ArchivesBlindly(w, a)
  {
    if ArchivesBlindly(w, a) {
      BlindlyUncovers(w);
    } else {
      match a
      case System(step) => SystemCovers(w, step);
      case Launch(l, step) => LauncherCovers(w, l, step);
      case Stop(s, step) => StopperCovers(w, s, step);
    }
  }

  lemma StopperCovers(w: World, s: nat, step: StopperStep)
    requires Covered(w) && StopperEnabled(w, s, step)
    ensures Covered(StopperApply(w, s, step))
  {
    var v := StopperApply(w, s, step);
    StopperKeepsLock(w, s, step);
    forall i | 0 <= i < |v.procs| && Pending(v, i) ensures Held(v, v.procs[i].launcher) {
      assert Pending(w, i);
    }
  }

  lemma BlindlyUncovers(w: World)
    requires Sound(w) && SystemEnabled(w, Archive) && ArchivesBlindly(w, System(Archive))
    ensures !Covered(SystemApply(w, Archive))
  {
    var v := SystemApply(w, Archive);
    var i :| 0 <= i < |w.procs| && w.procs[i].launcher == w.lock.value.launcher && Live(w, i);
    assert !PastRecording(w.launchers[w.lock.value.launcher]);
    assert Pending(v, i);
  }

  predicate NeverBlindly(w: World, actions: seq<Action>)
    requires Runs(w, actions)
    decreases actions
  {
    actions == [] || (!ArchivesBlindly(w, actions[0]) && NeverBlindly(Apply(w, actions[0]), actions[1..]))
  }

  ghost predicate CoveredThroughout(w: World, actions: seq<Action>)
    requires Runs(w, actions)
    decreases actions
  {
    Covered(w) && (actions == [] || CoveredThroughout(Apply(w, actions[0]), actions[1..]))
  }

  lemma {:induction false} CoveredUnlessBlindly(w: World, actions: seq<Action>)
    requires Sound(w) && Covered(w) && Runs(w, actions)
    ensures CoveredThroughout(w, actions) <==> NeverBlindly(w, actions)
    ensures NeverBlindly(w, actions) ==> Covered(Reached(w, actions))
    decreases actions
  {
    if actions != [] {
      CoverageIsLostBlindly(w, actions[0]);
      ActionRecordsRightly(w, actions[0]);
      if Covered(Apply(w, actions[0])) {
        CoveredUnlessBlindly(Apply(w, actions[0]), actions[1..]);
      }
    }
  }

  // ---------------------------------------------------------------------------------------------
  // Main results

  /** Over every run, however many launchers run and die: every pending child has its launcher's reservation in
      every world of the run, if and only if no reservation that records no child was archived over a live
      one. */
  lemma PendingIsCoveredIff(launchers: nat, stoppers: nat, actions: seq<Action>)
    requires Runs(Start(launchers, stoppers), actions)
    ensures CoveredThroughout(Start(launchers, stoppers), actions)
       <==> NeverBlindly(Start(launchers, stoppers), actions)
  {
    StartGood(launchers, stoppers);
    CoveredUnlessBlindly(Start(launchers, stoppers), actions);
  }

  /** In such a run at most one child is pending, and its reservation is there. */
  lemma AtMostOnePending(launchers: nat, stoppers: nat, actions: seq<Action>, i: nat, j: nat)
    requires Runs(Start(launchers, stoppers), actions) && NeverBlindly(Start(launchers, stoppers), actions)
    requires var w := Reached(Start(launchers, stoppers), actions); Pending(w, i) && Pending(w, j)
    ensures i == j
    ensures var w := Reached(Start(launchers, stoppers), actions); Held(w, w.procs[i].launcher)
  {
    var start := Start(launchers, stoppers);
    StartGood(launchers, stoppers);
    CoveredUnlessBlindly(start, actions);
    RunIsSound(start, actions);
    var w := Reached(start, actions);
    assert Held(w, w.procs[i].launcher) && Held(w, w.procs[j].launcher);
  }

  /** In any other, from the world in which a reservation was archived blindly, one more launcher makes it two,
      and the first child's reservation is gone. */
  lemma BlindArchiveAdmitsTwo(w: World, l: nat, pid: nat) returns (v: World, i: nat)
    requires Reachable(w) && Enabled(w, System(Archive)) && ArchivesBlindly(w, System(Archive))
    requires l < |w.launchers| && w.launchers[l].Idle? && PidFree(w, pid)
    ensures Reachable(v) && i < |w.procs| && Pending(v, i) && Pending(v, |w.procs|)
    ensures |v.launchers| == |w.launchers| && !Held(v, v.procs[i].launcher)
  {
    ReachableSound(w);
    BlindlyUncovers(w);
    ReachStep(w, System(Archive));
    var u := SystemApply(w, Archive);
    i :| 0 <= i < |u.procs| && Pending(u, i) && !Held(u, u.procs[i].launcher);
    assert LauncherOk(w, l, w.launchers[l]);
    v := SecondLaunch(u, l, pid, i);
  }

  lemma SecondLaunch(u: World, l: nat, pid: nat, i: nat) returns (v: World)
    requires Reachable(u) && u.lock.None? && l < |u.launchers| && u.launchers[l].Idle? && PidFree(u, pid)
    requires Pending(u, i) && u.procs[i].launcher != l
    ensures Reachable(v) && Pending(v, i) && Pending(v, |u.procs|) && !Held(v, v.procs[i].launcher)
    ensures |v.launchers| == |u.launchers|
  {
    ReachStep(u, Launch(l, Acquire));
    v := LauncherApply(u, l, Acquire);
    assert PidFree(v, pid);
    ReachStep(v, Launch(l, Spawn(pid, 7433, [])));
    v := LauncherApply(v, l, Spawn(pid, 7433, []));
  }

  /** The reservation goes with its launcher's child exited or accepted, or none spawned, exactly when it is not
      archived blindly. */
  lemma ReservationOutlivesPendingChild(w: World, a: Action)
    requires Reachable(w) && Enabled(w, a) && w.lock.Some? && Apply(w, a).lock.None?
    ensures (forall i :: 0 <= i < |w.procs| && w.procs[i].launcher == w.lock.value.launcher ==> !Pending(Apply(w, a), i))
       <==> !ArchivesBlindly(w, a)
  {
    ReachableSound(w);
    var v, k := Apply(w, a), w.lock.value.launcher;
    if ArchivesBlindly(w, a) {
      var i :| 0 <= i < |w.procs| && w.procs[i].launcher == k && Live(w, i);
      assert !PastRecording(w.launchers[k]);
      assert Pending(v, i);
    } else {
      forall i | 0 <= i < |w.procs| && w.procs[i].launcher == k ensures !Pending(v, i) {
        GoneWithReservation(w, a, i);
      }
    }
  }

  lemma GoneWithReservation(w: World, a: Action, i: nat)
    requires Sound(w) && Enabled(w, a) && w.lock.Some? && Apply(w, a).lock.None? && !ArchivesBlindly(w, a)
    requires i < |w.procs| && w.procs[i].launcher == w.lock.value.launcher
    ensures !Pending(Apply(w, a), i)
  {
    match a
    case System(step) =>
      SystemContinues(w, step);
      RecordedIsDead(w, i);
    case Launch(l, step) => LetGoByLauncher(w, l, step, i);
    case Stop(_, _) =>
  }

  lemma LetGoByLauncher(w: World, l: nat, step: LauncherStep, i: nat)
    requires Sound(w) && LauncherEnabled(w, l, step) && w.lock.Some? && LauncherApply(w, l, step).lock.None?
    requires i < |w.procs| && w.procs[i].launcher == w.lock.value.launcher
    ensures !Pending(LauncherApply(w, l, step), i)
  {
    LauncherContinues(w, l, step);
    LauncherMovesOnlyItself(w, l, step);
    LauncherMovesLock(w, l, step);
    if Live(w, i) {
      NothingPending(w, l, i);
    }
  }

  /** An accepted child was published, and its own endpoint had answered. */
  lemma AcceptedMeansPublished(w: World, i: nat)
    requires Reachable(w) && i < |w.procs| && Accepted(w, i)
    ensures w.procs[i].published.Some? && w.procs[i].answered
  {
    ReachableGood(w);
    assert LauncherOk(w, w.procs[i].launcher, w.launchers[w.procs[i].launcher]);
  }

  // ---------------------------------------------------------------------------------------------
  // A retained reservation

  /** The reservation's launcher is past releasing it. */
  predicate Retained(w: World) {
    && w.lock.Some? && w.lock.value.launcher < |w.launchers|
    && (w.launchers[w.lock.value.launcher].Gone? || w.launchers[w.lock.value.launcher].Crashed?)
  }

  lemma RetainedStep(w: World, a: Action)
    requires Good(w) && Retained(w) && Enabled(w, a) && a != System(Archive)
    ensures Retained(Apply(w, a)) && Apply(w, a).lock == w.lock && |Apply(w, a).procs| == |w.procs|
  {
    match a
    case System(step) => SystemContinues(w, step);
    case Launch(l, step) => RetainedByLauncher(w, l, step);
    case Stop(s, step) => StopperKeepsLock(w, s, step);
  }

  lemma StopperKeepsLock(w: World, s: nat, step: StopperStep)
    requires StopperEnabled(w, s, step)
    ensures var v := StopperApply(w, s, step); v.lock == w.lock && v.procs == w.procs && v.launchers == w.launchers
  {
  }

  lemma RetainedByLauncher(w: World, l: nat, step: LauncherStep)
    requires LaunchersOk(w) && Retained(w) && LauncherEnabled(w, l, step)
    ensures var v := LauncherApply(w, l, step); Retained(v) && v.lock == w.lock && |v.procs| == |w.procs|
  {
    assert LauncherOk(w, l, w.launchers[l]);
  }

  /** A reservation that was retained, or whose launcher died, blocks every later launch: until an
      operator archives it no process is spawned. */
  lemma {:induction false} RetainedBlocksLaunches(w: World, actions: seq<Action>)
    requires Good(w) && Retained(w) && Runs(w, actions) && System(Archive) !in actions
    ensures Reached(w, actions).lock == w.lock && |Reached(w, actions).procs| == |w.procs|
    decreases actions
  {
    if actions != [] {
      RetainedStep(w, actions[0]);
      ActionKeeps(w, actions[0]);
      RetainedBlocksLaunches(Apply(w, actions[0]), actions[1..]);
    }
  }

  // ---------------------------------------------------------------------------------------------
  // Runs in which a child is not recorded

  /** A launcher dies after spawning and before recording its child. */
  lemma LauncherCanDieUnrecorded(launchers: nat, pid: nat) returns (w: World)
    requires launchers > 0
    ensures Reachable(w) && |w.procs| == 1 && w.procs[0].pid == pid && Pending(w, 0)
    ensures Enabled(w, System(Archive)) && ArchivesBlindly(w, System(Archive))
    ensures w.launchers == Start(launchers, 0).launchers[0 := Crashed] && w.record.Absent? && w.stoppers == []
  {
    w := FirstSpawn(launchers, pid);
    ReachStep(w, Launch(0, Die));
    w := LauncherApply(w, 0, Die);
    assert w.procs[0].launcher == 0 && Live(w, 0);
  }

  lemma FirstSpawn(launchers: nat, pid: nat) returns (w: World)
    requires launchers > 0
    ensures Reachable(w) && w.procs == [Spawned(pid, 7433, 0, 0, [])] && w.lock == Some(Reservation(0, None))
    ensures w.launchers == Start(launchers, 0).launchers[0 := Recording(0)] && w.record.Absent? && w.stoppers == []
  {
    StartReachable(launchers, 0);
    var start := Start(launchers, 0);
    ReachStep(start, Launch(0, Acquire));
    w := LauncherApply(start, 0, Acquire);
    ReachStep(w, Launch(0, Spawn(pid, 7433, [])));
    w := LauncherApply(w, 0, Spawn(pid, 7433, []));
  }

  /** Recording the child fails, and so does waiting for its exit: the reservation is kept, and records no
      child. */
  lemma ReservationCanBeKeptUnrecorded(launchers: nat, pid: nat) returns (w: World)
    requires launchers > 0
    ensures Reachable(w) && |w.procs| == 1 && w.procs[0].pid == pid && Pending(w, 0)
    ensures w.launchers == Start(launchers, 0).launchers[0 := Gone(Some(0), false, false)]
    ensures Enabled(w, System(Archive)) && ArchivesBlindly(w, System(Archive))
  {
    w := FirstSpawn(launchers, pid);
    w := FailUnrecorded(w);
    w := KeepUnrecorded(w);
    assert w.procs[0].launcher == 0 && Live(w, 0);
  }

  lemma FailUnrecorded(w: World) returns (v: World)
    requires Reachable(w) && |w.launchers| > 0 && w.launchers[0] == Recording(0) && |w.procs| == 1
    ensures Reachable(v) && v == SetLauncher(w, 0, Stopping(0))
  {
    ReachStep(w, Launch(0, FailStart));
    v := LauncherApply(w, 0, FailStart);
    ReachStep(v, Launch(0, SignalOwn));
    v := LauncherApply(v, 0, SignalOwn);
  }

  lemma KeepUnrecorded(w: World) returns (v: World)
    requires Reachable(w) && |w.launchers| > 0 && w.launchers[0] == Stopping(0) && |w.procs| == 1
    ensures Reachable(v) && v == SetLauncher(w, 0, Gone(Some(0), false, false))
  {
    ReachStep(w, Launch(0, GiveUpOnExit));
    v := LauncherApply(w, 0, GiveUpOnExit);
    ReachStep(v, Launch(0, Release));
    v := LauncherApply(v, 0, Release);
  }

  /** A concrete run in which two children are pending at once: the first launcher dies before it records its
      child, an operator finds the recorded launcher absent and archives the reservation, and a second launcher
      spawns. */
  lemma TwoCanBePending() returns (w: World)
    ensures Reachable(w) && |w.launchers| == 2 && Pending(w, 0) && Pending(w, 1)
    ensures !Held(w, w.procs[0].launcher)
  {
    w := LauncherCanDieUnrecorded(2, 7);
    var i;
    assert PidFree(w, 8);
    w, i := BlindArchiveAdmitsTwo(w, 1, 8);
  }
}
