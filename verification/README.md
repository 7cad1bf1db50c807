# OpenRig: lifecycle, shared files and addresses, verified

A model in Dafny of the parts of OpenRig where several programs share state without talking to each
other, or where a printer and a parser must undo each other, and proofs of what those parts promise.

- **The daemon's lifecycle.** Launchers, the child each may spawn, stops, and the daemon's own shutdown
  runner communicate only through `daemon.json`, `daemon-start.lock`, `daemon-shutdown.json`, signals, exits
  and `/healthz`. `DaemonShutdown.dfy` is the shutdown runner, `DaemonLifecycle.dfy` the whole system as a
  transition system over every interleaving, `StartReservation.dfy` what its launch reservation excludes,
  `RecordRemoval.dfy` what clearing `daemon.json` can take or leave, `LifecycleTiming.dfy` the deadlines, `HttpClose.dfy` how the HTTP server is drained.
- **Shared files.** `HostBindings.dfy` is the learned-identity sidecar and its lock, `McpHttp.dfy` the MCP
  grant file, its lock and the server's rule for serving without a grant, `AtomicTextWrite.dfy` the text
  publisher with a fault or a crash at any step, `DaemonDbPath.dfy` where the database file lies.
- **Configuration.** `ConfigTree.dfy` is the nested tree and its loops, `ConfigKeys.dfy` the registered keys
  and their paths, `ConfigValues.dfy` what a key takes and what a reader accepts, `ConfigStore.dfy` the store,
  `ConfigLaws.dfy` its laws.
- **Printers and parsers.** `CrossHostExecutor.dfy` (two levels of shell quoting), `HostRegistry.dfy` and
  `Addressing.dfy` (hosts and host-qualified seats), `ArtifactPaging.dfy` (pages of UTF-16 text),
  `NoteMask.dfy`, `MaskingLaws.dfy`, `ExternalProjection.dfy` and `ExternalScope.dfy` (what an external caller
  sees of a row, and which rows). `JsText.dfy` is JavaScript's white space, `Options.dfy` a
  value or none.
- **Matching.** `TerminalWindow.dfy`: reuse of a saved terminal view.

`dafny verify dfyconfig.toml` checks all of it.

## Assumptions

- Creating a file exclusively, renaming and unlinking are atomic. All parties read one monotone clock.
- A pid is not given to a new process while `daemon.json` or a stop in progress names it, nor in the
  millisecond its last holder exited.
- A reservation records its launcher from the moment it is there. An operator archives one once the processes
  that it records are absent; nothing is assumed of a child that it does not record.
- A timer never fires early. Only `DaemonLifecycle.StopOutwaitsTimelyShutdown` needs that it is not late.
- A lock of the bindings sidecar is held no longer than `LOCK_STALE_MS`, and every writer that counts won it:
  the stale takeover and the unguarded write are excluded, as the source itself excludes the first.
- The lock of the grant file is not removed by hand while its holder runs. Digests of distinct tokens differ
  where a lemma says `Fresh`.
- The name of a temporary file is new. Numbers read from configuration text are exact, as JavaScript's are
  below 2^53.
- A value read from JSON is a tree: no two fields of a row are the same object.

## Where the code does less than its texts say

- `removeMatchingState` compares `daemon.json` and then unlinks it. A launch that publishes in between loses its
  record: `RecordRemoval.StopCanUnlinkSuccessor` is such a run, and `RecordRemoval.UnlinkTakesAnothersIffOvertaken`
  says exactly when it happens.
- Its reads and unlinks fail unseen (packages/cli/src/commands/daemon.ts:129 and 140). A stop that returns, and a
  failed start, can leave the record they were to remove: `RecordRemoval.StopCanLeaveRecord` and
  `RecordRemoval.FailedStartCanLeaveRecord`; exactly when: `DaemonLifecycle.StopLeavesRecord` and
  `DaemonLifecycle.FailedStartLeavesRecord`.
- A reservation is archived by the processes it records. A launcher that dies before it records its child, or
  cannot, leaves one that records none, and two children of unfinished starts can be alive at once:
  `StartReservation.TwoCanBePending`; exactly when: `StartReservation.PendingIsCoveredIff`.
- A start whose last step, releasing the reservation, fails throws with its child alive and recorded:
  `RecordRemoval.UnreleasedStartLeavesRecord`; exactly when a start that threw leaves its record:
  `DaemonLifecycle.ThrownStartLeavesRecord`.
- The reuse of a terminal view is greedy. A client that would serve two tiles can take the wrong one, and the
  view is not confirmed: `TerminalWindow.CrossedIsNotConfirmed`; `TerminalWindow.PlainViewIsConfirmed` says when
  it is.
- A second `writeHead` throws, but the tracker has noted its type by then. An ordinary response whose handler
  tries that is ended as a stream: `HttpClose.SecondHeadMisleads`; the condition is `HttpClose.HeadKeepsIff`.
- A token command whose file was renamed and whose `chmod` then failed throws though it took effect:
  `McpHttp.CommandsAreSequential` has it in its place.
- `maskNote` looks for item ids first. A hidden seat with an item id inside is masked in part:
  `MaskingLaws.SeatIsWhollyMasked` is the exact condition, `MaskingLaws.EmbeddedItemTells` two seats that can be
  told apart.
- The external projection shows whether the waiting view's owner is the row's destination:
  `ExternalProjection.WaitingTellsOwnership`.
- A threshold that `set` accepted can be ignored by every reader, when the other one in the file is unreadable:
  `ConfigLaws.WarningResolves`, `ConfigLaws.CriticalResolves`, `ConfigLaws.AcceptedThresholdCanBeIgnored`.
- `resolveForContainment` resolves a dangling link on its text. With a target that goes up through another link,
  an implicit database is accepted that would be created outside the home: `DaemonDbPath.UpwardLinkEscapes`; the
  condition is `DaemonDbPath.AllIsPlaced`.
- Writing a binding without an id succeeds, and reading drops it: `HostBindings.LoadUndoesWrite`.
- A token file that could not be read leaves no trace in `authSeen`: `McpHttp.ServedWithoutGrant`.
- A sender without a rig is qualified into something that does not come home: `Addressing.HomeRoundTrip`.

## Model

| member | source | states |
|---|---|---|
| DaemonShutdown.ShutdownIsOrderly | packages/daemon/src/daemon-shutdown.ts:106-173 | in every run, whatever the order of repeated signals, settlements and the budget timer: phases start in list order and at most once, exit happens at most once, the daemon is marked clean only after every phase succeeded, exit code 0 goes with a published clean receipt and nothing else, a failed receipt names the first failing phase and a timed-out one the pending phase |
| DaemonShutdown.CleanReceiptMeaning | packages/daemon/src/daemon-shutdown.ts:158-171 | a published clean receipt is evidence that all phases resolved, that marking clean succeeded and that the exit code was 0 |
| DaemonShutdown.StepInv | packages/daemon/src/daemon-shutdown.ts:115-172 | every single callback keeps the invariant that ties the log of effects to what the runner remembers |
| DaemonShutdown.StepStamped | packages/daemon/src/daemon-shutdown.ts:120-137 | receipts carry the runner's own pid and the time its first signal was handled, which no later event changes; effects are never taken back |
| DaemonShutdown.AfterInv | packages/daemon/src/daemon-shutdown.ts:106-173 | the invariant holds after any sequence of events, and pid and phase list are fixed |
| DaemonShutdown.ShutdownRunner.constructor | packages/daemon/src/daemon-shutdown.ts:114-124 | the closure state before any signal |
| DaemonShutdown.ShutdownRunner.RecordFailure | packages/daemon/src/daemon-shutdown.ts:125-128 | a failure is appended under the phase it happened in, and nothing else changes |
| DaemonShutdown.ShutdownRunner.EndRun | packages/daemon/src/daemon-shutdown.ts:129-150 | the run ends at most once: receipt first, then exit, with code 1 if the receipt could not be written |
| DaemonShutdown.ShutdownRunner.Continue | packages/daemon/src/daemon-shutdown.ts:158-171 | the loop's progress between two awaits is one step of the runner |
| DaemonShutdown.ShutdownRunner.OnSignalled | packages/daemon/src/daemon-shutdown.ts:115-123 | the first signal starts the run; any other changes nothing |
| DaemonShutdown.ShutdownRunner.OnSettled | packages/daemon/src/daemon-shutdown.ts:159-163 | a phase that settles after the end of the run is not counted as a failure and starts nothing |
| DaemonShutdown.ShutdownRunner.OnBudgetExhausted | packages/daemon/src/daemon-shutdown.ts:152-155 | the timer ends the run as timed out, naming the pending phase |
| HttpClose.OnlyStreamsAreEnded | packages/daemon/src/daemon-shutdown.ts:34-101 | in every order of requests, headers, closes and timers in which no open response has its head written again with another type, the shutdown ends event streams only, never an ordinary response; past the grace period every event stream is ended or about to be, whether it began before or after |
| HttpClose.HeadKeepsIff | packages/daemon/src/daemon-shutdown.ts:45-60 | writing a head keeps the tracker right about every open response exactly when it is not a second head of another type |
| HttpClose.SweepIsExact | packages/daemon/src/daemon-shutdown.ts:76-79 | a sweep that runs to its end ends exactly the event streams, if and only if the tracker is right about every open response |
| HttpClose.SecondHeadMisleads | packages/daemon/src/daemon-shutdown.ts:54-55 | a run in which an ordinary response is ended because its handler tried to write its head again as a stream |
| HttpClose.StepKeeps | packages/daemon/src/daemon-shutdown.ts:34-101 | every callback keeps this, a second head of another type excepted |
| HttpClose.SettlesOnce | packages/daemon/src/daemon-shutdown.ts:84-100 | the promise settles once, and resolves only when the server itself reported that it closed without an error |
| HttpClose.SweepEndsStreams | packages/daemon/src/daemon-shutdown.ts:76-79 | the sweep ends what is taken for an event stream and changes nothing else; it stops exactly when some such end throws, and otherwise leaves none open |
| HttpClose.SweepStreams | packages/daemon/src/daemon-shutdown.ts:71-82 | the loop of the grace timer is that sweep |
| HttpClose.Closer.OnGrace | packages/daemon/src/daemon-shutdown.ts:70-83 | the grace timer, cleared once the promise has settled; late streams are ended from now on, and no ordinary response is |
| HttpClose.Closer.OnRequest | packages/daemon/src/daemon-shutdown.ts:41-44 | a new request keeps what holds of every run: nothing ordinary is ended, and no late stream is missed |
| HttpClose.Closer.OnHeadWritten | packages/daemon/src/daemon-shutdown.ts:45-60 | the type a response is written with is noted, and a late stream will be ended; this keeps what holds of every run, unless it is a second head of another type |
| HttpClose.Closer.OnResponseClosed | packages/daemon/src/daemon-shutdown.ts:61-61 | a closed response is forgotten and every other one stays tracked, so no later stream is missed |
| HttpClose.Closer.OnImmediate | packages/daemon/src/daemon-shutdown.ts:55-58 | the scheduled stream is ended, and nothing else is; a throw rejects the promise |
| HttpClose.Closer.Settle | packages/daemon/src/daemon-shutdown.ts:84-90 | after the first settlement the promise is never pending again, and a later one changes nothing at all |
| DaemonLifecycle.StoppedMeansCleanlyStopped | packages/cli/src/daemon-lifecycle.ts:953-1036 | over every interleaving of launchers, children, shutdowns, crashes, status reads and older receipts, a stop that returned "stopped" aimed at an incarnation that has exited, all of whose phases resolved and which was marked clean, with exit code 0 unless it was killed after its receipt; `daemon.json` does not name it, unless the stop could not read or not unlink the file |
| DaemonLifecycle.StopStepsAreGuarded | packages/cli/src/daemon-lifecycle.ts:1018-1034 | receipts are judged only after the target was seen gone and its listener refused; a stop that throws leaves `daemon.json` as it was, and only one that returns removes it |
| DaemonLifecycle.StopLeavesRecord | packages/cli/src/daemon-lifecycle.ts:946-952 | when a stop returns, `daemon.json` still names its target exactly when it did before the last step and that step could not read the file, or not unlink it |
| DaemonLifecycle.ReceiptIsTargets | packages/cli/src/daemon-lifecycle.ts:926-940 | a receipt that matches the record's pid and is not older than the request was written by the recorded incarnation, not by an earlier holder of the pid |
| DaemonLifecycle.RecordsAreEarned | packages/cli/src/daemon-lifecycle.ts:825-924 | `daemon.json` names only children whose own health answer named their pid; a start that threw leaves no record of its child, save one it could not withdraw and where only the release failed, and one that succeeded has published it |
| DaemonLifecycle.FailedStartLeavesRecord | packages/cli/src/daemon-lifecycle.ts:892-902 | when a failed start is done withdrawing, `daemon.json` still names its child exactly when it did before that step and the step could not read the file, or not unlink it |
| DaemonLifecycle.ThrownStartLeavesRecord | packages/cli/src/daemon-lifecycle.ts:660-672 | when a start throws, `daemon.json` still names its child exactly when it did before that last step and the record could not be withdrawn, or only releasing the reservation failed |
| DaemonLifecycle.KeptByFailureOnly | packages/cli/src/daemon-lifecycle.ts:946-952 | no other action makes a child count as one whose record could not be withdrawn |
| DaemonLifecycle.StopOutwaitsTimelyShutdown | packages/cli/src/daemon-lifecycle.ts:1013-1017 | a daemon whose shutdown callback began within 2,000 ms of the signal is never reported as not exiting |
| DaemonLifecycle.ActionKeeps | packages/cli/src/daemon-lifecycle.ts:660-1036 | every visible action of every party, status reads that clear the record of a dead daemon included, keeps the system invariant |
| DaemonLifecycle.ReachableGood | packages/cli/src/daemon-lifecycle.ts:660-1036 | the invariant holds in every reachable state |
| StartReservation.PendingIsCoveredIff | packages/cli/src/daemon-start-lock.ts:7-34 | over every run, any number of launchers, dying ones included: the launcher of every live child that its start has not accepted has the reservation throughout, if and only if no reservation that records no child was archived over a live one |
| StartReservation.CoverageIsLostBlindly | packages/cli/src/daemon-start-lock.ts:7-10 | the same for one action of any party |
| StartReservation.AtMostOnePending | packages/cli/src/daemon-start-lock.ts:12-45 | in such a run at most one live child is of a start that has not accepted it, whether unpublished, published or withdrawn, and its reservation is there |
| StartReservation.BlindArchiveAdmitsTwo | packages/cli/src/daemon-start-lock.ts:7-20 | from any world in which a reservation is archived over an unrecorded live child, one more launcher makes it two such children, and the first one's reservation is gone |
| StartReservation.TwoCanBePending | packages/cli/src/daemon-start-lock.ts:42-43 | a run with two, after a launcher died between spawning and recording its child |
| StartReservation.ReservationCanBeKeptUnrecorded | packages/cli/src/daemon-lifecycle.ts:825-827 | a run in which recording the child and waiting for its exit fail, so that the reservation is kept and records none |
| StartReservation.ReservationOutlivesPendingChild | packages/cli/src/daemon-start-lock.ts:23-34 | the reservation goes with its launcher's child exited or accepted, or none spawned, exactly when it is not archived over an unrecorded live child |
| StartReservation.AcceptedMeansPublished | packages/cli/src/daemon-lifecycle.ts:883-902 | a start that accepted its child published it, and its own health answer had named its pid |
| StartReservation.RetainedBlocksLaunches | packages/cli/src/daemon-lifecycle.ts:660-672 | a reservation that was kept, that could not be released, or whose launcher died, is there after any run without an operator archiving it, and no process is spawned in that run |
| RecordRemoval.UnlinkTakesAnothersIffOvertaken | packages/cli/src/daemon-lifecycle.ts:946-952 | a stop found its own record; whatever others do before it unlinks, it takes the record of another incarnation exactly when the last of their actions that touched the file published one |
| RecordRemoval.RecordMoves | packages/cli/src/daemon-lifecycle.ts:883-902 | while a stop is about to unlink, every action of another party that writes a record writes another one, and only withdrawals take it away again |
| RecordRemoval.StopCanUnlinkSuccessor | packages/cli/src/daemon-lifecycle.ts:946-952 | a run in which a stop unlinks the record of a live, published successor |
| RecordRemoval.StopCanLeaveRecord | packages/cli/src/commands/daemon.ts:140-140 | a run in which a stop returns and `daemon.json` still names its target |
| RecordRemoval.FailedStartCanLeaveRecord | packages/cli/src/commands/daemon.ts:129-129 | a run in which a start throws after publishing and `daemon.json` still names its child |
| RecordRemoval.UnreleasedStartLeavesRecord | packages/cli/src/daemon-start-lock.ts:23-34 | a run in which a start throws because only the release failed: its child is alive, `daemon.json` names it and the reservation stays |
| RecordRemoval.StoppedStaysForgotten | packages/cli/src/daemon-lifecycle.ts:1034-1036 | once a stop has returned and `daemon.json` does not name its target, it never does again |
| LifecycleTiming.ProbeHealthzWithSettle | packages/cli/src/daemon-lifecycle.ts:1386-1410 | 1 to 5 attempts, each allowed what is left of one deadline, within 5,000 ms; it throws only if no attempt was answered |
| LifecycleTiming.SettlesExtends | packages/cli/src/daemon-lifecycle.ts:1396-1407 | another attempt follows only an immediate failure, after the backoff |
| LifecycleTiming.ReadOwnedHealth | packages/cli/src/daemon-lifecycle.ts:796-823 | the child's exit, the timer and the answer race: no fetch is opened once the deadline has passed or the child is gone, none outlasts its timer, and what is said is what the endpoint answered in time |
| LifecycleTiming.VerifyRequiredListeners | packages/cli/src/daemon-lifecycle.ts:597-652 | without a verdict against it, every required listener named the child or is listed as uncertain, and each one listed is required and gave no clear answer; a verdict against it rests on a listener that refused or was not the child's, or on a dropped one |
| LifecycleTiming.AwaitReadiness | packages/cli/src/daemon-lifecycle.ts:833-882 | no probe is opened after 20,000 ms, and the child's exit ends the wait at once; ready means one round in which the child's own endpoint and every required listener named it, ready-unverified one in which only addresses other than the primary gave no clear answer |
| LifecycleTiming.StartReturns | packages/cli/src/daemon-lifecycle.ts:825-924 | whatever the probed addresses, the child and the publication do, a start is over within 20,000 + 12,000 ms of entering readiness, within 20,000 if it succeeds; it throws as failed exactly when the child's exit was seen, by itself or after cleanup's signal, and otherwise leaves the child and its reservation |
| LifecycleTiming.CleanUp | packages/cli/src/daemon-lifecycle.ts:903-919 | cleanup waits at most 12,000 ms, and ends as failed exactly when the signalled child exits by then |
| LifecycleTiming.AwaitExit | packages/cli/src/daemon-lifecycle.ts:1013-1018 | the exit wait takes at most 12,000 ms, and finds the process present exactly when it exits later than that |
| LifecycleTiming.StopWaitsOutHungShutdown | packages/daemon/src/daemon-shutdown.ts:3-4 | a shutdown that uses its whole budget is waited out exactly when its callback began within 2,000 ms of the signal |
| CrossHostExecutor.RemoteLineRoundTrip | packages/cli/src/cross-host-executor.ts:93-104 | a POSIX shell reads the remote line as `sh -lc` and one argument, and the login shell reads that argument as exactly the original vector, with the origin as its one assignment (sections 2.2, 2.3, 2.6.7 and 2.9.1 of the POSIX.1-2017 Shell Command Language) |
| CrossHostExecutor.InnerRoundTrip | packages/cli/src/cross-host-executor.ts:99-102 | the inner line parses to the vector, for any text in any argument, empty ones and quotes included |
| CrossHostExecutor.ScanQuote | packages/cli/src/cross-host-executor.ts:230-232 | a quoted text, wherever it stands in a line, is scanned as that text and nothing more |
| CrossHostExecutor.QuotedIsPlainField | packages/cli/src/cross-host-executor.ts:230-232 | a quoted argument is one field, never an assignment |
| HostBindings.HistoryIsSummarized | packages/cli/src/host-bindings.ts:162-189 | after any history, an alias is bound to the first id seen, its conflict is the latest differing one, and its url the last one seen with the bound id before any conflict |
| HostBindings.ConflictIsNeverCleared | packages/cli/src/host-bindings.ts:171-182 | no further observations clear a conflict, or change the bound id or url after it |
| HostBindings.LoadUndoesWrite | packages/cli/src/host-bindings.ts:46-86 | reading gives back what was written exactly when every binding has an id and no empty url |
| HostBindings.BindingRoundTrip | packages/cli/src/host-bindings.ts:60-81 | the same for one binding |
| HostBindings.LoadHostBindings | packages/cli/src/host-bindings.ts:46-86 | the loop keeps exactly the well-formed entries; an unreadable file is an empty one |
| HostBindings.Sidecar.RecordUnderLock | packages/cli/src/host-bindings.ts:162-189 | one observation turns the file into the recorded one, and reports bound, confirmed or conflict |
| HostBindings.WritersAreSerialized | packages/cli/src/host-bindings.ts:109-160 | with any number of writers, the file is the fold of the observations renamed so far in lock order, each once; when all are done none is lost, and no lock was taken over |
| McpHttp.CommandsAreSequential | packages/cli/src/mcp-http.ts:75-126 | however commands interleave, die or fail before or after the rename, and an operator removes the lock a dead one left, the file is what the updates give one after the other in lock order; no two share a place, and each that finished answered what its place gives, or threw though it took effect |
| McpHttp.FinishedComesBefore | packages/cli/src/mcp-http.ts:73-94 | the lock order is in real time: a command that finished before another started has the lower place |
| McpHttp.StepKeeps | packages/cli/src/mcp-http.ts:75-97 | every step keeps the holder's reading equal to the file |
| McpHttp.NamesStayUnique | packages/cli/src/mcp-http.ts:109-114 | grant names stay unique over every sequence of commands |
| McpHttp.TokenFindsItsGrant | packages/cli/src/mcp-http.ts:102-142 | a new token resolves to its grant until that grant is revoked and to nothing afterwards, also if the name is granted anew |
| McpHttp.HoldersOf | packages/cli/src/mcp-http.ts:109-124 | the file holds a grant with the token's digest exactly while the add is not revoked |
| McpHttp.GrantFor | packages/cli/src/mcp-http.ts:129-142 | the loop finds the last grant with the digest |
| McpHttp.MatchFinds | packages/cli/src/mcp-http.ts:133-141 | what is found is in the file and has the digest; nothing found means no grant has it |
| McpHttp.Server.Handle | packages/cli/src/mcp-http.ts:444-470 | one request's answer, and that only a readable list of grants is remembered |
| McpHttp.ServedWithoutGrant | packages/cli/src/mcp-http.ts:366-470 | over every run of file edits, a request is served with no grant exactly when the file is absent, the server started with none and no earlier request read grants; one served with a grant presented its token |
| AtomicTextWrite.WriteTextAtomically | packages/cli/src/atomic-text-write.ts:6-64 | for every fault at every call, in every state a crash could leave: the target holds the whole old or the whole new text until the direct write begins, which never follows a failed staged write; links stay the same links, nothing but target and temporary file changes, a throw without the direct write leaves the target as it was, and no temporary file outlives a cleanup that succeeds |
| AtomicTextWrite.Publish | packages/cli/src/atomic-text-write.ts:24-63 | the same from the resolved target on; without the direct write the new file has the old one's owner and mode |
| AtomicTextWrite.Stage | packages/cli/src/atomic-text-write.ts:30-49 | staging and rename: no state shows a partial target |
| AtomicTextWrite.StageText | packages/cli/src/atomic-text-write.ts:33-48 | until the rename only the temporary file differs |
| AtomicTextWrite.ChaseLinks | packages/cli/src/atomic-text-write.ts:15-23 | the loop ends within 40 links, at something that is not a link, or refuses |
| AtomicTextWrite.ChaseIsTheChain | packages/cli/src/atomic-text-write.ts:18-23 | it ends where the chain of links ends, exactly when the chain is that short |
| AtomicTextWrite.Disk.Fill | packages/cli/src/atomic-text-write.ts:53-57 | a write in place truncates, may leave a part, and touches one path |
| DaemonDbPath.ContainedIsPlace | packages/daemon/src/daemon-db-path.ts:9-38 | as long as at most one of the links followed on their text disagrees with it, a path is resolved to where pathname resolution (section 4.13 of the POSIX.1-2017 Base Definitions) finds or would create the file exactly when none does |
| DaemonDbPath.AllIsPlaced | packages/daemon/src/daemon-db-path.ts:9-38 | whatever their number: every path the resolution goes through is resolved to its place exactly when no link followed on its text disagrees with it |
| DaemonDbPath.HopDecides | packages/daemon/src/daemon-db-path.ts:29-32 | at one link whose text is resolved to its place, the link is resolved to its own exactly when its text and its walk name one place |
| DaemonDbPath.RealPopsAgree | packages/daemon/src/daemon-db-path.ts:29-32 | text and walk agree if every ".." in the target leaves a directory that is no link |
| DaemonDbPath.PlainLinksAgree | packages/daemon/src/daemon-db-path.ts:29-32 | so they do everywhere where no link goes up |
| DaemonDbPath.ImplicitDbIsUnderHome | packages/daemon/src/daemon-db-path.ts:56-70 | an accepted implicit database is placed below where the home is placed, through no link, if the links followed on their text from the two agree with it |
| DaemonDbPath.WithinIsPrefix | packages/daemon/src/daemon-db-path.ts:40-43 | containment is exactly the prefix of components |
| DaemonDbPath.UnseenShrinks | packages/daemon/src/daemon-db-path.ts:9-13 | each call uses up one of the finitely many paths the platform takes, so resolution ends on every file system, cycles of links included |
| DaemonDbPath.ResolvedIsPlaced | packages/daemon/src/daemon-db-path.ts:13-14 | a path that resolves is placed where it resolves |
| DaemonDbPath.MissingIsPlacedBelowParent | packages/daemon/src/daemon-db-path.ts:19-27 | a missing entry is placed exactly at its name below its parent's place |
| DaemonDbPath.LinkIsPlacedAtTarget | packages/daemon/src/daemon-db-path.ts:29-32 | a link is placed exactly where its target, walked from the link's directory, is placed |
| DaemonDbPath.UpwardLinkEscapes | packages/daemon/src/daemon-db-path.ts:29-32 | with a target that goes up through a link, an implicit database is accepted that would be created outside the home; that link disagrees with its text |
| ConfigTree.GetNested | packages/cli/src/config-store.ts:851-858 | the reading loop finds what lies at the path, and nothing through a scalar |
| ConfigTree.SetNested | packages/cli/src/config-store.ts:876-886 | the writing loop is the recursive update of the tree |
| ConfigTree.PruneEmptyAncestors | packages/cli/src/config-store.ts:867-874 | the pruning loop, deepest object first, is the recursive pruning |
| ConfigTree.SetReads | packages/cli/src/config-store.ts:876-886 | what was written is read back |
| ConfigTree.SetElsewhere | packages/cli/src/config-store.ts:876-886 | writing one path changes no path apart from it, present or absent |
| ConfigTree.ClearedElsewhere | packages/cli/src/config-store.ts:1601-1620 | removing a key and pruning changes no path apart from it |
| ConfigTree.ClearedReads | packages/cli/src/config-store.ts:1601-1620 | a removed key is gone |
| ConfigTree.ClearUndoesSet | packages/cli/src/config-store.ts:867-886 | removing a key just written restores the tree exactly when the key was absent and no empty object, scalar or null lay on its way |
| ConfigTree.PruneElsewhere | packages/cli/src/config-store.ts:860-874 | pruning changes nothing off the path |
| ConfigTree.PruneRemovesOnlyEmpty | packages/cli/src/config-store.ts:860-874 | an object on the path is removed exactly when it holds nothing but a chain of objects down to an empty one |
| ConfigKeys.PathsAreApart | packages/cli/src/config-store.ts:691-787 | the paths of two different keys, per-host ones included, are prefixes of each other in neither direction: all 95 registered paths and every host |
| ConfigKeys.HostObjectIsApart | packages/cli/src/config-store.ts:825-842 | the object that holds a host's toggle holds no other key |
| ConfigKeys.HostKeysParse | packages/cli/src/config-store.ts:836-842 | a key parses to a host exactly when it is that host's key, dots in the id included |
| ConfigKeys.ReservedNamesAreNeeded | packages/cli/src/config-store.ts:825-834 | without the reserved names a host's path would run through a toggle |
| ConfigKeys.NamesDiffer | packages/cli/src/config-store.ts:691-787 | no two keys of one object have the same name |
| ConfigKeys.KeyIsNoSection | packages/cli/src/config-store.ts:691-787 | no object has a key and a further object under one name |
| ConfigValues.AcceptedIsReadable | packages/cli/src/config-store.ts:951-1199 | every value `set` accepts of any kind of key passes the reader's check once stored |
| ConfigValues.ParsePrinted | packages/cli/src/config-store.ts:935-941 | a printed integer parses back to itself |
| ConfigStore.ThresholdsAreSound | packages/cli/src/config-store.ts:1469-1492 | for any environment and file contents the thresholds in force are whole percentages with 1 <= warning < critical <= 100 |
| ConfigStore.StoreAt | packages/cli/src/config-store.ts:1559-1570 | the tree that a set writes, or that it is refused |
| ConfigStore.RemoveAt | packages/cli/src/config-store.ts:1604-1632 | the tree that a reset writes, or that it throws or is refused |
| ConfigStore.Store.SetKey | packages/cli/src/config-store.ts:1537-1573 | set turns the file into the edited one or leaves it as it was |
| ConfigStore.Store.ResetKey | packages/cli/src/config-store.ts:1580-1633 | reset turns the file into the edited one or leaves it as it was; an absent file stays absent |
| ConfigLaws.SetIsLocal | packages/cli/src/config-store.ts:1537-1573 | setting one key never changes the stored value of another, registered or per host |
| ConfigLaws.ResetIsLocal | packages/cli/src/config-store.ts:1580-1633 | nor does resetting one |
| ConfigLaws.SetTakesEffect | packages/cli/src/config-store.ts:1556-1573 | an accepted set stores what the key takes |
| ConfigLaws.ResetTakesEffect | packages/cli/src/config-store.ts:1588-1633 | an accepted reset leaves nothing stored |
| ConfigLaws.ResetUndoesSet | packages/cli/src/config-store.ts:1600-1633 | reset after set restores the file's tree exactly when the key was absent and no empty object, scalar or null lay on its way |
| ConfigLaws.ResetAfterSetAccepted | packages/cli/src/config-store.ts:1600-1633 | after an accepted set of a key that is no threshold, the reset is accepted |
| ConfigLaws.WarningResetAccepted | packages/cli/src/config-store.ts:1609-1624 | after setting an absent warning beside a pair in order, its reset is accepted |
| ConfigLaws.CriticalResetAccepted | packages/cli/src/config-store.ts:1609-1624 | the same for the critical threshold |
| ConfigLaws.HostResetUndoesSet | packages/cli/src/config-store.ts:1591-1599 | resetting a host's toggle restores the tree exactly when the toggles' object was there without that host |
| ConfigLaws.SetResolves | packages/cli/src/config-store.ts:1494-1530 | with no override, an accepted value resolves back from the file, except for the empty text and the default of an older layout |
| ConfigLaws.OverridesHideTheFile | packages/cli/src/config-store.ts:1469-1509 | where the keys that bear on a resolution have accepted overrides, no two files resolve it differently |
| ConfigLaws.RefusedOverrideIsNone | packages/cli/src/config-store.ts:1494-1509 | an override that is empty or refused leaves every key, the paired thresholds included, as if it were not there |
| ConfigLaws.WarningResolves | packages/cli/src/config-store.ts:1559-1569 | an accepted warning resolves back from the file exactly when the file's critical threshold is readable or the warning is below 99 |
| ConfigLaws.CriticalResolves | packages/cli/src/config-store.ts:1559-1569 | an accepted critical threshold resolves back exactly when the file's warning is readable or it is above 95 |
| ConfigLaws.AcceptedThresholdCanBeIgnored | packages/cli/src/config-store.ts:1476-1491 | beside a critical value of 500 in the file a warning of 99 is accepted, and 95 is what resolves |
| ConfigLaws.ThresholdResetOrders | packages/cli/src/config-store.ts:1607-1624 | so does an accepted reset of a threshold that was there |
| ConfigLaws.RunsKeepOrderAndOthers | packages/cli/src/config-store.ts:1537-1633 | over every run of edits the pair stays in order, and a key no edit names keeps its value |
| NoteMask.MaskNote | packages/cli/src/mcp-server.ts:246-252 | the method with its list of ids is the three passes |
| NoteMask.MaskIsOneScan | packages/cli/src/mcp-server.ts:240-252 | for a note without NUL the three passes are one scan in which a seat never runs into an item: no placeholder survives or is mistaken for another |
| MaskingLaws.MaskingSettles | packages/cli/src/mcp-server.ts:240-252 | a rescan of a masked note finds only the row's own id and permitted seats, and masking it again changes nothing |
| MaskingLaws.SettledFinds | packages/cli/src/mcp-server.ts:240-252 | what it means for a scan to find only those |
| MaskingLaws.MaskHidesWhichParty | packages/cli/src/mcp-server.ts:243-252 | notes that differ only in which hidden parties they name, items followed by further text included, are masked alike |
| MaskingLaws.MaskedApart | packages/cli/src/mcp-server.ts:240-241 | text on the two sides of a delimiter is masked separately |
| MaskingLaws.SeatIsWhollyMasked | packages/cli/src/mcp-server.ts:246-252 | a hidden seat is replaced whole exactly when no item id starts inside it or all of it is a foreign item id |
| MaskingLaws.EmbeddedItemTells | packages/cli/src/mcp-server.ts:246-252 | two hidden seats with an item id inside that are masked differently |
| ExternalProjection.ProjectForExternal | packages/cli/src/mcp-server.ts:275-305 | the field-by-field edits give every field what it is to show, each decided by the original row |
| ExternalProjection.ProjectionHidesWhichParty | packages/cli/src/mcp-server.ts:275-305 | two rows, with closing transitions nested to any depth, that differ only in which hidden parties they name project to the same row |
| ExternalProjection.ProjectionNamesNoHidden | packages/cli/src/mcp-server.ts:267-305 | no field of the projection, at any depth, names a party the caller may not see, and notes hold only the own id and permitted seats or stand for a hidden closure |
| ExternalProjection.WaitingTellsOwnership | packages/cli/src/mcp-server.ts:296-301 | rows that differ in their waiting views project alike exactly when those agree on whether the row's destination owes the next step, and on its state |
| ExternalProjection.FactsStay | packages/cli/src/mcp-server.ts:267-274 | state, closure reason and every other field of the row stay |
| ExternalScope.ExternalIsNarrower | packages/cli/src/mcp-server.ts:309-391 | for the same seat and rigs an external grant names, reads and changes nothing that a work grant does not |
| ExternalScope.ExternalIsAParty | packages/cli/src/mcp-server.ts:352-391 | an external caller reaches no item between two others, reads but no longer changes what it handed to a seat it may hand tasks to, and may name whoever sent it what it may change |
| ExternalScope.CallersShareOnlyTheirOwn | packages/cli/src/mcp-server.ts:336-373 | two external callers read one item exactly when one sent it to the other, which may name the sender; never do both change it |
| ExternalScope.AssistantsAreApart | packages/cli/src/mcp-server.ts:326-330 | connected assistants outside a team read nothing in common, and none hands a task to another, whatever their rigs |
| ExternalScope.NeverAPerson | packages/cli/src/mcp-server.ts:363-368 | no person is in an external caller's scope, save as its own seat |
| ExternalScope.NeverFar | packages/cli/src/mcp-server.ts:363-368 | nor is a seat of another host |
| ExternalScope.SplitUndone | packages/cli/src/mcp-server.ts:364-370 | the parts between the "@" signs are all of the text |
| ExternalScope.OnlyOwnSeatIsShown | packages/cli/src/mcp-server.ts:275-305 | under the external scope the projection shows no new owner but the caller's own seat, whatever the row said |
| TerminalWindow.HasLiveAttachments | packages/cli/src/terminal-window.ts:208-256 | a view is confirmed exactly when the search, in the order it looks, serves every page; then every tile of every page has its own live client, attached with the tile's command, in a pane of the page's one tab that serves no other tile of the page |
| TerminalWindow.PlainViewIsConfirmed | packages/cli/src/terminal-window.ts:229-255 | if every client would serve at most one tile, no pane has two processes that would serve its page, every pane answers and every page has its tab, then a view whose tiles can all be served is confirmed |
| TerminalWindow.CrossedIsNotConfirmed | packages/cli/src/terminal-window.ts:243-249 | a view whose tiles can all be served and which is not confirmed |
| TerminalWindow.ServePage | packages/cli/src/terminal-window.ts:230-252 | a page is served only if all its tiles are, with clients no earlier page used |
| TerminalWindow.ServePane | packages/cli/src/terminal-window.ts:237-250 | a pane takes at most one tile, and no client twice |
| TerminalWindow.FindTab | packages/cli/src/terminal-window.ts:232-234 | a page's tab is found exactly when one tab of the workspace has its label |
| TerminalWindow.FindIndex | packages/cli/src/terminal-window.ts:244-245 | the first command the client answers to, if any |
| TerminalWindow.ClientsSuffice | packages/cli/src/terminal-window.ts:229-255 | a confirmed view has at least as many live clients as tiles |
| ArtifactPaging.PagesAreTheText | packages/cli/src/mcp-server.ts:411-429 | following the next offsets from 0 ends, the pages joined are the text, and the text is well-formed UTF-16 (section 2.2 of RFC 2781) exactly when every page is |
| ArtifactPaging.NextIsFurther | packages/cli/src/mcp-server.ts:416-426 | each next offset is further on, inside the text and not inside a character; a page has at most 48,000 units |
| ArtifactPaging.CutBetweenCharacters | packages/cli/src/mcp-server.ts:21-28 | a text cut between characters is well formed exactly when both parts are |
| HostRegistry.ValidateHostRegistry | packages/cli/src/host-registry.ts:165-289 | the loop accepts or refuses as the entries one after another do, with the place and kind of the first problem |
| HostRegistry.ValidatedIsRegistry | packages/cli/src/host-registry.ts:165-289 | what validates is a registry: unique, non-reserved ids and at most one bearer an entry |
| HostRegistry.RegistryValidates | packages/cli/src/host-registry.ts:345-360 | a registry followed by further entries validates to itself followed by what those give |
| HostRegistry.WrittenReadsBack | packages/cli/src/host-registry.ts:345-374 | a written registry reads back as it was |
| HostRegistry.RegistryFile.Apply | packages/cli/src/host-registry.ts:345-499 | an edit that is accepted replaces the file with the edited registry; a refused one changes nothing |
| HostRegistry.RunsKeepRegistries | packages/cli/src/host-registry.ts:345-499 | after any run of edits the file is the one there was or a registry that validates to itself |
| HostRegistry.EditedIsRegistry | packages/cli/src/host-registry.ts:345-499 | every accepted edit writes a registry that loads as written |
| HostRegistry.AddAppends | packages/cli/src/host-registry.ts:345-374 | a host is added, last, exactly when nothing is wrong with its entry beside those there |
| HostRegistry.UpdateChangesOne | packages/cli/src/host-registry.ts:445-482 | an accepted update changes one entry, in its place: the fields it names get what it says, an empty text clears an optional one, and id, transport, join key and bearer stay |
| HostRegistry.RemoveTakesOne | packages/cli/src/host-registry.ts:485-499 | removing takes out the one entry; the others keep value and order; only an unknown id is refused |
| HostRegistry.RemoveUndoesAdd | packages/cli/src/host-registry.ts:485-499 | removing a host just added gives back the entries there were |
| Addressing.HomeRoundTrip | packages/cli/src/client.ts:30-45 | a sender qualified with its host's id and resolved there is the bare sender again exactly when it was one member and one rig |
| Addressing.AwayRoundTrip | packages/cli/src/cross-host-target.ts:60-150 | on another host that knows the id it is the bare sender and an alias that finds the same entry |
| Addressing.QualifiedStays | packages/cli/src/client.ts:33-37 | a sender that names a host keeps its name, and qualifying twice is qualifying once |
| Addressing.StrippingIsLossless | packages/cli/src/cross-host-target.ts:67-150 | the target is what was given, or what was given is the target, "@" and the qualifier; a hint goes exactly with a qualifier that was not recognised |
| Addressing.ConflictMeansTwoHosts | packages/cli/src/cross-host-target.ts:98-141 | a host named beside a qualifier is refused exactly when the qualifier is recognised and the two name different entries |
| Addressing.ReservedSuffixIsNoHost | packages/cli/src/host-registry.ts:191-231 | a reserved word is taken for a host only if a learned binding says so |
| Addressing.HostIsFound | packages/cli/src/host-registry.ts:299-313 | a host is found exactly when an entry answers to the id; an alias outranks a join key, a declared one a learned one; the alias found finds it again |
| Addressing.ParsingIsLossless | packages/cli/src/session-name.ts:64-80 | a parsed name prints back as it was given, and the member has no "@" |
| Addressing.NamesParseBack | packages/cli/src/session-name.ts:64-80 | a member and a rig put together parse back to the two, unless they spell an external address |

## Left out

- DaemonDbPath.ContainedIsPlace: with two or more links that disagree with their text the errors can cancel; `DaemonDbPath.AllIsPlaced` says what holds then.
- Aliasing inside a configuration tree: the loops that hold a reference into the tree are modelled on values, with the object they hold named by its path.
- The host registry's three edits share one method: error wording and the returned entry are not modelled.
- Values of defaults other than the two thresholds, how the workspace root is chosen, and time-zone and path predicates: they enter as parameters.
- Arrays as configuration nodes, prototype keys, and numbers at or above 2^53.
- The stale-lock takeover and the unguarded write of the bindings sidecar; the age of a lock is bounded instead.
- Links in the directories above a published text, and calls by other programs on the same path during a publication.
- "." and empty components of link targets: targets are taken without them.
- The status command around `probeHealthzWithSettle`, save that it may clear the record of a dead daemon; `liveStartReservation`, and the refusals of a start or stop that only read configuration or another home's record.
- The named roots of a grant, and the tools' use of its scope.
- The grant-service mode of the MCP server, its OAuth metadata and its body limits.
- The inventory texts of the terminal multiplexers: clients, tabs, panes and processes are given as values.
- Network, files, ssh, YAML and JSON syntax, hashing and random ids: steps or parameters.
- `daemonDatabaseWarnings`, `parseNamedPairs`, `classifyResult`, the generation header and other deciders that one reading settles.
- User interface, tool registration and message wording.
