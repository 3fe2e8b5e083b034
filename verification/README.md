# Verified models of wicked-core's coordination code

Five parts of the engine, written as Dafny models that follow the Rust source branch by branch, with the properties
they exist for proved over all inputs, runs and interleavings. `dafny verify dfyconfig.toml` checks the project.

**Campaign scheduler** (`src/campaign.rs`). `CampaignGraph` and `CampaignCycle` hold the pure graph half: ready set,
blocking fixpoint, Kahn's cycle check, each a loop proved against a definition by paths. `CampaignModel` and
`CampaignHandlers` state the driver as functions on one world: the campaign in memory, what the store holds (with every
state it went through during a step, so that a crash may fall between any two writes), the sessions by run id, the
actor's own queue, and an engine that answers each call arbitrarily. `CampaignActor` is the driver as the actor runs it,
one object edited in place; each of its methods is proved to do what its function says. `CampaignInvariants`,
`CampaignSafety`, `CampaignSteps`, `CampaignKeeps`, `CampaignResume` and `CampaignRuns` carry the invariants through every
handler and every history of commands, signals, drifting sessions and crashes; `CampaignTheorems`, `CampaignFailure` and
`CampaignCalm` state what follows. `CampaignSeam`, `CampaignTurns` and `CampaignResumed` tell from before and after alone
what the engine's entry points announce and what each command leaves of the stored campaign; `CampaignAnswers` follows the
operator's gate answers to the engine, and `CampaignCancels` what a cancel and a fail-fast failure do to the runs.
`CampaignCrash`, `CampaignFindings`, `CampaignReattach`, `CampaignPromotion`, `CampaignFills` and `CampaignRelaunch` hold
the promises that the code does not keep, with their exact conditions.

**Operator questions** (`src/ask.rs`). `AskAnswer`: validation and multi-select answers. `AskQueue`, `AskRegistry`: the
table and the object that keeps it. `AskTrace`: what each run's operator sees over any command sequence. `AskTable`: what
each command puts into the table and takes out.

**Container floor** (`src/checks_container.rs`). `Bytes`, `LsTree`, `TarWrite`: the listing parser and the tar writer,
buffers filled in place. `TarRead` is a reader in the sense of the ustar and pax formats (sections "ustar Interchange
Format" and "pax Extended Header" of the pax utility, IEEE Std 1003.1), and `TarRoundTrip` reads back what is written.
`Mtimes`, `Eviction` and `EvictionReasons`: mtime assignment, the eviction plan, and why it removes what it removes.

**Elicitations and members** (`src/acp_runner.rs`). `Elicitation`, `ElicitationRuns`, `ElicitationMaps`: the two indexes,
reply channels, epochs and launches, as steps under one lock and as the object that keeps them; `ElicitationFields` tells
field by field which steps put something in and take it out. `ToolChildren`: the live process groups. `Members`, `MemberRuns`: turns against closes. `PiBanner`: stripping a startup banner from captured text.

**Event log** (`src/bus.rs`). `Bus`: the log, idempotent emits and cursor paging; `BusReads`: what a reader gets,
row by row. `BusFilter`: filter strings. `BusPoller`: the launch poller, and the log as an object. `BusLaunch`: a request
turned into a run, and its announcement, for any number of bridges over one log. `BusRetry`: what lets a bridge's floor
pass a request. `Names` and `Lists` hold what the modules share.

## What the code does not keep

The models keep the code as it is. Where a comment or an expected property fails, a lemma names the inputs, and where it
is exact the condition.

- A crash after the first write of a failure leaves the failure policy unapplied, although `reconcile_terminal` is
  described as the shared crash-safe path: exactly when an unstarted node waits for that success or fail-fast still has
  something to end (`CampaignCrash.CrashThenResume`, `FailureSettled`). If nothing is left to run, a resume mends nothing
  (`QuietResume`, `CrashLosesFailurePolicy`); under continue-independent the next failure does (`NextFailureBlocks`). With
  crashes that leave every failure acted upon and are followed by a resume, what a crash-free history promises holds
  (`CampaignCalm.HistoryFinalized`).
- A crash after the first write of a `cancel`, and only there, leaves a cancelled campaign with live nodes
  (`CampaignCrash.CancelCrash`). `CancelledMoves` names the commands that still move it, `CancelledStaysWedged` those that
  free it: a new launch, an abort, the answer to the last open failure gate, or a reject that reconciles its only live node
  or trips fail-fast. Resume, cancel, pause and its runs' own ends never do.
- `Skip` at one failure gate blocks the dependents of other failures that could still be retried, permanently
  (`CampaignFindings.SkipBlocksOtherGates`, `BlockedForGood`): exactly when another gated node has an unstarted success
  dependent that the skipped one does not reach (`SkipReachesFurther`).
- A late signal of an earlier attempt ends a retried node that has not started yet (`CampaignFindings.StaleSignal`), which
  the comment on stale signals rules out.
- `resume` after a pause fails every node whose worker is still busy (`CampaignFindings.ReattachBusy`), and under fail-fast
  launches a node although an earlier entry's failure cancelled it, exactly when its run has no session
  (`CampaignReattach.ReattachLaunches`).
- A fill fails a node that was never promoted, instead of launching it, when one was overdue as the fill started or a
  failed start inside it satisfied the last `OnTerminal` dependency of one (`CampaignPromotion.FillPicks`,
  `CleanupNodeOvertaken`). With `OnSuccess` edges only it happens if a crash cut a promotion off and an approval comes
  before the resume (`CampaignFills.CrashThenApprove`), and never if the resume comes first (`CampaignFills.HistoryPromoted`).
- Relaunching an ended campaign reuses its run ids (`CampaignRelaunch.RelaunchRepeats`); `RelaunchExact` says when some
  engine makes a second session of it.
- Sizes and mtimes of 8^11 or more do not survive the tar stream (`TarRoundTrip.ArchiveBackIff`, `MtimeKept`).
- Three copies within one second can put changed bytes on the old mtime (`Mtimes.SameSecond`); `HistoryHonest` gives the
  condition for any clock.
- The launch counter can be put back, and then a superseded launch runs (`ElicitationRuns.RestoredRuns`); `DeadStays` and
  `SpentStays` say by which steps. The source has no caller that does.
- After a restart a launch number these maps never issued can run twice (`ElicitationRuns.UnissuedRunsTwice`).
- A member key opened for a second run hides its turns from the end of the first (`MemberRuns.SecondRunHides`;
  `FinishTakes` has the exact condition). The source has no caller that does: each puts the run id in the key
  (src/team/supervisor.rs:585-590, 2207-2210, 3262). Closing a key again does not renew its tombstone (`MemberRuns.Ages`).
- A page reader restarts at 0, and reads rows again, when the newest rows were swept (`Bus.SweptTail`).

## Model

| member | source | states |
|---|---|---|
| CampaignGraph.ReadySet | src/campaign.rs:476-504 | the ready set is exactly the pending or ready nodes whose every in-edge is satisfied |
| CampaignGraph.BlockedByFailure | src/campaign.rs:511-548 | the loop ends, for any edge order, with exactly the nodes that are blocked already or end an `OnSuccess` path of unstarted nodes from a failed, cancelled or blocked node |
| CampaignGraph.BlockedNodesClosed | src/campaign.rs:511-548 | the path definition is closed under one more round of the loop |
| CampaignGraph.BlockedNodesLeast | src/campaign.rs:511-548 | it is contained in every closed set: the least fixpoint |
| CampaignGraph.BlockedNodesOrderFree | src/campaign.rs:511-548 | it depends on the set of edges only, not on order or repetition |
| CampaignCycle.PredecessorsCycle | src/campaign.rs:614-647 | a finite nonempty node set in which everyone has a predecessor holds a cycle |
| CampaignCycle.TopoOrderAcyclic | src/campaign.rs:614-647 | an order listing every source before its target excludes a cycle |
| CampaignCycle.KahnStep | src/campaign.rs:614-647 | one pop keeps the queue, the in-degrees and the popped order consistent, whichever node is popped |
| CampaignCycle.KahnVerdict | src/campaign.rs:614-647 | with an empty queue the popped count reaches every node exactly when there is no cycle |
| CampaignCycle.DetectCycle | src/campaign.rs:614-647 | for distinct ids and no dangling edge: accepted if and only if the edge relation is acyclic; terminates |
| CampaignModel.Validate | src/campaign.rs:555-610 | accepts exactly the well-formed definitions, and an error names a fault the definition has |
| CampaignModel.PolicyShrinks | src/campaign.rs:1695-1806 | blocking, gating and cancelling never make a node startable |
| CampaignModel.DispatchShrinks | src/campaign.rs:826-959 | each dispatch strictly lowers the number of pending, ready and approved nodes, also when the failure policy fires inside it: why `try_fill` ends |
| Names.TextInjective | src/campaign.rs:383-385 | run ids of different campaigns, nodes or attempts are different texts, given ids without a colon |
| CampaignTheorems.HistorySafe | src/campaign.rs:760-1856 | in every history, with crashes at any write and relaunches: running nodes stay within the cap; every ready, live, completed, failed or gated node has its `OnSuccess` dependencies completed; only a fallen node is gated; a live node records its current attempt; a finalized campaign has no live node |
| CampaignTheorems.HistoryOneSessionPerRun | src/campaign.rs:848-959 | no run id ever gets a second session, over any history with crashes, if each launch starts on unused ids |
| CampaignTheorems.HistoryKeepsCompleted | src/campaign.rs:1006-1076 | `Completed` is absorbing across retry, skip, resume and crashes |
| CampaignTheorems.HistoryNeverWedged | src/campaign.rs:964-1156 | between crashes a running campaign always has an unfinished run or a queued end of one, and no live node sits over an ended session nobody reports |
| CampaignTheorems.ResumeUnwedges | src/campaign.rs:1495-1692 | from any state a crash leaves, a resume ties every live node to its run again, until the next crash |
| CampaignCalm.CrashLeavesOneFailure | src/campaign.rs:1038-1076 | a crash leaves every failure acted upon, or exactly one that is not |
| CampaignCalm.HistoryFinalized | src/campaign.rs:1812-1856 | after any history whose crashes each leave every failure acted upon and are followed by a resume: a finalized campaign is `Completed` exactly when every node is; it is quiet unless a gate is open; once quiet, a node is not terminal exactly when a path of pending nodes leads to it from an edge nothing will satisfy; and such an edge leaves an open gate or is an `OnTerminal` edge from a blocked node |
| CampaignCalm.HistoryFinalizedSuccessOnly | src/campaign.rs:1812-1856 | after any such history, with `OnSuccess` edges only, every node of a finalized campaign with no open gate is terminal |
| CampaignCalm.HistoryFailFast | src/campaign.rs:1739-1783 | after any such history, under fail-fast one failure has ended every node and is on record |
| CampaignCalm.NoCrashCareful | src/campaign.rs:1495-1692 | a history without a crash is such a history |
| CampaignCalm.ResumeCalm | src/campaign.rs:1495-1692 | resuming a campaign whose failures are all acted upon brings it back to what a crash-free history keeps, whatever live nodes the crash left |
| CampaignFailure.BlockingCloses | src/campaign.rs:1786-1806 | after blocking no unstarted node waits on a fallen or blocked one over an `OnSuccess` edge |
| CampaignFailure.QuietStuck | src/campaign.rs:1812-1856 | on an acyclic definition, when nothing can move, a node is not terminal exactly when a path of pending nodes leads to it from an edge nothing will satisfy |
| CampaignFailure.SettledCause | src/campaign.rs:1812-1856 | with every failure acted upon, only an edge from an open gate or an `OnTerminal` edge from a blocked node is such an edge |
| CampaignInvariants.OneOwner | src/campaign.rs:1859-1877 | two nodes never record the same run: the inverse lookup is unambiguous |
| CampaignInvariants.PromoteOk | src/campaign.rs:802-820 | promotion keeps every clause of the invariant |
| CampaignInvariants.SlotOk | src/campaign.rs:848-880 | taking a slot keeps it, the cap included |
| CampaignInvariants.RetriedOk | src/campaign.rs:1358-1377 | a retry keeps it, with a fresh attempt |
| CampaignInvariants.SkippedOk | src/campaign.rs:1378-1394 | a skip keeps it: blocking hits no started node |
| CampaignSteps.GoodDispatch | src/campaign.rs:848-959 | a dispatch, whatever the engine answers, keeps every promise at each of its writes |
| CampaignSteps.GoodFill | src/campaign.rs:826-843 | a whole fill keeps every promise at each of its writes |
| CampaignSteps.GoodPolicy | src/campaign.rs:1695-1806 | the failure policy, whichever it is, keeps every promise at each of its writes |
| CampaignKeeps.LaunchLeaves | src/campaign.rs:760-798 | a launch keeps every promise of a history, in memory and in each state the store goes through |
| CampaignKeeps.FinishedLeaves | src/campaign.rs:964-994 | handling a run that ended keeps them, and ties its node to no ended run |
| CampaignKeeps.AwaitingLeaves | src/campaign.rs:1081-1156 | handling a run that awaits a human keeps them, an automatic rejection included |
| CampaignKeeps.ApprovedLeaves | src/campaign.rs:1176-1196 | an approval keeps them: the node waits for a slot |
| CampaignKeeps.RejectedLeaves | src/campaign.rs:1197-1356 | a rejection keeps them, also when the engine refuses it |
| CampaignKeeps.RetryLeaves | src/campaign.rs:1358-1377 | a retry keeps them, under a run id without a session |
| CampaignKeeps.SkipLeaves | src/campaign.rs:1378-1394 | a skip keeps them |
| CampaignKeeps.AbortLeaves | src/campaign.rs:1395-1402 | an abort keeps them and ends every node |
| CampaignKeeps.PauseLeaves | src/campaign.rs:1408-1426 | a pause keeps them |
| CampaignKeeps.CancelLeaves | src/campaign.rs:1431-1490 | a cancel keeps them at each of its writes |
| CampaignResume.ResumeLeaves | src/campaign.rs:1495-1692 | a resume keeps them, whatever a crash left, and afterwards a live node's run has a session, and one that has ended has its end queued for the campaign |
| CampaignRuns.StepRest | src/campaign.rs:760-1692 | one move of a history, a crash at any write included, keeps what every history keeps |
| CampaignCrash.FailureFirstWrite | src/campaign.rs:1047-1075 | the first write of a failure records the node's end and nothing of the policy |
| CampaignCrash.FinishedCrash | src/campaign.rs:964-994 | a crash after the first write of a delivered end leaves exactly that: the node's end on record, the rest of the store as it was |
| CampaignCrash.FailureSettled | src/campaign.rs:1038-1076 | recording a failure alone leaves the campaign settled if and only if no unstarted node waits for its success and fail-fast, if that is the policy, has nothing left to end and is on record |
| CampaignCrash.QuietResume | src/campaign.rs:1495-1692 | for any definition, when nothing is live and nothing can start, a resumed campaign is settled if and only if it was before |
| CampaignCrash.CrashThenResume | src/campaign.rs:1038-1076 | the crash and the resume together: the campaign is settled after the crash exactly under that condition, then also after the resume, and when nothing is left to run only then |
| CampaignCrash.NextFailureBlocks | src/campaign.rs:1786-1806 | under continue-independent the next failure blocks whatever an earlier crash left unblocked |
| CampaignCrash.CrashReachesMidFailure | src/campaign.rs:964-994 | the two-node campaign below is what such a crash leaves of one whose first node was running |
| CampaignCrash.CrashLosesFailurePolicy | src/campaign.rs:1038-1076 | resuming that campaign ends it `PartiallyCompleted` with the dependent pending: no blocking, no fail-fast, no gate, under any policy |
| CampaignCrash.CancelCrash | src/campaign.rs:1431-1490 | a crash inside a cancel leaves live nodes in a cancelled campaign if and only if it falls after the first write and there were live nodes; the store is then otherwise untouched |
| CampaignCrash.CancelledMoves | src/campaign.rs:760-1692 | of all commands, exactly these change what the store holds of a cancelled campaign: a well-formed launch, approving a waiting node, a reject that reconciles one, and retry, skip or abort at a failure gate; resume, cancel, pause and signals leave the whole world as it is |
| CampaignCrash.CancelledStaysWedged | src/campaign.rs:760-1692 | one command leaves no live node in such a campaign if and only if it is a launch, an abort, the last open gate's retry or skip, or a reject that reconciles the only live node or trips fail-fast |
| CampaignFindings.SkipBlocksOtherGates | src/campaign.rs:1378-1394 | skipping one failed node blocks the dependents of another that is still waiting at its gate |
| CampaignFindings.SkipBlocks | src/campaign.rs:1378-1394 | an unstarted node is blocked by a skip if and only if a chain of `OnSuccess` edges reaches it from some gated node, the skipped one or another |
| CampaignFindings.SkipReachesFurther | src/campaign.rs:1378-1394 | a skip blocks a node the skipped one does not reach if and only if another gated node has an unstarted success dependent that the skipped one does not reach |
| CampaignFindings.BlockedForGood | src/campaign.rs:1358-1394 | and a later retry of that other node cannot unblock them |
| CampaignFindings.StaleSignal | src/campaign.rs:964-994 | a late signal of an earlier attempt is dropped if and only if its node is not ready again with that run still recorded |
| CampaignFindings.ReattachBusy | src/campaign.rs:1530-1640 | re-attaching a live run keeps the node running if and only if the run is not in flight in this process; pause then resume fails busy nodes |
| CampaignFindings.ReattachLaunchesCancelled | src/campaign.rs:1530-1640 | under fail-fast, an earlier entry's failure does not stop resume from launching a listed node it cancelled: the smallest list |
| CampaignReattach.ReattachLaunches | src/campaign.rs:1530-1640 | over any list of running nodes, under fail-fast, the engine is asked to launch an entry whose node is cancelled if and only if the entry's run has no session and an entry before it failed |
| CampaignReattach.ResumeList | src/campaign.rs:1516-1527 | the list a resume makes is such a list: running nodes under their recorded runs, no node and no run twice |
| CampaignPromotion.PendingDispatchFails | src/campaign.rs:848-959 | a fill that picks a pending node treats it as a resume and fails it |
| CampaignPromotion.PromotedAll | src/campaign.rs:389-397 | after promotion, with `OnSuccess` edges only, what is dispatchable is ready or approved |
| CampaignPromotion.DispatchKeepsPromoted | src/campaign.rs:826-959 | and one dispatch keeps it so |
| CampaignPromotion.DispatchPromoted | src/campaign.rs:826-959 | with any edges, one dispatch keeps it so if and only if its start succeeds, or fail-fast ends everything, or its failure satisfies no pending node's last dependency over an `OnTerminal` edge |
| CampaignPromotion.FillPicks | src/campaign.rs:826-843 | a fill picks a pending node only if one was overdue as it started or a failed start inside it satisfied the last dependency of one; but for fail-fast also if, unless the cap stops it with that node still overdue; under fail-fast a failed start leaves nothing to pick |
| CampaignPromotion.CleanupNodeOvertaken | src/campaign.rs:826-959 | the smallest such case: the cleanup of a node whose launch failed is never launched |
| CampaignFills.FillsFromIs | src/campaign.rs:760-1692 | every command is one fill, from a world this names, and a finalize, or else starts no node |
| CampaignFills.HistoryNeverPicks | src/campaign.rs:826-843 | with `OnSuccess` edges only, over every history in which a campaign that a crash left with nodes to promote is resumed before any other turn, no fill picks a pending node |
| CampaignFills.HistoryPromoted | src/campaign.rs:826-843 | so it is when each crash is followed by a resume, and leaves nothing to promote if the campaign has ended |
| CampaignFills.CrashThenApprove | src/campaign.rs:1176-1196 | without the resume it fails: after a crash between a completion and its promotion, an approval's fill picks the pending dependent and fails it |
| CampaignFills.EndedThenRetried | src/campaign.rs:1197-1377 | and with the resume it fails when the crash leaves a cancelled campaign: the resume is a no-op, and a retry that sets the campaign running again fills from what was never promoted |
| CampaignRelaunch.LaunchInOrder | src/campaign.rs:760-798 | the bridge between the two main results on second sessions: the run-order invariant that `HistoryOneSessionPerRun` carries holds of a fresh campaign if and only if no id of its nodes, of any attempt, has a session |
| CampaignRelaunch.RelaunchRepeats | src/campaign.rs:760-798 | relaunching an ended campaign of the same id makes a second session under a used run id |
| CampaignRelaunch.LaunchOnce | src/campaign.rs:760-959 | a launch makes no second session, whatever the engine answers, if no root has an ended idle session under its first run id, or, under fail-fast, none within the cap behind roots the engine would start |
| CampaignRelaunch.RelaunchExact | src/campaign.rs:760-959 | and some engine makes a second session if and only if there is such a root |
| CampaignSeam.TurnAnnounces | src/campaign.rs:964-1156 | in every turn a session that is left over, or waiting, and was not so before, is announced with exactly what it is; nothing queued is lost but the signal delivered; and whatever is announced was true of a session at some write of the turn |
| CampaignSeam.LaunchSays | src/actor.rs:5123-5156 | a launch is refused, and does nothing, of a run in flight or not over; else one call leaves the run in flight exactly when it succeeded with a worker |
| CampaignSeam.ResumeSays | src/actor.rs:5504-5529 | a resume is refused of a run in flight or unknown and has nothing to do for one completed or cancelled; a failed one may go on |
| CampaignSeam.ConfirmSays | src/actor.rs:16359-16397 | an answer is taken only by a session that awaits a human |
| CampaignSeam.CancelSays | src/actor.rs:19558-19574 | a cancel is refused of a run without a session and has nothing to do for one that is over |
| CampaignTurns.FinishedReads | src/campaign.rs:964-1076 | a delivered end ends its node exactly as the outcome says; no node that was over moves; a node whose last dependency it was is not pending any more; under the gate policy a failure is queued and pauses a running campaign |
| CampaignTurns.FinishedEnds | src/campaign.rs:964-1076 | the stored campaign after it is the one before with that end, what the policy says of it, what is free made ready, filled and finalized under the right name |
| CampaignTurns.FillGoes | src/campaign.rs:826-959 | a fill starts, or fails to start, nodes that had not begun; only the failure of a start, by its policy, touches another node, opens a gate or pauses |
| CampaignTurns.AwaitingWaits | src/campaign.rs:1081-1156 | a running node whose run awaits a human waits at its gate, and its slot is filled |
| CampaignTurns.DeniedIff | src/campaign.rs:1107-1150 | an escalation is denied by the campaign exactly when its definition says so and the session awaits a human |
| CampaignTurns.ApprovedFills | src/campaign.rs:1176-1196 | an approval moves a waiting node to the queue for a slot with its amendment, and is refused of any other |
| CampaignTurns.RejectEnds | src/campaign.rs:1197-1356 | a rejection that the engine takes, or that cancels the run, leaves the stored campaign to the run's end; any other ends the node at once, as its run ended, or failed |
| CampaignTurns.RejectTakes | src/campaign.rs:1197-1356 | in the first two cases: one denial is recorded, or the run is cancelled by one more call and out of flight |
| CampaignTurns.RetryFills | src/campaign.rs:1358-1377 | a retry of a queued node: one attempt more, out of the queue, ready; the campaign runs again, and is filled, only once no gate is left |
| CampaignTurns.SkipFills | src/campaign.rs:1378-1394 | a skip: the node stays failed, out of the queue, only unstarted nodes are blocked, what is free is made ready |
| CampaignTurns.AbortEnds | src/campaign.rs:1395-1402 | an abort cancels every node that was not over and leaves the campaign failed, the other gates queued |
| CampaignTurns.PauseIs | src/campaign.rs:1408-1426 | a pause changes the status of a running campaign, in memory and in the store, and nothing else |
| CampaignTurns.LaunchIs | src/campaign.rs:760-798 | a launch is refused for a faulty definition and over a campaign that runs or is paused; any other starts over, its roots ready |
| CampaignResumed.ResumeSettles | src/campaign.rs:1495-1692 | a resume settles every node by its run, whatever the campaign missed of it, wakes a pause exactly when no gate is open, makes ready what is free, and fills |
| CampaignResumed.ResumeReads | src/campaign.rs:1525-1560 | a live node whose run ended while nobody looked has ended as its run did after a resume, or was cancelled by fail-fast |
| CampaignResumed.ResumeWakes | src/campaign.rs:1510-1514 | a paused campaign goes on if and only if no gate is open, and while one is, no node starts |
| CampaignAnswers.HistoryAnswers | src/campaign.rs:895-1356 | over any history with crashes, every answer the engine takes approves a run with the amendment of its node's last accepted approval, or denies one that the operator rejected or the definition denies; only where a launch started on used ids may an approval nobody gave be sent, and it carries no amendment |
| CampaignAnswers.DispatchSends | src/campaign.rs:895-917 | a dispatch answers its run if and only if the node is no fresh start and its session awaits a human, with exactly what is stored, which is then gone |
| CampaignAnswers.ApprovalSent | src/campaign.rs:1176-1196 | an approval whose node is next in a running campaign with a free slot is sent to the waiting run at once, with that amendment |
| CampaignCancels.CancelCloses | src/campaign.rs:1431-1490 | an accepted cancel takes the run of every live node out of flight and cancels its session by a call of its own, unless that call is refused; touches no other run; and ends every node that was not over |
| CampaignCancels.FailedTurnCloses | src/campaign.rs:1739-1783 | so does a failure delivered under fail-fast to the runs of all other live nodes, and nothing is started |
| CampaignCancels.AbortCloses | src/campaign.rs:1395-1402 | so does an abort |
| CampaignCancels.FailureCloses | src/campaign.rs:1739-1783 | so does any failure under fail-fast, also of a start inside a fill or of a node a resume reconciles |
| CampaignCancels.LiveClosed | src/campaign.rs:1472-1482 | read for one live node: its run is out of flight and has no session, an ended one, or one the engine refused to end |
| CampaignActor.Actor.Serve | src/campaign.rs:760-1692 | any command, served by editing the one object, leaves the state and the reply that the theorems over histories speak of |
| CampaignActor.Actor.Persist | src/campaign.rs:753-756 | the store receives the campaign as it is in memory; nothing else of it changes |
| CampaignActor.Actor.Promote | src/campaign.rs:802-820 | exactly the pending nodes with every in-edge satisfied become ready |
| CampaignActor.Actor.Block | src/campaign.rs:1786-1806 | exactly the unstarted nodes that the blocking fixpoint reaches become blocked |
| CampaignActor.Actor.StartNode | src/campaign.rs:848-917 | slot and run id are in the store before the engine is asked; a ready node is launched, any other resumed with its stored answer |
| CampaignActor.Actor.DispatchNode | src/campaign.rs:848-959 | a start that the engine refuses ends the node as a failure and applies the policy; any other leaves it running |
| CampaignActor.Actor.FillSlots | src/campaign.rs:826-843 | the lowest dispatchable id is dispatched, and again, until the cap is reached or none is left |
| CampaignActor.Actor.FailFastNow | src/campaign.rs:1739-1783 | every node that had not ended is cancelled in one write, then each run that was live before it is cancelled |
| CampaignActor.Actor.QueueGate | src/campaign.rs:1715-1733 | the failed node joins the gate queue once, in id order, and a running campaign pauses |
| CampaignActor.Actor.ApplyPolicy | src/campaign.rs:1695-1733 | a failure meets exactly one of fail-fast, blocking and a gate: the one its definition names |
| CampaignActor.Actor.Reconcile | src/campaign.rs:1038-1076 | a node that has ended is left alone; any other is written as ended before its failure is acted upon |
| CampaignActor.Actor.FinalizeNow | src/campaign.rs:1812-1856 | a running campaign with nothing live and nothing to start becomes completed, failed or partially completed |
| CampaignActor.Actor.Launch | src/campaign.rs:760-798 | refused for a faulty definition and over a live campaign of the id; otherwise written fresh, promoted and filled |
| CampaignActor.Actor.RunEnded | src/campaign.rs:964-994 | the node that records the run ends, and what it frees is promoted and filled; an unknown run, or a node that has ended, changes nothing |
| CampaignActor.Actor.NodeAwaits | src/campaign.rs:1081-1156 | a running node waits at its gate, which an unattended denial may reject at once, and its slot is filled |
| CampaignActor.Actor.ApproveNode | src/campaign.rs:1176-1196 | a waiting node keeps the amendment and waits for a slot |
| CampaignActor.Actor.RejectNode | src/campaign.rs:1197-1356 | the engine is told; if it refuses, the run is cancelled, or the node ends as its session did |
| CampaignActor.Actor.RetryGate | src/campaign.rs:1358-1377 | the node is ready under its next attempt; the campaign runs again once no gate is open |
| CampaignActor.Actor.SkipGate | src/campaign.rs:1378-1394 | the node leaves the queue as failed, and blocking starts over from every failure |
| CampaignActor.Actor.AbortGate | src/campaign.rs:1395-1402 | the node leaves the queue and every node that had not ended is cancelled |
| CampaignActor.Actor.Pause | src/campaign.rs:1408-1426 | a running campaign is paused and written; any other is left alone |
| CampaignActor.Actor.Cancel | src/campaign.rs:1431-1490 | the campaign is cancelled in the store before its nodes, and its nodes before their runs |
| CampaignActor.Actor.Resume | src/campaign.rs:1495-1692 | running nodes are reconciled, launched or re-attached, gated ones reconciled, then all is promoted and filled |
| AskAnswer.Validate | src/ask.rs:33-89 | accepts exactly the acceptable questions, and admits them with each choice once, the recommendation on the same choice, and the bounds spelled out |
| AskAnswer.AdmittedStays | src/ask.rs:33-89 | an admitted question is acceptable, and admitting it again changes nothing |
| AskAnswer.MatchingCounts | src/ask.rs:274-284 | picks that are choices: as many choices match as there are picks exactly when no pick repeats |
| AskAnswer.RecordedIff | src/ask.rs:248-292 | over deduplicated choices an answer is recorded if and only if the response decodes to distinct choices, as many as the bounds allow; what is recorded is those choices in the question's order |
| AskAnswer.AdmittedAnswers | src/ask.rs:33-292 | for an admitted question, exactly the responses of distinct choices of the question as it was sent, within its own bounds, are recorded |
| AskAnswer.MatchingSelects | src/ask.rs:277-284 | the recorded choices are a subsequence of the question's |
| AskAnswer.RecordedStays | src/ask.rs:248-292 | a recorded answer sent back is recorded unchanged |
| AskQueue.StepValid | src/ask.rs:148-400 | every command keeps the table valid: a run with a question shows exactly one, the first to arrive |
| AskTrace.AlwaysTidy | src/ask.rs:148-400 | over any command sequence each run's events alternate shown and resolved of the same question, shown as it was admitted, in arrival order; the last event shows the question still shown; what waits arrived later |
| AskTrace.SeenOnce | src/ask.rs:148-400 | each question is shown at most once and resolved at most once, right after it was shown |
| AskTrace.ResolvedSays | src/ask.rs:248-400 | over any command sequence, each question resolved as accepted carries the text of an answer the human sent and the question takes; a decline and a cancel carry the human's action and no answer; a timeout or a teardown carries a cancel, its own reason and no answer |
| AskTrace.AcceptSeen | src/ask.rs:351-389 | a text accepted for the free-text question shown is its next event, word for word; any other response is refused and changes nothing |
| AskTrace.EndSeen | src/ask.rs:301-400 | a decline, a cancel, a timeout and a teardown of the question shown are seen as what they are |
| AskTrace.DroppedUnseen | src/ask.rs:301-349 | a question dropped while queued never appears in any event, whatever comes after |
| AskTable.TakenIff | src/ask.rs:248-400 | a question leaves the table exactly by a timeout or teardown of it, the end of its attempt or run, a taken answer while it is shown, or a shutdown; what stays is as it was asked; a new one enters with its unit, request and the next arrival number |
| AskTable.StaysThroughout | src/ask.rs:248-400 | so it stays through any commands that do none of that |
| AskRegistry.Registry.OpenQuestion | src/ask.rs:148-181 | the new entry is shown at once if and only if its run shows none |
| AskRegistry.Registry.FirstWaiting | src/ask.rs:209-214 | the scan finds the waiting question with the smallest arrival number |
| AskRegistry.Registry.PromoteNext | src/ask.rs:209-219 | the run's earliest waiting question is shown, if there is one |
| AskRegistry.Registry.CloseQuestion | src/ask.rs:339-349 | one question goes; if it was the one shown, the next is |
| AskRegistry.Registry.CloseUnitAttempt | src/ask.rs:318-336 | an attempt's whole queue goes before another question is shown |
| AskRegistry.Registry.CloseWholeRun | src/ask.rs:301-315 | all of a run's questions go, and only the one shown is resolved |
| AskRegistry.Registry.ResolveQuestion | src/ask.rs:351-389 | an accepted answer removes the question and shows the next; a refused one changes nothing |
| AskRegistry.Registry.DrainAll | src/ask.rs:392-400 | the table is emptied, nothing is shown |
| TarWrite.PaxRecord | src/checks_container.rs:594-604 | terminates for every key and value, at the least length that counts itself |
| TarWrite.TwoLengths | src/checks_container.rs:594-604 | that length need not be the only one |
| TarWrite.Octal | src/checks_container.rs:606-612 | the field gets the last octal digits and a NUL, the rest of the block is untouched |
| TarWrite.SumFits | src/checks_container.rs:630-632 | the sum of any block fits its six octal digits |
| TarWrite.Ustar | src/checks_container.rs:615-634 | the block filled in place is the specified header |
| TarWrite.Sink.TarMember | src/checks_container.rs:638-686 | refused exactly for a link whose target is not clean UTF-8, before anything is written |
| TarWrite.Sink.WriteTree | src/checks_container.rs:754-813 | the whole archive, or a refusal |
| TarRead.HeaderBack | src/checks_container.rs:615-634 | a header passes a reader's checksum and magic and reads back as its fields, names cut at 100 bytes, numbers at eleven octal digits |
| TarRead.OctalBack | src/checks_container.rs:606-612 | an octal field reads back as the value modulo the field's range |
| TarRoundTrip.RecordBack | src/checks_container.rs:594-604 | a pax record reads back whatever its value holds |
| TarRoundTrip.MemberBack | src/checks_container.rs:638-686 | a member reads back, long names and link targets included |
| TarRoundTrip.ArchiveBack | src/checks_container.rs:638-694 | reading back the stream of any safe tree gives the same paths, targets, executable bits and bytes in order, mtimes modulo 8^11 |
| TarRoundTrip.MtimeKept | src/checks_container.rs:606-612 | an mtime is kept if and only if it is below 8^11 |
| TarRoundTrip.BigFileMisread | src/checks_container.rs:606-612 | a plain member of 8^11 bytes or more, under any overrides, is read back shorter than it is, or not at all |
| TarRoundTrip.BigMemberMisread | src/checks_container.rs:638-694 | so is the first such file of any stream, and everything before it is read back as it was |
| TarRoundTrip.ArchiveBackIff | src/checks_container.rs:606-694 | a tree is read back from its archive if and only if every file is smaller than 8^11 bytes |
| TarRoundTrip.ArchiveBlocks | src/checks_container.rs:688-694 | every prefix of members, and the archive, is a whole number of 512-byte blocks |
| LsTree.ParseLsTree | src/checks_container.rs:514-545 | the loop over the records is the specified parser |
| LsTree.ParsedSafe | src/checks_container.rs:514-545 | every path let through is not `..` and has none as a component, no empty component, no slash at either end and no control byte or character; and is clean UTF-8 with a known mode |
| LsTree.SafeIff | src/checks_container.rs:528-543 | the component-wise check lets a path through exactly when its bytes are free of all that |
| LsTree.ListingBack | src/checks_container.rs:514-545 | a printed listing parses to exactly its blobs if every blob's path is safe, and is refused otherwise |
| LsTree.ListedTreeBack | src/checks_container.rs:514-694 | a parsed tree with clean links and fitting sizes is read back from its own stream |
| Mtimes.Assign | src/checks_container.rs:562-581 | the times and the next book, entry by entry |
| Mtimes.HonestIff | src/checks_container.rs:562-581 | against the last copy an mtime never moves back and moves exactly when the bytes changed, if and only if unchanged bytes carry no time past the stamp and changed ones not the largest time there is |
| Mtimes.SameTimeSameBytes | src/checks_container.rs:547-581 | over any copies with a clock that moves on, the same mtime of a path means the same bytes |
| Mtimes.HistoryHonest | src/checks_container.rs:547-581 | over any history, whatever the clock does, every copy is honest against the one before it if and only if no copy finds unchanged bytes ahead of its stamp or changed ones at the largest time |
| Mtimes.HonestSameBytes | src/checks_container.rs:547-581 | then, while a path stays in the tree, two copies carry the same mtime if and only if its bytes did not change from one to the other |
| Mtimes.SameSecond | src/checks_container.rs:547-581 | within one second that fails: changed bytes end up on the old mtime |
| Eviction.NewestSorts | src/checks_container.rs:2758-2759 | the sort keeps every volume but the cargo home, newest first |
| Eviction.NewestStable | src/checks_container.rs:2758-2759 | volumes used at the same time keep their order |
| Eviction.FirstPass | src/checks_container.rs:2760-2772 | the stale unleased volumes, by the counts of the newest |
| Eviction.SecondPass | src/checks_container.rs:2773-2790 | oldest first, each unleased and over a cap when its turn comes; who is passed over is leased or within both caps at the end; none goes for its repository while an older unleased one stays |
| Eviction.EvictionPlan | src/checks_container.rs:2750-2791 | the plan is those two passes, and afterwards every unleased volume left is within the total and its repository's cap |
| Eviction.PlanLists | src/checks_container.rs:2750-2791 | a plan lists unleased volumes only, never the cargo home, none twice |
| Eviction.PlanLeaves | src/checks_container.rs:2750-2791 | no unleased volume idle past the TTL is left, and at most three unleased node_modules volumes of each repository |
| EvictionReasons.PlanReasons | src/checks_container.rs:2750-2791 | every volume of a plan was unused for too long, or is a node_modules volume with three of its repository used no earlier, or was over a cap with what the plan lists before it gone |
| EvictionReasons.PlanStays | src/checks_container.rs:2750-2791 | of the volumes no floor leases a plan leaves none unused for too long, at most three node_modules volumes of each repository, and, if any counts, both caps met |
| Elicitation.MsgFloorAt | src/acp_runner.rs:877-886 | the largest character boundary within the cap |
| Elicitation.CutStaysText | src/acp_runner.rs:328-336 | a message cut there is still UTF-8 |
| Elicitation.BoundaryNear | src/acp_runner.rs:877-886 | at most three bytes are lost to it |
| Elicitation.RegisterAgrees | src/acp_runner.rs:307-379 | a registration keeps `pending` and `run_index` in agreement if and only if its id is not pending |
| Elicitation.RemoveAgrees | src/acp_runner.rs:385-394 | a removal does if and only if the id is not pending under another run |
| Elicitation.CancelAgrees | src/acp_runner.rs:478-513 | cancelling an epoch does |
| Elicitation.CleanupAgrees | src/acp_runner.rs:633-666 | cleaning up a worker does |
| ElicitationRuns.AlwaysSound | src/acp_runner.rs:307-872 | over any legal sequence of locked steps the indexes agree with no empty list kept, each reply channel gets at most one message, only allocated epochs are cancelled |
| ElicitationRuns.DeliverReaches | src/acp_runner.rs:307-472 | an answer reaches its own channel alone, which had none, exactly when it fits the question: one of the options, or free text within the cap; a rejected one changes nothing |
| ElicitationRuns.AcceptedOption | src/acp_runner.rs:307-472 | what is accepted of a question with options is one of those options, not empty and of at most 512 bytes, and of up to 100 options each such one is accepted; a decline and a cancel need no response |
| ElicitationRuns.CancelMailOk | src/acp_runner.rs:478-513 | a cancel reaches exactly the epoch's channels, once each |
| ElicitationRuns.NextEpochLive | src/acp_runner.rs:674-678 | a new epoch is above every cancelled one |
| ElicitationRuns.CancelledStays | src/acp_runner.rs:478-666 | a step forgets a cancelled epoch if and only if it is its own cleanup or that of the run's last worker |
| ElicitationRuns.RefusedThroughout | src/acp_runner.rs:307-322 | until then every registration in that epoch is refused |
| ElicitationRuns.DeadStays | src/acp_runner.rs:525-872 | a launch that is superseded, or cancelled while it was the latest, stays so through a step if and only if the step does not put the counter back below it, or to it without a tombstone |
| ElicitationRuns.DeadNeverRuns | src/acp_runner.rs:835-872 | until such a step it is never activated again, whatever is launched since |
| ElicitationRuns.RestoredRuns | src/acp_runner.rs:587-589 | after such a step it is |
| ElicitationRuns.SpentStays | src/acp_runner.rs:525-872 | a task that ran stays on record through a step if and only if the step does not reset its activation, nor put the counter back below it or to it unrecorded |
| ElicitationRuns.CancelKills | src/acp_runner.rs:705-716 | cancelling a run, or reassigning it, kills every launch up to then |
| ElicitationRuns.LaunchRises | src/acp_runner.rs:525-534 | a launch gets the number after the counter, never zero, and is not dead |
| ElicitationRuns.RunsOnce | src/acp_runner.rs:835-872 | a redelivered task of an issued launch runs once, unless its activation is reset or the counter put back |
| ElicitationRuns.GuardReleases | src/acp_runner.rs:921-947 | when a worker's guard falls its token goes, its bus marker unless deferred, and all of its epoch; no other worker's |
| ElicitationRuns.UnissuedRunsTwice | src/acp_runner.rs:525-534 | a launch number the maps never issued can run twice |
| ElicitationFields.PendingIff | src/acp_runner.rs:304-470 | a registration is pending from its own step, of an epoch not cancelled, until it is answered, removed, cancelled with its epoch or cleaned up with its worker |
| ElicitationFields.AnnouncedIff | src/acp_runner.rs:380-505 | an announcement is remembered until its registration is answered, removed or cancelled |
| ElicitationFields.SuppressedIff | src/acp_runner.rs:478-513 | an event about a question is suppressed exactly if a cancel took the question before it was announced |
| ElicitationFields.CancelledIff | src/acp_runner.rs:478-678 | an epoch is cancelled by a cancel of its run while it is the current one, until it, or the run's last worker, is cleaned up |
| ElicitationFields.WorkersIff | src/acp_runner.rs:523-672 | a worker is counted from a launch that tracks it, or from its task, until it is cleaned up |
| ElicitationFields.InFlightIff | src/acp_runner.rs:537-565 | a task is in flight from when it is taken until it is cleared or reset |
| ElicitationFields.EpochIs | src/acp_runner.rs:625-690 | a run's epoch rises by one when one is allocated, for a task of a worker too, and is forgotten with the run's last worker |
| ElicitationFields.LaunchIs | src/acp_runner.rs:523-535 | the launch counter rises by one with each launch and each advance; only a restore sets it |
| ElicitationFields.TombstoneIff | src/acp_runner.rs:523-735 | a tombstone stands until the next launch of its run |
| ElicitationFields.ActivatedIs | src/acp_runner.rs:523-872 | the launch taken last is remembered until the next launch of the run or its own reset |
| ElicitationFields.TakeIs | src/acp_runner.rs:835-872 | a task is taken exactly if its number is not zero, its run has no tombstone, and it was neither superseded nor taken before |
| ElicitationMaps.Registry.RegisterNew | src/acp_runner.rs:307-379 | nothing is registered in a cancelled epoch; otherwise the entry is in both indexes with a channel of its own, a long message cut at the last character boundary |
| ElicitationMaps.Registry.RemoveOne | src/acp_runner.rs:385-394 | the entry leaves both indexes, an empty list with it |
| ElicitationMaps.Registry.DeliverAnswer | src/acp_runner.rs:400-472 | an answer that fits removes the entry before it is sent; any other changes nothing |
| ElicitationMaps.Registry.CancelOneEpoch | src/acp_runner.rs:478-513 | each entry of the epoch goes with one cancel on its channel, and no other |
| ElicitationMaps.Registry.CleanUp | src/acp_runner.rs:633-666 | the worker's epoch goes, and with the run's last worker every epoch of the run |
| ElicitationMaps.Registry.GuardDrop | src/acp_runner.rs:921-947 | the bus marker goes unless it was deferred, then the worker is cleaned up |
| ElicitationMaps.Registry.Launch | src/acp_runner.rs:525-534 | the counter rises, the tombstone and the activation of the run go |
| ElicitationMaps.Registry.RestoreLaunch | src/acp_runner.rs:587-589 | the counter is put back to any value |
| ElicitationMaps.Registry.TombstoneOne | src/acp_runner.rs:705-716 | the run is tombstoned, nothing else changes |
| ElicitationMaps.Registry.AllocateEpoch | src/acp_runner.rs:674-678 | the run's epoch rises by one |
| ElicitationMaps.Registry.TryNextEpochBus | src/acp_runner.rs:835-872 | refused for zero, a tombstoned run and a superseded launch; otherwise marked in flight, with an epoch if it needs one |
| ElicitationMaps.Registry.ResetBusActivation | src/acp_runner.rs:560-565 | the marker goes, and the activation if it is this launch's |
| ToolChildren.Reachable | src/acp_runner.rs:760-796 | a registered process group stays reachable by a cancel of its run until its own deregistration or a take |
| ToolChildren.LiveIff | src/acp_runner.rs:760-796 | a group is live exactly from its registration to its own deregistration or a take of its run |
| ToolChildren.Children.Register | src/acp_runner.rs:760-770 | registering a group beside those already live |
| ToolChildren.Children.Deregister | src/acp_runner.rs:778-785 | removing only its own |
| ToolChildren.Children.Take | src/acp_runner.rs:794-796 | handing out all of a run's |
| Members.MemberBook.Open | src/acp_runner.rs:1849-1864 | refused for a closed key and an ended run; otherwise the member has the seat and the run |
| Members.MemberBook.Begin | src/acp_runner.rs:1890-1905 | a turn of an open member joins its turns in flight; of any other it is refused |
| Members.MemberBook.End | src/acp_runner.rs:1917-1924 | the turn leaves its own key's list, an empty list with it |
| Members.MemberBook.TakeKeys | src/acp_runner.rs:1784-1799 | the turns in flight of the selected keys are handed out, each once, and the keys go |
| Members.MemberBook.Close | src/acp_runner.rs:1928-1935 | the key is remembered as closed and its turns are handed out |
| Members.MemberBook.CloseAll | src/acp_runner.rs:1938-1951 | the run is remembered as ended and the turns of all its keys are handed out |
| MemberRuns.AlwaysAccounted | src/acp_runner.rs:1784-1951 | under every interleaving of the locked sections a started turn is in flight, or ended, or was handed out for cancellation: exactly one of the three |
| MemberRuns.SeatIs | src/acp_runner.rs:1849-1951 | who sits where: an open that is not refused seats the member anew, a close of its key or of the run it was last opened for unseats it, nothing else moves it |
| MemberRuns.BeginIff | src/acp_runner.rs:1890-1905 | a turn starts exactly if its member is seated and neither its key nor the member's run was closed, and goes on with that seat |
| MemberRuns.StepAccounted | src/acp_runner.rs:1784-1951 | what a close hands out was never handed out before and has not ended |
| MemberRuns.CloseTakesOwn | src/acp_runner.rs:1928-1935 | closing a key takes exactly its own turns in flight |
| MemberRuns.FinishTakesOwn | src/acp_runner.rs:1938-1951 | when each key is opened for one run, ending a run takes exactly that run's turns in flight |
| MemberRuns.FinishTakes | src/acp_runner.rs:1938-1951 | whatever keys were opened for, ending a run hands out a turn in flight if and only if its key is now recorded under that run |
| MemberRuns.SecondRunHides | src/acp_runner.rs:1849-1864 | a key opened for a second run hides its turns from the end of the first |
| MemberRuns.Ages | src/acp_runner.rs:1765-1772 | a tombstone is forgotten exactly when 4096 others were pushed since; closing it again does not renew it |
| MemberRuns.StaysClosed | src/acp_runner.rs:1765-1780 | until then nothing of a closed key opens or starts a turn |
| MemberRuns.StaysEnded | src/acp_runner.rs:1765-1780 | nor anything of an ended run |
| MemberRuns.CloseHolds | src/acp_runner.rs:1928-1935 | whatever happened before: a key closed for the first time opens no more and starts no turn until 4096 others are closed |
| MemberRuns.FinishHolds | src/acp_runner.rs:1938-1951 | the same for a run that ends |
| PiBanner.StripBanner | src/acp_runner.rs:1388-1430 | the loop terminates and is the specified strip |
| PiBanner.StripsFront | src/acp_runner.rs:1388-1430 | only a front part is removed, and what is left starts with no banner |
| PiBanner.StripsNothing | src/acp_runner.rs:1388-1430 | text is left as it is if and only if it starts with no banner |
| PiBanner.StripTwice | src/acp_runner.rs:1388-1430 | stripping what was stripped removes nothing more |
| PiBanner.BannerGoes | src/acp_runner.rs:1388-1430 | a printed banner goes whole, with its notice, and what follows is treated as if it had never been there |
| Bus.EmitIdempotent | src/bus.rs:591-645 | emitting a key again, whatever was emitted since, changes nothing and answers with the first row's id; a key never has two rows |
| Bus.PageConsistent | src/bus.rs:966-998 | a page is one read of the log as it was when its tail was taken, whatever commits meanwhile |
| Bus.PageExact | src/bus.rs:955-1026 | a page holds exactly the wanted rows between its cursors, and the cursor moves on or is at the tail |
| Bus.FollowedExact | src/bus.rs:955-1026 | following the cursor from 0 while others append reads exactly the wanted rows up to it, each once, in order |
| Bus.SweptTail | src/bus.rs:974-979 | a page sends its cursor back, to 0, if and only if the cursor is past the tail, as after a sweep of the newest rows; the rest is then read again |
| Bus.FollowedSwept | src/bus.rs:955-1026 | following the cursor from 0 while others append and rows are swept, a reader has after every visit each wanted row that is on the log up to its cursor; if no visit found the cursor past the tail, it read the rows in order, none twice |
| BusFilter.ExactFilter | src/bus.rs:1067-1100 | a filter without `@` or trailing wildcard is that type from any domain |
| BusFilter.WildMatches | src/bus.rs:1067-1100 | `prefix.*` is one more segment, `prefix.**` one or more, besides the literal pattern |
| BusFilter.DomainFilter | src/bus.rs:1067-1100 | a domain constrains the publisher, an empty one does not |
| Bus.FoundIff | src/bus.rs:742-785 | the scan finds a completion of the launch if and only if one is there with no unreadable completion before it, and it is the first |
| BusReads.PageRows | src/bus.rs:955-1026 | row by row: a page holds exactly the rows past its cursor, up to the next one, of the type prefix and not expired where the reader asks that, in order, at most a thousand |
| BusReads.FollowedRows | src/bus.rs:955-1026 | so does a reader that follows the cursor from 0 while others append |
| BusReads.FoundReads | src/bus.rs:742-785 | row by row: what the scan finds is a live completion of that launch past the floor, with none before it; it finds nothing exactly when there is none and every completion reads |
| BusPoller.BusDb.FindCompletedRow | src/bus.rs:742-785 | the scan, row by row |
| BusPoller.BusDb.EmitOn | src/bus.rs:591-645 | emitting in place |
| BusPoller.BusDb.PollRows | src/bus.rs:792-829 | the scan stops at a full batch |
| BusPoller.BusDb.ReadPage | src/bus.rs:955-1026 | one page, row by row |
| BusPoller.LaunchPoller.RunBatch | src/bus.rs:1443-1467 | the floor moves past what is settled and stops before what is not |
| BusPoller.NeverSkips | src/bus.rs:1417-1477 | from any start up to the last id given out, also below it after a sweep, at every turn of the loop each request committed after the start and up to the floor was launched, deduplicated or dropped for good, unless it had expired when polled; none beyond it was |
| BusPoller.RetriedFirst | src/bus.rs:1459-1466 | a request that failed for a passing reason stops the floor right before it |
| BusLaunch.LaunchFromEvent | src/bus.rs:1506-1621 | a payload that does not read, a bad confirm token and a skip beside a force are dropped; a launched or live run is announced and the request handled; a refusal drops it, a fault retries it, a stop or a gone actor ends the bridge |
| BusRetry.FaultRetried | src/bus.rs:1459-1617 | over any history of any number of bridges, a fit request the actor answers with a fault leaves floor, settled events and log as they were, and the next poll that is answered brings it first, unless it expired or was swept |
| BusRetry.FloorPassesNothing | src/bus.rs:1417-1617 | over any history, every request on the log that came after a bridge was armed and is not beyond its floor was done with for good by that bridge (started, live already, refused, or unfit), or had expired when the bridge polled |
| BusRetry.SettledDone | src/bus.rs:1506-1621 | an event a bridge counts as settled came after it was armed, is not beyond the floor, and was done with for good |
| BusRetry.HandleSays | src/bus.rs:1436-1467 | one event, case by case: what each payload and answer does to floor, settled events, batch and log |
| BusRetry.AnnouncedAs | src/bus.rs:1591-1636 | an announcement is the row that holds the run's key already, or one new row that names run, workflow and problem |
| BusLaunch.EmitRunLaunched | src/bus.rs:1625-1636 | a publish that succeeds emits one event keyed by the run; one that fails changes nothing |
| BusLaunch.BatchIsWork | src/bus.rs:1443-1467 | handling a batch request by request, others between, is the poller's turn over it with those outcomes |
| BusLaunch.LaunchedOnce | src/bus.rs:1417-1636 | over any history of any number of bridges, with redeliveries, failed polls and publishes, restarts, sweeps and other writers that announce nothing, each run has at most one announcement on the log |
| BusLaunch.HandledAnnounced | src/bus.rs:1591-1636 | a request handled and published leaves its run announced by exactly one row, given keys that tell runs apart |

## Left out

- Campaign events and observers, wall-clock fields and decision payloads beyond an approval's amendment: they steer nothing.
- One campaign per world: run ids of different campaigns never collide (`Names.TextInjective`), so campaigns meet only in the engine.
- Failures of the store inside a handler, and external launches that use a campaign's run ids.
- The engine's launch, resume, gate and cancel calls (src/actor.rs): arbitrary answers within their stated effects on sessions, in-flight runs and posted signals.
- Integer widths where the code does not wrap in reach: attempt counters, arrival numbers, epochs and byte totals are unbounded.
- CampaignTheorems.HistoryOneSessionPerRun: asks that each launch starts on unused run ids, for every node and attempt, because retries of the new campaign may reach any of them; for the launch alone CampaignRelaunch.RelaunchExact has the exact condition.
- CampaignCalm.HistoryFinalized: asks that each crash leaves every failure acted upon and is followed by a resume, because otherwise it fails (CampaignCrash.CrashThenResume, CrashLosesFailurePolicy).
- CampaignFills.HistoryPromoted: asks that a crash which leaves an ended campaign leaves none with a node to promote, because a resume leaves an ended campaign alone and a later retry may run it again (CampaignFills.EndedThenRetried).
- CampaignTheorems.HistoryNeverWedged: for histories without a crash; CampaignTheorems.ResumeUnwedges covers what follows one.
- How long a question was held, its ticket and its timeout: clock readings.
- JSON text is read and written by functions handed in; that reading back what was written gives the same list is assumed of them (`AskAnswer.Faithful`).
- TarRoundTrip.ArchiveBack: asks that every size fits its header field, because otherwise it fails (TarRoundTrip.ArchiveBackIff); mtimes are read back modulo 8^11.
- TarRoundTrip.ArchiveBackIff: asks for names and link targets without NUL, whose extended records are themselves below 8^11 bytes.
- The cut of a path to 100 characters before the cut to 100 bytes: the first 100 bytes are the same.
- Reading blobs from git and the returned digests of a copied tree: an item carries its bytes.
- Eviction.EvictionPlan: asks that volume names are distinct, as a container engine's are; byte totals do not overflow.
- Elicitation delivery: the channel is a list of messages sent; a worker that is gone is a parameter.
- The events around an elicitation (creation and resolution frames, and their suppression in src/actor.rs).
- Member turns themselves, their views and seats, and the cancellation calls made with what a close hands out.
- SQLite and its files: the log is a sequence of rows with ids that only grow; sweeps appear in `Bus.SweptTail`, `Bus.FollowedSwept`, `BusLaunch.LaunchedOnce` and `BusRetry`.
- BusPoller.NeverSkips: the clock does not step back between polls, and other processes only append; BusRetry.FloorPassesNothing asks neither.
- BusRetry.FaultRetried: the clock of the next poll is not before that of the last; rows that are swept or have expired are not retried.
- CampaignAnswers.HistoryAnswers: the answers of a turn that a crash cut off count as sent.
- What the actor answers to a launch request, the JSON of its payload and the parser of its human-confirm token are parameters of BusLaunch; the other fields of the launch steer nothing there.
- BusLaunch.HandledAnnounced: asks that the digest tells runs apart and that no other writer uses its keys; BusLaunch.LaunchedOnce asks neither.
- Durable cursors, stable owners and the exec-mediation consumer of src/bus.rs and src/cli_runner.rs: single statements over one row.
- Worker homes, name sanitizing, process kill and reap, and file-system code of src/acp_runner.rs: system effects.
