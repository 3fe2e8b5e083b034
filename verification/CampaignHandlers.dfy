/** The actor's campaign commands, each one step: load the campaign, edit it, persist it, and call
    the engine. The second result says whether the command was accepted. */
module CampaignHandlers {
  import opened Names
  import opened CampaignGraph
  import opened CampaignCycle
  import opened CampaignModel

  datatype Command =
    | Launch(def: Def)
    | RunFinished(run: RunId, outcome: Outcome)
    | NodeAwaiting(run: RunId)
    | ApproveGate(node: NodeId, amend: Option<string>)
    | RejectGate(node: NodeId)
    | Retry(node: NodeId)
    | Skip(node: NodeId)
    | Abort(node: NodeId)
    | Pause
    | Cancel
    | Resume

  predicate Ended(s: CampaignStatus) {
    s.CCompleted? || s.CFailed? || s.CCancelled?
  }

  predicate HasCampaign(w: World) {
    w.disk.saved.Some?
  }

  /** The campaign as every handler but `Launch` starts: read back from the store. */
  function Load(w: World): World
    requires HasCampaign(w)
  {
    w.(camp := w.disk.saved.value)
  }

  /** No further progress is possible: nothing runs, waits or can start. */
  ghost predicate Quiet(c: Campaign) {
    (forall n :: n in c.nodeStatus ==> !c.nodeStatus[n].Live()) && Dispatchable(c) == {}
  }

  ghost predicate AllCompleted(c: Campaign) {
    forall n :: n in c.nodeStatus ==> c.nodeStatus[n] == Completed
  }

  ghost function FinalizeIfDone(c: Campaign): Campaign {
    if c.status != CRunning || !Quiet(c) then c
    else if AllCompleted(c) then c.(status := CCompleted)
    else if c.failFastTripped then c.(status := CFailed)
    else c.(status := CPartiallyCompleted)
  }

  ghost function Finalize(w: World): World {
    Persist(w.(camp := FinalizeIfDone(w.camp)))
  }

  /** Fill the free slots, then finalize: how most handlers end. */
  ghost function FillAndFinalize(w: World, engine: Engine): (u: World)
    requires Defined(w.camp)
    ensures Defined(u.camp) && u.camp.def == w.camp.def
  {
    Finalize(TryFill(w, engine))
  }

  lemma PromoteDefined(c: Campaign)
    requires Defined(c)
    ensures Defined(PromoteReady(c))
  {
  }

  /** Promote, persist, fill, finalize. */
  ghost function PromoteAndFill(w: World, engine: Engine): (u: World)
    requires Defined(w.camp)
    ensures Defined(u.camp) && u.camp.def == w.camp.def
  {
    PromoteDefined(w.camp);
    FillAndFinalize(Persist(w.(camp := PromoteReady(w.camp))), engine)
  }

  // ── launch ──────────────────────────────────────────────────────────────────

  /** Refused for an invalid definition and over a campaign of this id that has not ended. */
  ghost function LaunchCampaign(w: World, def: Def, engine: Engine): (World, bool) {
    if !WellFormed(def) then (w, false)
    else if w.disk.saved.Some? && !Ended(w.disk.saved.value.status) && !w.disk.saved.value.status.CPartiallyCompleted? then (w, false)
    else (PromoteAndFill(Persist(w.(camp := FreshCampaign(def))), engine), true)
  }

  // ── the engine's signals ────────────────────────────────────────────────────

  /** The node whose recorded run this is, in a campaign that has not ended. */
  ghost function FindByRun(c: Campaign, r: RunId): Option<NodeId> {
    var owners := set n | n in c.nodeRunId && c.nodeRunId[n] == r;
    if Ended(c.status) || owners == {} then None else Some(Least(owners))
  }

  ghost function OnRunFinished(w: World, r: RunId, outcome: Outcome, engine: Engine): (World, bool)
    requires HasCampaign(w) && Defined(w.disk.saved.value)
  {
    var v := Load(w);
    match FindByRun(v.camp, r)
    case None => (w, true)
    case Some(n) =>
      if StatusIn(v.camp, n).Terminal() then (w, true)
      else (PromoteAndFill(ReconcileTerminal(v, n, outcome, engine), engine), true)
  }

  /** `denial_gate: auto_reject` answers an escalation gate; a refusal leaves the node waiting. */
  function AutoReject(w: World, r: RunId, engine: Engine): (u: World)
    ensures u.camp == w.camp
  {
    if w.camp.def.autoReject && engine(w.calls).escalated then ConfirmRun(Asked(w), r, Reject, engine).0
    else if w.camp.def.autoReject then Asked(w)
    else w
  }

  ghost function OnNodeAwaiting(w: World, r: RunId, engine: Engine): (World, bool)
    requires HasCampaign(w) && Defined(w.disk.saved.value)
  {
    var v := Load(w);
    match FindByRun(v.camp, r)
    case None => (w, true)
    case Some(n) =>
      if StatusIn(v.camp, n) != Running then (w, true)
      else (FillAndFinalize(AutoReject(Persist(SetNodeW(v, n, AwaitingHuman)), r, engine), engine), true)
  }

  // ── the operator's gate decisions ───────────────────────────────────────────

  ghost function Approved(w: World, n: NodeId, amend: Option<string>, engine: Engine): (World, bool)
    requires HasCampaign(w) && Defined(w.disk.saved.value)
  {
    var v := Load(w);
    if StatusIn(v.camp, n) != AwaitingHuman then (w, false)
    else
      var c := SetNode(v.camp, n, ReadyToResume).(decisions := v.camp.decisions[n := amend]);
      (FillAndFinalize(Persist(v.(camp := c)), engine), true)
  }

  /** The outcome a reject reconciles at once: a run that has ended, or that has no session. */
  function EndedOutcome(d: Disk, r: RunId): Option<Outcome> {
    if r !in d.sessions then Some(OFailed)
    else if d.sessions[r].Terminal() then Some(OutcomeOf(d.sessions[r]))
    else None
  }

  ghost function ReconcileRejected(w: World, n: NodeId, outcome: Outcome, engine: Engine): World
    requires Defined(w.camp)
  {
    PromoteAndFill(ReconcileTerminal(w, n, outcome, engine), engine)
  }

  /** Answer the gate; when the engine refuses, cancel a live run, or reconcile the node here. */
  ghost function Rejected(w: World, n: NodeId, engine: Engine): (World, bool)
    requires HasCampaign(w) && Defined(w.disk.saved.value)
  {
    var v := Load(w);
    if StatusIn(v.camp, n) != AwaitingHuman || n !in v.camp.nodeRunId then (w, false)
    else
      var r := v.camp.nodeRunId[n];
      var answered := ConfirmRun(v, r, Reject, engine);
      if answered.1 then (answered.0, true)
      else
        var u := answered.0.(inFlight := answered.0.inFlight - {r});
        match EndedOutcome(u.disk, r)
        case Some(outcome) => (ReconcileRejected(u, n, outcome, engine), false)
        case None =>
          var cancelled := CancelRun(u, r, engine);
          if cancelled.1 then (cancelled.0, true)
          else (ReconcileRejected(cancelled.0, n, OFailed, engine), false)
  }

  /** A fresh attempt of a failed node; the campaign runs again once no gate is left. */
  function Retried(c: Campaign, n: NodeId): Campaign {
    var gates := Dequeue(c.gates, n);
    SetNode(c, n, NodeStatus.Ready).(
    nodeAttempt := c.nodeAttempt[n := AttemptOf(c, n) + 1],
    gates := gates,
    status := if gates == [] then CRunning else c.status)
  }

  /** The failure stands: block what depends on it. */
  ghost function Skipped(c: Campaign, n: NodeId): Campaign {
    var gates := Dequeue(c.gates, n);
    var b := ApplyBlocking(SetNode(c, n, Failed).(gates := gates));
    b.(status := if gates == [] then CRunning else b.status)
  }

  lemma GateEditsDefined(c: Campaign, n: NodeId)
    requires Defined(c) && n in c.nodeStatus
    ensures Defined(Retried(c, n)) && Defined(Skipped(c, n))
  {
    BlockedAreUnstarted(SetNode(c, n, Failed).(gates := Dequeue(c.gates, n)));
  }

  /** Guard of the failure-gate arms: the node is queued. It does not look at the campaign's status. */
  predicate Gated(c: Campaign, n: NodeId) {
    n in c.gates && n in c.nodeStatus
  }

  ghost function RetryNode(w: World, n: NodeId, engine: Engine): (World, bool)
    requires HasCampaign(w) && Defined(w.disk.saved.value)
  {
    var v := Load(w);
    if !Gated(v.camp, n) then (w, false)
    else
      GateEditsDefined(v.camp, n);
      (FillAndFinalize(Persist(v.(camp := Retried(v.camp, n))), engine), true)
  }

  ghost function SkipNode(w: World, n: NodeId, engine: Engine): (World, bool)
    requires HasCampaign(w) && Defined(w.disk.saved.value)
  {
    var v := Load(w);
    if !Gated(v.camp, n) then (w, false)
    else
      GateEditsDefined(v.camp, n);
      var u := Persist(v.(camp := Skipped(v.camp, n)));
      PromoteDefined(u.camp);
      (FillAndFinalize(u.(camp := PromoteReady(u.camp)), engine), true)
  }

  ghost function AbortNode(w: World, n: NodeId, engine: Engine): (World, bool)
    requires HasCampaign(w)
  {
    var v := Load(w);
    if !Gated(v.camp, n) then (w, false)
    else (Finalize(FailFastAll(v.(camp := v.camp.(gates := Dequeue(v.camp.gates, n), status := CRunning)), engine)), true)
  }

  // ── pause, cancel, resume ───────────────────────────────────────────────────

  function PauseCampaign(w: World): (World, bool)
    requires HasCampaign(w)
  {
    var v := Load(w);
    if v.camp.status != CRunning then (w, true)
    else (Persist(v.(camp := v.camp.(status := CPaused))), true)
  }

  /** Set `Cancelled` first and persist it; then end every node and cancel every live run. */
  ghost function CancelCampaign(w: World, engine: Engine): (World, bool)
    requires HasCampaign(w)
  {
    var v := Load(w);
    if Ended(v.camp.status) then (w, true)
    else
      var u := Persist(v.(camp := v.camp.(status := CCancelled)));
      (CancelRuns(Persist(u.(camp := CancelNonTerminal(u.camp))), RunsOf(u.camp, LIVE), engine), true)
  }

  /** One node that was `Running` when the list was made: reconcile an ended run, launch a run that
      has no session, re-attach to any other. */
  ghost function Reattach(w: World, n: NodeId, r: RunId, engine: Engine): (u: World)
    requires Defined(w.camp)
    ensures Defined(u.camp) && u.camp.def == w.camp.def
  {
    if r in w.disk.sessions && w.disk.sessions[r].Terminal() then
      ReconcileTerminal(w, n, OutcomeOf(w.disk.sessions[r]), engine)
    else
      var started := if r in w.disk.sessions then ResumeRun(w, r, engine) else LaunchRun(w, r, engine);
      if started.1 then started.0 else ReconcileTerminal(started.0, n, OFailed, engine)
  }

  ghost function ReattachAll(w: World, runs: seq<(NodeId, RunId)>, engine: Engine): (u: World)
    requires Defined(w.camp)
    ensures Defined(u.camp) && u.camp.def == w.camp.def
    decreases |runs|
  {
    if runs == [] then w
    else ReattachAll(Reattach(w, runs[0].0, runs[0].1, engine), runs[1..], engine)
  }

  /** A gated node whose run has ended is reconciled; any other keeps waiting. */
  ghost function Regate(w: World, n: NodeId, r: RunId, engine: Engine): (u: World)
    requires Defined(w.camp)
    ensures Defined(u.camp) && u.camp.def == w.camp.def
  {
    if r in w.disk.sessions && w.disk.sessions[r].Terminal()
    then ReconcileTerminal(w, n, OutcomeOf(w.disk.sessions[r]), engine) else w
  }

  ghost function RegateAll(w: World, runs: seq<(NodeId, RunId)>, engine: Engine): (u: World)
    requires Defined(w.camp)
    ensures Defined(u.camp) && u.camp.def == w.camp.def
    decreases |runs|
  {
    if runs == [] then w
    else RegateAll(Regate(w, runs[0].0, runs[0].1, engine), runs[1..], engine)
  }

  function Unpaused(c: Campaign): Campaign {
    if c.status.CPaused? && c.gates == [] then c.(status := CRunning) else c
  }

  ghost function ResumeCampaign(w: World, engine: Engine): (World, bool)
    requires HasCampaign(w) && Defined(w.disk.saved.value)
  {
    var v := Load(w);
    if Ended(v.camp.status) then (w, true)
    else
      var u := Persist(v.(camp := Unpaused(v.camp)));
      var a := ReattachAll(u, RunsOf(u.camp, {Running}), engine);
      var b := RegateAll(a, RunsOf(a.camp, GATED), engine);
      (PromoteAndFill(b, engine), true)
  }

  // ── one command ─────────────────────────────────────────────────────────────

  /** A command is handled; all but `Launch` are refused when the store holds no campaign. */
  ghost function Handle(w: World, cmd: Command, engine: Engine): (World, bool)
    requires HasCampaign(w) ==> Defined(w.disk.saved.value)
  {
    if cmd.Launch? then LaunchCampaign(w, cmd.def, engine)
    else if !HasCampaign(w) then (w, false)
    else
      match cmd
      case RunFinished(r, outcome) => OnRunFinished(w, r, outcome, engine)
      case NodeAwaiting(r) => OnNodeAwaiting(w, r, engine)
      case ApproveGate(n, amend) => Approved(w, n, amend, engine)
      case RejectGate(n) => Rejected(w, n, engine)
      case Retry(n) => RetryNode(w, n, engine)
      case Skip(n) => SkipNode(w, n, engine)
      case Abort(n) => AbortNode(w, n, engine)
      case Pause => PauseCampaign(w)
      case Cancel => CancelCampaign(w, engine)
      case Resume => ResumeCampaign(w, engine)
  }
}
