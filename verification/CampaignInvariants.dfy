/** What every edit of a campaign keeps. */
module CampaignInvariants {
  import opened Names
  import opened CampaignGraph
  import opened CampaignCycle
  import opened CampaignModel
  import opened CampaignHandlers

  // ── the clauses ─────────────────────────────────────────────────────────────

  /** Every `OnSuccess` dependency of `n` completed. */
  ghost predicate DepsDone(c: Campaign, n: NodeId) {
    forall e :: e in c.def.edges && e.to == n && e.condition.OnSuccess? ==> StatusIn(c, e.from) == Completed
  }

  /** `n` is ready, has started, or waits at a failure gate. */
  ghost predicate Engaged(c: Campaign, n: NodeId) {
    StatusIn(c, n) == Ready || StatusIn(c, n).Live() || StatusIn(c, n) == Completed ||
    StatusIn(c, n) == Failed || n in c.gates
  }

  ghost predicate DepsOk(c: Campaign) {
    forall n :: n in c.nodeStatus && Engaged(c, n) ==> DepsDone(c, n)
  }

  ghost predicate Fallen(c: Campaign, n: NodeId) {
    StatusIn(c, n) == Failed || StatusIn(c, n) == Cancelled
  }

  /** Only a failed or cancelled node waits at a failure gate, and only under that policy. */
  ghost predicate GatesOk(c: Campaign) {
    (forall n :: n in c.gates ==> n in c.nodeStatus && Fallen(c, n)) &&
    (c.gates != [] ==> c.def.policy.HumanGateOnFailure?)
  }

  ghost predicate IsAttempt(c: Campaign, n: NodeId, r: RunId) {
    r.campaign == c.def.id && r.node == n && r.attempt <= AttemptOf(c, n)
  }

  /** A recorded run id belongs to its node; a live node's is its current attempt's. */
  ghost predicate RunIdsOk(c: Campaign) {
    (forall n :: n in c.nodeRunId ==> n in c.nodeStatus && c.nodeStatus[n] != Pending && IsAttempt(c, n, c.nodeRunId[n])) &&
    (forall n :: n in c.nodeStatus && c.nodeStatus[n].Live() ==> n in c.nodeRunId && c.nodeRunId[n] == DeriveRunId(c, n))
  }

  ghost predicate CapOk(c: Campaign) {
    |RunningNodes(c)| <= c.def.cap
  }

  ghost predicate NoLive(c: Campaign) {
    forall n :: n in c.nodeStatus ==> !c.nodeStatus[n].Live()
  }

  /** A finalized campaign has no live node, and `Completed` means every node completed. */
  ghost predicate EndedOk(c: Campaign) {
    (c.status.CCompleted? ==> AllCompleted(c)) &&
    (c.status.CFailed? || c.status.CPartiallyCompleted? ==> NoLive(c))
  }

  ghost predicate DecisionsOk(c: Campaign) {
    forall n :: n in c.nodeStatus && c.nodeStatus[n] == ReadyToResume ==> n in c.decisions
  }

  ghost predicate CampOk(c: Campaign) {
    DepsOk(c) && GatesOk(c) && RunIdsOk(c) && CapOk(c) && EndedOk(c) && DecisionsOk(c)
  }

  /** Nothing completed is undone, and attempts only grow. */
  ghost predicate Advances(b: Campaign, c: Campaign) {
    c.def == b.def &&
    (forall n :: StatusIn(b, n) == Completed ==> StatusIn(c, n) == Completed) &&
    forall n :: AttemptOf(b, n) <= AttemptOf(c, n)
  }

  // ── the edits ───────────────────────────────────────────────────────────────

  /** The dependency clause survives when nobody new engages over an unfinished dependency. */
  lemma DepsStep(c: Campaign, d: Campaign)
    requires DepsOk(c) && d.def == c.def && d.nodeStatus.Keys == c.nodeStatus.Keys
    requires forall n :: StatusIn(c, n) == Completed ==> StatusIn(d, n) == Completed
    requires forall n :: n in c.nodeStatus && Engaged(d, n) ==> Engaged(c, n) || DepsDone(c, n)
    ensures DepsOk(d)
  {
    forall n | n in d.nodeStatus && Engaged(d, n) ensures DepsDone(d, n) {
      assert DepsDone(c, n);
    }
  }

  lemma RunIdsStep(c: Campaign, d: Campaign)
    requires RunIdsOk(c) && d.def == c.def && d.nodeStatus.Keys == c.nodeStatus.Keys
    requires d.nodeRunId == c.nodeRunId && d.nodeAttempt == c.nodeAttempt
    requires forall n :: n in c.nodeStatus ==> (c.nodeStatus[n] != Pending ==> d.nodeStatus[n] != Pending) && (d.nodeStatus[n].Live() ==> c.nodeStatus[n].Live())
    ensures RunIdsOk(d)
  {
  }

  lemma FreshOk(def: Def)
    ensures CampOk(FreshCampaign(def))
  {
    var c := FreshCampaign(def);
    assert c.nodeStatus.Keys == Ids(def.nodes);
    assert RunningNodes(c) == {};
  }

  /** An eligible node's `OnSuccess` dependencies completed. */
  lemma EligibleDeps(c: Campaign, n: NodeId)
    requires Eligible(c.def.edges, c.nodeStatus, n) && StatusIn(c, n) == Pending
    ensures DepsDone(c, n)
  {
    forall e | e in c.def.edges && e.to == n && e.condition.OnSuccess? ensures StatusIn(c, e.from) == Completed {
      assert Satisfied(c.nodeStatus, e);
    }
  }

  /** Promotion moves exactly the pending nodes whose in-edges are satisfied. */
  lemma PromotesTo(c: Campaign)
    requires c.nodeStatus.Keys == Ids(c.def.nodes)
    ensures PromoteReady(c).nodeStatus.Keys == c.nodeStatus.Keys
    ensures forall n :: n in c.nodeStatus ==>
              StatusIn(PromoteReady(c), n) == if StatusIn(c, n) == Pending && Eligible(c.def.edges, c.nodeStatus, n) then Ready else StatusIn(c, n)
  {
  }

  /** ... and nothing but statuses. */
  lemma PromoteShape(c: Campaign)
    ensures var d := PromoteReady(c); d == c.(nodeStatus := d.nodeStatus)
  {
  }

  lemma PromoteOk(c: Campaign)
    requires CampOk(c) && c.nodeStatus.Keys == Ids(c.def.nodes)
    ensures CampOk(PromoteReady(c)) && Advances(c, PromoteReady(c))
  {
    var d := PromoteReady(c);
    PromotesTo(c);
    assert RunningNodes(d) == RunningNodes(c);
    forall n | n in c.nodeStatus && Engaged(d, n) && !Engaged(c, n) ensures DepsDone(c, n) {
      EligibleDeps(c, n);
    }
    DepsStep(c, d);
    RunIdsStep(c, d);
  }

  /** Moving nodes only between statuses that are neither live nor completed keeps the campaign. */
  ghost predicate OnlyCloses(c: Campaign, d: Campaign) {
    d.(nodeStatus := c.nodeStatus, failFastTripped := c.failFastTripped) == c && d.nodeStatus.Keys == c.nodeStatus.Keys &&
    forall n :: n in c.nodeStatus ==>
      d.nodeStatus[n] == c.nodeStatus[n] ||
      (d.nodeStatus[n] == Blocked && (c.nodeStatus[n] == Pending || c.nodeStatus[n] == Ready)) ||
      (d.nodeStatus[n] == Cancelled && !c.nodeStatus[n].Terminal())
  }

  lemma CloseOk(c: Campaign, d: Campaign)
    requires CampOk(c) && OnlyCloses(c, d)
    ensures CampOk(d) && Advances(c, d)
  {
    assert RunningNodes(d) <= RunningNodes(c);
    FewerRunning(d, c);
    DepsStep(c, d);
    RunIdsStep(c, d);
  }

  lemma FewerRunning(c: Campaign, d: Campaign)
    requires RunningNodes(c) <= RunningNodes(d)
    ensures |RunningNodes(c)| <= |RunningNodes(d)|
  {
    assert RunningNodes(d) == RunningNodes(c) + (RunningNodes(d) - RunningNodes(c));
  }

  lemma BlockingOk(c: Campaign)
    requires CampOk(c) && Defined(c)
    ensures CampOk(ApplyBlocking(c)) && Advances(c, ApplyBlocking(c))
  {
    BlockedAreUnstarted(c);
    CloseOk(c, ApplyBlocking(c));
  }

  lemma CancelAllOk(c: Campaign)
    requires CampOk(c)
    ensures CampOk(CancelNonTerminal(c)) && Advances(c, CancelNonTerminal(c))
    ensures CampOk(CancelNonTerminal(c).(failFastTripped := true)) && NoLive(CancelNonTerminal(c))
  {
    CloseOk(c, CancelNonTerminal(c));
    CloseOk(c, CancelNonTerminal(c).(failFastTripped := true));
  }

  /** A node that has a run, or is ready, ends. */
  lemma EndOk(c: Campaign, n: NodeId, s: NodeStatus)
    requires CampOk(c) && n in c.nodeStatus && (c.nodeStatus[n].Live() || c.nodeStatus[n] == Ready)
    requires s == Completed || s == Failed || s == Cancelled
    ensures CampOk(SetNode(c, n, s)) && Advances(c, SetNode(c, n, s))
  {
    var d := SetNode(c, n, s);
    assert RunningNodes(d) <= RunningNodes(c);
    FewerRunning(d, c);
    DepsStep(c, d);
    RunIdsStep(c, d);
  }

  lemma GateFailureOk(c: Campaign, n: NodeId)
    requires CampOk(c) && n in c.nodeStatus && Fallen(c, n) && DepsDone(c, n) && c.def.policy.HumanGateOnFailure?
    ensures CampOk(GateFailure(c, n)) && Advances(c, GateFailure(c, n))
    ensures forall m :: m in GateFailure(c, n).gates <==> m in c.gates || m == n
  {
    var d := GateFailure(c, n);
    assert RunningNodes(d) == RunningNodes(c);
    DepsStep(c, d);
    RunIdsStep(c, d);
  }

  /** The campaign a dispatch persists before it launches. */
  function Slotted(c: Campaign, n: NodeId): Campaign {
    SetNode(c, n, Running).(nodeRunId := c.nodeRunId[n := DeriveRunId(c, n)])
  }

  lemma SlotRunIds(c: Campaign, n: NodeId)
    requires RunIdsOk(c) && n in c.nodeStatus
    ensures RunIdsOk(Slotted(c, n))
  {
  }

  lemma DispatchableDeps(c: Campaign, n: NodeId)
    requires DepsOk(c) && n in Dispatchable(c) && n in c.nodeStatus
    ensures DepsDone(c, n)
  {
    if StatusIn(c, n) == Pending {
      EligibleDeps(c, n);
    } else {
      assert Engaged(c, n);
    }
  }

  lemma SlotCap(c: Campaign, n: NodeId)
    requires |RunningNodes(c)| < c.def.cap
    ensures CapOk(Slotted(c, n))
  {
    assert RunningNodes(Slotted(c, n)) == RunningNodes(c) + {n};
  }

  lemma SlotDeps(c: Campaign, n: NodeId)
    requires DepsOk(c) && n in Startable(c) && DepsDone(c, n)
    ensures DepsOk(Slotted(c, n)) && DepsDone(Slotted(c, n), n)
    ensures forall m :: StatusIn(c, m) == Completed ==> StatusIn(Slotted(c, n), m) == Completed
  {
    var d := Slotted(c, n);
    assert StatusIn(c, n) != Completed;
    DepsStep(c, d);
    assert StatusIn(d, n) == Running && DepsDone(d, n);
  }

  lemma SlotOk(c: Campaign, n: NodeId)
    requires CampOk(c) && n in Startable(c) && DepsDone(c, n) && |RunningNodes(c)| < c.def.cap
    requires c.status.CRunning? || c.status.CPaused?
    ensures CampOk(Slotted(c, n)) && Advances(c, Slotted(c, n))
    ensures DepsDone(Slotted(c, n), n)
  {
    hide DepsOk, DepsDone, RunIdsOk, CapOk;
    SlotDeps(c, n);
    SlotRunIds(c, n);
    SlotCap(c, n);
    assert GatesOk(Slotted(c, n));
  }

  /** Taking a stored decision out, while its node runs. */
  lemma DropDecisionOk(c: Campaign, n: NodeId)
    requires CampOk(c) && StatusIn(c, n) == Running
    ensures CampOk(c.(decisions := c.decisions - {n})) && Advances(c, c.(decisions := c.decisions - {n}))
  {
    SameNodesOk(c, c.(decisions := c.decisions - {n}));
  }

  /** An edit that leaves nodes, runs and attempts alone keeps the clauses that speak of them. */
  lemma SameNodesOk(c: Campaign, d: Campaign)
    requires CampOk(c)
    requires d.def == c.def && d.nodeStatus == c.nodeStatus && d.nodeRunId == c.nodeRunId && d.nodeAttempt == c.nodeAttempt
    requires forall n :: n in d.gates ==> n in c.gates
    requires EndedOk(d) && DecisionsOk(d)
    ensures CampOk(d) && Advances(c, d)
  {
    assert RunningNodes(d) == RunningNodes(c);
    DepsStep(c, d);
    assert c.gates == [] ==> d.gates == [] by {
      if d.gates != [] {
        assert d.gates[0] in c.gates;
      }
    }
    RunIdsStep(c, d);
  }

  lemma AwaitOk(c: Campaign, n: NodeId)
    requires CampOk(c) && StatusIn(c, n) == Running
    ensures CampOk(SetNode(c, n, AwaitingHuman)) && Advances(c, SetNode(c, n, AwaitingHuman))
  {
    var d := SetNode(c, n, AwaitingHuman);
    assert RunningNodes(d) <= RunningNodes(c);
    FewerRunning(d, c);
    LiveMoveOk(c, d, n);
  }

  lemma ApproveOk(c: Campaign, n: NodeId, amend: Option<string>)
    requires CampOk(c) && StatusIn(c, n) == AwaitingHuman
    ensures var d := SetNode(c, n, ReadyToResume).(decisions := c.decisions[n := amend]); CampOk(d) && Advances(c, d)
  {
    var d := SetNode(c, n, ReadyToResume).(decisions := c.decisions[n := amend]);
    assert RunningNodes(d) == RunningNodes(c);
    LiveMoveOk(c, d, n);
  }

  lemma LiveMoveOk(c: Campaign, d: Campaign, n: NodeId)
    requires CampOk(c) && StatusIn(c, n).Live() && n in c.nodeStatus
    requires d.(decisions := c.decisions) == SetNode(c, n, StatusIn(d, n)) && StatusIn(d, n).Live()
    requires CapOk(d) && DecisionsOk(d)
    ensures CampOk(d) && Advances(c, d)
  {
    DepsStep(c, d);
    RunIdsStep(c, d);
  }

  lemma RetriedRunIds(c: Campaign, n: NodeId)
    requires RunIdsOk(c) && n in c.nodeStatus
    ensures RunIdsOk(Retried(c, n))
  {
  }

  /** A queued node leaves the queue for `s`: neither live nor completed. */
  lemma LeaveGateOk(c: Campaign, d: Campaign, n: NodeId)
    requires CampOk(c) && Gated(c, n) && RunIdsOk(d)
    requires d.def == c.def && d.nodeStatus == c.nodeStatus[n := StatusIn(d, n)] && d.gates == Dequeue(c.gates, n) && d.decisions == c.decisions
    requires StatusIn(d, n) == Ready || StatusIn(d, n) == Failed
    requires d.status == c.status || d.status.CRunning?
    requires forall m :: AttemptOf(c, m) <= AttemptOf(d, m)
    ensures CampOk(d) && Advances(c, d)
  {
    assert RunningNodes(d) == RunningNodes(c);
    assert Fallen(c, n) && Engaged(c, n);
    DepsStep(c, d);
    assert d.gates != [] ==> c.gates != [];
  }

  lemma RetriedOk(c: Campaign, n: NodeId)
    requires CampOk(c) && Gated(c, n)
    ensures CampOk(Retried(c, n)) && Advances(c, Retried(c, n))
  {
    RetriedRunIds(c, n);
    LeaveGateOk(c, Retried(c, n), n);
  }

  lemma SkippedOk(c: Campaign, n: NodeId)
    requires CampOk(c) && Defined(c) && Gated(c, n)
    ensures CampOk(Skipped(c, n)) && Advances(c, Skipped(c, n))
  {
    var gates := Dequeue(c.gates, n);
    var d := SetNode(c, n, Failed).(gates := gates);
    assert Fallen(c, n);
    RunIdsStep(c, d);
    LeaveGateOk(c, d, n);
    BlockingOk(d);
    SameNodesOk(ApplyBlocking(d), Skipped(c, n)) by {
      StillUnfinished(d, n);
    }
  }

  /** Blocking leaves a failed node failed. */
  lemma StillUnfinished(d: Campaign, n: NodeId)
    requires Defined(d) && StatusIn(d, n) == Failed
    ensures StatusIn(ApplyBlocking(d), n) == Failed
  {
    BlockedAreUnstarted(d);
  }

  lemma FinalizeOk(c: Campaign)
    requires CampOk(c)
    ensures CampOk(FinalizeIfDone(c)) && Advances(c, FinalizeIfDone(c))
  {
    SameNodesOk(c, FinalizeIfDone(c));
  }

  /** A run id names at most one node of a campaign. */
  lemma OneOwner(c: Campaign, n: NodeId, m: NodeId)
    requires CampOk(c) && Defined(c) && n in c.nodeRunId && m in c.nodeRunId && c.nodeRunId[n] == c.nodeRunId[m]
    ensures n == m
  {
  }
}
