/** How failures propagate: what a campaign looks like once each failure has been acted upon, and what
    finalizing leaves behind. */
module CampaignFailure {
  import opened Names
  import opened CampaignGraph
  import opened CampaignCycle
  import opened CampaignModel
  import opened CampaignHandlers
  import opened CampaignInvariants
  import opened CampaignSafety
  import opened CampaignSteps
  import opened CampaignKeeps

  // ── every failure acted upon ────────────────────────────────────────────────

  ghost predicate AllTerminal(c: Campaign) {
    forall n :: n in c.nodeStatus ==> c.nodeStatus[n].Terminal()
  }

  /** No unstarted node waits on a failed, cancelled or blocked one, except behind an open gate. */
  ghost predicate OpenOk(c: Campaign) {
    forall e :: e in c.def.edges && e.condition.OnSuccess? && Blockable(c.nodeStatus, e.to) && Bad(c.def.nodes, c.nodeStatus, e.from) ==>
      e.from in c.gates
  }

  /** Under fail-fast, a failure has ended every node, and is remembered. */
  ghost predicate FailFastOk(c: Campaign) {
    c.def.policy.FailFast? && (exists n :: n in c.nodeStatus && Fallen(c, n)) ==>
      AllTerminal(c) && (c.failFastTripped || c.status.CCancelled?)
  }

  /** A campaign runs with an open gate only while an abort ends it. */
  ghost predicate GateStop(c: Campaign) {
    c.status.CRunning? ==> c.gates == [] || AllTerminal(c)
  }

  predicate Finalized(s: CampaignStatus) {
    s.CCompleted? || s.CPartiallyCompleted? || s.CFailed?
  }

  /** A finalized campaign is quiet unless a gate is still open, and only one whose nodes all completed
      is `Completed`. */
  ghost predicate StopOk(c: Campaign) {
    (Finalized(c.status) ==> c.gates != [] || Quiet(c)) &&
    (c.status.CPartiallyCompleted? || c.status.CFailed? ==> !AllCompleted(c))
  }

  ghost predicate Settled(c: Campaign) {
    OpenOk(c) && FailFastOk(c) && GateStop(c) && StopOk(c)
  }

  /** One node's failure is on record and has not been acted upon; but for that node, settled. */
  ghost predicate MidFailure(c: Campaign) {
    exists n :: n in c.nodeStatus && Fallen(c, n) && Settled(SetNode(c, n, Running))
  }

  ghost predicate Near(d: Disk) {
    d.saved.Some? ==> Settled(d.saved.value) || MidFailure(d.saved.value)
  }

  ghost predicate NearLog(w: World) {
    w.disk in w.log && forall d :: d in w.log ==> Near(d)
  }

  /** The campaign in memory is settled, and every campaign the store held is, or is one failure short. */
  ghost predicate Calm(w: World) {
    Settled(w.camp) && NearLog(w)
  }

  // ── edits ───────────────────────────────────────────────────────────────────

  /** A node that could still end shows that fail-fast has not tripped and nothing is quietly finalized. */
  lemma MovingNode(c: Campaign, n: NodeId)
    requires Settled(c) && n in c.nodeStatus && (c.nodeStatus[n].Live() || c.nodeStatus[n] == Ready) && n in c.def.nodes
    ensures c.def.policy.FailFast? ==> forall m :: m in c.nodeStatus ==> !Fallen(c, m)
    ensures c.status.CRunning? ==> c.gates == []
    ensures Finalized(c.status) ==> c.gates != []
  {
    if c.nodeStatus[n] == Ready {
      assert n in Dispatchable(c);
    }
  }

  lemma GatesUnfinished(c: Campaign)
    requires GatesOk(c) && c.gates != []
    ensures !AllCompleted(c) && c.def.policy.HumanGateOnFailure?
  {
    assert c.gates[0] in c.gates && Fallen(c, c.gates[0]);
  }

  /** A node that completes, or moves among live statuses, leaves the campaign settled. */
  lemma SettledMove(c: Campaign, n: NodeId, s: NodeStatus)
    requires Settled(c) && GatesOk(c) && n in c.nodeStatus && (c.nodeStatus[n].Live() || c.nodeStatus[n] == Ready) && n in c.def.nodes
    requires s.Live() || s == Completed
    ensures Settled(SetNode(c, n, s))
  {
    var d := SetNode(c, n, s);
    MovingNode(c, n);
    assert OpenOk(d) by {
      forall e | e in d.def.edges && e.condition.OnSuccess? && Blockable(d.nodeStatus, e.to) && Bad(d.def.nodes, d.nodeStatus, e.from)
        ensures e.from in d.gates
      {
        assert Blockable(c.nodeStatus, e.to) && Bad(c.def.nodes, c.nodeStatus, e.from);
      }
    }
    if Finalized(d.status) {
      GatesUnfinished(c);
      assert !AllCompleted(d) by {
        assert c.gates[0] in c.gates && Fallen(c, c.gates[0]) && Fallen(d, c.gates[0]);
      }
    }
  }

  lemma FailedIsNear(c: Campaign, n: NodeId, s: NodeStatus)
    requires Settled(c) && GatesOk(c) && n in c.nodeStatus && (c.nodeStatus[n].Live() || c.nodeStatus[n] == Ready) && n in c.def.nodes
    requires s == Failed || s == Cancelled
    ensures MidFailure(SetNode(c, n, s))
  {
    SettledMove(c, n, Running);
    assert SetNode(SetNode(c, n, s), n, Running) == SetNode(c, n, Running);
    assert Fallen(SetNode(c, n, s), n);
  }

  /** Blocking closes the graph: afterwards no unstarted node waits on a bad one. */
  lemma BlockingCloses(c: Campaign)
    requires Defined(c)
    ensures var d := ApplyBlocking(c);
            forall e :: e in d.def.edges && e.condition.OnSuccess? && Blockable(d.nodeStatus, e.to) ==> !Bad(d.def.nodes, d.nodeStatus, e.from)
  {
    var d := ApplyBlocking(c);
    BlockedAreUnstarted(c);
    BlockedNodesClosed(c.def.nodes, c.def.edges, c.nodeStatus);
    forall e | e in d.def.edges && e.condition.OnSuccess? && Blockable(d.nodeStatus, e.to)
      ensures !Bad(d.def.nodes, d.nodeStatus, e.from)
    {
      assert Blockable(c.nodeStatus, e.to) && e.to !in BlockedIn(c);
      assert Bad(d.def.nodes, d.nodeStatus, e.from) ==> Bad(c.def.nodes, c.nodeStatus, e.from) || e.from in BlockedIn(c);
    }
  }

  /** Ending every node settles a campaign that fail-fast or an abort stops. */
  lemma CancelAllSettles(c: Campaign)
    requires Defined(c) && (Finalized(c.status) ==> c.gates != [] && GatesOk(c))
    ensures Settled(CancelNonTerminal(c).(failFastTripped := true))
  {
    var d := CancelNonTerminal(c).(failFastTripped := true);
    if Finalized(c.status) {
      var g := c.gates[0];
      assert g in c.gates && Fallen(c, g) && d.nodeStatus[g] == c.nodeStatus[g];
      assert !AllCompleted(d);
    }
  }

  // ── writes and engine calls ─────────────────────────────────────────────────

  lemma CalmPersist(w: World)
    requires Calm(w)
    ensures Calm(Persist(w))
  {
    assert Near(Persist(w).disk);
  }

  lemma NearStep(w: World, u: World, r: RunId)
    requires NearLog(w) && EngineStep(w, u, r)
    ensures NearLog(u)
  {
    assert Near(w.disk) && Near(u.disk);
  }

  lemma CalmStep(w: World, u: World, r: RunId)
    requires Calm(w) && EngineStep(w, u, r)
    ensures Calm(u)
  {
    NearStep(w, u, r);
  }

  lemma {:induction false} CalmCancelRuns(w: World, runs: seq<(NodeId, RunId)>, engine: Engine)
    requires Calm(w)
    ensures Calm(CancelRuns(w, runs, engine))
    decreases |runs|
  {
    if runs != [] {
      var r := runs[0].1;
      CancelStep(w, r, engine);
      var u := CancelRun(w, r, engine).0;
      CalmStep(w, u, r);
      CalmCancelRuns(u.(inFlight := u.inFlight - {r}), runs[1..], engine);
    }
  }

  lemma CalmFailFast(w: World, engine: Engine)
    requires NearLog(w) && Defined(w.camp) && GatesOk(w.camp) && (Finalized(w.camp.status) ==> w.camp.gates != [])
    ensures Calm(FailFastAll(w, engine))
  {
    var u := w.(camp := CancelNonTerminal(w.camp).(failFastTripped := true));
    CancelAllSettles(w.camp);
    CalmPersist(u);
    CalmCancelRuns(Persist(u), RunsOf(w.camp, LIVE), engine);
  }

  /** A failure acted upon: the campaign is settled again. */
  lemma CalmPolicy(c: Campaign, w: World, n: NodeId, engine: Engine)
    requires Settled(c) && GatesOk(c) && n in c.nodeStatus && (c.nodeStatus[n].Live() || c.nodeStatus[n] == Ready) && n in c.def.nodes
    requires NearLog(w) && Defined(w.camp) && GatesOk(w.camp) && Fallen(w.camp, n) && w.camp == SetNode(c, n, StatusIn(w.camp, n))
    ensures Calm(ApplyFailurePolicy(w, n, engine))
  {
    MovingNode(c, n);
    match w.camp.def.policy
    case FailFast => CalmFailFast(w, engine);
    case ContinueIndependent => BlockingCloses(w.camp);
    case HumanGateOnFailure => GateSettles(c, w.camp, n);
  }

  lemma GateSettles(c: Campaign, d: Campaign, n: NodeId)
    requires Settled(c) && n in c.nodeStatus && (c.nodeStatus[n].Live() || c.nodeStatus[n] == Ready)
    requires Fallen(d, n) && d == SetNode(c, n, StatusIn(d, n)) && d.def.policy.HumanGateOnFailure?
    ensures Settled(GateFailure(d, n))
  {
    var g := GateFailure(d, n);
    assert forall m :: m in g.gates <==> m in c.gates || m == n;
    assert n in g.gates && !AllCompleted(g);
    forall e | e in g.def.edges && e.condition.OnSuccess? && Blockable(g.nodeStatus, e.to) && Bad(g.def.nodes, g.nodeStatus, e.from)
      ensures e.from in g.gates
    {
      if e.from != n {
        assert Blockable(c.nodeStatus, e.to) && Bad(c.def.nodes, c.nodeStatus, e.from);
      }
    }
  }

  lemma CalmEnd(w: World, n: NodeId, outcome: Outcome, engine: Engine)
    requires Calm(w) && Defined(w.camp) && CampOk(w.camp) && n in w.camp.nodeStatus && (w.camp.nodeStatus[n].Live() || w.camp.nodeStatus[n] == Ready)
    ensures Calm(EndNode(w, n, outcome, engine))
  {
    if outcome == OCompleted {
      SettledMove(w.camp, n, Completed);
      CalmPersist(SetNodeW(w, n, Completed));
    } else {
      CalmFailed(w, n, outcome.AsNodeStatus(), engine);
    }
  }

  lemma CalmFailed(w: World, n: NodeId, s: NodeStatus, engine: Engine)
    requires Calm(w) && Defined(w.camp) && CampOk(w.camp) && n in w.camp.nodeStatus && (w.camp.nodeStatus[n].Live() || w.camp.nodeStatus[n] == Ready)
    requires s == Failed || s == Cancelled
    ensures Calm(ApplyFailurePolicy(Persist(SetNodeW(w, n, s)), n, engine))
  {
    var u := Persist(SetNodeW(w, n, s));
    EndOk(w.camp, n, s);
    FailedIsNear(w.camp, n, s);
    assert Near(u.disk) && NearLog(u);
    CalmPolicy(w.camp, u, n, engine);
  }

  lemma CalmReconcile(w: World, n: NodeId, outcome: Outcome, engine: Engine)
    requires Calm(w) && Defined(w.camp) && CampOk(w.camp) && StatusIn(w.camp, n) != Pending
    ensures Calm(ReconcileTerminal(w, n, outcome, engine))
  {
    if n in w.camp.nodeStatus && !StatusIn(w.camp, n).Terminal() {
      CalmEnd(w, n, outcome, engine);
    }
  }

  // ── what finalizing leaves behind ───────────────────────────────────────────

  /** Why a pending node can never start: an edge nothing will satisfy any more. */
  ghost predicate Cause(c: Campaign, e: Edge) {
    e in c.def.edges &&
    ((e.condition.OnTerminal? && StatusIn(c, e.from) == Blocked) ||
     (e.condition.OnSuccess? && (Fallen(c, e.from) || StatusIn(c, e.from) == Blocked)))
  }

  /** A path of pending nodes from the target of such an edge. */
  ghost predicate StuckPath(c: Campaign, e: Edge, p: seq<NodeId>) {
    Cause(c, e) && |p| >= 1 && p[0] == e.to && Walk(c.def.edges, p) &&
    forall i :: 0 <= i < |p| ==> StatusIn(c, p[i]) == Pending
  }

  ghost predicate Stuck(c: Campaign, n: NodeId) {
    exists e, p :: StuckPath(c, e, p) && p[|p| - 1] == n
  }

  lemma StuckNext(c: Campaign, e: Edge)
    requires e in c.def.edges && StatusIn(c, e.to) == Pending && Stuck(c, e.from)
    ensures Stuck(c, e.to)
  {
    var x, p :| StuckPath(c, x, p) && p[|p| - 1] == e.from;
    var q := p + [e.to];
    assert Linked(c.def.edges, e.from, e.to);
    forall i | 1 <= i < |q| ensures Linked(c.def.edges, q[i - 1], q[i]) {
      if i < |p| {
        assert Linked(c.def.edges, p[i - 1], p[i]);
      }
    }
    assert StuckPath(c, x, q) && q[|q| - 1] == e.to;
  }

  /** A pending node of a quiet campaign waits on a cause, or on another pending node. */
  lemma PendingWaits(c: Campaign, n: NodeId) returns (e: Edge)
    requires Defined(c) && Quiet(c) && n in c.nodeStatus && c.nodeStatus[n] == Pending
    ensures e in c.def.edges && e.to == n && (Stuck(c, n) || StatusIn(c, e.from) == Pending)
  {
    assert n !in Dispatchable(c);
    assert !Eligible(c.def.edges, c.nodeStatus, n);
    e :| e in c.def.edges && e.to == n && !Satisfied(c.nodeStatus, e);
    var m := e.from;
    assert m in c.nodeStatus && m !in Dispatchable(c);
    if c.nodeStatus[m] != Pending {
      assert c.nodeStatus[m] != Ready;
      assert Cause(c, e) && StuckPath(c, e, [n]);
    }
  }

  /** In a quiet campaign on an acyclic definition, every node is terminal except the pending ones
      behind an edge that can never be satisfied. */
  lemma QuietStuck(c: Campaign, n: NodeId)
    requires Defined(c) && Quiet(c) && n in c.nodeStatus
    ensures !c.nodeStatus[n].Terminal() <==> Stuck(c, n)
  {
    assert n !in Dispatchable(c);
    if !c.nodeStatus[n].Terminal() && !Stuck(c, n) {
      var s := set m | m in c.nodeStatus && c.nodeStatus[m] == Pending && !Stuck(c, m);
      assert c.nodeStatus[n] == Pending && n in s;
      forall m {:trigger HasPredecessor(c.def.edges, s, m)} | m in s ensures HasPredecessor(c.def.edges, s, m) {
        var e := PendingWaits(c, m);
        if Stuck(c, e.from) {
          StuckNext(c, e);
        }
        assert e.from in s && Linked(c.def.edges, e.from, m);
      }
      PredecessorsCycle(c.def.edges, s);
    }
  }

  /** With every failure acted upon, only an open gate or an `OnTerminal` edge from a blocked node can
      strand a node: with `OnSuccess` edges alone and no gate open, every node of a finalized campaign is
      terminal. */
  lemma SettledCause(c: Campaign, e: Edge)
    requires Defined(c) && OpenOk(c) && Cause(c, e) && StatusIn(c, e.to) == Pending
    ensures e.from in c.gates || (e.condition.OnTerminal? && StatusIn(c, e.from) == Blocked)
  {
    assert e.from in c.def.nodes;
  }
}
