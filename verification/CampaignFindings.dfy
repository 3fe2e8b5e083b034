/** Where the driver falls short of what its comments promise: for each promise that fails, the inputs
    on which it fails, and the condition under which it holds. */
module CampaignFindings {
  import opened Names
  import opened CampaignGraph
  import opened CampaignCycle
  import opened CampaignModel
  import opened CampaignHandlers
  import opened CampaignInvariants
  import opened CampaignSafety
  import opened CampaignSteps
  import opened CampaignKeeps
  import opened CampaignResume
  import opened CampaignFailure

  // ── skip and the other gates ────────────────────────────────────────────────

  /** Skipping one failed node blocks the unstarted success-dependents of every other node still
      waiting at its gate, although a retry of that node may yet succeed. */
  lemma SkipBlocksOtherGates(c: Campaign, skipped: NodeId, waiting: NodeId, dependent: NodeId)
    requires Defined(c) && CampOk(c) && Gated(c, skipped) && Gated(c, waiting) && skipped != waiting
    requires Edge(waiting, dependent, OnSuccess) in c.def.edges && Blockable(c.nodeStatus, dependent)
    ensures waiting in Skipped(c, skipped).gates
    ensures StatusIn(Skipped(c, skipped), dependent) == Blocked
  {
    hide DepsOk, RunIdsOk, CapOk, EndedOk, DecisionsOk, WellFormed;
    var x := SetNode(c, skipped, Failed).(gates := Dequeue(c.gates, skipped));
    assert Fallen(c, skipped) && Fallen(c, waiting);
    assert dependent != skipped;
    ExtendPath(x.def.nodes, x.def.edges, x.nodeStatus, Edge(waiting, dependent, OnSuccess));
    assert dependent in BlockedIn(x);
  }

  /** A chain of `OnSuccess` edges from `g` through nodes that have not started. */
  ghost predicate Chain(c: Campaign, p: seq<NodeId>) {
    |p| >= 2 && forall i :: 1 <= i < |p| ==> Spreads(c.def.edges, c.nodeStatus, p[i - 1], p[i])
  }

  ghost predicate Reaches(c: Campaign, g: NodeId, m: NodeId) {
    exists p :: Chain(c, p) && p[0] == g && p[|p| - 1] == m
  }

  lemma ReachesNext(c: Campaign, g: NodeId, a: NodeId, b: NodeId)
    requires Spreads(c.def.edges, c.nodeStatus, a, b) && (g == a || Reaches(c, g, a))
    ensures Reaches(c, g, b)
  {
    if g == a {
      assert Chain(c, [a, b]);
    } else {
      var p :| Chain(c, p) && p[0] == g && p[|p| - 1] == a;
      var q := p + [b];
      forall i | 1 <= i < |q| ensures Spreads(c.def.edges, c.nodeStatus, q[i - 1], q[i]) {
        if i < |p| {
          assert Spreads(c.def.edges, c.nodeStatus, p[i - 1], p[i]);
        }
      }
      assert Chain(c, q) && q[0] == g && q[|q| - 1] == b;
    }
  }

  /** Before and after the gate is answered, the same nodes spread blocking and the same ones can be hit. */
  lemma SkipGraph(c: Campaign, n: NodeId)
    requires GatesOk(c) && Gated(c, n)
    ensures var x := SetNode(c, n, Failed).(gates := Dequeue(c.gates, n));
            (forall m :: Bad(c.def.nodes, x.nodeStatus, m) <==> Bad(c.def.nodes, c.nodeStatus, m)) &&
            (forall m :: Blockable(x.nodeStatus, m) <==> Blockable(c.nodeStatus, m)) && Bad(c.def.nodes, c.nodeStatus, n)
  {
    assert Fallen(c, n);
  }

  /** With every failure acted upon, skipping `n` blocks an unstarted node exactly when a chain of
      `OnSuccess` edges from some gated node reaches it, be it `n` or another that waits for its answer. */
  lemma SkipBlocks(c: Campaign, n: NodeId, m: NodeId)
    requires Defined(c) && CampOk(c) && OpenOk(c) && Gated(c, n) && Blockable(c.nodeStatus, m)
    ensures StatusIn(Skipped(c, n), m) == Blocked <==> exists g :: g in c.gates && Reaches(c, g, m)
  {
    hide DepsOk, RunIdsOk, CapOk, EndedOk, DecisionsOk, WellFormed;
    var x := SetNode(c, n, Failed).(gates := Dequeue(c.gates, n));
    SkipGraph(c, n);
    SkipDooms(c, n, m);
    if Doomed(x.def.nodes, x.def.edges, x.nodeStatus, m) {
      var p :| BlockPath(x.def.nodes, x.def.edges, x.nodeStatus, p) && p[|p| - 1] == m;
      forall i | 1 <= i < |p| ensures Spreads(c.def.edges, c.nodeStatus, p[i - 1], p[i]) {
        assert Spreads(x.def.edges, x.nodeStatus, p[i - 1], p[i]);
      }
      assert Spreads(c.def.edges, c.nodeStatus, p[0], p[1]);
      assert Chain(c, p) && p[0] in c.gates;
    }
    if exists g :: g in c.gates && Reaches(c, g, m) {
      var g :| g in c.gates && Reaches(c, g, m);
      var p :| Chain(c, p) && p[0] == g && p[|p| - 1] == m;
      forall i | 1 <= i < |p| ensures Spreads(x.def.edges, x.nodeStatus, p[i - 1], p[i]) {
        assert Spreads(c.def.edges, c.nodeStatus, p[i - 1], p[i]);
      }
      assert Fallen(c, g) && Bad(x.def.nodes, x.nodeStatus, g);
      assert BlockPath(x.def.nodes, x.def.edges, x.nodeStatus, p);
    }
  }

  lemma SkipDooms(c: Campaign, n: NodeId, m: NodeId)
    requires Defined(c) && GatesOk(c) && Gated(c, n) && Blockable(c.nodeStatus, m)
    ensures var x := SetNode(c, n, Failed).(gates := Dequeue(c.gates, n));
            StatusIn(Skipped(c, n), m) == Blocked <==> Doomed(x.def.nodes, x.def.edges, x.nodeStatus, m)
  {
    var x := SetNode(c, n, Failed).(gates := Dequeue(c.gates, n));
    SkipGraph(c, n);
    assert StatusIn(x, m) != Blocked;
    assert m in BlockedIn(x) <==> InBlocked(x.def.nodes, x.def.edges, x.nodeStatus, m);
  }

  /** The exact condition: skipping `n` blocks a node that no chain from `n` reaches if and only if another
      gated node has an unstarted `OnSuccess` dependent that no chain from `n` reaches. */
  lemma SkipReachesFurther(c: Campaign, n: NodeId)
    requires Defined(c) && CampOk(c) && OpenOk(c) && Gated(c, n)
    ensures (exists m :: Blockable(c.nodeStatus, m) && !Reaches(c, n, m) && StatusIn(Skipped(c, n), m) == Blocked)
            <==> exists g, m :: g in c.gates && g != n && Spreads(c.def.edges, c.nodeStatus, g, m) && !Reaches(c, n, m)
  {
    hide CampOk, Skipped, WellFormed, OpenOk;
    if m :| Blockable(c.nodeStatus, m) && !Reaches(c, n, m) && StatusIn(Skipped(c, n), m) == Blocked {
      SkipBlocks(c, n, m);
      var g :| g in c.gates && Reaches(c, g, m);
      var p :| Chain(c, p) && p[0] == g && p[|p| - 1] == m;
      FirstUnreached(c, n, p);
    }
    if g, m :| g in c.gates && g != n && Spreads(c.def.edges, c.nodeStatus, g, m) && !Reaches(c, n, m) {
      SkipBlocks(c, n, m);
      ReachesNext(c, g, g, m);
    }
  }

  /** If no chain from `n` reaches the end of a chain, none reaches its second node. */
  lemma {:induction false} FirstUnreached(c: Campaign, n: NodeId, p: seq<NodeId>)
    requires Chain(c, p) && !Reaches(c, n, p[|p| - 1])
    ensures Spreads(c.def.edges, c.nodeStatus, p[0], p[1]) && !Reaches(c, n, p[1])
    decreases |p|
  {
    var k := |p| - 1;
    assert Spreads(c.def.edges, c.nodeStatus, p[k - 1], p[k]);
    if k > 1 {
      if Reaches(c, n, p[k - 1]) {
        ReachesNext(c, n, p[k - 1], p[k]);
      }
      forall i | 1 <= i < k ensures Spreads(c.def.edges, c.nodeStatus, p[..k][i - 1], p[..k][i]) {
        assert Spreads(c.def.edges, c.nodeStatus, p[i - 1], p[i]);
      }
      FirstUnreached(c, n, p[..k]);
    }
  }

  /** Nothing unblocks a node: the retry of the other gate cannot bring its dependents back. */
  lemma BlockedForGood(c: Campaign, n: NodeId, m: NodeId)
    requires Defined(c) && CampOk(c) && StatusIn(c, n) == Blocked && Gated(c, m)
    ensures StatusIn(Retried(c, m), n) == Blocked && n !in Dispatchable(Retried(c, m))
  {
    assert Fallen(c, m) && n != m;
  }

  // ── late signals of an earlier attempt ──────────────────────────────────────

  /** A signal of an attempt before the current one is dropped, unless the node was retried and has not
      started again: then it ends the retried node. */
  lemma StaleSignal(w: World, r: RunId, outcome: Outcome, engine: Engine)
    requires w.disk.saved.Some? && Defined(w.disk.saved.value) && CampOk(w.disk.saved.value)
    requires r.node in w.disk.saved.value.nodeStatus && r.attempt < AttemptOf(w.disk.saved.value, r.node)
    ensures var c := w.disk.saved.value;
            var hits := !Ended(c.status) && StatusIn(c, r.node) == Ready && r.node in c.nodeRunId && c.nodeRunId[r.node] == r;
            if hits then OnRunFinished(w, r, outcome, engine).0 == PromoteAndFill(EndNode(Load(w), r.node, outcome, engine), engine)
            else OnRunFinished(w, r, outcome, engine).0 == w
  {
    hide FindByRun, PromoteAndFill, EndNode, WellFormed, CampOk;
    StaleOwner(w.disk.saved.value, r);
  }

  /** The node an earlier attempt's signal finds: one that records that run, and is then not live. */
  lemma StaleOwner(c: Campaign, r: RunId)
    requires CampOk(c) && r.node in c.nodeStatus && r.attempt < AttemptOf(c, r.node)
    ensures FindByRun(c, r) == if !Ended(c.status) && r.node in c.nodeRunId && c.nodeRunId[r.node] == r then Some(r.node) else None
    ensures r.node in c.nodeRunId && c.nodeRunId[r.node] == r ==> StatusIn(c, r.node) == Ready || StatusIn(c, r.node).Terminal()
  {
    hide DepsOk, GatesOk, CapOk, EndedOk, DecisionsOk;
    FoundOwner(c, r);
    var owners := set n | n in c.nodeRunId && c.nodeRunId[n] == r;
    if r.node in c.nodeRunId && c.nodeRunId[r.node] == r {
      assert r.node in owners;
      assert c.nodeStatus[r.node].Live() ==> r == DeriveRunId(c, r.node);
    }
  }

  // ── resuming in the same process ────────────────────────────────────────────

  /** Re-attaching a running node whose run is alive, with an engine that accepts everything: the node
      keeps running exactly when the run is not in flight in this process. A pause followed by a resume
      fails every node whose worker is still busy. */
  lemma ReattachBusy(w: World, n: NodeId, r: RunId, engine: Engine)
    requires Defined(w.camp) && StatusIn(w.camp, n) == Running && n in w.camp.nodeStatus
    requires r in w.disk.sessions && !w.disk.sessions[r].Terminal()
    requires forall k :: engine(k).ok
    ensures StatusIn(Reattach(w, n, r, engine).camp, n) == Running <==> r !in w.inFlight
    ensures r in w.inFlight ==> StatusIn(Reattach(w, n, r, engine).camp, n) == Failed
  {
    if r in w.inFlight {
      EndNodeEnds(w, n, OFailed, engine);
    }
  }

  lemma FailFastCamp(w: World, engine: Engine)
    ensures FailFastAll(w, engine).camp == CancelNonTerminal(w.camp).(failFastTripped := true)
  {
  }

  /** The failure policy moves only nodes that are not terminal, and only to `Blocked` or `Cancelled`. */
  lemma PolicyMoves(w: World, n: NodeId, engine: Engine)
    requires Defined(w.camp)
    ensures var c := ApplyFailurePolicy(w, n, engine).camp;
            c.nodeStatus.Keys == w.camp.nodeStatus.Keys &&
            forall m :: m in c.nodeStatus ==>
              c.nodeStatus[m] == w.camp.nodeStatus[m] || (!w.camp.nodeStatus[m].Terminal() && (c.nodeStatus[m] == Blocked || c.nodeStatus[m] == Cancelled))
  {
    match w.camp.def.policy
    case FailFast => FailFastCamp(w, engine);
    case ContinueIndependent => BlockedAreUnstarted(w.camp);
    case HumanGateOnFailure =>
  }

  lemma EndNodeEnds(w: World, n: NodeId, outcome: Outcome, engine: Engine)
    requires Defined(w.camp) && n in w.camp.nodeStatus
    ensures StatusIn(EndNode(w, n, outcome, engine).camp, n) == outcome.AsNodeStatus()
  {
    PolicyMoves(Persist(SetNodeW(w, n, outcome.AsNodeStatus())), n, engine);
  }

  /** The re-attach list outlives fail-fast: a listed node that an earlier entry's failure cancelled is
      launched all the same when its run has no session yet. */
  lemma ReattachLaunchesCancelled(w: World, a: NodeId, ra: RunId, b: NodeId, rb: RunId, engine: Engine)
    requires Defined(w.camp) && w.camp.def.policy.FailFast? && a != b && ra != rb
    requires StatusIn(w.camp, a) == Running && StatusIn(w.camp, b) == Running
    requires RunsOf(w.camp, LIVE) == [(a, ra), (b, rb)]
    requires ra in w.disk.sessions && w.disk.sessions[ra].SFailed? && rb !in w.disk.sessions && rb !in w.inFlight
    requires forall k :: engine(k).ok && engine(k).status.SExecuting?
    ensures var u := ReattachAll(w, [(a, ra), (b, rb)], engine);
            StatusIn(u.camp, b) == Cancelled && rb in u.disk.sessions && u.disk.sessions[rb].SExecuting?
  {
    RunsAre(w.camp, Ordered(w.camp.nodeStatus.Keys), LIVE);
    assert (b, rb) in RunsOf(w.camp, LIVE);
    var v := Reattach(w, a, ra, engine);
    FailFastLeaves(w, a, ra, rb, engine);
    ReattachFresh(v, b, rb, engine);
    ReattachTwo(w, (a, ra), (b, rb), engine);
  }

  lemma ReattachTwo(w: World, x: (NodeId, RunId), y: (NodeId, RunId), engine: Engine)
    requires Defined(w.camp)
    ensures ReattachAll(w, [x, y], engine) == Reattach(Reattach(w, x.0, x.1, engine), y.0, y.1, engine)
  {
    var v := Reattach(w, x.0, x.1, engine);
    assert [x, y][1..] == [y] && [y][1..] == [];
    assert ReattachAll(v, [y], engine) == ReattachAll(Reattach(v, y.0, y.1, engine), [], engine);
  }

  lemma ReattachFresh(w: World, n: NodeId, r: RunId, engine: Engine)
    requires Defined(w.camp) && r !in w.disk.sessions && r !in w.inFlight && engine(w.calls).ok
    ensures var u := Reattach(w, n, r, engine);
            u.camp == w.camp && r in u.disk.sessions && u.disk.sessions[r] == engine(w.calls).status
  {
  }

  /** Reconciling a failed run under fail-fast ends every node and touches no run without a session. */
  lemma FailFastLeaves(w: World, n: NodeId, r: RunId, other: RunId, engine: Engine)
    requires Defined(w.camp) && w.camp.def.policy.FailFast? && StatusIn(w.camp, n) == Running && n in w.camp.nodeStatus
    requires r in w.disk.sessions && w.disk.sessions[r].SFailed? && other !in w.disk.sessions && other !in w.inFlight
    ensures var v := Reattach(w, n, r, engine);
            v.camp == CancelNonTerminal(SetNode(w.camp, n, Failed)).(failFastTripped := true) &&
            other !in v.disk.sessions && other !in v.inFlight
  {
    hide WellFormed, CancelRuns, RunsOf, CancelNonTerminal;
    var x := Persist(SetNodeW(w, n, Failed));
    var y := Persist(x.(camp := CancelNonTerminal(x.camp).(failFastTripped := true)));
    CancelRunsLeaves(y, RunsOf(x.camp, LIVE), other, engine);
  }

  lemma {:induction false} CancelRunsLeaves(w: World, runs: seq<(NodeId, RunId)>, r: RunId, engine: Engine)
    requires r !in w.disk.sessions && r !in w.inFlight
    ensures var u := CancelRuns(w, runs, engine); r !in u.disk.sessions && r !in u.inFlight
    decreases |runs|
  {
    if runs != [] {
      var q := runs[0].1;
      CancelStep(w, q, engine);
      var u := CancelRun(w, q, engine).0;
      CancelRunsLeaves(u.(inFlight := u.inFlight - {q}), runs[1..], r, engine);
    }
  }
}
