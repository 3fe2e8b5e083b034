/** Every part of a handler keeps the promise: failure handling, dispatch, fill, resume. */
module CampaignSteps {
  import opened Names
  import opened CampaignGraph
  import opened CampaignCycle
  import opened CampaignModel
  import opened CampaignHandlers
  import opened CampaignInvariants
  import opened CampaignSafety

  // ── failure handling ────────────────────────────────────────────────────────

  lemma GoodCloses(p: Promise, w: World, d: Campaign)
    requires Good(p, w) && OnlyCloses(w.camp, d)
    ensures Good(p, w.(camp := d))
  {
    CloseOk(w.camp, d);
    GoodEdit(p, w, d);
  }

  lemma GoodFailFast(p: Promise, w: World, engine: Engine)
    requires Good(p, w)
    ensures Good(p, FailFastAll(w, engine))
  {
    var u := w.(camp := CancelNonTerminal(w.camp).(failFastTripped := true));
    GoodCloses(p, w, u.camp);
    GoodPersist(p, u);
    GoodCancelRuns(p, Persist(u), RunsOf(w.camp, LIVE), engine);
  }

  lemma GoodBlocking(p: Promise, w: World)
    requires Good(p, w)
    ensures Good(p, w.(camp := ApplyBlocking(w.camp)))
  {
    BlockedAreUnstarted(w.camp);
    assert OnlyCloses(w.camp, ApplyBlocking(w.camp));
    GoodCloses(p, w, ApplyBlocking(w.camp));
  }

  lemma GoodGateFailure(p: Promise, w: World, n: NodeId)
    requires Good(p, w) && n in w.camp.nodeStatus && Fallen(w.camp, n) && DepsDone(w.camp, n)
    requires w.camp.def.policy.HumanGateOnFailure?
    ensures Good(p, w.(camp := GateFailure(w.camp, n)))
  {
    GateFailureOk(w.camp, n);
    GoodEdit(p, w, GateFailure(w.camp, n));
  }

  lemma GoodPolicy(p: Promise, w: World, n: NodeId, engine: Engine)
    requires Good(p, w) && n in w.camp.nodeStatus && Fallen(w.camp, n) && DepsDone(w.camp, n)
    ensures Good(p, ApplyFailurePolicy(w, n, engine))
  {
    match w.camp.def.policy
    case FailFast => GoodFailFast(p, w, engine);
    case ContinueIndependent => GoodBlocking(p, w);
    case HumanGateOnFailure => GoodGateFailure(p, w, n);
  }

  function Without(p: Promise, n: NodeId): Promise {
    p.(exempt := p.exempt - {n})
  }

  function With(p: Promise, n: NodeId): Promise {
    p.(exempt := p.exempt + {n})
  }

  lemma EndEdit(c: Campaign, n: NodeId, s: NodeStatus, sessions: Sessions, exempt: set<NodeId>)
    requires n in c.nodeStatus && s.Terminal() && SeenOk(c, sessions) && RunIdsOk(c)
    ensures SeenOk(SetNode(c, n, s), sessions) && OnceEdit(c, SetNode(c, n, s)) && TiedEdit(c, SetNode(c, n, s), exempt)
  {
  }

  lemma EndDeps(c: Campaign, n: NodeId, s: NodeStatus)
    requires DepsOk(c) && n in c.nodeStatus && (c.nodeStatus[n].Live() || c.nodeStatus[n] == Ready)
    ensures DepsDone(SetNode(c, n, s), n)
  {
    assert Engaged(c, n) && DepsDone(c, n);
  }

  /** A node that ends needs no tie any more. */
  lemma GoodSetEnded(p: Promise, w: World, n: NodeId, s: NodeStatus)
    requires Good(p, w) && n in w.camp.nodeStatus && (w.camp.nodeStatus[n].Live() || w.camp.nodeStatus[n] == Ready)
    requires s == Completed || s == Failed || s == Cancelled
    ensures Good(Without(p, n), Persist(SetNodeW(w, n, s)))
  {
    var d := SetNode(w.camp, n, s);
    EndOk(w.camp, n, s);
    EndEdit(w.camp, n, s, w.disk.sessions, p.exempt);
    GoodEdit(p, w, d);
    GoodExempt(p, Without(p, n), w.(camp := d));
    GoodPersist(Without(p, n), w.(camp := d));
  }

  lemma GoodEnd(p: Promise, w: World, n: NodeId, outcome: Outcome, engine: Engine)
    requires Good(p, w) && n in w.camp.nodeStatus && (w.camp.nodeStatus[n].Live() || w.camp.nodeStatus[n] == Ready)
    ensures Good(Without(p, n), EndNode(w, n, outcome, engine))
  {
    GoodSetEnded(p, w, n, outcome.AsNodeStatus());
    if outcome != OCompleted {
      EndDeps(w.camp, n, outcome.AsNodeStatus());
      GoodPolicy(Without(p, n), Persist(SetNodeW(w, n, outcome.AsNodeStatus())), n, engine);
    }
  }

  lemma GoodReconcile(p: Promise, w: World, n: NodeId, outcome: Outcome, engine: Engine)
    requires Good(p, w) && StatusIn(w.camp, n) != Pending
    ensures Good(Without(p, n), ReconcileTerminal(w, n, outcome, engine))
  {
    if n !in w.camp.nodeStatus || StatusIn(w.camp, n).Terminal() {
      GoodExempt(p, Without(p, n), w);
    } else {
      GoodEnd(p, w, n, outcome, engine);
    }
  }

  // ── dispatch ────────────────────────────────────────────────────────────────

  lemma GoodTakeSlot(p: Promise, w: World, n: NodeId)
    requires Good(p, w) && n in Dispatchable(w.camp) && |RunningNodes(w.camp)| < w.camp.def.cap
    requires w.camp.status.CRunning? || w.camp.status.CPaused?
    ensures Good(With(p, n), TakeSlot(w, n)) && TakeSlot(w, n).disk.saved == Some(Slotted(w.camp, n))
  {
    DispatchableKnown(w.camp);
    DispatchableDeps(w.camp, n);
    SlotOk(w.camp, n);
    GoodExempt(p, With(p, n), w);
    SlotSeen(w.camp, n, w.disk.sessions);
    GoodEdit(With(p, n), w, Slotted(w.camp, n));
    GoodPersist(With(p, n), w.(camp := Slotted(w.camp, n)));
  }

  lemma SlotSeen(c: Campaign, n: NodeId, sessions: Sessions)
    requires SeenOk(c, sessions)
    ensures SeenOk(Slotted(c, n), sessions)
  {
  }

  /** The id a fresh start launches has no session yet, and taking it keeps ids used once. */
  lemma FreshId(c: Campaign, n: NodeId, sessions: Sessions, more: Sessions)
    requires OnceCamp(c, sessions) && n in c.nodeStatus && Unstarted(c, n)
    requires forall q :: q in more && q != DeriveRunId(c, n) ==> q in sessions
    ensures DeriveRunId(c, n) !in sessions
    ensures OnceCamp(Slotted(c, n), more)
  {
  }

  lemma GoodFreshStart(p: Promise, w: World, n: NodeId, engine: Engine)
    requires Good(p, w) && n in Dispatchable(w.camp) && |RunningNodes(w.camp)| < w.camp.def.cap
    requires w.camp.status.CRunning? || w.camp.status.CPaused?
    requires StatusIn(w.camp, n) == Ready
    ensures var (u, ok) := Start(w, n, engine);
            Good(With(p, n), u) && (ok ==> TiedRun(u, DeriveRunId(w.camp, n)))
  {
    var r := DeriveRunId(w.camp, n);
    DispatchableKnown(w.camp);
    GoodTakeSlot(p, w, n);
    var v := TakeSlot(w, n);
    LaunchStep(v, r, engine);
    var u := LaunchRun(v, r, engine).0;
    if p.once {
      FreshId(w.camp, n, w.disk.sessions, u.disk.sessions);
    }
    GoodStep(With(p, n), v, u, r);
  }

  lemma GoodResumeStart(p: Promise, w: World, n: NodeId, engine: Engine)
    requires Good(p, w) && n in Dispatchable(w.camp) && |RunningNodes(w.camp)| < w.camp.def.cap
    requires w.camp.status.CRunning? || w.camp.status.CPaused?
    requires StatusIn(w.camp, n) != Ready
    ensures var (u, ok) := Start(w, n, engine);
            Good(With(p, n), u) && (ok ==> TiedRun(u, DeriveRunId(w.camp, n)))
  {
    var r := DeriveRunId(w.camp, n);
    GoodTakeSlot(p, w, n);
    var v := TakeSlot(w, n);
    DropDecisionOk(v.camp, n);
    var x := v.(camp := v.camp.(decisions := v.camp.decisions - {n}));
    GoodEdit(With(p, n), v, x.camp);
    GoodPersist(With(p, n), x);
    var answer := if n in v.camp.decisions then Approve(v.camp.decisions[n]) else Approve(None);
    ConfirmStep(Persist(x), r, answer, engine);
    GoodStep(With(p, n), Persist(x), ConfirmRun(Persist(x), r, answer, engine).0, r);
  }

  lemma GoodStart(p: Promise, w: World, n: NodeId, engine: Engine)
    requires Good(p, w) && n in Dispatchable(w.camp) && |RunningNodes(w.camp)| < w.camp.def.cap
    requires w.camp.status.CRunning? || w.camp.status.CPaused?
    ensures var (u, ok) := Start(w, n, engine);
            Good(With(p, n), u) && StatusIn(u.camp, n) == Running && n in u.camp.nodeStatus &&
            (ok ==> n in u.camp.nodeRunId && TiedRun(u, u.camp.nodeRunId[n]))
  {
    StartRuns(w, n, engine);
    if StatusIn(w.camp, n) == Ready {
      GoodFreshStart(p, w, n, engine);
    } else {
      GoodResumeStart(p, w, n, engine);
    }
  }

  /** A start that succeeded ties its node. */
  lemma GoodStarted(p: Promise, u: World, n: NodeId)
    requires Good(With(p, n), u) && n !in p.exempt
    requires n in u.camp.nodeRunId && TiedRun(u, u.camp.nodeRunId[n])
    ensures Good(p, u)
  {
    GoodExempt(With(p, n), p, u);
  }

  lemma GoodNotStarted(p: Promise, u: World, n: NodeId, engine: Engine)
    requires Good(With(p, n), u) && n !in p.exempt && n in u.camp.nodeStatus && StatusIn(u.camp, n) == Running
    ensures Good(p, EndNode(u, n, OFailed, engine))
  {
    assert Without(With(p, n), n) == p;
    GoodEnd(With(p, n), u, n, OFailed, engine);
  }

  lemma GoodDispatch(p: Promise, w: World, n: NodeId, engine: Engine)
    requires Good(p, w) && n in Dispatchable(w.camp) && n in w.camp.nodeStatus && |RunningNodes(w.camp)| < w.camp.def.cap
    requires w.camp.status.CRunning? || w.camp.status.CPaused?
    requires n !in p.exempt
    ensures Good(p, Dispatch(w, n, engine))
  {
    GoodStart(p, w, n, engine);
    var started := Start(w, n, engine);
    if started.1 {
      GoodStarted(p, started.0, n);
    } else {
      GoodNotStarted(p, started.0, n, engine);
    }
  }

  lemma StartRuns(w: World, n: NodeId, engine: Engine)
    ensures Start(w, n, engine).0.camp.nodeRunId == w.camp.nodeRunId[n := DeriveRunId(w.camp, n)]
    ensures Start(w, n, engine).0.camp.status == w.camp.status
  {
  }

  // ── the status a fill runs under ────────────────────────────────────────────

  ghost predicate Open(c: Campaign) {
    c.status.CRunning? || c.status.CPaused?
  }

  lemma PolicyOpen(w: World, n: NodeId, engine: Engine)
    requires Defined(w.camp)
    ensures Open(w.camp) ==> Open(ApplyFailurePolicy(w, n, engine).camp)
    ensures ApplyFailurePolicy(w, n, engine).camp.status == w.camp.status ||
            (w.camp.def.policy.HumanGateOnFailure? && w.camp.status.CRunning? && ApplyFailurePolicy(w, n, engine).camp.status.CPaused?)
  {
  }

  lemma DispatchOpen(w: World, n: NodeId, engine: Engine)
    requires Defined(w.camp) && n in w.camp.nodeStatus && Open(w.camp)
    ensures Open(Dispatch(w, n, engine).camp)
  {
    StartRuns(w, n, engine);
    var (u, ok) := Start(w, n, engine);
    if !ok {
      PolicyOpen(Persist(SetNodeW(u, n, Failed)), n, engine);
    }
  }

  lemma {:induction false} FillOpen(w: World, engine: Engine)
    requires Defined(w.camp) && Open(w.camp)
    ensures Open(Fill(w, engine).camp)
    decreases Startable(w.camp)
  {
    if |RunningNodes(w.camp)| < w.camp.def.cap && Dispatchable(w.camp) != {} {
      var n := Least(Dispatchable(w.camp));
      DispatchShrinks(w, n, engine);
      DispatchOpen(w, n, engine);
      FillOpen(Dispatch(w, n, engine), engine);
    }
  }

  lemma {:induction false} GoodFill(p: Promise, w: World, engine: Engine)
    requires Good(p, w) && Open(w.camp) && p.exempt == {}
    ensures Good(p, Fill(w, engine))
    decreases Startable(w.camp)
  {
    if |RunningNodes(w.camp)| < w.camp.def.cap && Dispatchable(w.camp) != {} {
      var n := Least(Dispatchable(w.camp));
      DispatchShrinks(w, n, engine);
      GoodDispatch(p, w, n, engine);
      DispatchOpen(w, n, engine);
      GoodFill(p, Dispatch(w, n, engine), engine);
    }
  }

  lemma GoodFinalize(p: Promise, w: World)
    requires Good(p, w)
    ensures Good(p, Finalize(w))
  {
    var d := FinalizeIfDone(w.camp);
    FinalizeOk(w.camp);
    GoodEdit(p, w, d);
    GoodPersist(p, w.(camp := d));
  }

  lemma GoodFillAndFinalize(p: Promise, w: World, engine: Engine)
    requires Good(p, w) && p.exempt == {}
    ensures Good(p, FillAndFinalize(w, engine))
  {
    if w.camp.status == CRunning {
      GoodFill(p, w, engine);
    }
    GoodFinalize(p, TryFill(w, engine));
  }

  lemma GoodPromote(p: Promise, w: World)
    requires Good(p, w)
    ensures Good(p, w.(camp := PromoteReady(w.camp)))
  {
    PromoteOk(w.camp);
    PromotesTo(w.camp);
    GoodEdit(p, w, PromoteReady(w.camp));
  }
}
