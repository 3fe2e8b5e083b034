/** Every handler keeps the promise, from rest to rest. */
module CampaignKeeps {
  import opened Names
  import opened CampaignGraph
  import opened CampaignCycle
  import opened CampaignModel
  import opened CampaignHandlers
  import opened CampaignInvariants
  import opened CampaignSafety
  import opened CampaignSteps

  // ── between two commands ────────────────────────────────────────────────────

  /** A running campaign has a live node: something will move it. */
  ghost predicate Busy(c: Campaign) {
    c.status.CRunning? ==> exists n :: n in c.nodeStatus && c.nodeStatus[n].Live()
  }

  ghost predicate CancelledQuiet(c: Campaign) {
    c.status.CCancelled? ==> NoLive(c)
  }

  /** The store between two commands, the log just begun. */
  ghost predicate Rest(once: bool, tied: bool, w: World) {
    w.log == [w.disk] && (once ==> MadeOnce(w.disk)) &&
    (forall s :: s in w.inbox ==> s.run in w.disk.sessions) &&
    (w.disk.saved.Some? ==>
       Good(Promise(Some(w.disk.saved.value), once, tied, {}), Load(w)) &&
       (tied ==> Busy(w.disk.saved.value) && CancelledQuiet(w.disk.saved.value)))
  }

  /** How a command leaves the world: everything kept, at every write, and memory saved. */
  ghost predicate Leaves(p: Promise, u: World) {
    Good(p, u) && u.disk.saved == Some(u.camp) && (p.tied ==> Busy(u.camp) && CancelledQuiet(u.camp))
  }

  /** A command either leaves the world as above, or at rest exactly as it found it. */
  ghost predicate Handled(p: Promise, w: World, u: World) {
    Leaves(p, u) || (u == w && Rest(p.once, p.tied, u))
  }

  // ── fill and finalize ───────────────────────────────────────────────────────

  lemma {:induction false} FillStops(w: World, engine: Engine)
    requires Defined(w.camp)
    ensures var c := Fill(w, engine).camp; |RunningNodes(c)| >= c.def.cap || Dispatchable(c) == {}
    decreases Startable(w.camp)
  {
    if |RunningNodes(w.camp)| < w.camp.def.cap && Dispatchable(w.camp) != {} {
      var n := Least(Dispatchable(w.camp));
      DispatchShrinks(w, n, engine);
      FillStops(Dispatch(w, n, engine), engine);
    }
  }

  /** A campaign that is still running after a fill and a finalize has a live node. */
  lemma FillBusy(w: World, engine: Engine)
    requires Defined(w.camp)
    ensures Busy(FillAndFinalize(w, engine).camp)
  {
    assert w.camp.def.cap > 0;
    hide Fill, Dispatchable, WellFormed, AllCompleted;
    FillStops(w, engine);
    FinalizeBusy(TryFill(w, engine).camp);
  }

  /** What a finalize leaves running has a live node: it executes, or something runs up to the cap. */
  lemma FinalizeBusy(c: Campaign)
    requires c.status.CRunning? ==> |RunningNodes(c)| >= c.def.cap > 0 || Dispatchable(c) == {}
    ensures Busy(FinalizeIfDone(c))
  {
    hide Dispatchable, AllCompleted;
    if c.status.CRunning? && Dispatchable(c) != {} {
      var n :| n in RunningNodes(c);
      assert c.nodeStatus[n].Live();
    }
  }

  lemma FillQuiet(w: World, engine: Engine)
    requires Defined(w.camp) && CancelledQuiet(w.camp)
    ensures CancelledQuiet(FillAndFinalize(w, engine).camp)
  {
    hide Fill, WellFormed, NoLive, Quiet, AllCompleted;
    if w.camp.status == CRunning {
      FillOpen(w, engine);
    }
  }

  lemma LeavesFill(p: Promise, w: World, engine: Engine)
    requires Good(p, w) && p.exempt == {} && (p.tied ==> CancelledQuiet(w.camp))
    ensures Leaves(p, FillAndFinalize(w, engine))
  {
    GoodFillAndFinalize(p, w, engine);
    FillBusy(w, engine);
    if p.tied {
      FillQuiet(w, engine);
    }
  }

  lemma LeavesPromote(p: Promise, w: World, engine: Engine)
    requires Good(p, w) && p.exempt == {} && (p.tied ==> CancelledQuiet(w.camp))
    ensures Leaves(p, PromoteAndFill(w, engine))
  {
    GoodPromote(p, w);
    PromotesTo(w.camp);
    var u := w.(camp := PromoteReady(w.camp));
    GoodPersist(p, u);
    LeavesFill(p, Persist(u), engine);
  }

  // ── launch ──────────────────────────────────────────────────────────────────

  /** No session has been made under a run id of this definition. */
  ghost predicate Unused(def: Def, sessions: Sessions) {
    forall r :: r in sessions ==> r.campaign != def.id || r.node !in def.nodes
  }

  lemma FreshGood(w: World, def: Def, once: bool)
    requires Rest(once, false, w) && (once ==> Unused(def, w.disk.sessions)) && WellFormed(def)
    ensures Good(Promise(None, once, true, {}), w.(camp := FreshCampaign(def)))
  {
    var c := FreshCampaign(def);
    FreshOk(def);
    assert c.nodeStatus.Keys == Ids(def.nodes);
    assert SavedOk(None, w.disk) by {
      if w.disk.saved.Some? {
        assert SavedOk(Some(w.disk.saved.value), Load(w).disk);
      }
    }
    assert once ==> OnceCamp(c, w.disk.sessions) && OnceDisk(w.disk);
  }

  lemma LaunchLeaves(w: World, def: Def, engine: Engine, once: bool)
    requires Rest(once, false, w) && (once ==> Unused(def, w.disk.sessions))
    ensures var (u, ok) := LaunchCampaign(w, def, engine);
            if ok then Leaves(Promise(None, once, true, {}), u) else u == w
  {
    var (u, ok) := LaunchCampaign(w, def, engine);
    if ok {
      var p := Promise(None, once, true, {});
      var v := w.(camp := FreshCampaign(def));
      FreshGood(w, def, once);
      GoodPersist(p, v);
      LeavesPromote(p, Persist(v), engine);
    }
  }

  // ── signals ─────────────────────────────────────────────────────────────────

  function Taken(w: World, s: Signal): World {
    w.(inbox := w.inbox - multiset{s})
  }

  /** The campaign as the handler of a taken signal loads it; the run's owner has lost its notice. */
  lemma LoadTaken(once: bool, tied: bool, w: World, s: Signal)
    requires Rest(once, tied, w) && w.disk.saved.Some? && s in w.inbox
    ensures Good(Promise(Some(w.disk.saved.value), once, tied, if s.Finished? then {s.run.node} else {}), Load(Taken(w, s)))
  {
    var v, u := Load(w), Load(Taken(w, s));
    var p := Promise(Some(w.disk.saved.value), once, tied, {});
    assert Good(p, v);
    assert Steady(p.base, u);
    if tied {
      forall n | n in u.camp.nodeStatus && u.camp.nodeStatus[n].Live() && (s.Finished? ==> n != s.run.node)
        ensures n in u.camp.nodeRunId && TiedRun(u, u.camp.nodeRunId[n])
      {
        assert TiedRun(v, v.camp.nodeRunId[n]) && IsAttempt(v.camp, n, v.camp.nodeRunId[n]);
      }
    }
  }

  /** A signal nobody takes up leaves the world at rest. */
  lemma TakenRests(once: bool, tied: bool, w: World, s: Signal)
    requires Rest(once, tied, w) && s in w.inbox
    requires tied && s.Finished? && w.disk.saved.Some? ==>
               s.run.node !in w.disk.saved.value.nodeStatus || !w.disk.saved.value.nodeStatus[s.run.node].Live() ||
               w.disk.saved.value.nodeRunId[s.run.node] != s.run
    ensures Rest(once, tied, Taken(w, s))
  {
    if w.disk.saved.Some? {
      var v, u := Load(w), Load(Taken(w, s));
      var p := Promise(Some(w.disk.saved.value), once, tied, {});
      assert Good(p, v);
      assert Steady(p.base, u);
      if tied {
        forall n | n in u.camp.nodeStatus && u.camp.nodeStatus[n].Live()
          ensures n in u.camp.nodeRunId && TiedRun(u, u.camp.nodeRunId[n])
        {
          assert TiedRun(v, v.camp.nodeRunId[n]) && IsAttempt(v.camp, n, v.camp.nodeRunId[n]);
        }
      }
    }
  }

  /** The handler finds the run's node, or there is no live one to find. */
  lemma FoundOwner(c: Campaign, r: RunId)
    requires CampOk(c)
    ensures FindByRun(c, r).Some? ==> FindByRun(c, r).value == r.node && r.node in c.nodeRunId && c.nodeRunId[r.node] == r && !Ended(c.status)
    ensures FindByRun(c, r).None? && CancelledQuiet(c) ==>
              r.node !in c.nodeStatus || !c.nodeStatus[r.node].Live() || c.nodeRunId[r.node] != r
  {
    var owners := set n | n in c.nodeRunId && c.nodeRunId[n] == r;
    if Ended(c.status) {
      assert c.status.CCompleted? ==> NoLive(c);
    } else if owners != {} {
      assert IsAttempt(c, Least(owners), r);
    } else if r.node in c.nodeStatus && c.nodeStatus[r.node].Live() {
      assert r.node in c.nodeRunId && r.node !in owners;
    }
  }

  lemma TakenEnds(p: Promise, v: World, n: NodeId, outcome: Outcome, engine: Engine)
    requires Good(p.(exempt := {n}), v) && p.exempt == {} && n in v.camp.nodeRunId && !v.camp.status.CCancelled?
    ensures Good(p, ReconcileTerminal(v, n, outcome, engine))
    ensures CancelledQuiet(ReconcileTerminal(v, n, outcome, engine).camp)
  {
    var q := p.(exempt := {n});
    assert StatusIn(v.camp, n) != Pending;
    GoodReconcile(q, v, n, outcome, engine);
    assert Without(q, n) == p;
    ReconcileQuiet(v, n, outcome, engine);
  }

  lemma FinishedLeaves(once: bool, tied: bool, w: World, r: RunId, outcome: Outcome, engine: Engine)
    requires Rest(once, tied, w) && w.disk.saved.Some? && Finished(r, outcome) in w.inbox
    ensures var (u, _) := OnRunFinished(Taken(w, Finished(r, outcome)), r, outcome, engine);
            Handled(Promise(Some(w.disk.saved.value), once, tied, {}), Taken(w, Finished(r, outcome)), u)
  {
    var s := Finished(r, outcome);
    var v := Load(Taken(w, s));
    var p := Promise(Some(w.disk.saved.value), once, tied, {});
    LoadTaken(once, tied, w, s);
    FoundOwner(v.camp, r);
    var found := FindByRun(v.camp, r);
    if found.None? || StatusIn(v.camp, found.value).Terminal() {
      TakenRests(once, tied, w, s);
    } else {
      TakenEnds(p, v, r.node, outcome, engine);
      LeavesPromote(p, ReconcileTerminal(v, r.node, outcome, engine), engine);
    }
  }

  lemma ReconcileQuiet(w: World, n: NodeId, outcome: Outcome, engine: Engine)
    requires Defined(w.camp) && !w.camp.status.CCancelled?
    ensures !ReconcileTerminal(w, n, outcome, engine).camp.status.CCancelled?
  {
    if n in w.camp.nodeStatus && !StatusIn(w.camp, n).Terminal() {
      PolicyOpen(Persist(SetNodeW(w, n, outcome.AsNodeStatus())), n, engine);
    }
  }

  lemma GoodAsked(p: Promise, w: World)
    requires Good(p, w)
    ensures Good(p, Asked(w))
  {
    var u := Asked(w);
    assert Steady(p.base, u);
    if p.tied {
      forall n | n in u.camp.nodeStatus && u.camp.nodeStatus[n].Live() && n !in p.exempt
        ensures n in u.camp.nodeRunId && TiedRun(u, u.camp.nodeRunId[n])
      {
        assert TiedRun(w, w.camp.nodeRunId[n]);
      }
    }
  }

  lemma GoodAutoReject(p: Promise, w: World, r: RunId, engine: Engine)
    requires Good(p, w)
    ensures Good(p, AutoReject(w, r, engine))
  {
    GoodAsked(p, w);
    ConfirmStep(Asked(w), r, Reject, engine);
    GoodStep(p, Asked(w), ConfirmRun(Asked(w), r, Reject, engine).0, r);
  }

  lemma GoodAwait(p: Promise, w: World, n: NodeId)
    requires Good(p, w) && StatusIn(w.camp, n) == Running && n in w.camp.nodeRunId && w.camp.nodeRunId[n] in w.disk.sessions
    ensures Good(p, Persist(SetNodeW(w, n, AwaitingHuman)))
  {
    AwaitOk(w.camp, n);
    GoodEdit(p, w, SetNode(w.camp, n, AwaitingHuman));
    GoodPersist(p, SetNodeW(w, n, AwaitingHuman));
  }

  lemma AwaitingLeaves(once: bool, tied: bool, w: World, r: RunId, engine: Engine)
    requires Rest(once, tied, w) && w.disk.saved.Some? && Awaiting(r) in w.inbox
    ensures var (u, _) := OnNodeAwaiting(Taken(w, Awaiting(r)), r, engine);
            Handled(Promise(Some(w.disk.saved.value), once, tied, {}), Taken(w, Awaiting(r)), u)
  {
    var s := Awaiting(r);
    var v := Load(Taken(w, s));
    var p := Promise(Some(w.disk.saved.value), once, tied, {});
    LoadTaken(once, tied, w, s);
    FoundOwner(v.camp, r);
    var found := FindByRun(v.camp, r);
    if found.None? || StatusIn(v.camp, found.value) != Running {
      TakenRests(once, tied, w, s);
    } else {
      GoodAwait(p, v, r.node);
      var u := Persist(SetNodeW(v, r.node, AwaitingHuman));
      GoodAutoReject(p, u, r, engine);
      LeavesFill(p, AutoReject(u, r, engine), engine);
    }
  }

  // ── gate decisions ──────────────────────────────────────────────────────────

  /** A live node rules out a cancelled campaign at rest. */
  lemma LiveNotCancelled(c: Campaign, n: NodeId)
    requires CancelledQuiet(c) && StatusIn(c, n).Live()
    ensures !c.status.CCancelled?
  {
  }

  /** Recording an approval keeps the promise. */
  lemma GoodApprove(p: Promise, v: World, n: NodeId, amend: Option<string>)
    requires Good(p, v) && StatusIn(v.camp, n) == AwaitingHuman
    ensures Good(p, Persist(v.(camp := SetNode(v.camp, n, ReadyToResume).(decisions := v.camp.decisions[n := amend]))))
  {
    var d := SetNode(v.camp, n, ReadyToResume).(decisions := v.camp.decisions[n := amend]);
    ApproveOk(v.camp, n, amend);
    hide CampOk, WellFormed;
    GoodEdit(p, v, d);
    GoodPersist(p, v.(camp := d));
  }

  lemma ApprovedLeaves(once: bool, tied: bool, w: World, n: NodeId, amend: Option<string>, engine: Engine)
    requires Rest(once, tied, w) && w.disk.saved.Some?
    ensures Handled(Promise(Some(w.disk.saved.value), once, tied, {}), w, Approved(w, n, amend, engine).0)
  {
    hide CampOk, WellFormed, FillAndFinalize, Once;
    var v := Load(w);
    var p := Promise(Some(w.disk.saved.value), once, tied, {});
    if StatusIn(v.camp, n) == AwaitingHuman {
      GoodApprove(p, v, n, amend);
      if tied {
        LiveNotCancelled(v.camp, n);
      }
      LeavesFill(p, Persist(v.(camp := SetNode(v.camp, n, ReadyToResume).(decisions := v.camp.decisions[n := amend]))), engine);
    }
  }

  lemma GoodReconcileRejected(p: Promise, w: World, n: NodeId, outcome: Outcome, engine: Engine)
    requires Good(p, w) && p.exempt == {} && StatusIn(w.camp, n) == AwaitingHuman
    requires p.tied ==> !w.camp.status.CCancelled?
    ensures Leaves(p, ReconcileRejected(w, n, outcome, engine))
  {
    GoodReconcile(p, w, n, outcome, engine);
    assert Without(p, n) == p;
    if p.tied {
      ReconcileQuiet(w, n, outcome, engine);
    }
    LeavesPromote(p, ReconcileTerminal(w, n, outcome, engine), engine);
  }

  lemma RejectedLeaves(once: bool, tied: bool, w: World, n: NodeId, engine: Engine)
    requires Rest(once, tied, w) && w.disk.saved.Some?
    ensures Handled(Promise(Some(w.disk.saved.value), once, tied, {}), w, Rejected(w, n, engine).0)
  {
    var v := Load(w);
    var p := Promise(Some(w.disk.saved.value), once, tied, {});
    if StatusIn(v.camp, n) == AwaitingHuman && n in v.camp.nodeRunId {
      var r := v.camp.nodeRunId[n];
      if tied {
        LiveNotCancelled(v.camp, n);
      }
      ConfirmStep(v, r, Reject, engine);
      var (a, ok) := ConfirmRun(v, r, Reject, engine);
      GoodStep(p, v, a, r);
      if !ok {
        GoodInFlight(p, a, a.inFlight - {r});
        var u := a.(inFlight := a.inFlight - {r});
        match EndedOutcome(u.disk, r)
        case Some(outcome) => GoodReconcileRejected(p, u, n, outcome, engine);
        case None =>
          CancelStep(u, r, engine);
          var (b, done) := CancelRun(u, r, engine);
          GoodStep(p, u, b, r);
          if !done {
            GoodReconcileRejected(p, b, n, OFailed, engine);
          }
      }
    }
  }

  lemma RetryEdit(c: Campaign, n: NodeId, sessions: Sessions)
    requires SeenOk(c, sessions) && RunIdsOk(c) && Gated(c, n)
    ensures var d := Retried(c, n); SeenOk(d, sessions) && TiedEdit(c, d, {}) && OnceEdit(c, d) && (CancelledQuiet(c) ==> CancelledQuiet(d))
  {
    var d := Retried(c, n);
    assert forall m :: m in d.nodeStatus && d.nodeStatus[m].Live() ==> m in c.nodeStatus && c.nodeStatus[m] == d.nodeStatus[m];
  }

  /** An edit that makes no node live, and starts or gates none, keeps what speaks of live nodes. */
  lemma QuietEdit(c: Campaign, d: Campaign, sessions: Sessions)
    requires SeenOk(c, sessions) && RunIdsOk(c) && d.nodeStatus.Keys == c.nodeStatus.Keys
    requires d.nodeRunId == c.nodeRunId && d.nodeAttempt == c.nodeAttempt
    requires forall m :: m in c.nodeStatus ==> d.nodeStatus[m] == c.nodeStatus[m] || (d.nodeStatus[m].Terminal() && !c.nodeStatus[m].Live())
    ensures SeenOk(d, sessions) && TiedEdit(c, d, {}) && OnceEdit(c, d) && (NoLive(c) ==> NoLive(d))
  {
  }

  lemma SkipEdit(c: Campaign, n: NodeId, sessions: Sessions)
    requires SeenOk(c, sessions) && RunIdsOk(c) && Gated(c, n) && Defined(c) && GatesOk(c)
    ensures var d := Skipped(c, n); SeenOk(d, sessions) && TiedEdit(c, d, {}) && OnceEdit(c, d) && (CancelledQuiet(c) ==> CancelledQuiet(d))
  {
    SkippedNodes(c, n);
    QuietEdit(c, Skipped(c, n), sessions);
  }

  lemma RetryLeaves(once: bool, tied: bool, w: World, n: NodeId, engine: Engine)
    requires Rest(once, tied, w) && w.disk.saved.Some?
    ensures Handled(Promise(Some(w.disk.saved.value), once, tied, {}), w, RetryNode(w, n, engine).0)
  {
    var v := Load(w);
    var p := Promise(Some(w.disk.saved.value), once, tied, {});
    if Gated(v.camp, n) {
      RetriedOk(v.camp, n);
      RetryEdit(v.camp, n, v.disk.sessions);
      GateEditsDefined(v.camp, n);
      GoodEdit(p, v, Retried(v.camp, n));
      GoodPersist(p, v.(camp := Retried(v.camp, n)));
      LeavesFill(p, Persist(v.(camp := Retried(v.camp, n))), engine);
    }
  }

  /** Skipping moves no node between live and not live, and starts none. */
  lemma SkippedNodes(c: Campaign, n: NodeId)
    requires Defined(c) && Gated(c, n) && GatesOk(c)
    ensures var d := Skipped(c, n);
            d.nodeStatus.Keys == c.nodeStatus.Keys && d.nodeRunId == c.nodeRunId && d.nodeAttempt == c.nodeAttempt &&
            forall m :: m in c.nodeStatus ==> d.nodeStatus[m] == c.nodeStatus[m] || (d.nodeStatus[m].Terminal() && !c.nodeStatus[m].Live())
  {
    hide BlockedIn, Startable, WellFormed;
    BlockedAreUnstarted(SetNode(c, n, Failed).(gates := Dequeue(c.gates, n)));
    assert Fallen(c, n);
  }

  lemma GoodSkip(p: Promise, v: World, n: NodeId)
    requires Good(p, v) && Gated(v.camp, n) && p.exempt == {}
    ensures Good(p, Persist(v.(camp := Skipped(v.camp, n))))
  {
    SkippedOk(v.camp, n);
    GateEditsDefined(v.camp, n);
    SkippedNodes(v.camp, n);
    SkipEdit(v.camp, n, v.disk.sessions);
    GoodEdit(p, v, Skipped(v.camp, n));
    GoodPersist(p, v.(camp := Skipped(v.camp, n)));
  }

  lemma PromoteQuiet(c: Campaign)
    requires Defined(c)
    ensures CancelledQuiet(c) ==> CancelledQuiet(PromoteReady(c))
  {
    PromotesTo(c);
  }

  lemma SkipLeaves(once: bool, tied: bool, w: World, n: NodeId, engine: Engine)
    requires Rest(once, tied, w) && w.disk.saved.Some?
    ensures Handled(Promise(Some(w.disk.saved.value), once, tied, {}), w, SkipNode(w, n, engine).0)
  {
    var v := Load(w);
    var p := Promise(Some(w.disk.saved.value), once, tied, {});
    if Gated(v.camp, n) {
      GateEditsDefined(v.camp, n);
      GoodSkip(p, v, n);
      SkipEdit(v.camp, n, v.disk.sessions);
      var u := Persist(v.(camp := Skipped(v.camp, n)));
      GoodPromote(p, u);
      PromoteQuiet(u.camp);
      LeavesFill(p, u.(camp := PromoteReady(u.camp)), engine);
    }
  }

  lemma CancelRunsSaved(w: World, runs: seq<(NodeId, RunId)>, engine: Engine)
    ensures CancelRuns(w, runs, engine).disk.saved == w.disk.saved
    decreases |runs|
  {
    if runs != [] {
      var r := runs[0].1;
      CancelStep(w, r, engine);
      var u := CancelRun(w, r, engine).0;
      CancelRunsSaved(u.(inFlight := u.inFlight - {r}), runs[1..], engine);
    }
  }

  lemma EverythingEnded(c: Campaign)
    requires Defined(c) && forall n :: n in c.nodeStatus ==> c.nodeStatus[n].Terminal()
    ensures !FinalizeIfDone(c).status.CRunning? && NoLive(c)
  {
    DispatchableKnown(c);
    assert Startable(c) == {};
  }

  /** The campaign an abort hands to fail-fast: the gate answered, running again. */
  function Reopened(c: Campaign, n: NodeId): Campaign {
    c.(gates := Dequeue(c.gates, n), status := CRunning)
  }

  lemma GoodReopen(p: Promise, v: World, n: NodeId)
    requires Good(p, v)
    ensures Good(p, v.(camp := Reopened(v.camp, n)))
  {
    SameNodesOk(v.camp, Reopened(v.camp, n));
    GoodEdit(p, v, Reopened(v.camp, n));
  }

  lemma AbortEnds(x: World, engine: Engine)
    requires Defined(x.camp)
    ensures var c := Finalize(FailFastAll(x, engine)).camp; Busy(c) && CancelledQuiet(c)
  {
    var d := CancelNonTerminal(x.camp).(failFastTripped := true);
    assert FailFastAll(x, engine).camp == d;
    EverythingEnded(d);
  }

  lemma AbortLeaves(once: bool, tied: bool, w: World, n: NodeId, engine: Engine)
    requires Rest(once, tied, w) && w.disk.saved.Some?
    ensures Handled(Promise(Some(w.disk.saved.value), once, tied, {}), w, AbortNode(w, n, engine).0)
  {
    var v := Load(w);
    var p := Promise(Some(w.disk.saved.value), once, tied, {});
    if Gated(v.camp, n) {
      var x := v.(camp := Reopened(v.camp, n));
      GoodReopen(p, v, n);
      GoodFailFast(p, x, engine);
      GoodFinalize(p, FailFastAll(x, engine));
      AbortEnds(x, engine);
    }
  }

  // ── pause and cancel ────────────────────────────────────────────────────────

  lemma PauseLeaves(once: bool, tied: bool, w: World)
    requires Rest(once, tied, w) && w.disk.saved.Some?
    ensures Handled(Promise(Some(w.disk.saved.value), once, tied, {}), w, PauseCampaign(w).0)
  {
    var v := Load(w);
    var p := Promise(Some(w.disk.saved.value), once, tied, {});
    if v.camp.status == CRunning {
      var d := v.camp.(status := CPaused);
      SameNodesOk(v.camp, d);
      GoodEdit(p, v, d);
      GoodPersist(p, v.(camp := d));
    }
  }

  lemma CancelLeaves(once: bool, tied: bool, w: World, engine: Engine)
    requires Rest(once, tied, w) && w.disk.saved.Some?
    ensures Handled(Promise(Some(w.disk.saved.value), once, tied, {}), w, CancelCampaign(w, engine).0)
  {
    var v := Load(w);
    var p := Promise(Some(w.disk.saved.value), once, tied, {});
    if !Ended(v.camp.status) {
      var d := v.camp.(status := CCancelled);
      SameNodesOk(v.camp, d);
      GoodEdit(p, v, d);
      GoodPersist(p, v.(camp := d));
      var u := Persist(v.(camp := d));
      CancelAllOk(u.camp);
      GoodCloses(p, u, CancelNonTerminal(u.camp));
      var x := u.(camp := CancelNonTerminal(u.camp));
      GoodPersist(p, x);
      GoodCancelRuns(p, Persist(x), RunsOf(u.camp, LIVE), engine);
      CancelRunsSaved(Persist(x), RunsOf(u.camp, LIVE), engine);
    }
  }
}
