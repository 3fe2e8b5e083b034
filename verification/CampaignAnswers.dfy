/** The gate answers the engine takes, over any history: each is what the operator last said of that
    node, or a denial that was asked for. */
module CampaignAnswers {
  import opened Names
  import opened CampaignGraph
  import opened CampaignCycle
  import opened CampaignModel
  import opened CampaignHandlers
  import opened CampaignInvariants
  import opened CampaignSafety
  import opened CampaignSteps
  import opened CampaignKeeps
  import opened CampaignResume
  import opened CampaignRuns
  import opened CampaignTheorems
  import opened CampaignCrash
  import opened CampaignFills

  /** What each node's gate was last approved with. */
  type Told = map<NodeId, Option<string>>

  // ── one dispatch ────────────────────────────────────────────────────────────

  predicate Waits(w: World, r: RunId) {
    r in w.disk.sessions && w.disk.sessions[r].SAwaitingHuman?
  }

  /** The amendment that is stored for a node. */
  function Amendment(c: Campaign, n: NodeId): Option<string> {
    if n in c.decisions then c.decisions[n] else None
  }

  lemma StartSends(w: World, n: NodeId, engine: Engine)
    ensures var u, r := Start(w, n, engine).0, DeriveRunId(w.camp, n);
            u.answers == (if StatusIn(w.camp, n) != Ready && Waits(w, r) then w.answers + [(r, Approve(Amendment(w.camp, n)))] else w.answers) &&
            u.camp.decisions == (if StatusIn(w.camp, n) == Ready then w.camp.decisions else w.camp.decisions - {n})
  {
  }

  lemma {:induction false} CancelsSilent(w: World, runs: seq<(NodeId, RunId)>, engine: Engine)
    ensures CancelRuns(w, runs, engine).answers == w.answers
    decreases |runs|
  {
    if runs != [] {
      var u := CancelRun(w, runs[0].1, engine).0;
      CancelsSilent(u.(inFlight := u.inFlight - {runs[0].1}), runs[1..], engine);
    }
  }

  /** Ending a node answers no gate and stores no decision. */
  lemma EndSilent(w: World, n: NodeId, outcome: Outcome, engine: Engine)
    requires Defined(w.camp) && n in w.camp.nodeStatus
    ensures var u := EndNode(w, n, outcome, engine); u.answers == w.answers && u.camp.decisions == w.camp.decisions
  {
    hide WellFormed, ApplyFailurePolicy;
    PolicySilent(Persist(SetNodeW(w, n, outcome.AsNodeStatus())), n, engine);
  }

  lemma PolicySilent(w: World, n: NodeId, engine: Engine)
    requires Defined(w.camp)
    ensures var u := ApplyFailurePolicy(w, n, engine); u.answers == w.answers && u.camp.decisions == w.camp.decisions
  {
    hide WellFormed, CancelRuns, RunsOf, BlockedIn, Enqueue;
    CancelsSilent(Persist(w.(camp := CancelNonTerminal(w.camp).(failFastTripped := true))), RunsOf(w.camp, LIVE), engine);
  }

  /** A dispatched node's run is answered if and only if the node is not a fresh start and its session
      awaits a human; the answer approves, with exactly what is stored for the node, and is not stored
      any more. */
  lemma DispatchSends(w: World, n: NodeId, engine: Engine)
    requires Defined(w.camp) && n in w.camp.nodeStatus
    ensures var u, r := Dispatch(w, n, engine), RunId(w.camp.def.id, n, AttemptOf(w.camp, n));
            (w.camp.nodeStatus[n] != Ready && Waits(w, r) ==> u.answers == w.answers + [(r, Approve(Amendment(w.camp, n)))]) &&
            (w.camp.nodeStatus[n] == Ready || !Waits(w, r) ==> u.answers == w.answers) &&
            (w.camp.nodeStatus[n] != Ready ==> n !in u.camp.decisions) &&
            forall m :: m != n ==> Amendment(u.camp, m) == Amendment(w.camp, m) && (m in u.camp.decisions <==> m in w.camp.decisions)
  {
    hide EndNode, WellFormed;
    StartSends(w, n, engine);
    var started := Start(w, n, engine);
    if !started.1 {
      EndSilent(started.0, n, OFailed, engine);
    }
  }

  lemma {:induction false} AnswersGrow(w: World, engine: Engine)
    requires Defined(w.camp)
    ensures w.answers <= Fill(w, engine).answers
    decreases Startable(w.camp)
  {
    hide WellFormed, Dispatch;
    if |RunningNodes(w.camp)| < w.camp.def.cap && Dispatchable(w.camp) != {} {
      var n := Least(Dispatchable(w.camp));
      DispatchShrinks(w, n, engine);
      DispatchSends(w, n, engine);
      AnswersGrow(Dispatch(w, n, engine), engine);
    }
  }

  /** Approving a gate makes its node dispatchable and no other. */
  lemma ApprovedDispatchable(c: Campaign, n: NodeId, amend: Option<string>)
    requires StatusIn(c, n) == AwaitingHuman && n in c.nodeStatus
    ensures var d := SetNode(c, n, ReadyToResume).(decisions := c.decisions[n := amend]);
            Dispatchable(d) == Dispatchable(c) + {n} && RunningNodes(d) == RunningNodes(c)
  {
    var d := SetNode(c, n, ReadyToResume).(decisions := c.decisions[n := amend]);
    assert forall e :: Satisfied(c.nodeStatus, e) == Satisfied(d.nodeStatus, e);
    assert forall m :: Eligible(c.def.edges, c.nodeStatus, m) == Eligible(d.def.edges, d.nodeStatus, m);
    assert ReadyIn(d) == ReadyIn(c);
  }

  /** An approved gate whose node is the next to be dispatched in a running campaign with a free slot, its
      session waiting: the engine is sent that approval with that very amendment, first of all. */
  lemma ApprovalSent(w: World, n: NodeId, amend: Option<string>, engine: Engine)
    requires Rest(false, false, w) && w.disk.saved.Some?
    requires var c := w.disk.saved.value;
             c.status == CRunning && StatusIn(c, n) == AwaitingHuman && n in c.nodeStatus && |RunningNodes(c)| < c.def.cap &&
             n == Least(Dispatchable(c) + {n}) && Waits(w, RunId(c.def.id, n, AttemptOf(c, n)))
    ensures var c := w.disk.saved.value;
            w.answers + [(RunId(c.def.id, n, AttemptOf(c, n)), Approve(amend))] <= Step(w, Does(Order(ApproveGate(n, amend))), engine).answers
  {
    SavedDefined(false, false, w);
    hide Rest, WellFormed, Dispatchable, FillAndFinalize, RunningNodes, Step, Least;
    var v := Load(w);
    var d := SetNode(v.camp, n, ReadyToResume).(decisions := v.camp.decisions[n := amend]);
    var f := Persist(v.(camp := d));
    ApproveTurn(w, n, amend, engine);
    ApprovedWorld(v.camp, n, amend);
    ApprovedFill(f, n, amend, engine);
  }

  lemma ApproveTurn(w: World, n: NodeId, amend: Option<string>, engine: Engine)
    requires Rest(false, false, w) && w.disk.saved.Some? && StatusIn(w.disk.saved.value, n) == AwaitingHuman
    ensures Defined(w.disk.saved.value)
    ensures var d := SetNode(w.disk.saved.value, n, ReadyToResume).(decisions := w.disk.saved.value.decisions[n := amend]);
            Defined(d) && Step(w, Does(Order(ApproveGate(n, amend))), engine).answers == FillAndFinalize(Persist(Load(w).(camp := d)), engine).answers
  {
    SavedDefined(false, false, w);
    hide Rest, WellFormed, FillAndFinalize, Approved;
    ApproveStep(w, n, amend, engine);
    ApproveIs(w, n, amend, engine);
  }

  lemma ApproveStep(w: World, n: NodeId, amend: Option<string>, engine: Engine)
    requires Rest(false, false, w) && w.disk.saved.Some? && Defined(w.disk.saved.value)
    ensures Step(w, Does(Order(ApproveGate(n, amend))), engine) == Fresh(Approved(w, n, amend, engine).0)
  {
    hide Rest, WellFormed, Approved;
  }

  lemma ApproveIs(w: World, n: NodeId, amend: Option<string>, engine: Engine)
    requires w.disk.saved.Some? && Defined(w.disk.saved.value) && StatusIn(w.disk.saved.value, n) == AwaitingHuman
    ensures var d := SetNode(w.disk.saved.value, n, ReadyToResume).(decisions := w.disk.saved.value.decisions[n := amend]);
            Defined(d) && Approved(w, n, amend, engine).0 == FillAndFinalize(Persist(Load(w).(camp := d)), engine)
  {
    hide WellFormed, FillAndFinalize;
  }

  lemma ApprovedWorld(c: Campaign, n: NodeId, amend: Option<string>)
    requires StatusIn(c, n) == AwaitingHuman && n in c.nodeStatus && n == Least(Dispatchable(c) + {n})
    ensures var d := SetNode(c, n, ReadyToResume).(decisions := c.decisions[n := amend]);
            n in Dispatchable(d) && n == Least(Dispatchable(d)) && RunningNodes(d) == RunningNodes(c)
  {
    hide Least;
    ApprovedDispatchable(c, n, amend);
  }

  lemma ApprovedFill(f: World, n: NodeId, amend: Option<string>, engine: Engine)
    requires Defined(f.camp) && f.camp.status == CRunning && |RunningNodes(f.camp)| < f.camp.def.cap
    requires n in Dispatchable(f.camp) && n == Least(Dispatchable(f.camp)) && StatusIn(f.camp, n) == ReadyToResume
    requires n in f.camp.decisions && f.camp.decisions[n] == amend && Waits(f, RunId(f.camp.def.id, n, AttemptOf(f.camp, n)))
    ensures f.answers + [(RunId(f.camp.def.id, n, AttemptOf(f.camp, n)), Approve(amend))] <= FillAndFinalize(f, engine).answers
  {
    DispatchShrinks(f, n, engine);
    hide Dispatchable, RunningNodes, Dispatch, WellFormed;
    DispatchSends(f, n, engine);
    AnswersGrow(Dispatch(f, n, engine), engine);
  }

  // ── what a turn keeps ───────────────────────────────────────────────────────

  /** A node approved and waiting for a slot has stored what it was last approved with; for a pending one
      nothing is stored. */
  ghost predicate Kept(c: Campaign, told: Told) {
    (forall n :: n in c.nodeStatus && c.nodeStatus[n] == ReadyToResume ==> n in c.decisions && n in told && c.decisions[n] == told[n]) &&
    forall n :: n in c.nodeStatus && c.nodeStatus[n] == Pending ==> n !in c.decisions
  }

  ghost predicate DiskKept(d: Disk, told: Told) {
    d.saved.Some? ==> Kept(d.saved.value, told)
  }

  /** No session has been made under the run id a pending node would start with. */
  ghost predicate Unseen(c: Campaign, sessions: Sessions) {
    forall n :: n in c.nodeStatus && c.nodeStatus[n] == Pending ==> DeriveRunId(c, n) !in sessions
  }

  /** During one turn: `told`, once its command is accepted; the answers `before` it; the runs it may deny;
      whether launches start on unused ids. */
  datatype Watch = Watch(told: Told, before: seq<(RunId, GateAnswer)>, denied: set<RunId>, unused: bool)

  predicate Justified(x: Watch, r: RunId, a: GateAnswer) {
    match a
    case Approve(amend) => (r.node in x.told && x.told[r.node] == amend) || (!x.unused && amend.None?)
    case Reject => r in x.denied
  }

  ghost predicate AnswersOk(x: Watch, answers: seq<(RunId, GateAnswer)>) {
    x.before <= answers && forall i :: |x.before| <= i < |answers| ==> Justified(x, answers[i].0, answers[i].1)
  }

  ghost predicate StoreOk(x: Watch, w: World) {
    AnswersOk(x, w.answers) && DiskKept(w.disk, x.told) && forall d :: d in w.log ==> DiskKept(d, x.told)
  }

  ghost predicate Fair(x: Watch, w: World) {
    StoreOk(x, w) && Kept(w.camp, x.told) && (x.unused ==> Unseen(w.camp, w.disk.sessions))
  }

  /** An edit that approves no gate, loses no approval and makes no node pending. */
  ghost predicate Tame(c: Campaign, d: Campaign) {
    d.def == c.def &&
    forall n :: n in d.nodeStatus ==>
      (d.nodeStatus[n] == Pending ==> n in c.nodeStatus && c.nodeStatus[n] == Pending && AttemptOf(d, n) == AttemptOf(c, n)) &&
      (d.nodeStatus[n] == Pending && n !in c.decisions ==> n !in d.decisions) &&
      (d.nodeStatus[n] == ReadyToResume ==> n in c.nodeStatus && c.nodeStatus[n] == ReadyToResume) &&
      (d.nodeStatus[n] == ReadyToResume && n in c.decisions ==> n in d.decisions && d.decisions[n] == c.decisions[n])
  }

  lemma FairEdit(x: Watch, w: World, d: Campaign)
    requires Fair(x, w) && Tame(w.camp, d)
    ensures Fair(x, w.(camp := d))
  {
    hide AnswersOk;
  }

  lemma FairPersist(x: Watch, w: World)
    requires Fair(x, w)
    ensures Fair(x, Persist(w))
  {
    hide AnswersOk, Kept, Unseen;
  }

  /** A call that answers no gate. */
  lemma FairStep(x: Watch, w: World, u: World, r: RunId)
    requires Fair(x, w) && EngineStep(w, u, r) && u.answers == w.answers
    requires r in w.disk.sessions || StatusIn(w.camp, r.node) != Pending
    ensures Fair(x, u)
  {
    hide AnswersOk, Kept;
  }

  lemma FairConfirm(x: Watch, w: World, r: RunId, a: GateAnswer, engine: Engine)
    requires Fair(x, w) && (Waits(w, r) ==> Justified(x, r, a))
    ensures Fair(x, ConfirmRun(w, r, a, engine).0)
  {
    hide Kept, Unseen, Justified;
    var u := ConfirmRun(w, r, a, engine).0;
    if Waits(w, r) {
      var v := w.(answers := w.answers + [(r, a)]);
      hide ConfirmRun;
      assert Fair(x, v);
      AdvanceStep(v, r, engine);
      AdvanceSilent(v, r, engine);
      FairStep(x, v, Advance(v, r, engine).0, r);
      ConfirmIs(w, r, a, engine);
    }
  }

  lemma ConfirmIs(w: World, r: RunId, a: GateAnswer, engine: Engine)
    requires Waits(w, r)
    ensures ConfirmRun(w, r, a, engine) == Advance(w.(answers := w.answers + [(r, a)]), r, engine)
  {
  }

  lemma AdvanceSilent(w: World, r: RunId, engine: Engine)
    ensures Advance(w, r, engine).0.answers == w.answers
  {
  }

  lemma FairInFlight(x: Watch, w: World, q: set<RunId>)
    requires Fair(x, w)
    ensures Fair(x, w.(inFlight := q))
  {
    hide AnswersOk, Kept, Unseen;
  }

  lemma FairCancel(x: Watch, w: World, r: RunId, engine: Engine)
    requires Fair(x, w)
    ensures Fair(x, CancelRun(w, r, engine).0)
  {
    hide Fair;
    CancelStep(w, r, engine);
    if r in w.disk.sessions {
      FairStep(x, w, CancelRun(w, r, engine).0, r);
    }
  }

  lemma {:induction false} FairCancels(x: Watch, w: World, runs: seq<(NodeId, RunId)>, engine: Engine)
    requires Fair(x, w)
    ensures Fair(x, CancelRuns(w, runs, engine))
    decreases |runs|
  {
    hide Fair, CancelRun;
    if runs != [] {
      FairCancel(x, w, runs[0].1, engine);
      var u := CancelRun(w, runs[0].1, engine).0;
      FairInFlight(x, u, u.inFlight - {runs[0].1});
      FairCancels(x, u.(inFlight := u.inFlight - {runs[0].1}), runs[1..], engine);
    }
  }

  lemma FairFailFast(x: Watch, w: World, engine: Engine)
    requires Fair(x, w)
    ensures Fair(x, FailFastAll(w, engine))
  {
    hide Fair;
    var d := CancelNonTerminal(w.camp).(failFastTripped := true);
    FairEdit(x, w, d);
    FairPersist(x, w.(camp := d));
    FairCancels(x, Persist(w.(camp := d)), RunsOf(w.camp, LIVE), engine);
  }

  lemma TameBlocking(c: Campaign)
    requires Defined(c)
    ensures Tame(c, ApplyBlocking(c))
  {
    hide WellFormed, BlockedIn;
    BlockedAreUnstarted(c);
  }

  lemma TameGate(c: Campaign, n: NodeId)
    ensures Tame(c, GateFailure(c, n))
  {
  }

  lemma FairPolicy(x: Watch, w: World, n: NodeId, engine: Engine)
    requires Fair(x, w) && Defined(w.camp)
    ensures Fair(x, ApplyFailurePolicy(w, n, engine))
  {
    hide Fair, FailFastAll, WellFormed, Tame, ApplyBlocking, GateFailure;
    match w.camp.def.policy
    case FailFast =>
      FairFailFast(x, w, engine);
    case ContinueIndependent =>
      TameBlocking(w.camp);
      FairEdit(x, w, ApplyBlocking(w.camp));
    case HumanGateOnFailure =>
      TameGate(w.camp, n);
      FairEdit(x, w, GateFailure(w.camp, n));
  }

  lemma FairEnd(x: Watch, w: World, n: NodeId, outcome: Outcome, engine: Engine)
    requires Fair(x, w) && Defined(w.camp) && n in w.camp.nodeStatus
    ensures Fair(x, EndNode(w, n, outcome, engine))
  {
    hide Fair, WellFormed, ApplyFailurePolicy;
    var d := SetNode(w.camp, n, outcome.AsNodeStatus());
    FairEdit(x, w, d);
    FairPersist(x, w.(camp := d));
    if outcome != OCompleted {
      FairPolicy(x, Persist(w.(camp := d)), n, engine);
    }
  }

  lemma FairReconcile(x: Watch, w: World, n: NodeId, outcome: Outcome, engine: Engine)
    requires Fair(x, w) && Defined(w.camp)
    ensures Fair(x, ReconcileTerminal(w, n, outcome, engine))
  {
    hide Fair, WellFormed, EndNode;
    if n in w.camp.nodeStatus && !StatusIn(w.camp, n).Terminal() {
      FairEnd(x, w, n, outcome, engine);
    }
  }

  // ── dispatch and fill ───────────────────────────────────────────────────────

  lemma FairSlot(x: Watch, w: World, n: NodeId)
    requires Fair(x, w)
    ensures Fair(x, TakeSlot(w, n))
  {
    hide Fair;
    FairEdit(x, w, Slotted(w.camp, n));
    FairPersist(x, w.(camp := Slotted(w.camp, n)));
  }

  lemma LaunchSilent(w: World, r: RunId, engine: Engine)
    ensures LaunchRun(w, r, engine).0.answers == w.answers
  {
  }

  lemma FairFreshStart(x: Watch, w: World, n: NodeId, engine: Engine)
    requires Fair(x, w) && StatusIn(w.camp, n) == Ready
    ensures Fair(x, Start(w, n, engine).0)
  {
    hide Fair, LaunchRun;
    var v, r := TakeSlot(w, n), DeriveRunId(w.camp, n);
    FairSlot(x, w, n);
    LaunchStep(v, r, engine);
    LaunchSilent(v, r, engine);
    FairStep(x, v, LaunchRun(v, r, engine).0, r);
  }

  /** A node that is resumed is approved with what it was told; one that was never promoted has no session
      to be answered, or is approved with nothing. */
  lemma ResumedTold(x: Watch, w: World, n: NodeId)
    requires Fair(x, w) && n in w.camp.nodeStatus && (w.camp.nodeStatus[n] == Pending || w.camp.nodeStatus[n] == ReadyToResume)
    ensures Waits(w, DeriveRunId(w.camp, n)) ==> Justified(x, DeriveRunId(w.camp, n), Approve(Amendment(w.camp, n)))
  {
  }

  lemma FairResumeStart(x: Watch, w: World, n: NodeId, engine: Engine)
    requires Fair(x, w) && n in w.camp.nodeStatus && (w.camp.nodeStatus[n] == Pending || w.camp.nodeStatus[n] == ReadyToResume)
    ensures Fair(x, Start(w, n, engine).0)
  {
    ResumedTold(x, w, n);
    hide Fair, ConfirmRun, Justified;
    var v, r := TakeSlot(w, n), DeriveRunId(w.camp, n);
    FairSlot(x, w, n);
    var d := v.camp.(decisions := v.camp.decisions - {n});
    FairEdit(x, v, d);
    FairPersist(x, v.(camp := d));
    var y := Persist(v.(camp := d));
    FairConfirm(x, y, r, Approve(Amendment(w.camp, n)), engine);
    assert Start(w, n, engine) == ConfirmRun(y, r, Approve(Amendment(w.camp, n)), engine);
  }

  lemma FairDispatch(x: Watch, w: World, n: NodeId, engine: Engine)
    requires Fair(x, w) && Defined(w.camp) && n in Dispatchable(w.camp) && n in w.camp.nodeStatus
    ensures Fair(x, Dispatch(w, n, engine))
  {
    if StatusIn(w.camp, n) == Ready {
      FairFreshStart(x, w, n, engine);
    } else {
      FairResumeStart(x, w, n, engine);
    }
    hide Fair, WellFormed, EndNode;
    var started := Start(w, n, engine);
    if !started.1 {
      FairEnd(x, started.0, n, OFailed, engine);
    }
  }

  lemma {:induction false} FairFill(x: Watch, w: World, engine: Engine)
    requires Fair(x, w) && Defined(w.camp)
    ensures Fair(x, Fill(w, engine))
    decreases Startable(w.camp)
  {
    hide Fair, WellFormed, Dispatch;
    if |RunningNodes(w.camp)| < w.camp.def.cap && Dispatchable(w.camp) != {} {
      var n := Least(Dispatchable(w.camp));
      DispatchShrinks(w, n, engine);
      FairDispatch(x, w, n, engine);
      FairFill(x, Dispatch(w, n, engine), engine);
    }
  }

  lemma FairFinalize(x: Watch, w: World)
    requires Fair(x, w)
    ensures Fair(x, Finalize(w))
  {
    hide Fair, Quiet, AllCompleted;
    FairEdit(x, w, FinalizeIfDone(w.camp));
    FairPersist(x, w.(camp := FinalizeIfDone(w.camp)));
  }

  lemma FairFilled(x: Watch, w: World, engine: Engine)
    requires Fair(x, w) && Defined(w.camp)
    ensures Fair(x, FillAndFinalize(w, engine))
  {
    hide Fair, WellFormed, Fill, Finalize;
    if w.camp.status == CRunning {
      FairFill(x, w, engine);
    }
    FairFinalize(x, TryFill(w, engine));
  }

  lemma FairPromote(x: Watch, w: World)
    requires Fair(x, w) && Defined(w.camp)
    ensures Fair(x, w.(camp := PromoteReady(w.camp)))
  {
    hide Fair, WellFormed, PromoteReady;
    PromotesTo(w.camp);
    PromoteShape(w.camp);
    FairEdit(x, w, PromoteReady(w.camp));
  }

  lemma FairPromoted(x: Watch, w: World)
    requires Fair(x, w) && Defined(w.camp)
    ensures Fair(x, Promoted(w))
  {
    hide Fair, WellFormed, PromoteReady;
    FairPromote(x, w);
    PromoteDefined(w.camp);
    FairPersist(x, w.(camp := PromoteReady(w.camp)));
  }

  // ── re-attaching ────────────────────────────────────────────────────────────

  ghost predicate Begun(c: Campaign, runs: seq<(NodeId, RunId)>) {
    forall y :: y in runs ==> y.1.node == y.0 && StatusIn(c, y.0) != Pending
  }

  lemma BegunOn(w: World, u: World, runs: seq<(NodeId, RunId)>)
    requires Begun(w.camp, runs) && runs != [] && Settles(w.camp, u.camp)
    ensures Begun(u.camp, runs[1..])
  {
    assert forall y :: y in runs[1..] ==> y in runs;
  }

  lemma FairReattach(x: Watch, w: World, n: NodeId, r: RunId, engine: Engine)
    requires Fair(x, w) && Defined(w.camp) && r.node == n && StatusIn(w.camp, n) != Pending
    ensures Fair(x, Reattach(w, n, r, engine))
  {
    hide Fair, WellFormed, ReconcileTerminal, LaunchRun, ResumeRun;
    if r in w.disk.sessions && w.disk.sessions[r].Terminal() {
      FairReconcile(x, w, n, OutcomeOf(w.disk.sessions[r]), engine);
    } else {
      var started := if r in w.disk.sessions then ResumeRun(w, r, engine) else LaunchRun(w, r, engine);
      if r in w.disk.sessions {
        ResumeStep(w, r, engine);
        ResumeSilent(w, r, engine);
      } else {
        LaunchStep(w, r, engine);
        LaunchSilent(w, r, engine);
      }
      FairStep(x, w, started.0, r);
      if !started.1 {
        FairReconcile(x, started.0, n, OFailed, engine);
      }
    }
  }

  lemma ResumeSilent(w: World, r: RunId, engine: Engine)
    ensures ResumeRun(w, r, engine).0.answers == w.answers
  {
  }

  lemma {:induction false} FairReattachAll(x: Watch, w: World, runs: seq<(NodeId, RunId)>, engine: Engine)
    requires Fair(x, w) && Defined(w.camp) && w.disk.saved.Some? && Begun(w.camp, runs)
    ensures Fair(x, ReattachAll(w, runs, engine))
    decreases |runs|
  {
    hide Fair, WellFormed, Reattach, Settles;
    if runs != [] {
      var (n, r) := runs[0];
      FairReattach(x, w, n, r, engine);
      ReattachSettles(w, n, r, engine);
      BegunOn(w, Reattach(w, n, r, engine), runs);
      FairReattachAll(x, Reattach(w, n, r, engine), runs[1..], engine);
    }
  }

  lemma {:induction false} FairRegateAll(x: Watch, w: World, runs: seq<(NodeId, RunId)>, engine: Engine)
    requires Fair(x, w) && Defined(w.camp)
    ensures Fair(x, RegateAll(w, runs, engine))
    decreases |runs|
  {
    hide Fair, WellFormed, ReconcileTerminal;
    if runs != [] {
      var (n, r) := runs[0];
      if r in w.disk.sessions && w.disk.sessions[r].Terminal() {
        FairReconcile(x, w, n, OutcomeOf(w.disk.sessions[r]), engine);
      }
      FairRegateAll(x, Regate(w, n, r, engine), runs[1..], engine);
    }
  }

  // ── each command ────────────────────────────────────────────────────────────

  /** The store between two commands. */
  lemma RestFair(once: bool, w: World, told: Told, denied: set<RunId>)
    requires Rest(once, false, w) && w.disk.saved.Some? && DiskKept(w.disk, told)
    ensures Fair(Watch(told, w.answers, denied, once), Load(w)) && RunIdsOk(Load(w).camp) && Defined(Load(w).camp)
  {
    var v := Load(w);
    assert Good(Promise(Some(w.disk.saved.value), once, false, {}), v);
    assert once ==> OnceCamp(v.camp, v.disk.sessions);
  }

  lemma StartedBegun(c: Campaign, kinds: set<NodeStatus>)
    requires RunIdsOk(c) && kinds <= LIVE
    ensures Begun(c, RunsOf(c, kinds))
  {
    RunsListed(c, kinds);
    forall y | y in RunsOf(c, kinds) ensures y.1.node == y.0 && StatusIn(c, y.0) != Pending {
      assert ListedIn(c, y.0, y.1);
    }
  }

  lemma FairResume(x: Watch, w: World, engine: Engine)
    requires HasCampaign(w) && Defined(w.disk.saved.value) && Fair(x, Load(w)) && RunIdsOk(w.disk.saved.value) && !Ended(w.disk.saved.value.status)
    ensures Fair(x, ResumeCampaign(w, engine).0)
  {
    hide Fair, WellFormed, ReattachAll, RegateAll, FillAndFinalize, PromoteReady;
    var v := Load(w);
    var d := Unpaused(v.camp);
    FairEdit(x, v, d);
    FairPersist(x, v.(camp := d));
    var u := Persist(v.(camp := d));
    StartedBegun(d, {Running});
    var runs := RunsOf(d, {Running});
    FairReattachAll(x, u, runs, engine);
    var a := ReattachAll(u, runs, engine);
    FairRegateAll(x, a, RunsOf(a.camp, GATED), engine);
    var b := RegateAll(a, RunsOf(a.camp, GATED), engine);
    FairPromoted(x, b);
    PromoteDefined(b.camp);
    FairFilled(x, Promoted(b), engine);
  }

  lemma FairPromoteFill(x: Watch, w: World, engine: Engine)
    requires Fair(x, w) && Defined(w.camp)
    ensures Fair(x, PromoteAndFill(w, engine))
  {
    hide Fair, WellFormed, FillAndFinalize, PromoteReady;
    FairPromoted(x, w);
    PromoteDefined(w.camp);
    FairFilled(x, Promoted(w), engine);
  }

  lemma FairReject(x: Watch, w: World, n: NodeId, engine: Engine)
    requires HasCampaign(w) && Defined(w.disk.saved.value) && Fair(x, Load(w))
    requires n in w.disk.saved.value.nodeRunId ==> w.disk.saved.value.nodeRunId[n] in x.denied
    ensures Rejected(w, n, engine).0 == w || Fair(x, Rejected(w, n, engine).0)
  {
    hide Fair, WellFormed, ConfirmRun, CancelRun, ReconcileTerminal, PromoteAndFill;
    var v := Load(w);
    if StatusIn(v.camp, n) == AwaitingHuman && n in v.camp.nodeRunId {
      var r := v.camp.nodeRunId[n];
      FairConfirm(x, v, r, Reject, engine);
      var (a, ok) := ConfirmRun(v, r, Reject, engine);
      if !ok {
        var u := a.(inFlight := a.inFlight - {r});
        FairInFlight(x, a, a.inFlight - {r});
        match EndedOutcome(u.disk, r)
        case Some(outcome) =>
          FairReconcile(x, u, n, outcome, engine);
          FairPromoteFill(x, ReconcileTerminal(u, n, outcome, engine), engine);
        case None =>
          FairCancel(x, u, r, engine);
          var b := CancelRun(u, r, engine).0;
          FairReconcile(x, b, n, OFailed, engine);
          FairPromoteFill(x, ReconcileTerminal(b, n, OFailed, engine), engine);
      }
    }
  }

  lemma FairApprove(x: Watch, v: World, n: NodeId, amend: Option<string>)
    requires Fair(x, v) && StatusIn(v.camp, n) == AwaitingHuman && n in x.told && x.told[n] == amend
    ensures Fair(x, Persist(v.(camp := SetNode(v.camp, n, ReadyToResume).(decisions := v.camp.decisions[n := amend]))))
  {
    var d := SetNode(v.camp, n, ReadyToResume).(decisions := v.camp.decisions[n := amend]);
    assert Fair(x, v.(camp := d)) by {
      hide AnswersOk;
    }
    hide Fair;
    FairPersist(x, v.(camp := d));
  }

  lemma FairApproved(x: Watch, w: World, n: NodeId, amend: Option<string>, engine: Engine)
    requires HasCampaign(w) && Defined(w.disk.saved.value) && Fair(x, Load(w)) && n in x.told && x.told[n] == amend
    ensures Approved(w, n, amend, engine).0 == w || Fair(x, Approved(w, n, amend, engine).0)
  {
    hide Fair, WellFormed, FillAndFinalize;
    var v := Load(w);
    if StatusIn(v.camp, n) == AwaitingHuman {
      FairApprove(x, v, n, amend);
      FairFilled(x, Persist(v.(camp := SetNode(v.camp, n, ReadyToResume).(decisions := v.camp.decisions[n := amend]))), engine);
    }
  }

  lemma FairRetry(x: Watch, w: World, n: NodeId, engine: Engine)
    requires HasCampaign(w) && Defined(w.disk.saved.value) && Fair(x, Load(w))
    ensures RetryNode(w, n, engine).0 == w || Fair(x, RetryNode(w, n, engine).0)
  {
    hide Fair, WellFormed, FillAndFinalize, Dequeue;
    var v := Load(w);
    if Gated(v.camp, n) {
      FairEdit(x, v, Retried(v.camp, n));
      FairPersist(x, v.(camp := Retried(v.camp, n)));
      GateEditsDefined(v.camp, n);
      FairFilled(x, Persist(v.(camp := Retried(v.camp, n))), engine);
    }
  }

  lemma SkippedTame(c: Campaign, n: NodeId)
    requires Defined(c) && Gated(c, n)
    ensures Tame(c, Skipped(c, n))
  {
    hide BlockedIn, WellFormed, Dequeue;
    BlockedAreUnstarted(SetNode(c, n, Failed).(gates := Dequeue(c.gates, n)));
  }

  lemma FairSkip(x: Watch, w: World, n: NodeId, engine: Engine)
    requires HasCampaign(w) && Defined(w.disk.saved.value) && Fair(x, Load(w))
    ensures SkipNode(w, n, engine).0 == w || Fair(x, SkipNode(w, n, engine).0)
  {
    hide Fair, WellFormed, FillAndFinalize, Skipped, PromoteReady, Tame;
    var v := Load(w);
    if Gated(v.camp, n) {
      SkippedTame(v.camp, n);
      FairEdit(x, v, Skipped(v.camp, n));
      FairPersist(x, v.(camp := Skipped(v.camp, n)));
      GateEditsDefined(v.camp, n);
      var u := Persist(v.(camp := Skipped(v.camp, n)));
      FairPromote(x, u);
      PromoteDefined(u.camp);
      FairFilled(x, u.(camp := PromoteReady(u.camp)), engine);
    }
  }

  lemma FairAbort(x: Watch, w: World, n: NodeId, engine: Engine)
    requires HasCampaign(w) && Fair(x, Load(w))
    ensures AbortNode(w, n, engine).0 == w || Fair(x, AbortNode(w, n, engine).0)
  {
    hide Fair, FailFastAll, Finalize, Dequeue;
    var v := Load(w);
    if Gated(v.camp, n) {
      FairEdit(x, v, Reopened(v.camp, n));
      FairFailFast(x, v.(camp := Reopened(v.camp, n)), engine);
      FairFinalize(x, FailFastAll(v.(camp := Reopened(v.camp, n)), engine));
    }
  }

  lemma FairPause(x: Watch, w: World)
    requires HasCampaign(w) && Fair(x, Load(w))
    ensures PauseCampaign(w).0 == w || Fair(x, PauseCampaign(w).0)
  {
    hide Fair;
    var v := Load(w);
    FairEdit(x, v, v.camp.(status := CPaused));
    FairPersist(x, v.(camp := v.camp.(status := CPaused)));
  }

  lemma FairCancelled(x: Watch, w: World, engine: Engine)
    requires HasCampaign(w) && Fair(x, Load(w))
    ensures CancelCampaign(w, engine).0 == w || Fair(x, CancelCampaign(w, engine).0)
  {
    hide Fair, CancelRuns;
    var v := Load(w);
    var d := v.camp.(status := CCancelled);
    FairEdit(x, v, d);
    FairPersist(x, v.(camp := d));
    var u := Persist(v.(camp := d));
    FairEdit(x, u, CancelNonTerminal(d));
    FairPersist(x, u.(camp := CancelNonTerminal(d)));
    FairCancels(x, Persist(u.(camp := CancelNonTerminal(d))), RunsOf(d, LIVE), engine);
  }

  lemma FairFinished(x: Watch, w: World, r: RunId, outcome: Outcome, engine: Engine)
    requires HasCampaign(w) && Defined(w.disk.saved.value) && Fair(x, Load(w))
    ensures OnRunFinished(w, r, outcome, engine).0 == w || Fair(x, OnRunFinished(w, r, outcome, engine).0)
  {
    hide Fair, WellFormed, PromoteAndFill, ReconcileTerminal;
    var v := Load(w);
    match FindByRun(v.camp, r)
    case None =>
    case Some(n) =>
      FairReconcile(x, v, n, outcome, engine);
      FairPromoteFill(x, ReconcileTerminal(v, n, outcome, engine), engine);
  }

  lemma FairAsked(x: Watch, w: World)
    requires Fair(x, w)
    ensures Fair(x, Asked(w))
  {
    hide AnswersOk, Kept, Unseen;
  }

  lemma FairAutoReject(x: Watch, w: World, r: RunId, engine: Engine)
    requires Fair(x, w) && (w.camp.def.autoReject && engine(w.calls).escalated ==> r in x.denied)
    ensures Fair(x, AutoReject(w, r, engine))
  {
    hide Fair, ConfirmRun;
    FairAsked(x, w);
    if w.camp.def.autoReject && engine(w.calls).escalated {
      FairConfirm(x, Asked(w), r, Reject, engine);
    }
  }

  lemma FairAwaiting(x: Watch, w: World, r: RunId, engine: Engine)
    requires HasCampaign(w) && Defined(w.disk.saved.value) && Fair(x, Load(w))
    requires w.disk.saved.value.def.autoReject && engine(w.calls).escalated ==> r in x.denied
    ensures OnNodeAwaiting(w, r, engine).0 == w || Fair(x, OnNodeAwaiting(w, r, engine).0)
  {
    hide Fair, WellFormed, FillAndFinalize, AutoReject, FindByRun;
    var v := Load(w);
    match FindByRun(v.camp, r)
    case None =>
    case Some(n) =>
      if StatusIn(v.camp, n) == Running {
        FairEdit(x, v, SetNode(v.camp, n, AwaitingHuman));
        var u := Persist(SetNodeW(v, n, AwaitingHuman));
        FairPersist(x, SetNodeW(v, n, AwaitingHuman));
        FairAutoReject(x, u, r, engine);
        FairFilled(x, AutoReject(u, r, engine), engine);
      }
  }

  lemma FairLaunch(x: Watch, w: World, def: Def, engine: Engine)
    requires StoreOk(x, w) && (x.unused ==> Unused(def, w.disk.sessions))
    ensures LaunchCampaign(w, def, engine).0 == w || Fair(x, LaunchCampaign(w, def, engine).0)
  {
    hide WellFormed, PromoteAndFill, StoreOk;
    if LaunchCampaign(w, def, engine).1 {
      var v := w.(camp := FreshCampaign(def));
      FreshFair(x, w, def);
      hide Fair;
      FairPersist(x, v);
      FairPromoteFill(x, Persist(v), engine);
    }
  }

  lemma FreshFair(x: Watch, w: World, def: Def)
    requires StoreOk(x, w) && (x.unused ==> Unused(def, w.disk.sessions))
    ensures Fair(x, w.(camp := FreshCampaign(def)))
  {
    hide AnswersOk;
  }

  // ── a whole history ─────────────────────────────────────────────────────────

  /** The move is a turn of the actor, complete or cut off by a crash. */
  predicate Turns(m: Move, work: Work) {
    (m.Does? || m.Crashes?) && m.work == work
  }

  /** The operator's last accepted approval of each node, with this move's. */
  function ToldBy(w: World, m: Move, told: Told): Told {
    if (m.Does? || m.Crashes?) && m.work.Order? && m.work.cmd.ApproveGate? &&
       w.disk.saved.Some? && StatusIn(w.disk.saved.value, m.work.cmd.node) == AwaitingHuman
    then told[m.work.cmd.node := m.work.cmd.amend] else told
  }

  /** The engine was asked to deny: by the operator, or since the definition says so of an escalation. */
  predicate DenialAsked(w: World, m: Move, r: RunId, engine: Engine) {
    Turns(m, Order(RejectGate(r.node))) ||
    (Turns(m, Deliver(Awaiting(r))) && w.disk.saved.Some? && w.disk.saved.value.def.autoReject && engine(w.calls).escalated)
  }

  /** What may be answered in a move: an approval, with the amendment its node was last approved with (or
      with none, if a launch may start on used ids); a denial that was asked for. */
  predicate AnswerSaid(w: World, m: Move, told: Told, unused: bool, r: RunId, a: GateAnswer, engine: Engine) {
    match a
    case Approve(amend) => (r.node in told && told[r.node] == amend) || (!unused && amend.None?)
    case Reject => DenialAsked(w, m, r, engine)
  }

  /** Nothing answered is forgotten, and what the move adds may be. */
  ghost predicate AnswersSaid(w: World, m: Move, told: Told, unused: bool, u: World, engine: Engine) {
    w.answers <= u.answers &&
    forall i :: |w.answers| <= i < |u.answers| ==> AnswerSaid(w, m, told, unused, u.answers[i].0, u.answers[i].1, engine)
  }

  ghost predicate AlwaysSaid(w: World, moves: seq<Move>, engine: Engine, told: Told, unused: bool)
    requires Rest(false, false, w)
    decreases |moves|
  {
    moves == [] ||
    (AnswersSaid(w, moves[0], ToldBy(w, moves[0], told), unused, Step(w, moves[0], engine), engine) &&
     (StepRest(false, false, w, moves[0], engine);
      AlwaysSaid(Step(w, moves[0], engine), moves[1..], engine, ToldBy(w, moves[0], told), unused)))
  }

  ghost function ToldAfter(w: World, moves: seq<Move>, engine: Engine, told: Told): Told
    requires Rest(false, false, w)
    decreases |moves|
  {
    if moves == [] then told
    else
      StepRest(false, false, w, moves[0], engine);
      ToldAfter(Step(w, moves[0], engine), moves[1..], engine, ToldBy(w, moves[0], told))
  }

  /** The runs a turn may deny. */
  function Deniable(w: World, work: Work, engine: Engine): set<RunId> {
    match work
    case Order(cmd) =>
      if cmd.RejectGate? && w.disk.saved.Some? && cmd.node in w.disk.saved.value.nodeRunId then {w.disk.saved.value.nodeRunId[cmd.node]} else {}
    case Deliver(s) =>
      if s.Awaiting? && w.disk.saved.Some? && w.disk.saved.value.def.autoReject && engine(w.calls).escalated then {s.run} else {}
  }

  lemma FairStore(x: Watch, w: World)
    requires Fair(x, w)
    ensures StoreOk(x, w)
  {
  }

  lemma RestStore(w: World, told: Told, denied: set<RunId>, once: bool)
    requires w.log == [w.disk] && DiskKept(w.disk, told)
    ensures StoreOk(Watch(told, w.answers, denied, once), w)
  {
  }

  /** Approving a node that waits leaves every stored approval as it was told. */
  lemma ToldKept(w: World, m: Move, told: Told)
    requires DiskKept(w.disk, told)
    ensures DiskKept(w.disk, ToldBy(w, m, told))
  {
  }

  lemma OrderStore(once: bool, w: World, cmd: Command, told: Told, engine: Engine)
    requires Rest(once, false, w) && Rest(false, false, w) && w.disk.saved.Some? && !cmd.Launch? && !Posted(cmd)
    requires DiskKept(w.disk, told)
    requires cmd.ApproveGate? && StatusIn(w.disk.saved.value, cmd.node) == AwaitingHuman ==> cmd.node in told && told[cmd.node] == cmd.amend
    ensures StoreOk(Watch(told, w.answers, Deniable(w, Order(cmd), engine), once), Handle(w, cmd, engine).0)
  {
    var x := Watch(told, w.answers, Deniable(w, Order(cmd), engine), once);
    RestFair(once, w, told, x.denied);
    RestStore(w, told, x.denied, once) by {
      RestLog(w);
    }
    FairStore(x, Load(w));
    hide Rest, Fair, StoreOk, DiskKept, WellFormed, RunIdsOk, Approved, Rejected, RetryNode, SkipNode, AbortNode, PauseCampaign, CancelCampaign, ResumeCampaign;
    var u := Handle(w, cmd, engine).0;
    if u != w {
      match cmd {
        case ApproveGate(n, amend) => ApproveStore(x, w, n, amend, engine);
        case RejectGate(n) => FairReject(x, w, n, engine);
        case Retry(n) => FairRetry(x, w, n, engine);
        case Skip(n) => FairSkip(x, w, n, engine);
        case Abort(n) => FairAbort(x, w, n, engine);
        case Pause => FairPause(x, w);
        case Cancel => FairCancelled(x, w, engine);
        case Resume => ResumeStore(x, w, engine);
      }
      FairStore(x, u);
    }
  }

  lemma RestLog(w: World)
    requires Rest(false, false, w)
    ensures w.log == [w.disk]
  {
  }

  lemma ApproveStore(x: Watch, w: World, n: NodeId, amend: Option<string>, engine: Engine)
    requires HasCampaign(w) && Defined(w.disk.saved.value) && Fair(x, Load(w))
    requires StatusIn(w.disk.saved.value, n) == AwaitingHuman ==> n in x.told && x.told[n] == amend
    ensures Approved(w, n, amend, engine).0 == w || Fair(x, Approved(w, n, amend, engine).0)
  {
    hide Fair, WellFormed, FillAndFinalize;
    if StatusIn(w.disk.saved.value, n) == AwaitingHuman {
      FairApproved(x, w, n, amend, engine);
    }
  }

  lemma ResumeStore(x: Watch, w: World, engine: Engine)
    requires HasCampaign(w) && Defined(w.disk.saved.value) && Fair(x, Load(w)) && RunIdsOk(w.disk.saved.value)
    ensures ResumeCampaign(w, engine).0 == w || Fair(x, ResumeCampaign(w, engine).0)
  {
    hide Fair, WellFormed, RunIdsOk, ReattachAll, RegateAll, PromoteAndFill;
    if !Ended(w.disk.saved.value.status) {
      FairResume(x, w, engine);
    }
  }

  lemma DeliverStore(once: bool, w: World, s: Signal, told: Told, engine: Engine)
    requires Rest(once, false, w) && Rest(false, false, w) && s in w.inbox && DiskKept(w.disk, told)
    ensures StoreOk(Watch(told, w.answers, Deniable(w, Deliver(s), engine), once), Perform(w, Deliver(s), engine))
  {
    var x := Watch(told, w.answers, Deniable(w, Deliver(s), engine), once);
    var v := Taken(w, s);
    TakenRests(once, false, w, s);
    RestLog(w);
    RestStore(v, told, x.denied, once);
    if v.disk.saved.Some? {
      RestFair(once, v, told, x.denied);
      hide Rest, Fair, StoreOk, DiskKept, WellFormed, RunIdsOk, OnRunFinished, OnNodeAwaiting;
      var u := Perform(w, Deliver(s), engine);
      if u != v {
        match s {
          case Finished(r, o) => FairFinished(x, v, r, o, engine);
          case Awaiting(r) => FairAwaiting(x, v, r, engine);
        }
        FairStore(x, u);
      }
    }
  }

  lemma PerformStore(once: bool, w: World, work: Work, told: Told, engine: Engine)
    requires Rest(once, false, w) && Rest(false, false, w) && (once ==> LaunchesUnused(w, work)) && DiskKept(w.disk, told)
    requires work.Order? && work.cmd.ApproveGate? && w.disk.saved.Some? && StatusIn(w.disk.saved.value, work.cmd.node) == AwaitingHuman ==>
               work.cmd.node in told && told[work.cmd.node] == work.cmd.amend
    ensures StoreOk(Watch(told, w.answers, Deniable(w, work, engine), once), Perform(w, work, engine))
  {
    var x := Watch(told, w.answers, Deniable(w, work, engine), once);
    RestLog(w);
    RestStore(w, told, x.denied, once);
    hide Rest, StoreOk, DiskKept, Fair, Unused;
    match work
    case Order(cmd) =>
      if cmd.Launch? {
        LaunchStore(x, w, cmd.def, engine);
      } else if !Posted(cmd) && w.disk.saved.Some? {
        OrderStore(once, w, cmd, told, engine);
      }
    case Deliver(s) =>
      if s in w.inbox {
        DeliverStore(once, w, s, told, engine);
      }
  }

  lemma LaunchStore(x: Watch, w: World, def: Def, engine: Engine)
    requires StoreOk(x, w) && (x.unused ==> Unused(def, w.disk.sessions))
    ensures StoreOk(x, LaunchCampaign(w, def, engine).0)
  {
    hide StoreOk, Fair, Unused, LaunchCampaign;
    FairLaunch(x, w, def, engine);
    if LaunchCampaign(w, def, engine).0 != w {
      FairStore(x, LaunchCampaign(w, def, engine).0);
    }
  }

  /** One move: what it answers was said, and what the store holds of approvals is what was told. */
  lemma StepSaid(once: bool, w: World, m: Move, told: Told, engine: Engine)
    requires Rest(once, false, w) && Rest(false, false, w) && (once ==> MoveUnused(w, m)) && DiskKept(w.disk, told)
    ensures AnswersSaid(w, m, ToldBy(w, m, told), once, Step(w, m, engine), engine)
    ensures DiskKept(Step(w, m, engine).disk, ToldBy(w, m, told))
  {
    var now := ToldBy(w, m, told);
    ToldKept(w, m, told);
    if m.Does? || m.Crashes? {
      TurnSaid(once, w, m, m.work, now, engine);
    }
  }

  lemma TurnSaid(once: bool, w: World, m: Move, work: Work, now: Told, engine: Engine)
    requires Rest(once, false, w) && Rest(false, false, w) && (m.Does? || m.Crashes?) && m.work == work
    requires (once ==> MoveUnused(w, m)) && DiskKept(w.disk, now) && now == ToldBy(w, m, now)
    ensures AnswersSaid(w, m, now, once, Step(w, m, engine), engine) && DiskKept(Step(w, m, engine).disk, now)
  {
    PerformStore(once, w, work, now, engine);
    DeniableAsked(w, m, engine);
    hide Rest, Perform, Kept, DenialAsked, Deniable;
    var x := Watch(now, w.answers, Deniable(w, work, engine), once);
    var u := Perform(w, work, engine);
    forall i | |w.answers| <= i < |u.answers| ensures AnswerSaid(w, m, now, once, u.answers[i].0, u.answers[i].1, engine) {
      assert Justified(x, u.answers[i].0, u.answers[i].1);
    }
  }

  lemma DeniableAsked(w: World, m: Move, engine: Engine)
    requires Rest(false, false, w) && (m.Does? || m.Crashes?)
    ensures forall r :: r in Deniable(w, m.work, engine) ==> DenialAsked(w, m, r, engine)
  {
    if w.disk.saved.Some? {
      RestRunIds(w);
    }
  }

  lemma RestRunIds(w: World)
    requires Rest(false, false, w) && w.disk.saved.Some?
    ensures RunIdsOk(w.disk.saved.value)
  {
    assert Good(Promise(Some(w.disk.saved.value), false, false, {}), Load(w));
  }

  lemma {:induction false} HistorySaid(once: bool, w: World, moves: seq<Move>, engine: Engine, told: Told)
    requires Rest(once, false, w) && Rest(false, false, w) && (once ==> LaunchesUnusedIds(w, moves, engine)) && DiskKept(w.disk, told)
    ensures AlwaysSaid(w, moves, engine, told, once) && DiskKept(Run(w, moves, engine).disk, ToldAfter(w, moves, engine, told))
    decreases |moves|
  {
    hide Rest, Step, DiskKept, AnswersSaid, MoveUnused, ToldBy;
    if moves != [] {
      StepRest(once, false, w, moves[0], engine);
      StepRest(false, false, w, moves[0], engine);
      StepSaid(once, w, moves[0], told, engine);
      HistorySaid(once, Step(w, moves[0], engine), moves[1..], engine, ToldBy(w, moves[0], told));
    }
  }

  /** Over any history of commands, signals and crashes at any write: every answer the engine takes approves
      a run with the amendment of its node's last accepted approval, or denies one that the operator rejected
      or that the definition denies. Only where a launch started on used ids may an approval be sent that
      nobody gave, and it carries no amendment. An approval that waits for its slot is stored as it was told. */
  lemma HistoryAnswers(w: World, moves: seq<Move>, engine: Engine)
    requires Initial(w)
    ensures AlwaysSaid(w, moves, engine, map[], false)
    ensures LaunchesUnusedIds(w, moves, engine) ==> AlwaysSaid(w, moves, engine, map[], true)
    ensures var c := Run(w, moves, engine).disk.saved;
            c.Some? ==> Kept(c.value, ToldAfter(w, moves, engine, map[]))
  {
    hide AlwaysSaid;
    assert MadeOnce(w.disk);
    HistorySaid(false, w, moves, engine, map[]);
    if LaunchesUnusedIds(w, moves, engine) {
      HistorySaid(true, w, moves, engine, map[]);
    }
  }
}
