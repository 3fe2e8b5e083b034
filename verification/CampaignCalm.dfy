/** Between crashes every failure is acted upon; a crash can leave at most one that is not. */
module CampaignCalm {
  import opened Names
  import opened CampaignGraph
  import opened CampaignCycle
  import opened CampaignModel
  import opened CampaignHandlers
  import opened CampaignInvariants
  import opened CampaignSafety
  import opened CampaignSteps
  import opened CampaignKeeps
  import opened CampaignResume
  import opened CampaignRuns
  import opened CampaignTheorems
  import opened CampaignFailure

  const PLAIN := Promise(None, false, false, {})

  lemma PlainGood(p: Promise, w: World)
    requires Good(p, w)
    ensures Good(PLAIN, w)
  {
  }

  // ── dispatch and fill ───────────────────────────────────────────────────────

  lemma SlotSettled(c: Campaign, n: NodeId)
    requires Settled(c) && n in Startable(c) && Open(c)
    ensures Settled(Slotted(c, n))
  {
    var d := Slotted(c, n);
    forall e | e in d.def.edges && e.condition.OnSuccess? && Blockable(d.nodeStatus, e.to) && Bad(d.def.nodes, d.nodeStatus, e.from)
      ensures e.from in d.gates
    {
      assert Blockable(c.nodeStatus, e.to) && Bad(c.def.nodes, c.nodeStatus, e.from);
    }
  }

  /** An edit that leaves nodes, gates and status alone leaves the campaign settled. */
  lemma SameSettled(c: Campaign, d: Campaign)
    requires Settled(c) && d.def == c.def && d.nodeStatus == c.nodeStatus && d.gates == c.gates && d.status == c.status
    requires d.failFastTripped == c.failFastTripped
    ensures Settled(d)
  {
  }

  lemma CalmStart(w: World, n: NodeId, engine: Engine)
    requires Calm(w) && n in Startable(w.camp) && Open(w.camp)
    ensures Calm(Start(w, n, engine).0)
  {
    var r := DeriveRunId(w.camp, n);
    var s := w.(camp := Slotted(w.camp, n));
    SlotSettled(w.camp, n);
    CalmPersist(s);
    var v := TakeSlot(w, n);
    if StatusIn(w.camp, n) == Ready {
      LaunchStep(v, r, engine);
      CalmStep(v, LaunchRun(v, r, engine).0, r);
    } else {
      var x := v.(camp := v.camp.(decisions := v.camp.decisions - {n}));
      SameSettled(v.camp, x.camp);
      CalmPersist(x);
      var answer := if n in v.camp.decisions then Approve(v.camp.decisions[n]) else Approve(None);
      ConfirmStep(Persist(x), r, answer, engine);
      CalmStep(Persist(x), ConfirmRun(Persist(x), r, answer, engine).0, r);
    }
  }

  lemma CalmDispatch(w: World, n: NodeId, engine: Engine)
    requires Calm(w) && Good(PLAIN, w) && n in Dispatchable(w.camp) && n in Startable(w.camp) && |RunningNodes(w.camp)| < w.camp.def.cap && Open(w.camp)
    ensures Calm(Dispatch(w, n, engine))
  {
    CalmStart(w, n, engine);
    GoodStart(PLAIN, w, n, engine);
    var started := Start(w, n, engine);
    if !started.1 {
      CalmEnd(started.0, n, OFailed, engine);
    }
  }

  lemma {:induction false} CalmFill(w: World, engine: Engine)
    requires Calm(w) && Good(PLAIN, w) && Open(w.camp)
    ensures Calm(Fill(w, engine)) && Good(PLAIN, Fill(w, engine))
    decreases Startable(w.camp)
  {
    if |RunningNodes(w.camp)| < w.camp.def.cap && Dispatchable(w.camp) != {} {
      var n := Least(Dispatchable(w.camp));
      DispatchableKnown(w.camp);
      DispatchShrinks(w, n, engine);
      CalmDispatch(w, n, engine);
      GoodDispatch(PLAIN, w, n, engine);
      DispatchOpen(w, n, engine);
      CalmFill(Dispatch(w, n, engine), engine);
    }
  }

  lemma FinalizeSettled(c: Campaign)
    requires Settled(c)
    ensures Settled(FinalizeIfDone(c))
  {
  }

  lemma CalmFillAndFinalize(w: World, engine: Engine)
    requires Calm(w) && Good(PLAIN, w)
    ensures Calm(FillAndFinalize(w, engine))
  {
    if w.camp.status == CRunning {
      CalmFill(w, engine);
    }
    var t := TryFill(w, engine);
    FinalizeSettled(t.camp);
    CalmPersist(t.(camp := FinalizeIfDone(t.camp)));
  }

  lemma PromoteSettled(c: Campaign)
    requires Settled(c) && Defined(c)
    ensures Settled(PromoteReady(c))
  {
    hide WellFormed, Eligible, PromoteReady, Quiet;
    PromotesTo(c);
    PromoteShape(c);
    PromoteOpen(c);
    if Quiet(c) {
      PromoteQuiets(c);
    }
  }

  lemma PromoteOpen(c: Campaign)
    requires OpenOk(c) && Defined(c)
    ensures OpenOk(PromoteReady(c))
  {
    hide WellFormed, Eligible;
    var d := PromoteReady(c);
    PromotesTo(c);
    forall e | e in d.def.edges && e.condition.OnSuccess? && Blockable(d.nodeStatus, e.to) && Bad(d.def.nodes, d.nodeStatus, e.from)
      ensures e.from in d.gates
    {
      assert Blockable(c.nodeStatus, e.to) && Bad(c.def.nodes, c.nodeStatus, e.from);
    }
  }

  /** In a quiet campaign there is nothing to promote. */
  lemma PromoteQuiets(c: Campaign)
    requires Quiet(c) && Defined(c)
    ensures PromoteReady(c) == c
  {
    assert forall n :: n in c.nodeStatus ==> n !in Dispatchable(c);
    assert PromoteReady(c).nodeStatus == c.nodeStatus;
  }

  lemma CalmPromoteAndFill(w: World, engine: Engine)
    requires Calm(w) && Good(PLAIN, w)
    ensures Calm(PromoteAndFill(w, engine))
  {
    var u := w.(camp := PromoteReady(w.camp));
    PromoteSettled(w.camp);
    GoodPromote(PLAIN, w);
    CalmPersist(u);
    GoodPersist(PLAIN, u);
    CalmFillAndFinalize(Persist(u), engine);
  }

  // ── handlers ────────────────────────────────────────────────────────────────

  /** The store at rest after a crash-free history. */
  ghost predicate RestCalm(w: World) {
    Rest(false, true, w) && (w.disk.saved.Some? ==> Settled(w.disk.saved.value))
  }

  ghost predicate TurnCalm(u: World) {
    NearLog(u) && (u.disk.saved.Some? ==> Settled(u.disk.saved.value))
  }

  lemma FreshSettled(def: Def)
    ensures Settled(FreshCampaign(def))
  {
  }

  lemma CalmLaunch(w: World, def: Def, engine: Engine)
    requires RestCalm(w)
    ensures TurnCalm(LaunchCampaign(w, def, engine).0)
  {
    LooseTie(false, w);
    LaunchLeaves(w, def, engine, false);
    if LaunchCampaign(w, def, engine).1 {
      var v := w.(camp := FreshCampaign(def));
      FreshGood(w, def, false);
      PlainGood(Promise(None, false, true, {}), v);
      FreshSettled(def);
      assert Calm(v);
      CalmPersist(v);
      GoodPersist(PLAIN, v);
      CalmPromoteAndFill(Persist(v), engine);
    }
  }

  lemma CalmLoad(w: World)
    requires RestCalm(w) && w.disk.saved.Some?
    ensures Calm(Load(w)) && Good(PLAIN, Load(w))
  {
    PlainGood(Promise(w.disk.saved, false, true, {}), Load(w));
  }

  lemma CalmDeliver(w: World, s: Signal, engine: Engine)
    requires RestCalm(w) && Rest(false, false, w) && s in w.inbox
    ensures TurnCalm(Perform(w, Deliver(s), engine))
  {
    hide DepsOk, GatesOk, RunIdsOk, CapOk, EndedOk, DecisionsOk;
    if w.disk.saved.Some? {
      var v := Load(Taken(w, s));
      LoadTaken(false, true, w, s);
      PlainGood(Promise(w.disk.saved, false, true, if s.Finished? then {s.run.node} else {}), v);
      assert Calm(v) by {
        CalmLoad(w);
      }
      FoundOwner(v.camp, s.run);
      match s
      case Finished(r, outcome) => CalmFinished(v, r, outcome, engine);
      case Awaiting(r) => CalmAwaiting(v, r, engine);
    }
  }

  lemma CalmFinished(v: World, r: RunId, outcome: Outcome, engine: Engine)
    requires Calm(v) && Good(PLAIN, v) && v.disk.saved == Some(v.camp)
    ensures TurnCalm(OnRunFinished(v, r, outcome, engine).0)
  {
    FoundOwner(v.camp, r);
    var found := FindByRun(v.camp, r);
    if found.Some? && !StatusIn(v.camp, found.value).Terminal() {
      CalmReconcile(v, r.node, outcome, engine);
      GoodReconcile(PLAIN, v, r.node, outcome, engine);
      var u := ReconcileTerminal(v, r.node, outcome, engine);
      PlainGood(Without(PLAIN, r.node), u);
      CalmPromoteAndFill(u, engine);
      assert Load(v) == v;
    }
  }

  lemma CalmAwaiting(v: World, r: RunId, engine: Engine)
    requires Calm(v) && Good(PLAIN, v) && v.disk.saved == Some(v.camp) && r in v.disk.sessions
    ensures TurnCalm(OnNodeAwaiting(v, r, engine).0)
  {
    FoundOwner(v.camp, r);
    var found := FindByRun(v.camp, r);
    if found.Some? && StatusIn(v.camp, found.value) == Running {
      var n := r.node;
      SettledMove(v.camp, n, AwaitingHuman);
      CalmPersist(SetNodeW(v, n, AwaitingHuman));
      GoodAwait(PLAIN, v, n);
      var u := Persist(SetNodeW(v, n, AwaitingHuman));
      ConfirmStep(Asked(u), r, Reject, engine);
      CalmStep(Asked(u), ConfirmRun(Asked(u), r, Reject, engine).0, r);
      GoodAutoReject(PLAIN, u, r, engine);
      CalmFillAndFinalize(AutoReject(u, r, engine), engine);
      assert Load(v) == v;
    }
  }

  lemma CalmApproved(w: World, n: NodeId, amend: Option<string>, engine: Engine)
    requires RestCalm(w) && w.disk.saved.Some?
    ensures TurnCalm(Approved(w, n, amend, engine).0)
  {
    var v := Load(w);
    CalmLoad(w);
    if StatusIn(v.camp, n) == AwaitingHuman {
      var d := SetNode(v.camp, n, ReadyToResume).(decisions := v.camp.decisions[n := amend]);
      SettledMove(v.camp, n, ReadyToResume);
      SameSettled(SetNode(v.camp, n, ReadyToResume), d);
      CalmPersist(v.(camp := d));
      GoodApprove(PLAIN, v, n, amend);
      CalmFillAndFinalize(Persist(v.(camp := d)), engine);
    }
  }

  lemma CalmReconcileRejected(w: World, n: NodeId, outcome: Outcome, engine: Engine)
    requires Calm(w) && Good(PLAIN, w) && StatusIn(w.camp, n) == AwaitingHuman
    ensures Calm(ReconcileRejected(w, n, outcome, engine)) && ReconcileRejected(w, n, outcome, engine).disk.saved == Some(ReconcileRejected(w, n, outcome, engine).camp)
  {
    CalmReconcile(w, n, outcome, engine);
    GoodReconcile(PLAIN, w, n, outcome, engine);
    PlainGood(Without(PLAIN, n), ReconcileTerminal(w, n, outcome, engine));
    CalmPromoteAndFill(ReconcileTerminal(w, n, outcome, engine), engine);
  }

  lemma CalmRejected(w: World, n: NodeId, engine: Engine)
    requires RestCalm(w) && w.disk.saved.Some?
    ensures TurnCalm(Rejected(w, n, engine).0)
  {
    var v := Load(w);
    CalmLoad(w);
    if StatusIn(v.camp, n) == AwaitingHuman && n in v.camp.nodeRunId {
      var r := v.camp.nodeRunId[n];
      ConfirmStep(v, r, Reject, engine);
      var (a, ok) := ConfirmRun(v, r, Reject, engine);
      GoodStep(PLAIN, v, a, r);
      CalmStep(v, a, r);
      if !ok {
        GoodInFlight(PLAIN, a, a.inFlight - {r});
        var u := a.(inFlight := a.inFlight - {r});
        match EndedOutcome(u.disk, r)
        case Some(outcome) => CalmReconcileRejected(u, n, outcome, engine);
        case None =>
          CancelStep(u, r, engine);
          var (b, done) := CancelRun(u, r, engine);
          GoodStep(PLAIN, u, b, r);
          CalmStep(u, b, r);
          if !done {
            CalmReconcileRejected(b, n, OFailed, engine);
          }
      }
    }
  }

  /** A retried node waits on no bad one: its dependencies completed. */
  lemma RetrySettled(c: Campaign, n: NodeId)
    requires Settled(c) && CampOk(c) && Busy(c) && Gated(c, n)
    ensures Settled(Retried(c, n))
  {
    var d := Retried(c, n);
    assert Fallen(c, n) && Engaged(c, n) && DepsDone(c, n);
    GatesUnfinished(c);
    forall e | e in d.def.edges && e.condition.OnSuccess? && Blockable(d.nodeStatus, e.to) && Bad(d.def.nodes, d.nodeStatus, e.from)
      ensures e.from in d.gates
    {
      if e.to != n {
        assert Blockable(c.nodeStatus, e.to) && Bad(c.def.nodes, c.nodeStatus, e.from);
      }
    }
    assert c.status.CRunning? ==> c.gates == [];
    assert d.nodeStatus[n] == Ready;
  }

  lemma SkipSettled(c: Campaign, n: NodeId)
    requires Settled(c) && CampOk(c) && Defined(c) && Busy(c) && Gated(c, n)
    ensures Settled(Skipped(c, n))
  {
    var x := SetNode(c, n, Failed).(gates := Dequeue(c.gates, n));
    BlockingCloses(x);
    StillUnfinished(x, n);
    GatesUnfinished(c);
    SkipStatus(c, n, ApplyBlocking(x));
  }

  /** Once blocking has closed the graph, what is left to settle is the campaign's status. */
  lemma SkipStatus(c: Campaign, n: NodeId, b: Campaign)
    requires Settled(c) && Busy(c) && c.gates != [] && c.def.policy.HumanGateOnFailure? && b.def == c.def && b.status == c.status
    requires n in b.nodeStatus && StatusIn(b, n) == Failed
    requires forall e :: e in b.def.edges && e.condition.OnSuccess? && Blockable(b.nodeStatus, e.to) ==> !Bad(b.def.nodes, b.nodeStatus, e.from)
    ensures Settled(b.(status := if b.gates == [] then CRunning else b.status))
  {
    assert !c.status.CRunning?;
    assert !AllCompleted(b);
  }

  lemma CalmRetry(w: World, n: NodeId, engine: Engine)
    requires RestCalm(w) && w.disk.saved.Some?
    ensures TurnCalm(RetryNode(w, n, engine).0)
  {
    var v := Load(w);
    CalmLoad(w);
    if Gated(v.camp, n) {
      var u := v.(camp := Retried(v.camp, n));
      RetrySettled(v.camp, n);
      CalmPersist(u);
      RetriedOk(v.camp, n);
      GateEditsDefined(v.camp, n);
      RetryEdit(v.camp, n, v.disk.sessions);
      GoodEdit(PLAIN, v, u.camp);
      GoodPersist(PLAIN, u);
      CalmFillAndFinalize(Persist(u), engine);
    }
  }

  lemma CalmSkip(w: World, n: NodeId, engine: Engine)
    requires RestCalm(w) && w.disk.saved.Some?
    ensures TurnCalm(SkipNode(w, n, engine).0)
  {
    var v := Load(w);
    CalmLoad(w);
    if Gated(v.camp, n) {
      SkipSettled(v.camp, n);
      GateEditsDefined(v.camp, n);
      CalmPersist(v.(camp := Skipped(v.camp, n)));
      GoodSkip(PLAIN, v, n);
      var u := Persist(v.(camp := Skipped(v.camp, n)));
      PromoteSettled(u.camp);
      GoodPromote(PLAIN, u);
      CalmFillAndFinalize(u.(camp := PromoteReady(u.camp)), engine);
    }
  }

  lemma CalmAbort(w: World, n: NodeId, engine: Engine)
    requires RestCalm(w) && w.disk.saved.Some?
    ensures TurnCalm(AbortNode(w, n, engine).0)
  {
    var v := Load(w);
    CalmLoad(w);
    if Gated(v.camp, n) {
      var x := v.(camp := Reopened(v.camp, n));
      GoodReopen(PLAIN, v, n);
      CalmFailFast(x, engine);
      var u := FailFastAll(x, engine);
      FinalizeSettled(u.camp);
      CalmPersist(u.(camp := FinalizeIfDone(u.camp)));
    }
  }

  lemma CalmPause(w: World)
    requires RestCalm(w) && w.disk.saved.Some?
    ensures TurnCalm(PauseCampaign(w).0)
  {
    var v := Load(w);
    CalmLoad(w);
    if v.camp.status == CRunning {
      assert Settled(v.camp.(status := CPaused));
      CalmPersist(v.(camp := v.camp.(status := CPaused)));
    }
  }

  lemma CancelSettled(c: Campaign)
    requires Settled(c) && Defined(c)
    ensures var d := c.(status := CCancelled); Settled(d) && Settled(CancelNonTerminal(d))
  {
    var d := c.(status := CCancelled);
    assert OpenOk(d);
    assert AllTerminal(CancelNonTerminal(d));
    assert OpenOk(CancelNonTerminal(d));
  }

  lemma CalmCancel(w: World, engine: Engine)
    requires RestCalm(w) && w.disk.saved.Some?
    ensures TurnCalm(CancelCampaign(w, engine).0)
  {
    var v := Load(w);
    CalmLoad(w);
    if !Ended(v.camp.status) {
      var u := Persist(v.(camp := v.camp.(status := CCancelled)));
      CancelSettled(v.camp);
      CalmPersist(v.(camp := u.camp));
      var x := u.(camp := CancelNonTerminal(u.camp));
      CalmPersist(x);
      CalmCancelRuns(Persist(x), RunsOf(u.camp, LIVE), engine);
      CancelRunsSaved(Persist(x), RunsOf(u.camp, LIVE), engine);
    }
  }

  // ── resume ──────────────────────────────────────────────────────────────────

  lemma CalmReattach(w: World, n: NodeId, r: RunId, engine: Engine)
    requires Calm(w) && Good(PLAIN, w) && ListedIn(w.camp, n, r)
    ensures Calm(Reattach(w, n, r, engine))
  {
    if r in w.disk.sessions && w.disk.sessions[r].Terminal() {
      CalmReconcile(w, n, OutcomeOf(w.disk.sessions[r]), engine);
    } else {
      var started := if r in w.disk.sessions then ResumeRun(w, r, engine) else LaunchRun(w, r, engine);
      LaunchStep(w, r, engine);
      if r in w.disk.sessions {
        ResumeStep(w, r, engine);
      }
      CalmStep(w, started.0, r);
      if !started.1 {
        CalmReconcile(started.0, n, OFailed, engine);
      }
    }
  }

  lemma {:induction false} CalmReattachAll(w: World, runs: seq<(NodeId, RunId)>, engine: Engine)
    requires Calm(w) && Good(PLAIN, w) && Listed(w, runs)
    ensures Calm(ReattachAll(w, runs, engine)) && Good(PLAIN, ReattachAll(w, runs, engine))
    decreases |runs|
  {
    if runs != [] {
      var x := runs[0];
      assert x in runs;
      CalmReattach(w, x.0, x.1, engine);
      ReattachFirst(PLAIN, w, runs, engine);
      var u := Reattach(w, x.0, x.1, engine);
      PlainGood(Without(PLAIN, x.0), u);
      CalmReattachAll(u, runs[1..], engine);
    }
  }

  lemma {:induction false} CalmRegateAll(w: World, runs: seq<(NodeId, RunId)>, engine: Engine)
    requires Calm(w) && Good(PLAIN, w) && AllListed(w.camp, runs) && AllGatedOrEnded(w.camp, runs) && w.disk.saved.Some?
    ensures Calm(RegateAll(w, runs, engine)) && Good(PLAIN, RegateAll(w, runs, engine))
    decreases |runs|
  {
    if runs != [] {
      var x := runs[0];
      assert x in runs && ListedIn(w.camp, x.0, x.1);
      if x.1 in w.disk.sessions && w.disk.sessions[x.1].Terminal() {
        CalmReconcile(w, x.0, OutcomeOf(w.disk.sessions[x.1]), engine);
      }
      RegateFirst(PLAIN, w, runs, engine);
      var u := Regate(w, x.0, x.1, engine);
      PlainGood(Without(PLAIN, x.0), u);
      CalmRegateAll(u, runs[1..], engine);
    }
  }

  lemma CalmUnpause(v: World)
    requires Calm(v) && Good(PLAIN, v)
    ensures var u := Persist(v.(camp := Unpaused(v.camp))); Calm(u) && Good(PLAIN, u)
  {
    var x := v.(camp := Unpaused(v.camp));
    assert Settled(x.camp);
    CalmPersist(x);
    SameNodesOk(v.camp, x.camp);
    GoodEdit(PLAIN, v, x.camp);
    GoodPersist(PLAIN, x);
  }

  /** A settled campaign is settled after a resume, whatever a crash did to its live nodes. */
  lemma CalmResume(w: World, engine: Engine)
    requires Rest(false, false, w) && w.disk.saved.Some? && Settled(w.disk.saved.value)
    ensures TurnCalm(ResumeCampaign(w, engine).0)
  {
    PlainGood(Promise(w.disk.saved, false, false, {}), Load(w));
    assert Near(w.disk);
    var v := Load(w);
    if !Ended(v.camp.status) {
      CalmUnpause(v);
      var u := Persist(v.(camp := Unpaused(v.camp)));
      var runs := RunsOf(u.camp, {Running});
      RunsListed(u.camp, {Running});
      CalmReattachAll(u, runs, engine);
      ReattachAllSaved(u, runs, engine);
      var a := ReattachAll(u, runs, engine);
      RunsListed(a.camp, GATED);
      CalmRegateAll(a, RunsOf(a.camp, GATED), engine);
      CalmPromoteAndFill(RegateAll(a, RunsOf(a.camp, GATED), engine), engine);
    }
  }

  // ── histories ───────────────────────────────────────────────────────────────

  lemma RestNear(w: World)
    requires RestCalm(w)
    ensures TurnCalm(w)
  {
    assert Near(w.disk);
  }

  lemma SettledRest(w: World)
    requires RestCalm(w) && w.disk.saved.Some?
    ensures Settled(w.disk.saved.value)
  {
  }

  lemma CalmOrder(w: World, cmd: Command, engine: Engine)
    requires RestCalm(w) && Rest(false, false, w) && w.disk.saved.Some? && !cmd.Launch? && !Posted(cmd)
    ensures TurnCalm(Handle(w, cmd, engine).0)
  {
    SavedDefined(false, false, w);
    SettledRest(w);
    hide Rest, RestCalm, TurnCalm, Settled, WellFormed, Approved, Rejected, RetryNode, SkipNode, AbortNode, PauseCampaign, CancelCampaign, ResumeCampaign;
    match cmd
    case ApproveGate(n, amend) => CalmApproved(w, n, amend, engine);
    case RejectGate(n) => CalmRejected(w, n, engine);
    case Retry(n) => CalmRetry(w, n, engine);
    case Skip(n) => CalmSkip(w, n, engine);
    case Abort(n) => CalmAbort(w, n, engine);
    case Pause => CalmPause(w);
    case Cancel => CalmCancel(w, engine);
    case Resume => CalmResume(w, engine);
  }

  /** A turn from a settled campaign leaves it settled; on the way, the store holds at most one failure
      that has not been acted upon. */
  lemma PerformCalm(w: World, work: Work, engine: Engine)
    requires RestCalm(w) && Rest(false, false, w)
    ensures TurnCalm(Perform(w, work, engine))
  {
    match work
    case Deliver(s) =>
      if s in w.inbox {
        CalmDeliver(w, s, engine);
      } else {
        RestNear(w);
      }
    case Order(cmd) =>
      if cmd.Launch? {
        CalmLaunch(w, cmd.def, engine);
      } else if w.disk.saved.Some? && !Posted(cmd) {
        CalmOrder(w, cmd, engine);
      } else {
        RestNear(w);
      }
  }

  lemma StepCalm(w: World, m: Move, engine: Engine)
    requires RestCalm(w) && Rest(false, false, w) && !m.Crashes?
    ensures RestCalm(Step(w, m, engine))
  {
    StepRest(false, true, w, m, engine);
    if m.Does? {
      PerformCalm(w, m.work, engine);
    }
  }

  /** A crash in a settled campaign leaves it settled, or with exactly one failure on record whose
      policy was never applied. */
  lemma CrashLeavesOneFailure(w: World, work: Work, at: nat, engine: Engine)
    requires RestCalm(w) && Rest(false, false, w)
    ensures var d := Step(w, Crashes(work, at), engine).disk;
            d.saved.Some? ==> Settled(d.saved.value) || MidFailure(d.saved.value)
  {
    PerformCalm(w, work, engine);
    RestNear(w);
    var u := Perform(w, work, engine);
    if at < |u.log| {
      assert u.log[at] in u.log && Near(u.log[at]);
    }
  }

  // ── histories with crashes ──────────────────────────────────────────────────

  /** What a crash must leave for a resume to mend it: each failure acted upon, and no live node in a
      cancelled campaign. */
  ghost predicate Mendable(w: World) {
    w.disk.saved.Some? ==> Settled(w.disk.saved.value) && CancelledQuiet(w.disk.saved.value)
  }

  predicate NeedsResume(w: World) {
    w.disk.saved.Some? && !Ended(w.disk.saved.value.status)
  }

  /** Each crash leaves a mendable campaign, and one that has not ended is resumed before any other turn
      (the resume may crash in turn). `due`: such a resume is still to come. */
  ghost predicate Careful(w: World, moves: seq<Move>, engine: Engine, due: bool)
    requires Rest(false, false, w)
    decreases |moves|
  {
    moves == [] ||
    (StepRest(false, false, w, moves[0], engine);
     var m, u := moves[0], Step(w, moves[0], engine);
     (due && !m.Drifts? ==> m.work == Order(Resume)) && (m.Crashes? ==> Mendable(u)) &&
     Careful(u, moves[1..], engine, if m.Crashes? then NeedsResume(u) else due && m.Drifts?))
  }

  lemma {:induction false} NoCrashCareful(w: World, moves: seq<Move>, engine: Engine)
    requires Rest(false, false, w) && NoCrash(moves)
    ensures Careful(w, moves, engine, false)
    decreases |moves|
  {
    if moves != [] {
      StepRest(false, false, w, moves[0], engine);
      NoCrashCareful(Step(w, moves[0], engine), moves[1..], engine);
    }
  }

  /** A campaign that has ended, or none, is at rest as it is. */
  lemma EndedCalm(w: World)
    requires Rest(false, false, w) && Mendable(w) && !NeedsResume(w)
    ensures RestCalm(w)
  {
    if w.disk.saved.Some? {
      var c := w.disk.saved.value;
      assert Good(Promise(Some(c), false, false, {}), Load(w));
      assert CampOk(c) && NoLive(c);
      assert Tied(Load(w), {});
    }
  }

  /** Resuming a settled campaign brings the world to rest as a crash-free history would. */
  lemma ResumeCalm(w: World, engine: Engine)
    requires Rest(false, false, w) && w.disk.saved.Some? && Settled(w.disk.saved.value) && !Ended(w.disk.saved.value.status)
    ensures RestCalm(Step(w, Does(Order(Resume)), engine))
  {
    CalmResume(w, engine);
    ResumeTies(w, engine);
    SavedDefined(false, false, w);
    hide *;
    ResumeStepIs(w, engine);
    AtRest(w, ResumeCampaign(w, engine).0, engine);
  }

  lemma ResumeStepIs(w: World, engine: Engine)
    requires Rest(false, false, w) && w.disk.saved.Some? && Defined(w.disk.saved.value)
    ensures Step(w, Does(Order(Resume)), engine) == Fresh(ResumeCampaign(w, engine).0)
  {
    hide Rest, WellFormed, ResumeCampaign;
  }

  lemma AtRest(w: World, u: World, engine: Engine)
    requires Rest(false, false, w) && TurnCalm(u) && Step(w, Does(Order(Resume)), engine) == Fresh(u) && Rest(false, true, Fresh(u))
    ensures RestCalm(Step(w, Does(Order(Resume)), engine))
  {
    hide Step, Rest, Settled, NearLog;
  }

  lemma StepMends(w: World, m: Move, engine: Engine)
    requires Rest(false, false, w) && Mendable(w) && NeedsResume(w)
    requires m.Drifts? || m == Does(Order(Resume))
    ensures Rest(false, false, Step(w, m, engine))
    ensures if m.Drifts? then Mendable(Step(w, m, engine)) && NeedsResume(Step(w, m, engine)) else RestCalm(Step(w, m, engine))
  {
    StepRest(false, false, w, m, engine);
    if !m.Drifts? {
      ResumeCalm(w, engine);
    }
  }

  lemma {:induction false} RunCalm(w: World, moves: seq<Move>, engine: Engine, due: bool)
    requires Rest(false, false, w) && Careful(w, moves, engine, due)
    requires if due then Mendable(w) && NeedsResume(w) else RestCalm(w)
    ensures Mendable(Run(w, moves, engine))
    decreases |moves|
  {
    if moves != [] {
      var m, u := moves[0], Step(w, moves[0], engine);
      StepRest(false, false, w, m, engine);
      if m.Crashes? {
        if !NeedsResume(u) {
          EndedCalm(u);
        }
      } else if due {
        StepMends(w, m, engine);
      } else {
        StepCalm(w, m, engine);
      }
      RunCalm(u, moves[1..], engine, if m.Crashes? then NeedsResume(u) else due && m.Drifts?);
    }
  }

  /** After any careful history, a finalized campaign is `Completed` exactly when every node is; it is
      quiet unless a gate is open; once quiet, a node is not terminal exactly when it is pending behind
      an edge nothing will satisfy; and such an edge leaves an open gate, or is an `OnTerminal` edge from
      a blocked node. */
  lemma HistoryFinalized(w: World, moves: seq<Move>, engine: Engine, n: NodeId)
    requires Initial(w) && Careful(w, moves, engine, false)
    ensures var d := Run(w, moves, engine).disk;
            d.saved.Some? && Finalized(d.saved.value.status) ==>
              var c := d.saved.value;
              (c.status.CCompleted? <==> AllCompleted(c)) && (Quiet(c) || c.gates != []) &&
              (Quiet(c) && n in c.nodeStatus ==> (!c.nodeStatus[n].Terminal() <==> Stuck(c, n))) &&
              forall e :: Cause(c, e) && StatusIn(c, e.to) == Pending ==>
                e.from in c.gates || (e.condition.OnTerminal? && StatusIn(c, e.from) == Blocked)
  {
    RunCalm(w, moves, engine, false);
    HistorySafe(w, moves, engine);
    var d := Run(w, moves, engine).disk;
    if d.saved.Some? && Finalized(d.saved.value.status) {
      var c := d.saved.value;
      if Quiet(c) && n in c.nodeStatus {
        QuietStuck(c, n);
      }
      forall e | Cause(c, e) && StatusIn(c, e.to) == Pending
        ensures e.from in c.gates || (e.condition.OnTerminal? && StatusIn(c, e.from) == Blocked)
      {
        SettledCause(c, e);
      }
    }
  }

  /** With success edges only, every node of such a campaign is terminal once no gate is open. */
  lemma HistoryFinalizedSuccessOnly(w: World, moves: seq<Move>, engine: Engine, n: NodeId)
    requires Initial(w) && Careful(w, moves, engine, false)
    ensures var d := Run(w, moves, engine).disk;
            d.saved.Some? && Finalized(d.saved.value.status) && d.saved.value.gates == [] &&
            (forall e :: e in d.saved.value.def.edges ==> e.condition.OnSuccess?) && n in d.saved.value.nodeStatus ==>
              d.saved.value.nodeStatus[n].Terminal()
  {
    HistoryFinalized(w, moves, engine, n);
  }

  /** Under fail-fast, after any careful history, one failure has ended every node. */
  lemma HistoryFailFast(w: World, moves: seq<Move>, engine: Engine, n: NodeId, m: NodeId)
    requires Initial(w) && Careful(w, moves, engine, false)
    ensures var d := Run(w, moves, engine).disk;
            d.saved.Some? && d.saved.value.def.policy.FailFast? && n in d.saved.value.nodeStatus && Fallen(d.saved.value, n) && m in d.saved.value.nodeStatus ==>
              d.saved.value.nodeStatus[m].Terminal() && (d.saved.value.failFastTripped || d.saved.value.status.CCancelled?)
  {
    RunCalm(w, moves, engine, false);
  }
}
