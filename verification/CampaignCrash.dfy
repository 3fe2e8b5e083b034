/** What a crash loses: between recording a failure and acting on it, and inside a cancel. For each, the
    exact states it leaves and the exact condition under which nothing is lost. */
module CampaignCrash {
  import opened Names
  import opened CampaignGraph
  import opened CampaignCycle
  import opened CampaignModel
  import opened CampaignHandlers
  import opened CampaignInvariants
  import opened CampaignSafety
  import opened CampaignSteps
  import opened CampaignKeeps
  import opened CampaignResume
  import opened CampaignRuns
  import opened CampaignTheorems
  import opened CampaignFailure
  import opened CampaignCalm

  // ── a crash between recording a failure and acting on it ────────────────────

  /** The first write of a delivered failure records the node's end and nothing else. */
  lemma FailureFirstWrite(w: World, n: NodeId, outcome: Outcome, engine: Engine)
    requires Defined(w.camp) && n in w.camp.nodeStatus
    ensures var u := EndNode(w, n, outcome, engine);
            |w.log| < |u.log| && u.log[|w.log|] == w.disk.(saved := Some(SetNode(w.camp, n, outcome.AsNodeStatus())))
  {
    var x := Persist(SetNodeW(w, n, outcome.AsNodeStatus()));
    if outcome != OCompleted && w.camp.def.policy.FailFast? {
      var y := Persist(x.(camp := CancelNonTerminal(x.camp).(failFastTripped := true)));
      LogGrows(y, RunsOf(x.camp, LIVE), engine);
    }
  }

  lemma {:induction false} LogGrows(w: World, runs: seq<(NodeId, RunId)>, engine: Engine)
    ensures w.log <= CancelRuns(w, runs, engine).log
    decreases |runs|
  {
    if runs != [] {
      var r := runs[0].1;
      CancelStep(w, r, engine);
      var u := CancelRun(w, r, engine).0;
      LogGrows(u.(inFlight := u.inFlight - {r}), runs[1..], engine);
    }
  }

  // ── the log only grows ──────────────────────────────────────────────────────

  lemma EndGrows(w: World, n: NodeId, outcome: Outcome, engine: Engine)
    requires Defined(w.camp) && n in w.camp.nodeStatus
    ensures w.log <= EndNode(w, n, outcome, engine).log
  {
    var x := Persist(SetNodeW(w, n, outcome.AsNodeStatus()));
    LogGrows(Persist(x.(camp := CancelNonTerminal(x.camp).(failFastTripped := true))), RunsOf(x.camp, LIVE), engine);
  }

  lemma StartGrows(w: World, n: NodeId, engine: Engine)
    ensures w.log <= Start(w, n, engine).0.log
  {
    var r, v := DeriveRunId(w.camp, n), TakeSlot(w, n);
    hide LaunchRun, ConfirmRun;
    LaunchStep(v, r, engine);
    var x := Persist(v.(camp := v.camp.(decisions := v.camp.decisions - {n})));
    ConfirmStep(x, r, if n in v.camp.decisions then Approve(v.camp.decisions[n]) else Approve(None), engine);
  }

  lemma {:induction false} FillGrows(w: World, engine: Engine)
    requires Defined(w.camp)
    ensures w.log <= Fill(w, engine).log
    decreases Startable(w.camp)
  {
    if |RunningNodes(w.camp)| < w.camp.def.cap && Dispatchable(w.camp) != {} {
      var n := Least(Dispatchable(w.camp));
      DispatchShrinks(w, n, engine);
      StartGrows(w, n, engine);
      EndGrows(Start(w, n, engine).0, n, OFailed, engine);
      FillGrows(Dispatch(w, n, engine), engine);
    }
  }

  lemma PromoteGrows(w: World, engine: Engine)
    requires Defined(w.camp)
    ensures w.log <= PromoteAndFill(w, engine).log
  {
    PromoteDefined(w.camp);
    var u := Persist(w.(camp := PromoteReady(w.camp)));
    if u.camp.status.CRunning? {
      FillGrows(u, engine);
    }
  }

  // ── what the crash loses ────────────────────────────────────────────────────

  /** The node a signal ends. */
  ghost predicate Ends(w: World, r: RunId) {
    w.disk.saved.Some? && FindByRun(w.disk.saved.value, r).Some? && !StatusIn(w.disk.saved.value, r.node).Terminal()
  }

  lemma EndingNode(w: World, r: RunId)
    requires Rest(false, false, w) && Ends(w, r)
    ensures var c := w.disk.saved.value;
            Defined(c) && GatesOk(c) && r.node in c.nodeStatus && (c.nodeStatus[r.node].Live() || c.nodeStatus[r.node] == Ready) &&
            r.node !in c.gates && !Ended(c.status) && FindByRun(c, r) == Some(r.node) && r.node in c.def.nodes
  {
    var c := w.disk.saved.value;
    assert Good(Promise(Some(c), false, false, {}), Load(w));
    FoundOwner(c, r);
  }

  /** A crash after the first write of a delivered end leaves the node's end on record, and nothing of
      what follows from it. */
  lemma FinishedCrash(w: World, r: RunId, outcome: Outcome, engine: Engine)
    requires Rest(false, false, w) && Finished(r, outcome) in w.inbox && Ends(w, r)
    ensures Step(w, Crashes(Deliver(Finished(r, outcome)), 1), engine).disk
            == w.disk.(saved := Some(SetNode(w.disk.saved.value, r.node, outcome.AsNodeStatus())))
  {
    hide ReconcileTerminal, PromoteAndFill, EndNode, FindByRun;
    var s := Finished(r, outcome);
    var v := Load(Taken(w, s));
    EndingNode(w, r);
    EndedWrites(v, r.node, outcome, engine);
    assert Perform(w, Deliver(s), engine) == OnRunFinished(Taken(w, s), r, outcome, engine).0;
    assert OnRunFinished(Taken(w, s), r, outcome, engine).0 == PromoteAndFill(ReconcileTerminal(v, r.node, outcome, engine), engine);
  }

  /** A node that ends is written first, before anything that follows from it. */
  lemma EndedWrites(v: World, n: NodeId, outcome: Outcome, engine: Engine)
    requires Defined(v.camp) && n in v.camp.nodeStatus && !StatusIn(v.camp, n).Terminal()
    ensures var u := PromoteAndFill(ReconcileTerminal(v, n, outcome, engine), engine);
            |v.log| < |u.log| && u.log[|v.log|] == v.disk.(saved := Some(SetNode(v.camp, n, outcome.AsNodeStatus())))
  {
    hide PromoteAndFill, EndNode;
    FailureFirstWrite(v, n, outcome, engine);
    PromoteGrows(EndNode(v, n, outcome, engine), engine);
  }

  /** The failure of `n` calls for nothing: no unstarted node waits for its success, and fail-fast, if
      that is the policy, has nothing left to end and is on record. */
  ghost predicate NothingToDo(c: Campaign, n: NodeId) {
    (forall e :: e in c.def.edges && e.condition.OnSuccess? && e.from == n ==> !Blockable(c.nodeStatus, e.to)) &&
    (c.def.policy.FailFast? ==>
      (forall m :: m in c.nodeStatus && m != n ==> c.nodeStatus[m].Terminal()) && (c.failFastTripped || c.status.CCancelled?))
  }

  lemma FailureSettled(c: Campaign, n: NodeId, s: NodeStatus)
    requires Settled(c) && GatesOk(c) && n in c.nodeStatus && (c.nodeStatus[n].Live() || c.nodeStatus[n] == Ready) && n in c.def.nodes
    requires NoSelfEdge(c.def.edges) && (s == Failed || s == Cancelled) && n !in c.gates
    ensures Settled(SetNode(c, n, s)) <==> NothingToDo(c, n)
  {
    var d := SetNode(c, n, s);
    MovingNode(c, n);
    assert n in d.nodeStatus && d.nodeStatus[n] == s && Fallen(d, n);
    assert GateStop(d) && StopOk(d);
    FailureOpen(c, n, s);
    if FailFastOk(d) && c.def.policy.FailFast? {
      forall m | m in c.nodeStatus && m != n ensures c.nodeStatus[m].Terminal() {
        assert d.nodeStatus[m].Terminal();
      }
    }
  }

  lemma FailureOpen(c: Campaign, n: NodeId, s: NodeStatus)
    requires OpenOk(c) && n in c.nodeStatus && NoSelfEdge(c.def.edges) && (s == Failed || s == Cancelled) && n !in c.gates
    ensures OpenOk(SetNode(c, n, s)) <==>
            forall e :: e in c.def.edges && e.condition.OnSuccess? && e.from == n ==> !Blockable(c.nodeStatus, e.to)
  {
    var d := SetNode(c, n, s);
    if OpenOk(d) {
      forall e | e in c.def.edges && e.condition.OnSuccess? && e.from == n ensures !Blockable(c.nodeStatus, e.to) {
        assert Bad(d.def.nodes, d.nodeStatus, e.from);
      }
    } else {
      var e :| e in d.def.edges && e.condition.OnSuccess? && Blockable(d.nodeStatus, e.to) && Bad(d.def.nodes, d.nodeStatus, e.from) && e.from !in d.gates;
      assert e.from != n ==> Bad(c.def.nodes, c.nodeStatus, e.from);
    }
  }

  /** A resume that finds nothing live and nothing to start only unpauses and finalizes. */
  lemma NothingToResume(w: World, engine: Engine)
    requires w.disk.saved.Some? && Defined(w.disk.saved.value) && !Ended(w.disk.saved.value.status)
    requires Quiet(w.disk.saved.value) && PromoteReady(w.disk.saved.value) == w.disk.saved.value
    ensures var u := ResumeCampaign(w, engine).0;
            u.camp == FinalizeIfDone(Unpaused(w.disk.saved.value)) && u.disk.saved == Some(u.camp)
  {
    hide Quiet, PromoteReady, WellFormed;
    var d := Unpaused(w.disk.saved.value);
    QuietRuns(w.disk.saved.value, d);
    QuietFill(Persist(Persist(Load(w).(camp := d))), engine);
  }

  lemma QuietRuns(c: Campaign, d: Campaign)
    requires Quiet(c) && PromoteReady(c) == c && d == c.(status := d.status)
    ensures Quiet(d) && PromoteReady(d) == d && RunsOf(d, {Running}) == [] && RunsOf(d, GATED) == []
  {
    var ns := Ordered(d.nodeStatus.Keys);
    NoRuns(d, ns, {Running});
    NoRuns(d, ns, GATED);
  }

  lemma QuietFill(w: World, engine: Engine)
    requires Defined(w.camp) && Quiet(w.camp)
    ensures TryFill(w, engine) == w
  {
  }

  /** Whatever the definition: when nothing is live and nothing can start, resuming a campaign acts upon
      no failure. It comes out settled exactly when it went in settled. */
  lemma QuietResume(w: World, engine: Engine)
    requires w.disk.saved.Some? && Defined(w.disk.saved.value) && !Ended(w.disk.saved.value.status)
    requires Quiet(w.disk.saved.value) && PromoteReady(w.disk.saved.value) == w.disk.saved.value
    requires w.disk.saved.value.status.CRunning? ==> w.disk.saved.value.gates == []
    ensures Settled(ResumeCampaign(w, engine).0.disk.saved.value) <==> Settled(w.disk.saved.value)
  {
    hide *;
    NothingToResume(w, engine);
    FinalizedSettled(w.disk.saved.value);
  }

  lemma FinalizedSettled(c: Campaign)
    requires Quiet(c) && !Ended(c.status) && (c.status.CRunning? ==> c.gates == [])
    ensures Settled(FinalizeIfDone(Unpaused(c))) <==> Settled(c)
  {
    hide OpenOk, FailFastOk, Quiet, AllCompleted, AllTerminal;
    if c.gates == [] && (c.status.CRunning? || c.status.CPaused?) {
      SameQuiet(c, Unpaused(c));
      SameQuiet(c, FinalizeIfDone(Unpaused(c)));
      assert GateStop(c) && StopOk(c);
    }
  }

  /** What an edit of the status alone leaves. */
  lemma SameQuiet(c: Campaign, d: Campaign)
    requires d == c.(status := d.status) && (d.status.CCancelled? <==> c.status.CCancelled?)
    ensures (Quiet(d) <==> Quiet(c)) && (AllCompleted(d) <==> AllCompleted(c)) && (OpenOk(d) <==> OpenOk(c)) && (FailFastOk(d) <==> FailFastOk(c))
  {
  }

  /** The crash after the first write of a failure, and the resume that follows it. The crash leaves the
      campaign settled exactly when the failure called for nothing; then the resume keeps it so, and
      when nothing is left to run the resume mends nothing else. */
  lemma CrashThenResume(w: World, r: RunId, outcome: Outcome, engine: Engine)
    requires RestCalm(w) && Rest(false, false, w) && Finished(r, outcome) in w.inbox && Ends(w, r) && outcome != OCompleted
    ensures var c, d := w.disk.saved.value, SetNode(w.disk.saved.value, r.node, outcome.AsNodeStatus());
            var crash := Crashes(Deliver(Finished(r, outcome)), 1);
            var u := (StepRest(false, false, w, crash, engine); Step(Step(w, crash, engine), Does(Order(Resume)), engine));
            (Settled(d) <==> NothingToDo(c, r.node)) && u.disk.saved.Some? &&
            (NothingToDo(c, r.node) ==> Settled(u.disk.saved.value)) &&
            (Quiet(d) && PromoteReady(d) == d ==> (Settled(u.disk.saved.value) <==> NothingToDo(c, r.node)))
  {
    hide Settled, NothingToDo, Step, Rest, RestCalm, Quiet, PromoteReady, FindByRun, EndNode;
    var c := w.disk.saved.value;
    var d := SetNode(c, r.node, outcome.AsNodeStatus());
    var crash := Crashes(Deliver(Finished(r, outcome)), 1);
    StepRest(false, false, w, crash, engine);
    EndingNode(w, r);
    FinishedCrash(w, r, outcome, engine);
    SettledFailure(w, r, outcome);
    ResumedFailure(Step(w, crash, engine), d, engine);
  }

  lemma SettledFailure(w: World, r: RunId, outcome: Outcome)
    requires RestCalm(w) && Rest(false, false, w) && Ends(w, r) && outcome != OCompleted
    ensures var c, d := w.disk.saved.value, SetNode(w.disk.saved.value, r.node, outcome.AsNodeStatus());
            Defined(d) && !Ended(d.status) && (d.status.CRunning? ==> d.gates == []) && (Settled(d) <==> NothingToDo(c, r.node))
  {
    hide Settled, Good, CampOk, FindByRun, NothingToDo;
    var c := w.disk.saved.value;
    EndingNode(w, r);
    FailureSettled(c, r.node, outcome.AsNodeStatus());
    MovingNode(c, r.node);
  }

  lemma ResumedFailure(x: World, d: Campaign, engine: Engine)
    requires Rest(false, false, x) && x.disk.saved == Some(d) && Defined(d) && !Ended(d.status) && (d.status.CRunning? ==> d.gates == [])
    ensures var u := Step(x, Does(Order(Resume)), engine);
            u.disk.saved.Some? && (Settled(d) ==> Settled(u.disk.saved.value)) &&
            (Quiet(d) && PromoteReady(d) == d ==> (Settled(u.disk.saved.value) <==> Settled(d)))
  {
    hide Settled, ResumeCampaign, Quiet, PromoteReady, CampOk, Good;
    StepAdvances(x, Does(Order(Resume)), engine);
    if Settled(d) {
      ResumeCalm(x, engine);
    }
    if Quiet(d) && PromoteReady(d) == d {
      QuietResume(x, engine);
    }
  }

  /** Under continue-independent the loss lasts until the next failure: blocking then starts over from
      every failure on record. */
  lemma NextFailureBlocks(w: World, n: NodeId, outcome: Outcome, engine: Engine)
    requires Defined(w.camp) && n in w.camp.nodeStatus && w.camp.def.policy.ContinueIndependent? && outcome != OCompleted
    ensures OpenOk(EndNode(w, n, outcome, engine).camp)
  {
    BlockingCloses(SetNode(w.camp, n, outcome.AsNodeStatus()));
  }

  /** A campaign of two nodes, the second depending on the first's success; the first has failed and
      nothing else was recorded. */
  ghost predicate CrashedMidFailure(c: Campaign, a: NodeId, b: NodeId) {
    Defined(c) && c.def.nodes == [a, b] && c.def.edges == [Edge(a, b, OnSuccess)] &&
    c.nodeStatus == map[a := Failed, b := Pending] && c.status.CRunning? && c.gates == [] && !c.failFastTripped
  }

  /** That is what the crash leaves of such a campaign when its first node was running. */
  lemma CrashReachesMidFailure(w: World, a: NodeId, b: NodeId, r: RunId, engine: Engine)
    requires Rest(false, false, w) && Finished(r, OFailed) in w.inbox && Ends(w, r) && r.node == a
    requires var c := w.disk.saved.value;
             c.def.nodes == [a, b] && c.def.edges == [Edge(a, b, OnSuccess)] && c.status.CRunning? && c.gates == [] && !c.failFastTripped &&
             c.nodeStatus == map[a := Running, b := Pending]
    ensures var u := Step(w, Crashes(Deliver(Finished(r, OFailed)), 1), engine);
            u.disk.saved.Some? && CrashedMidFailure(u.disk.saved.value, a, b)
  {
    hide Rest, Step, FindByRun, GatesOk, WellFormed;
    var c := w.disk.saved.value;
    EndingNode(w, r);
    FinishedCrash(w, r, OFailed, engine);
    assert c.nodeStatus[a := Failed] == map[a := Failed, b := Pending];
  }

  /** Resuming it ends the campaign `PartiallyCompleted`: the dependent is neither blocked nor
      cancelled, fail-fast does not trip, and no gate lets the operator retry, whatever the policy. */
  lemma CrashLosesFailurePolicy(w: World, a: NodeId, b: NodeId, engine: Engine)
    requires w.disk.saved.Some? && CrashedMidFailure(w.disk.saved.value, a, b)
    ensures var c := ResumeCampaign(w, engine).0.camp;
            c.status.CPartiallyCompleted? && c.nodeStatus == map[a := Failed, b := Pending] && c.gates == [] && !c.failFastTripped
  {
    var c := w.disk.saved.value;
    var e := Edge(a, b, OnSuccess);
    assert c.def.edges[0] == e && e in c.def.edges && a in c.def.nodes && b in c.def.nodes && a != b;
    assert !Satisfied(c.nodeStatus, e);
    assert !Eligible(c.def.edges, c.nodeStatus, a) && !Eligible(c.def.edges, c.nodeStatus, b);
    assert ReadyIn(c) == {} && Dispatchable(c) == {};
    assert PromoteReady(c) == c;
    assert Quiet(c) && !AllCompleted(c);
    NothingToResume(w, engine);
  }

  lemma {:induction false} NoRuns(c: Campaign, ns: seq<NodeId>, kinds: set<NodeStatus>)
    requires forall n :: n in c.nodeStatus ==> c.nodeStatus[n] !in kinds
    ensures Runs(c, ns, kinds) == []
  {
    if ns != [] {
      NoRuns(c, ns[1..], kinds);
    }
  }

  // ── a crash inside cancel ───────────────────────────────────────────────────

  lemma {:induction false} CancelRunsWrites(w: World, runs: seq<(NodeId, RunId)>, engine: Engine)
    ensures w.log <= CancelRuns(w, runs, engine).log
    ensures forall k :: |w.log| <= k < |CancelRuns(w, runs, engine).log| ==> CancelRuns(w, runs, engine).log[k].saved == w.disk.saved
    decreases |runs|
  {
    if runs != [] {
      var r := runs[0].1;
      CancelStep(w, r, engine);
      var u := CancelRun(w, r, engine).0;
      CancelRunsWrites(u.(inFlight := u.inFlight - {r}), runs[1..], engine);
    }
  }

  /** A crash after cancel's first write leaves a cancelled campaign whose live nodes are untouched; a
      crash anywhere else in a cancel leaves none. */
  lemma CancelCrash(w: World, at: nat, engine: Engine)
    requires Rest(false, false, w) && w.disk.saved.Some? && !Ended(w.disk.saved.value.status)
    ensures var c, u := w.disk.saved.value, Step(w, Crashes(Order(Cancel), at), engine);
            (at == 1 ==> u.disk == w.disk.(saved := Some(c.(status := CCancelled)))) && u.disk.saved.Some? &&
            (CancelledQuiet(u.disk.saved.value) <==> at != 1 || NoLive(c))
  {
    hide Steady, Once, Tied, WellFormed, CancelRun;
    var c := w.disk.saved.value;
    var u := Persist(Load(w).(camp := c.(status := CCancelled)));
    var x := Persist(u.(camp := CancelNonTerminal(u.camp)));
    CancelRunsWrites(x, RunsOf(u.camp, LIVE), engine);
    assert x.log == [w.disk, u.disk, x.disk] && NoLive(x.camp);
  }

  /** What a reject records when the engine does not take the answer: the run's own end, or a failure if
      it has no session or cannot be cancelled. */
  ghost function RejectOutcome(w: World, n: NodeId, engine: Engine): Option<Outcome>
    requires w.disk.saved.Some?
  {
    var v := Load(w);
    if StatusIn(v.camp, n) != AwaitingHuman || n !in v.camp.nodeRunId then None
    else
      var r := v.camp.nodeRunId[n];
      var (a, taken) := ConfirmRun(v, r, Reject, engine);
      if taken then None
      else if EndedOutcome(a.disk, r).Some? then EndedOutcome(a.disk, r)
      else if CancelRun(a.(inFlight := a.inFlight - {r}), r, engine).1 then None
      else Some(OFailed)
  }

  /** The commands that change what the store holds of a cancelled campaign. */
  ghost predicate MovesCancelled(w: World, cmd: Command, engine: Engine)
    requires w.disk.saved.Some?
  {
    var c := w.disk.saved.value;
    match cmd
    case Launch(def) => WellFormed(def)
    case ApproveGate(n, _) => StatusIn(c, n) == AwaitingHuman
    case RejectGate(n) => RejectOutcome(w, n, engine).Some?
    case Retry(n) => Gated(c, n)
    case Skip(n) => Gated(c, n)
    case Abort(n) => Gated(c, n)
    case _ => false
  }

  /** The commands that leave no live node in a cancelled campaign. */
  ghost predicate FreesCancelled(w: World, cmd: Command, engine: Engine)
    requires w.disk.saved.Some?
  {
    var c := w.disk.saved.value;
    match cmd
    case Launch(def) => WellFormed(def)
    case RejectGate(n) =>
      var o := RejectOutcome(w, n, engine);
      o.Some? && ((c.def.policy.FailFast? && o != Some(OCompleted)) || forall m :: m in c.nodeStatus && c.nodeStatus[m].Live() ==> m == n)
    case Retry(n) => Gated(c, n) && Dequeue(c.gates, n) == []
    case Skip(n) => Gated(c, n) && Dequeue(c.gates, n) == []
    case Abort(n) => Gated(c, n)
    case _ => false
  }

  ghost predicate Wedged(c: Campaign) {
    c.status.CCancelled? && !NoLive(c)
  }

  /** A fill and a finalize neither cancel a campaign nor take the cancellation back, and leave a
      cancelled one as it was. */
  lemma FillStatus(w: World, engine: Engine)
    requires Defined(w.camp)
    ensures var u := FillAndFinalize(w, engine);
            u.disk.saved == Some(u.camp) && (u.camp.status.CCancelled? <==> w.camp.status.CCancelled?) &&
            (w.camp.status.CCancelled? ==> u.camp == w.camp)
  {
    if w.camp.status.CRunning? {
      FillOpen(w, engine);
    }
  }

  /** A store that a command leaves, against the one it found: changed or not, and live nodes left or not. */
  ghost predicate Effect(w: World, u: World, moves: bool, frees: bool)
    requires w.disk.saved.Some?
  {
    u.disk.saved.Some? && (u.disk.saved != w.disk.saved <==> moves) &&
    (Wedged(w.disk.saved.value) ==> (CancelledQuiet(u.disk.saved.value) <==> frees))
  }

  lemma LaunchEffect(w: World, def: Def, engine: Engine)
    requires Rest(false, false, w) && w.disk.saved.Some? && w.disk.saved.value.status.CCancelled?
    ensures Effect(w, LaunchCampaign(w, def, engine).0, WellFormed(def), WellFormed(def))
  {
    if WellFormed(def) {
      var v := Persist(w.(camp := FreshCampaign(def)));
      PromoteDefined(v.camp);
      FillStatus(Persist(v.(camp := PromoteReady(v.camp))), engine);
    }
  }

  lemma ApproveEffect(w: World, n: NodeId, amend: Option<string>, engine: Engine)
    requires Rest(false, false, w) && w.disk.saved.Some? && w.disk.saved.value.status.CCancelled?
    ensures Effect(w, Approved(w, n, amend, engine).0, StatusIn(w.disk.saved.value, n) == AwaitingHuman, false)
  {
    var c := w.disk.saved.value;
    if StatusIn(c, n) == AwaitingHuman {
      var d := SetNode(c, n, ReadyToResume).(decisions := c.decisions[n := amend]);
      FillStatus(Persist(Load(w).(camp := d)), engine);
      assert n in d.nodeStatus && d.nodeStatus[n].Live() && StatusIn(d, n) != StatusIn(c, n);
    }
  }

  /** A policy applied to a failure: fail-fast ends every node, the others leave the live ones live. */
  lemma PolicyLives(w: World, n: NodeId, engine: Engine)
    requires Defined(w.camp)
    ensures var c := ApplyFailurePolicy(w, n, engine).camp;
            c.nodeStatus.Keys == w.camp.nodeStatus.Keys &&
            forall m :: m in c.nodeStatus ==>
              (w.camp.nodeStatus[m].Terminal() ==> c.nodeStatus[m] == w.camp.nodeStatus[m]) &&
              (c.nodeStatus[m].Live() <==> w.camp.nodeStatus[m].Live() && !w.camp.def.policy.FailFast?)
  {
    hide BlockedIn, WellFormed, Startable;
    match w.camp.def.policy
    case FailFast => assert ApplyFailurePolicy(w, n, engine).camp == CancelNonTerminal(w.camp).(failFastTripped := true);
    case ContinueIndependent => BlockedAreUnstarted(w.camp);
    case HumanGateOnFailure =>
  }

  lemma EndedNodes(w: World, n: NodeId, o: Outcome, engine: Engine)
    requires Defined(w.camp) && n in w.camp.nodeStatus
    ensures var c := EndNode(w, n, o, engine).camp;
            c.nodeStatus.Keys == w.camp.nodeStatus.Keys && c.nodeStatus[n] == o.AsNodeStatus() &&
            forall m :: m in c.nodeStatus && m != n ==>
              (c.nodeStatus[m].Live() <==> w.camp.nodeStatus[m].Live() && !(w.camp.def.policy.FailFast? && o != OCompleted))
  {
    hide ApplyFailurePolicy;
    PolicyLives(Persist(SetNodeW(w, n, o.AsNodeStatus())), n, engine);
  }

  lemma PromoteLives(c: Campaign)
    requires Defined(c)
    ensures var d := PromoteReady(c);
            d.nodeStatus.Keys == c.nodeStatus.Keys &&
            forall m :: m in c.nodeStatus ==>
              (d.nodeStatus[m].Live() <==> c.nodeStatus[m].Live()) && (c.nodeStatus[m].Terminal() ==> d.nodeStatus[m] == c.nodeStatus[m])
  {
    hide Eligible;
    PromotesTo(c);
  }

  /** Reconciling a gated node of a cancelled campaign ends it, and the others only under fail-fast. */
  lemma ReconcileEffect(w: World, n: NodeId, o: Outcome, engine: Engine)
    requires Defined(w.camp) && w.camp.status.CCancelled? && StatusIn(w.camp, n) == AwaitingHuman
    ensures var u := ReconcileRejected(w, n, o, engine);
            u.disk.saved == Some(u.camp) && u.camp != w.camp && u.camp.status.CCancelled? &&
            (NoLive(u.camp) <==> (w.camp.def.policy.FailFast? && o != OCompleted)
                                 || forall m :: m in w.camp.nodeStatus && w.camp.nodeStatus[m].Live() ==> m == n)
  {
    hide EndNode, FillAndFinalize, PromoteReady, WellFormed, ApplyFailurePolicy;
    var x := ReconcileTerminal(w, n, o, engine);
    CancelledEnd(w, n, o, engine);
    EndedNodes(w, n, o, engine);
    PromoteLives(x.camp);
    PromoteDefined(x.camp);
    FillStatus(Persist(x.(camp := PromoteReady(x.camp))), engine);
  }

  lemma CancelledEnd(w: World, n: NodeId, o: Outcome, engine: Engine)
    requires Defined(w.camp) && n in w.camp.nodeStatus && w.camp.status.CCancelled?
    ensures var c := EndNode(w, n, o, engine).camp; c.status.CCancelled? && PromoteReady(c).status.CCancelled?
  {
    PolicyOpen(Persist(SetNodeW(w, n, o.AsNodeStatus())), n, engine);
  }

  lemma RejectEffect(w: World, n: NodeId, engine: Engine)
    requires Rest(false, false, w) && w.disk.saved.Some? && w.disk.saved.value.status.CCancelled?
    ensures Effect(w, Rejected(w, n, engine).0, MovesCancelled(w, RejectGate(n), engine), FreesCancelled(w, RejectGate(n), engine))
  {
    hide ReconcileRejected, CampOk, Good, WellFormed;
    var v := Load(w);
    if StatusIn(v.camp, n) == AwaitingHuman && n in v.camp.nodeRunId {
      var r := v.camp.nodeRunId[n];
      RefusedReject(v, r, engine);
      SavedDefined(false, false, w);
      var (a, ok) := ConfirmRun(v, r, Reject, engine);
      if !ok {
        var u := a.(inFlight := a.inFlight - {r});
        var b := CancelRun(u, r, engine).0;
        ReconcileEffect(u, n, if EndedOutcome(u.disk, r).Some? then EndedOutcome(u.disk, r).value else OFailed, engine);
        ReconcileEffect(b, n, OFailed, engine);
      }
    }
  }

  /** Neither asking the engine to reject nor cancelling the run touches the stored campaign. */
  lemma RefusedReject(v: World, r: RunId, engine: Engine)
    ensures var (a, ok) := ConfirmRun(v, r, Reject, engine);
            a.disk.saved == v.disk.saved && a.camp == v.camp &&
            CancelRun(a.(inFlight := a.inFlight - {r}), r, engine).0.disk.saved == v.disk.saved
  {
    ConfirmStep(v, r, Reject, engine);
    var a := ConfirmRun(v, r, Reject, engine).0;
    CancelStep(a.(inFlight := a.inFlight - {r}), r, engine);
  }

  /** A gate answered by an edit that leaves the live nodes live: `d` the edit, `e` what a fill makes of it. */
  lemma AnsweredEffect(c: Campaign, d: Campaign, e: Campaign)
    requires c.status.CCancelled? && d.gates != c.gates && d.nodeStatus.Keys == c.nodeStatus.Keys
    requires forall m :: m in c.nodeStatus ==> (d.nodeStatus[m].Live() <==> c.nodeStatus[m].Live())
    requires (e.status.CCancelled? <==> d.status.CCancelled?) && (d.status.CCancelled? ==> e == d)
    ensures e != c && (Wedged(c) ==> (CancelledQuiet(e) <==> !d.status.CCancelled?))
  {
  }

  /** A retry, up to the fill. */
  lemma RetriedLives(c: Campaign, n: NodeId)
    requires Gated(c, n) && GatesOk(c)
    ensures var d := Retried(c, n);
            d.gates == Dequeue(c.gates, n) && d.status == (if d.gates == [] then CRunning else c.status) &&
            d.nodeStatus.Keys == c.nodeStatus.Keys && forall m :: m in c.nodeStatus ==> (d.nodeStatus[m].Live() <==> c.nodeStatus[m].Live())
  {
    assert Fallen(c, n);
  }

  lemma RetryEffect(w: World, n: NodeId, engine: Engine)
    requires Rest(false, false, w) && w.disk.saved.Some? && w.disk.saved.value.status.CCancelled?
    ensures var c := w.disk.saved.value;
            Effect(w, RetryNode(w, n, engine).0, Gated(c, n), Gated(c, n) && Dequeue(c.gates, n) == [])
  {
    var c := w.disk.saved.value;
    SavedDefined(false, false, w);
    if Gated(c, n) {
      GatedFell(w, n);
      GateEditsDefined(c, n);
      RetriedLives(c, n);
      hide FillAndFinalize, Rest, WellFormed, GatesOk, NoLive, CancelledQuiet, Wedged, Retried, Fallen;
      var d := Retried(c, n);
      FillStatus(Persist(Load(w).(camp := d)), engine);
      AnsweredEffect(c, d, RetryNode(w, n, engine).0.camp);
    }
  }

  lemma GatedFell(w: World, n: NodeId)
    requires Rest(false, false, w) && w.disk.saved.Some? && Gated(w.disk.saved.value, n)
    ensures var c := w.disk.saved.value; Defined(c) && GatesOk(c) && Fallen(c, n) && Dequeue(c.gates, n) != c.gates
  {
    assert Good(Promise(w.disk.saved, false, false, {}), Load(w));
    assert n in w.disk.saved.value.gates;
  }

  lemma SkippedShape(c: Campaign, n: NodeId)
    ensures var d := Skipped(c, n);
            d.gates == Dequeue(c.gates, n) && d.status == if d.gates == [] then CRunning else c.status
  {
  }

  /** A skip, up to the fill: the live nodes stay live, the queue gets shorter. */
  lemma SkippedLives(c: Campaign, n: NodeId)
    requires Defined(c) && GatesOk(c) && Gated(c, n)
    ensures Defined(Skipped(c, n))
    ensures var d := PromoteReady(Skipped(c, n));
            d.gates == Dequeue(c.gates, n) && d.status == (if d.gates == [] then CRunning else c.status) &&
            d.nodeStatus.Keys == c.nodeStatus.Keys && forall m :: m in c.nodeStatus ==> (d.nodeStatus[m].Live() <==> c.nodeStatus[m].Live())
  {
    hide WellFormed, BlockedIn, GatesOk;
    GateEditsDefined(c, n);
    SkippedNodes(c, n);
    SkippedShape(c, n);
    hide Skipped, PromoteReady;
    PromoteLives(Skipped(c, n));
    PromoteShape(Skipped(c, n));
  }

  lemma SkipEffect(w: World, n: NodeId, engine: Engine)
    requires Rest(false, false, w) && w.disk.saved.Some? && w.disk.saved.value.status.CCancelled?
    ensures var c := w.disk.saved.value;
            Effect(w, SkipNode(w, n, engine).0, Gated(c, n), Gated(c, n) && Dequeue(c.gates, n) == [])
  {
    var c := w.disk.saved.value;
    SavedDefined(false, false, w);
    if Gated(c, n) {
      GatedFell(w, n);
      hide FillAndFinalize, Rest, WellFormed, Skipped, PromoteReady, GatesOk, NoLive, CancelledQuiet, Fallen, Wedged;
      SkippedLives(c, n);
      var d := PromoteReady(Skipped(c, n));
      PromoteDefined(Skipped(c, n));
      FillStatus(Persist(Load(w).(camp := Skipped(c, n))).(camp := d), engine);
      AnsweredEffect(c, d, SkipNode(w, n, engine).0.camp);
    }
  }

  lemma AbortShape(x: World, engine: Engine)
    ensures var u := Finalize(FailFastAll(x, engine)); u.disk.saved == Some(u.camp) && u.camp.gates == x.camp.gates
  {
    hide CancelRuns, Quiet, AllCompleted;
  }

  lemma AbortEffect(w: World, n: NodeId, engine: Engine)
    requires Rest(false, false, w) && w.disk.saved.Some? && w.disk.saved.value.status.CCancelled?
    ensures Effect(w, AbortNode(w, n, engine).0, Gated(w.disk.saved.value, n), Gated(w.disk.saved.value, n))
  {
    var c := w.disk.saved.value;
    SavedDefined(false, false, w);
    hide Rest, WellFormed, FailFastAll, Finalize, Busy, CancelledQuiet;
    if Gated(c, n) {
      var x := Load(w).(camp := Reopened(c, n));
      AbortEnds(x, engine);
      AbortShape(x, engine);
      assert n in c.gates && n !in x.camp.gates;
    }
  }

  lemma HandleEffect(w: World, cmd: Command, engine: Engine)
    requires Rest(false, false, w) && w.disk.saved.Some? && w.disk.saved.value.status.CCancelled?
    ensures Effect(w, Handle(w, cmd, engine).0, MovesCancelled(w, cmd, engine), FreesCancelled(w, cmd, engine))
  {
    hide LaunchCampaign, Approved, Rejected, RetryNode, SkipNode, AbortNode, CampOk, Good, WellFormed;
    match cmd
    case Launch(def) => LaunchEffect(w, def, engine);
    case ApproveGate(n, amend) => ApproveEffect(w, n, amend, engine);
    case RejectGate(n) => RejectEffect(w, n, engine);
    case Retry(n) => RetryEffect(w, n, engine);
    case Skip(n) => SkipEffect(w, n, engine);
    case Abort(n) => AbortEffect(w, n, engine);
    case _ =>
  }

  /** Of all commands and signals, exactly these move a cancelled campaign: a launch of a well-formed
      definition, approving a waiting node, rejecting one when that reconciles it, and answering a failure
      gate. Resume, cancel, pause and the runs' own ends leave it as it is. */
  lemma CancelledMoves(w: World, cmd: Command, engine: Engine)
    requires Rest(false, false, w) && w.disk.saved.Some? && w.disk.saved.value.status.CCancelled?
    ensures Handle(w, cmd, engine).0.disk.saved != w.disk.saved <==> MovesCancelled(w, cmd, engine)
    ensures cmd.Resume? || cmd.Cancel? || cmd.Pause? || cmd.RunFinished? || cmd.NodeAwaiting? ==> Handle(w, cmd, engine).0 == w
  {
    HandleEffect(w, cmd, engine);
  }

  /** When such a campaign has live nodes, one command frees it exactly if it is a launch, an abort, the
      last open gate's retry or skip, or a reject that reconciles the only live node or trips fail-fast. */
  lemma CancelledStaysWedged(w: World, cmd: Command, engine: Engine)
    requires Rest(false, false, w) && w.disk.saved.Some? && Wedged(w.disk.saved.value)
    ensures var u := Handle(w, cmd, engine).0;
            u.disk.saved.Some? && (CancelledQuiet(u.disk.saved.value) <==> FreesCancelled(w, cmd, engine))
  {
    HandleEffect(w, cmd, engine);
  }
}
