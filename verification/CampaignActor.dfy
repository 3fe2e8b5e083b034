/** The driver as the actor runs it: one object whose methods edit the campaign in place, write the
    store and call the engine. Each method does exactly what its function in `CampaignModel` or
    `CampaignHandlers` says, so every theorem about those functions is about these methods. */
module CampaignActor {
  import opened Names
  import opened CampaignGraph
  import opened CampaignCycle
  import opened CampaignModel
  import opened CampaignHandlers

  /** The first node of those left, and the rest. */
  lemma RunsStep(c: Campaign, todo: set<NodeId>, n: NodeId, kinds: set<NodeStatus>)
    requires IsLeast(n, todo)
    ensures Runs(c, Ordered(todo), kinds)
         == (if n in c.nodeStatus && c.nodeStatus[n] in kinds && n in c.nodeRunId then [(n, c.nodeRunId[n])] else [])
            + Runs(c, Ordered(todo - {n}), kinds)
  {
    LeastUnique(n, Least(todo), todo);
    assert Ordered(todo) == [n] + Ordered(todo - {n});
    assert Ordered(todo)[1..] == Ordered(todo - {n});
  }

  lemma RunsNone(c: Campaign, kinds: set<NodeStatus>)
    ensures Runs(c, Ordered({}), kinds) == []
  {
  }

  /** The lowest id of a set. */
  method LeastOf(s: set<NodeId>) returns (n: NodeId)
    requires s != {}
    ensures n == Least(s) && n in s
  {
    assert IsLeast(Least(s), s);
    n :| n in s && IsLeast(n, s);
    LeastUnique(n, Least(s), s);
  }

  /** The ids of a set in increasing order. */
  method Sorted(s: set<NodeId>) returns (q: seq<NodeId>)
    ensures q == Ordered(s)
  {
    q := [];
    var todo := s;
    while todo != {}
      invariant q + Ordered(todo) == Ordered(s)
      decreases todo
    {
      var n := LeastOf(todo);
      q := q + [n];
      todo := todo - {n};
    }
  }

  lemma ReadyStep(before: Statuses, done: set<NodeId>, n: NodeId)
    ensures WithReady(before, {}) == before
    ensures var a := WithReady(before, done);
            WithReady(before, done + {n}) == if StatusOf(a, n) == Pending then a[n := Ready] else a
  {
  }

  lemma BlockedStep(before: Statuses, done: set<NodeId>, n: NodeId)
    ensures WithBlocked(before, {}) == before
    ensures var a := WithBlocked(before, done);
            WithBlocked(before, done + {n}) == if StatusOf(a, n) != Blocked then a[n := Blocked] else a
  {
  }

  /** Every pending node of `rs`, in id order, becomes ready. */
  method MarkPending(before: Statuses, rs: set<NodeId>) returns (after: Statuses)
    ensures after == WithReady(before, rs)
  {
    hide WithReady, IsLeast, StatusOf;
    after := before;
    var todo := rs;
    ReadyStep(before, {}, "");
    assert rs - todo == {};
    while todo != {}
      invariant todo <= rs
      invariant after == WithReady(before, rs - todo)
      decreases todo
    {
      var n := LeastOf(todo);
      ReadyStep(before, rs - todo, n);
      assert rs - (todo - {n}) == rs - todo + {n};
      if StatusOf(after, n) == Pending {
        after := after[n := Ready];
      }
      todo := todo - {n};
    }
    assert rs - todo == rs;
  }

  /** Every node of `blocked`, in id order, becomes blocked. */
  method MarkBlocked(before: Statuses, blocked: set<NodeId>) returns (after: Statuses)
    ensures after == WithBlocked(before, blocked)
  {
    hide WithBlocked, IsLeast, StatusOf;
    after := before;
    var todo := blocked;
    BlockedStep(before, {}, "");
    assert blocked - todo == {};
    while todo != {}
      invariant todo <= blocked
      invariant after == WithBlocked(before, blocked - todo)
      decreases todo
    {
      var n := LeastOf(todo);
      BlockedStep(before, blocked - todo, n);
      assert blocked - (todo - {n}) == blocked - todo + {n};
      if StatusOf(after, n) != Blocked {
        after := after[n := Blocked];
      }
      todo := todo - {n};
    }
    assert blocked - todo == blocked;
  }

  class Actor {
    // the campaign in memory
    var def: Def
    var status: CampaignStatus
    var nodeStatus: Statuses
    var nodeRunId: map<NodeId, RunId>
    var nodeAttempt: map<NodeId, nat>
    var decisions: map<NodeId, Option<string>>
    var gates: seq<NodeId>
    var failFastTripped: bool

    // the store
    var saved: Option<Campaign>
    var sessions: map<RunId, SessionStatus>

    // the actor's own queue and workers
    var inbox: multiset<Signal>
    var inFlight: set<RunId>

    // the engine, and how often it was asked
    const engine: Engine
    var calls: nat

    // history
    ghost var made: multiset<RunId>
    ghost var answers: seq<(RunId, GateAnswer)>
    ghost var log: seq<Disk>

    function Camp(): Campaign
      reads this
    {
      Campaign(def, status, nodeStatus, nodeRunId, nodeAttempt, decisions, gates, failFastTripped)
    }

    ghost function Store(): Disk
      reads this
    {
      Disk(saved, sessions, made)
    }

    ghost function W(): World
      reads this
    {
      World(Camp(), Store(), inbox, inFlight, calls, answers, log)
    }

    /** An actor over an empty store. */
    constructor (engine: Engine, def: Def)
      ensures this.engine == engine && Store() == Disk(None, map[], multiset{})
      ensures inbox == multiset{} && inFlight == {} && log == [Store()]
    {
      this.engine := engine;
      this.def, status, nodeStatus, nodeRunId := def, CRunning, map[], map[];
      nodeAttempt, decisions, gates, failFastTripped := map[], map[], [], false;
      saved, sessions, inbox, inFlight, calls := None, map[], multiset{}, {}, 0;
      made, answers, log := multiset{}, [], [Disk(None, map[], multiset{})];
    }

    // ── the store and the engine ──────────────────────────────────────────────

    method Persist()
      modifies this
      ensures W() == CampaignModel.Persist(old(W()))
    {
      saved := Some(Camp());
      log := log + [Store()];
    }

    method StoreSession(r: RunId, s: SessionStatus, anew: bool)
      modifies this`sessions, this`made, this`log
      ensures sessions == old(sessions)[r := s] && made == old(made) + (if anew then multiset{r} else multiset{})
      ensures log == old(log) + [Store()]
    {
      sessions := sessions[r := s];
      made := made + if anew then multiset{r} else multiset{};
      log := log + [Store()];
    }

    method WriteSession(r: RunId, s: SessionStatus, anew: bool)
      modifies this`sessions, this`made, this`log, this`inbox
      ensures W() == CampaignModel.WriteSession(old(W()), r, s, anew)
    {
      var wasEnded := !anew && r in sessions && sessions[r].Terminal();
      StoreSession(r, s, anew);
      inbox := inbox + Posts(r, s, wasEnded);
    }

    method Ask() returns (a: Reply)
      modifies this
      ensures a == engine(old(calls)) && W() == Asked(old(W()))
    {
      a := engine(calls);
      calls := calls + 1;
    }

    method LaunchRun(r: RunId) returns (ok: bool)
      modifies this
      ensures (W(), ok) == CampaignModel.LaunchRun(old(W()), r, engine)
    {
      if r in inFlight || (r in sessions && !sessions[r].Terminal()) {
        return false;
      }
      var a := Ask();
      if a.ok || a.writes {
        WriteSession(r, a.status, true);
      }
      if a.ok && a.busy {
        inFlight := inFlight + {r};
      }
      ok := a.ok;
    }

    method Advance(r: RunId) returns (ok: bool)
      modifies this
      ensures (W(), ok) == CampaignModel.Advance(old(W()), r, engine)
    {
      var a := Ask();
      if a.writes {
        WriteSession(r, a.status, false);
      }
      if a.ok && a.busy {
        inFlight := inFlight + {r};
      }
      ok := a.ok;
    }

    method ResumeRun(r: RunId) returns (ok: bool)
      modifies this
      ensures (W(), ok) == CampaignModel.ResumeRun(old(W()), r, engine)
    {
      if r in inFlight || r !in sessions {
        return false;
      }
      if sessions[r].SCompleted? || sessions[r].SCancelled? {
        return true;
      }
      ok := Advance(r);
    }

    method ConfirmRun(r: RunId, answer: GateAnswer) returns (ok: bool)
      modifies this
      ensures (W(), ok) == CampaignModel.ConfirmRun(old(W()), r, answer, engine)
    {
      if r !in sessions || !sessions[r].SAwaitingHuman? {
        return false;
      }
      answers := answers + [(r, answer)];
      ok := Advance(r);
    }

    method CancelRun(r: RunId) returns (ok: bool)
      modifies this
      ensures (W(), ok) == CampaignModel.CancelRun(old(W()), r, engine)
    {
      if r !in sessions {
        return false;
      }
      if sessions[r].Terminal() {
        return true;
      }
      var a := Ask();
      if a.ok {
        WriteSession(r, SCancelled, false);
      }
      ok := a.ok;
    }

    // ── edits of the campaign ─────────────────────────────────────────────────

    method Promote()
      modifies this`nodeStatus
      ensures W() == old(W()).(camp := PromoteReady(old(Camp())))
    {
      var rs := ReadySet(def.nodes, def.edges, nodeStatus);
      nodeStatus := MarkPending(nodeStatus, rs);
    }

    method Block()
      modifies this`nodeStatus
      ensures W() == old(W()).(camp := ApplyBlocking(old(Camp())))
    {
      var blocked := BlockedByFailure(def.nodes, def.edges, nodeStatus);
      nodeStatus := MarkBlocked(nodeStatus, blocked);
    }

    /** The live runs in node order, as `fail_fast`, `cancel` and `resume` collect them. */
    method CollectRuns(kinds: set<NodeStatus>) returns (runs: seq<(NodeId, RunId)>)
      ensures runs == RunsOf(Camp(), kinds)
    {
      hide Runs, Ordered;
      RunsNone(Camp(), kinds);
      runs := [];
      var todo := nodeStatus.Keys;
      while todo != {}
        invariant todo <= nodeStatus.Keys
        invariant runs + Runs(Camp(), Ordered(todo), kinds) == RunsOf(Camp(), kinds)
        decreases todo
      {
        var n := LeastOf(todo);
        assert n in todo;
        RunsStep(Camp(), todo, n, kinds);
        if nodeStatus[n] in kinds && n in nodeRunId {
          runs := runs + [(n, nodeRunId[n])];
        }
        todo := todo - {n};
      }
    }

    method CancelNodes()
      modifies this`nodeStatus
      ensures W() == old(W()).(camp := CancelNonTerminal(old(Camp())))
    {
      ghost var before := nodeStatus;
      var todo := set n | n in nodeStatus && !nodeStatus[n].Terminal();
      ghost var all := todo;
      while todo != {}
        invariant todo <= all && nodeStatus.Keys == before.Keys
        invariant forall n :: n in before ==> nodeStatus[n] == if n in all - todo then Cancelled else before[n]
        decreases todo
      {
        var n := LeastOf(todo);
        assert n in todo;
        nodeStatus := nodeStatus[n := Cancelled];
        todo := todo - {n};
      }
      assert nodeStatus == CancelNonTerminal(old(Camp())).nodeStatus;
    }

    method CancelAll(runs: seq<(NodeId, RunId)>)
      modifies this
      ensures W() == CancelRuns(old(W()), runs, engine)
    {
      ghost var w := W();
      for i := 0 to |runs|
        invariant CancelRuns(W(), runs[i..], engine) == CancelRuns(w, runs, engine)
      {
        assert runs[i..][1..] == runs[i + 1..];
        var _ := CancelRun(runs[i].1);
        inFlight := inFlight - {runs[i].1};
      }
    }

    method FailFastNow()
      modifies this
      ensures W() == FailFastAll(old(W()), engine)
    {
      failFastTripped := true;
      var live := CollectRuns(LIVE);
      SameRuns(old(Camp()), Camp(), Ordered(nodeStatus.Keys), LIVE);
      CancelNodes();
      Persist();
      CancelAll(live);
    }

    method QueueGate(n: NodeId)
      modifies this`gates, this`status
      ensures W() == old(W()).(camp := GateFailure(old(Camp()), n))
    {
      if n !in gates {
        gates := Sorted((set m | m in gates) + {n});
      }
      if status == CRunning {
        status := CPaused;
      }
    }

    method ApplyPolicy(n: NodeId)
      requires Defined(Camp())
      modifies this
      ensures W() == ApplyFailurePolicy(old(W()), n, engine)
    {
      match def.policy
      case FailFast => FailFastNow();
      case ContinueIndependent => Block();
      case HumanGateOnFailure => QueueGate(n);
    }

    method End(n: NodeId, outcome: Outcome)
      requires Defined(Camp()) && n in nodeStatus
      modifies this
      ensures W() == EndNode(old(W()), n, outcome, engine)
    {
      nodeStatus := nodeStatus[n := outcome.AsNodeStatus()];
      Persist();
      if outcome != OCompleted {
        ApplyPolicy(n);
      }
    }

    method Reconcile(n: NodeId, outcome: Outcome)
      requires Defined(Camp())
      modifies this
      ensures W() == ReconcileTerminal(old(W()), n, outcome, engine)
    {
      if n in nodeStatus && !nodeStatus[n].Terminal() {
        End(n, outcome);
      }
    }

    // ── dispatch and fill ─────────────────────────────────────────────────────

    method Take(n: NodeId, r: RunId)
      requires r == DeriveRunId(Camp(), n)
      modifies this
      ensures W() == TakeSlot(old(W()), n)
    {
      nodeRunId := nodeRunId[n := r];
      nodeStatus := nodeStatus[n := Running];
      Persist();
    }

    method StartNode(n: NodeId) returns (ok: bool)
      modifies this
      ensures (W(), ok) == Start(old(W()), n, engine)
    {
      var wasReady := StatusOf(nodeStatus, n) == Ready;
      var r := DeriveRunId(Camp(), n);
      Take(n, r);
      if wasReady {
        ok := LaunchRun(r);
      } else {
        var answer := if n in decisions then Approve(decisions[n]) else Approve(None);
        decisions := decisions - {n};
        Persist();
        ok := ConfirmRun(r, answer);
      }
    }

    method DispatchNode(n: NodeId)
      requires Defined(Camp()) && n in nodeStatus
      modifies this
      ensures W() == Dispatch(old(W()), n, engine)
    {
      var ok := StartNode(n);
      if !ok {
        End(n, OFailed);
      }
    }

    method DispatchableNodes() returns (s: set<NodeId>)
      ensures s == Dispatchable(Camp())
    {
      s := ReadySet(def.nodes, def.edges, nodeStatus);
      s := s + set n | n in nodeStatus && nodeStatus[n] == ReadyToResume;
    }

    method FillSlots()
      requires Defined(Camp())
      modifies this
      ensures W() == TryFill(old(W()), engine)
    {
      if status != CRunning {
        return;
      }
      ghost var w := W();
      while |set n | n in nodeStatus && nodeStatus[n] == Running| < def.cap
        invariant Defined(Camp()) && Fill(W(), engine) == Fill(w, engine)
        decreases Startable(Camp())
      {
        assert RunningNodes(Camp()) == set n | n in nodeStatus && nodeStatus[n] == Running;
        var s := DispatchableNodes();
        if s == {} {
          break;
        }
        var n := LeastOf(s);
        DispatchShrinks(W(), n, engine);
        DispatchNode(n);
      }
    }

    method FinalizeNow()
      modifies this
      ensures W() == Finalize(old(W()))
    {
      var s := DispatchableNodes();
      if status == CRunning && (forall n | n in nodeStatus :: !nodeStatus[n].Live()) && s == {} {
        if forall n | n in nodeStatus :: nodeStatus[n] == Completed {
          status := CCompleted;
        } else if failFastTripped {
          status := CFailed;
        } else {
          status := CPartiallyCompleted;
        }
      }
      Persist();
    }

    method FillThenFinalize()
      requires Defined(Camp())
      modifies this
      ensures W() == FillAndFinalize(old(W()), engine)
    {
      FillSlots();
      FinalizeNow();
    }

    method PromoteThenFill()
      requires Defined(Camp())
      modifies this
      ensures W() == PromoteAndFill(old(W()), engine)
    {
      PromoteDefined(Camp());
      Promote();
      Persist();
      FillThenFinalize();
    }

    method SetFresh(d: Def)
      modifies this`def, this`status, this`nodeStatus, this`nodeRunId
      modifies this`nodeAttempt, this`decisions, this`gates, this`failFastTripped
      ensures W() == old(W()).(camp := FreshCampaign(d))
    {
      SetCamp(FreshCampaign(d));
    }

    /** Read the campaign back from the store. */
    method LoadSaved()
      requires saved.Some?
      modifies this`def, this`status, this`nodeStatus, this`nodeRunId
      modifies this`nodeAttempt, this`decisions, this`gates, this`failFastTripped
      ensures W() == Load(old(W()))
    {
      SetCamp(saved.value);
    }

    // ── commands ──────────────────────────────────────────────────────────────

    ghost predicate Stocked()
      reads this
    {
      saved.Some? && Defined(saved.value)
    }

    method SetCamp(c: Campaign)
      modifies this`def, this`status, this`nodeStatus, this`nodeRunId
      modifies this`nodeAttempt, this`decisions, this`gates, this`failFastTripped
      ensures Camp() == c
    {
      def, status, nodeStatus, nodeRunId := c.def, c.status, c.nodeStatus, c.nodeRunId;
      nodeAttempt, decisions, gates, failFastTripped := c.nodeAttempt, c.decisions, c.gates, c.failFastTripped;
    }

    method Launch(d: Def) returns (ok: bool)
      modifies this
      ensures (W(), ok) == LaunchCampaign(old(W()), d, engine)
    {
      var v := Validate(d);
      if v.Invalid? {
        return false;
      }
      if saved.Some? && !Ended(saved.value.status) && !saved.value.status.CPartiallyCompleted? {
        return false;
      }
      SetFresh(d);
      Persist();
      PromoteThenFill();
      ok := true;
    }

    method RunEnded(r: RunId, outcome: Outcome) returns (ok: bool)
      requires Stocked()
      modifies this
      ensures (W(), ok) == OnRunFinished(old(W()), r, outcome, engine)
    {
      ok := true;
      var owner := OwnerOf(saved.value, r);
      if owner.Some? && !StatusIn(saved.value, owner.value).Terminal() {
        LoadSaved();
        Reconcile(owner.value, outcome);
        PromoteThenFill();
      }
    }

    method AnswerEscalation(r: RunId)
      modifies this
      ensures W() == AutoReject(old(W()), r, engine)
    {
      if def.autoReject {
        var a := Ask();
        if a.escalated {
          var _ := ConfirmRun(r, Reject);
        }
      }
    }

    method NodeAwaits(r: RunId) returns (ok: bool)
      requires Stocked()
      modifies this
      ensures (W(), ok) == OnNodeAwaiting(old(W()), r, engine)
    {
      ok := true;
      var owner := OwnerOf(saved.value, r);
      if owner.Some? && StatusIn(saved.value, owner.value) == Running {
        LoadSaved();
        nodeStatus := nodeStatus[owner.value := AwaitingHuman];
        Persist();
        AnswerEscalation(r);
        FillThenFinalize();
      }
    }

    method ApproveNode(n: NodeId, amend: Option<string>) returns (ok: bool)
      requires Stocked()
      modifies this
      ensures (W(), ok) == Approved(old(W()), n, amend, engine)
    {
      if StatusIn(saved.value, n) != AwaitingHuman {
        return false;
      }
      LoadSaved();
      EditApprove(n, amend);
      Persist();
      FillThenFinalize();
      ok := true;
    }

    method ReconcileReject(n: NodeId, outcome: Outcome)
      requires Defined(Camp())
      modifies this
      ensures W() == ReconcileRejected(old(W()), n, outcome, engine)
    {
      Reconcile(n, outcome);
      PromoteThenFill();
    }

    method RejectNode(n: NodeId) returns (ok: bool)
      requires Stocked()
      modifies this
      ensures (W(), ok) == Rejected(old(W()), n, engine)
    {
      if StatusIn(saved.value, n) != AwaitingHuman || n !in saved.value.nodeRunId {
        return false;
      }
      LoadSaved();
      var r := nodeRunId[n];
      var answered := ConfirmRun(r, Reject);
      if answered {
        return true;
      }
      inFlight := inFlight - {r};
      if r !in sessions {
        ReconcileReject(n, OFailed);
        return false;
      }
      if sessions[r].Terminal() {
        ReconcileReject(n, OutcomeOf(sessions[r]));
        return false;
      }
      ok := CancelRun(r);
      if !ok {
        ReconcileReject(n, OFailed);
      }
    }

    method EditRetry(n: NodeId)
      modifies this`nodeAttempt, this`nodeStatus, this`gates, this`status
      ensures Camp() == Retried(old(Camp()), n)
    {
      nodeAttempt := nodeAttempt[n := AttemptOf(Camp(), n) + 1];
      nodeStatus := nodeStatus[n := Ready];
      gates := Dequeue(gates, n);
      if gates == [] {
        status := CRunning;
      }
    }

    method EditSkip(n: NodeId)
      modifies this`nodeStatus, this`gates, this`status
      ensures Camp() == Skipped(old(Camp()), n)
    {
      nodeStatus := nodeStatus[n := Failed];
      gates := Dequeue(gates, n);
      Block();
      if gates == [] {
        status := CRunning;
      }
    }

    method EditApprove(n: NodeId, amend: Option<string>)
      modifies this`nodeStatus, this`decisions
      ensures Camp() == SetNode(old(Camp()), n, ReadyToResume).(decisions := old(decisions)[n := amend])
    {
      decisions := decisions[n := amend];
      nodeStatus := nodeStatus[n := ReadyToResume];
    }

    method EditReopen(n: NodeId)
      modifies this`gates, this`status
      ensures Camp() == old(Camp()).(gates := Dequeue(old(gates), n), status := CRunning)
    {
      gates := Dequeue(gates, n);
      status := CRunning;
    }

    method EditUnpause()
      modifies this`status
      ensures Camp() == Unpaused(old(Camp()))
    {
      if status.CPaused? && gates == [] {
        status := CRunning;
      }
    }

    method RetryGate(n: NodeId) returns (ok: bool)
      requires Stocked()
      modifies this
      ensures (W(), ok) == RetryNode(old(W()), n, engine)
    {
      if !Gated(saved.value, n) {
        return false;
      }
      LoadSaved();
      GateEditsDefined(Camp(), n);
      EditRetry(n);
      Persist();
      FillThenFinalize();
      ok := true;
    }

    method SkipGate(n: NodeId) returns (ok: bool)
      requires Stocked()
      modifies this
      ensures (W(), ok) == SkipNode(old(W()), n, engine)
    {
      if !Gated(saved.value, n) {
        return false;
      }
      LoadSaved();
      GateEditsDefined(Camp(), n);
      EditSkip(n);
      Persist();
      PromoteDefined(Camp());
      Promote();
      FillThenFinalize();
      ok := true;
    }

    method AbortGate(n: NodeId) returns (ok: bool)
      requires Stocked()
      modifies this
      ensures (W(), ok) == AbortNode(old(W()), n, engine)
    {
      if !Gated(saved.value, n) {
        return false;
      }
      LoadSaved();
      EditReopen(n);
      FailFastNow();
      FinalizeNow();
      ok := true;
    }

    method Pause() returns (ok: bool)
      requires Stocked()
      modifies this
      ensures (W(), ok) == PauseCampaign(old(W()))
    {
      ok := true;
      if saved.value.status == CRunning {
        LoadSaved();
        status := CPaused;
        Persist();
      }
    }

    method Cancel() returns (ok: bool)
      requires Stocked()
      modifies this
      ensures (W(), ok) == CancelCampaign(old(W()), engine)
    {
      ok := true;
      if Ended(saved.value.status) {
        return;
      }
      LoadSaved();
      status := CCancelled;
      Persist();
      var live := CollectRuns(LIVE);
      CancelNodes();
      Persist();
      CancelAll(live);
    }

    // ── resume ────────────────────────────────────────────────────────────────

    method ReattachNode(n: NodeId, r: RunId)
      requires Defined(Camp())
      modifies this
      ensures W() == Reattach(old(W()), n, r, engine)
    {
      var started;
      if r !in sessions {
        started := LaunchRun(r);
      } else if sessions[r].Terminal() {
        Reconcile(n, OutcomeOf(sessions[r]));
        return;
      } else {
        started := ResumeRun(r);
      }
      if !started {
        Reconcile(n, OFailed);
      }
    }

    method ReattachRuns(runs: seq<(NodeId, RunId)>)
      requires Defined(Camp())
      modifies this
      ensures W() == ReattachAll(old(W()), runs, engine)
    {
      ghost var w := W();
      for i := 0 to |runs|
        invariant Defined(Camp()) && ReattachAll(W(), runs[i..], engine) == ReattachAll(w, runs, engine)
      {
        assert runs[i..][1..] == runs[i + 1..];
        ReattachNode(runs[i].0, runs[i].1);
      }
    }

    method RegateRuns(runs: seq<(NodeId, RunId)>)
      requires Defined(Camp())
      modifies this
      ensures W() == RegateAll(old(W()), runs, engine)
    {
      ghost var w := W();
      for i := 0 to |runs|
        invariant Defined(Camp()) && RegateAll(W(), runs[i..], engine) == RegateAll(w, runs, engine)
      {
        assert runs[i..][1..] == runs[i + 1..];
        var (n, r) := runs[i];
        if r in sessions && sessions[r].Terminal() {
          Reconcile(n, OutcomeOf(sessions[r]));
        }
      }
    }

    method Resume() returns (ok: bool)
      requires Stocked()
      modifies this
      ensures (W(), ok) == ResumeCampaign(old(W()), engine)
    {
      ok := true;
      if Ended(saved.value.status) {
        return;
      }
      LoadSaved();
      EditUnpause();
      var running := CollectRuns({Running});
      Persist();
      ReattachRuns(running);
      var gated := CollectRuns(GATED);
      RegateRuns(gated);
      PromoteThenFill();
    }

    /** One command, as the actor's loop dispatches it. */
    method Serve(cmd: Command) returns (ok: bool)
      requires saved.Some? ==> Stocked()
      modifies this
      ensures (W(), ok) == Handle(old(W()), cmd, engine)
    {
      hide LaunchCampaign, OnRunFinished, OnNodeAwaiting, Approved, Rejected, RetryNode, SkipNode, AbortNode, PauseCampaign, CancelCampaign, ResumeCampaign;
      if cmd.Launch? {
        ok := Launch(cmd.def);
      } else if saved.None? {
        ok := false;
      } else {
        match cmd
        case RunFinished(r, outcome) => ok := RunEnded(r, outcome);
        case NodeAwaiting(r) => ok := NodeAwaits(r);
        case ApproveGate(n, amend) => ok := ApproveNode(n, amend);
        case RejectGate(n) => ok := RejectNode(n);
        case Retry(n) => ok := RetryGate(n);
        case Skip(n) => ok := SkipGate(n);
        case Abort(n) => ok := AbortGate(n);
        case Pause => ok := Pause();
        case Cancel => ok := Cancel();
        case Resume => ok := Resume();
      }
    }
  }

  /** The first node, in id order, whose recorded run is `r`, in a campaign that has not ended. */
  method OwnerOf(c: Campaign, r: RunId) returns (owner: Option<NodeId>)
    ensures owner == FindByRun(c, r)
  {
    ghost var owners := set n | n in c.nodeRunId && c.nodeRunId[n] == r;
    if Ended(c.status) {
      return None;
    }
    var todo := c.nodeRunId.Keys;
    while todo != {}
      invariant owners <= todo <= c.nodeRunId.Keys
      decreases todo
    {
      var n := LeastOf(todo);
      assert n in todo;
      if c.nodeRunId[n] == r {
        assert IsLeast(n, owners);
        LeastUnique(n, Least(owners), owners);
        return Some(n);
      }
      todo := todo - {n};
    }
    return None;
  }

  /** Tripping fail-fast does not change which runs are listed. */
  lemma {:induction false} SameRuns(c: Campaign, d: Campaign, ns: seq<NodeId>, kinds: set<NodeStatus>)
    requires d.nodeStatus == c.nodeStatus && d.nodeRunId == c.nodeRunId
    ensures Runs(d, ns, kinds) == Runs(c, ns, kinds)
    decreases |ns|
  {
    if ns != [] {
      SameRuns(c, d, ns[1..], kinds);
    }
  }
}
