/** What each command leaves of the stored campaign, told from before and after alone: which node ends how,
    what waits, what is freed, and under which status the campaign goes on. */
module CampaignTurns {
  import opened Names
  import opened CampaignGraph
  import opened CampaignCycle
  import opened CampaignModel
  import opened CampaignHandlers
  import opened CampaignInvariants
  import opened CampaignSafety
  import opened CampaignSteps
  import opened CampaignKeeps
  import opened CampaignResume
  import opened CampaignRuns
  import opened CampaignCrash
  import opened CampaignFailure
  import opened CampaignFindings
  import opened CampaignPromotion
  import opened CampaignFills
  import opened CampaignCancels
  import CampaignSeam

  /** An operator's command is one step. */
  lemma OrderStep(w: World, cmd: Command, engine: Engine)
    requires Rest(false, false, w) && !Posted(cmd) && (HasCampaign(w) ==> Defined(w.disk.saved.value))
    ensures Step(w, Does(Order(cmd)), engine) == Fresh(Handle(w, cmd, engine).0)
  {
    hide Handle, Rest, WellFormed;
  }

  // ── what a fill does to any campaign ────────────────────────────────────────

  predicate Over(s: NodeStatus) {
    s == Completed || s == Failed || s == Cancelled || s == Blocked
  }

  predicate NotBegun(s: NodeStatus) {
    s == Pending || s == NodeStatus.Ready || s == ReadyToResume
  }

  /** A node that has not started may start, or fail to; the failure of a start may block it or, under fail-fast,
      cancel what is not over. Nothing else moves. */
  predicate MayGo(policy: Policy, s: NodeStatus, t: NodeStatus) {
    t == s ||
    (NotBegun(s) && (t == Running || t == Failed)) ||
    ((s == Pending || s == NodeStatus.Ready) && t == Blocked && policy.ContinueIndependent?) ||
    (!Over(s) && t == Cancelled && policy.FailFast?)
  }

  ghost predicate NodesGo(c: Campaign, d: Campaign) {
    d.nodeStatus.Keys == c.nodeStatus.Keys && forall n :: n in c.nodeStatus ==> MayGo(c.def.policy, c.nodeStatus[n], d.nodeStatus[n])
  }

  /** In increasing order, none twice. */
  predicate Rising(gates: seq<NodeId>) {
    forall i, j :: 0 <= i < j < |gates| ==> Less(gates[i], gates[j])
  }

  /** Only a failed start is added to the gates, which stay in order. */
  ghost predicate GatesGo(c: Campaign, d: Campaign) {
    (forall g :: g in c.gates ==> g in d.gates) && (Rising(c.gates) ==> Rising(d.gates)) && (c.def.policy.HumanGateOnFailure? || d.gates == c.gates) &&
    forall g :: g in d.gates && g !in c.gates ==> g in c.nodeStatus && g in d.nodeStatus && NotBegun(c.nodeStatus[g]) && d.nodeStatus[g] == Failed
  }

  /** A running campaign stays so, unless a gate opens. */
  predicate StatusGoes(c: Campaign, d: Campaign) {
    d.status == c.status || (c.status == CRunning && d.status == CPaused && c.def.policy.HumanGateOnFailure? && d.gates != [])
  }

  ghost predicate Goes(c: Campaign, d: Campaign) {
    d.def == c.def && d.nodeAttempt == c.nodeAttempt && NodesGo(c, d) && GatesGo(c, d) && StatusGoes(c, d) &&
    (c.failFastTripped ==> d.failFastTripped)
  }

  lemma NodesOn(c: Campaign, d: Campaign, e: Campaign)
    requires NodesGo(c, d) && NodesGo(d, e) && d.def == c.def
    ensures NodesGo(c, e)
  {
  }

  lemma GatesOn(c: Campaign, d: Campaign, e: Campaign)
    requires GatesGo(c, d) && GatesGo(d, e) && NodesGo(c, d) && NodesGo(d, e) && d.def == c.def
    ensures GatesGo(c, e)
  {
    hide Rising;
    forall g | g in e.gates && g !in c.gates ensures g in c.nodeStatus && g in e.nodeStatus && NotBegun(c.nodeStatus[g]) && e.nodeStatus[g] == Failed {
      if g in d.gates {
        assert MayGo(d.def.policy, d.nodeStatus[g], e.nodeStatus[g]);
      } else {
        assert MayGo(c.def.policy, c.nodeStatus[g], d.nodeStatus[g]);
      }
    }
  }

  lemma GoesOn(c: Campaign, d: Campaign, e: Campaign)
    requires Goes(c, d) && Goes(d, e)
    ensures Goes(c, e)
  {
    NodesOn(c, d, e);
    GatesOn(c, d, e);
    hide NodesGo, GatesGo;
    if d.gates != [] {
      assert d.gates[0] in d.gates;
    }
    GatesStay(d, e);
  }

  lemma GatesStay(d: Campaign, e: Campaign)
    requires GatesGo(d, e)
    ensures d.gates != [] ==> e.gates != []
  {
    if d.gates != [] {
      assert d.gates[0] in e.gates;
    }
  }

  lemma GoesSame(c: Campaign)
    ensures Goes(c, c)
  {
  }

  /** A dispatched node runs, or failed. */
  lemma StartGoes(w: World, n: NodeId, engine: Engine)
    requires n in w.camp.nodeStatus && NotBegun(w.camp.nodeStatus[n])
    ensures var u := Start(w, n, engine).0;
            Goes(w.camp, u.camp) && u.camp.nodeStatus == w.camp.nodeStatus[n := Running] && u.camp.gates == w.camp.gates &&
            u.camp.status == w.camp.status && u.camp.failFastTripped == w.camp.failFastTripped && u.camp.nodeAttempt == w.camp.nodeAttempt
  {
    hide LaunchRun, ConfirmRun;
  }

  lemma FailFastGoes(c: Campaign, x: Campaign, n: NodeId)
    requires n in c.nodeStatus && NotBegun(c.nodeStatus[n]) && c.def.policy.FailFast?
    requires x == c.(nodeStatus := c.nodeStatus[n := Failed], nodeRunId := x.nodeRunId, decisions := x.decisions)
    ensures Goes(c, CancelNonTerminal(x).(failFastTripped := true))
  {
  }

  lemma BlockingGoes(c: Campaign, x: Campaign, n: NodeId)
    requires Defined(x) && n in c.nodeStatus && NotBegun(c.nodeStatus[n]) && c.def.policy.ContinueIndependent?
    requires x == c.(nodeStatus := c.nodeStatus[n := Failed], nodeRunId := x.nodeRunId, decisions := x.decisions)
    ensures Goes(c, ApplyBlocking(x))
  {
    hide BlockedIn, WellFormed;
    BlockedAreUnstarted(x);
  }

  lemma GatingGoes(c: Campaign, x: Campaign, n: NodeId)
    requires n in c.nodeStatus && NotBegun(c.nodeStatus[n]) && c.def.policy.HumanGateOnFailure?
    requires x == c.(nodeStatus := c.nodeStatus[n := Failed], nodeRunId := x.nodeRunId, decisions := x.decisions)
    ensures Goes(c, GateFailure(x, n))
  {
    GateQueue(x, n);
    hide Enqueue, Rising;
    assert n in GateFailure(x, n).gates;
  }

  lemma FailedGoes(w: World, x: World, n: NodeId, engine: Engine)
    requires Defined(x.camp) && n in w.camp.nodeStatus && NotBegun(w.camp.nodeStatus[n])
    requires x.camp == w.camp.(nodeStatus := w.camp.nodeStatus[n := Failed], nodeRunId := x.camp.nodeRunId, decisions := x.camp.decisions)
    ensures Goes(w.camp, ApplyFailurePolicy(x, n, engine).camp)
  {
    hide Goes, WellFormed, FailFastAll, CancelNonTerminal, ApplyBlocking, GateFailure;
    match x.camp.def.policy
    case FailFast =>
      FailFastCamp(x, engine);
      FailFastGoes(w.camp, x.camp, n);
    case ContinueIndependent =>
      BlockingGoes(w.camp, x.camp, n);
    case HumanGateOnFailure =>
      GatingGoes(w.camp, x.camp, n);
  }

  /** The gate queue gains the node that failed. */
  lemma GateQueue(c: Campaign, n: NodeId)
    ensures forall g :: g in Enqueue(c.gates, n) <==> g in c.gates || g == n
    ensures Rising(c.gates) ==> Rising(Enqueue(c.gates, n))
  {
    hide Rising;
    OrderedRises((set m | m in c.gates) + {n});
  }

  lemma {:induction false} OrderedRises(s: set<NodeId>)
    ensures Rising(Ordered(s))
    decreases s
  {
    if s != {} {
      var m := Least(s);
      var rest := Ordered(s - {m});
      OrderedRises(s - {m});
      forall i, j | 0 <= i < j < |[m] + rest| ensures Less(([m] + rest)[i], ([m] + rest)[j]) {
        assert rest[j - 1] in rest && IsLeast(m, s);
      }
    }
  }

  lemma DispatchGoes(w: World, n: NodeId, engine: Engine)
    requires Defined(w.camp) && n in w.camp.nodeStatus && NotBegun(w.camp.nodeStatus[n])
    ensures Goes(w.camp, Dispatch(w, n, engine).camp)
    ensures var t := Dispatch(w, n, engine).camp.nodeStatus; n in t && (t[n] == Running || t[n] == Failed)
  {
    hide WellFormed, Start, ApplyFailurePolicy, Goes;
    StartGoes(w, n, engine);
    StartShape(w, n, engine);
    var started := Start(w, n, engine);
    if !started.1 {
      var x := Persist(SetNodeW(started.0, n, Failed));
      FailedGoes(w, x, n, engine);
      EndedNodes(started.0, n, OFailed, engine);
    }
  }

  lemma StartShape(w: World, n: NodeId, engine: Engine)
    ensures var c := Start(w, n, engine).0.camp;
            c == w.camp.(nodeStatus := w.camp.nodeStatus[n := Running], nodeRunId := c.nodeRunId, decisions := c.decisions)
  {
    hide LaunchRun, ConfirmRun;
  }

  lemma {:induction false} FillGoes(w: World, engine: Engine)
    requires Defined(w.camp)
    ensures Goes(w.camp, Fill(w, engine).camp)
    decreases Startable(w.camp)
  {
    hide WellFormed, Dispatch, Goes;
    GoesSame(w.camp);
    if |RunningNodes(w.camp)| < w.camp.def.cap && Dispatchable(w.camp) != {} {
      var n := Least(Dispatchable(w.camp));
      DispatchShrinks(w, n, engine);
      PickUnstarted(w.camp, n);
      DispatchGoes(w, n, engine);
      FillGoes(Dispatch(w, n, engine), engine);
      GoesOn(w.camp, Dispatch(w, n, engine).camp, Fill(w, engine).camp);
    }
  }

  lemma PickUnstarted(c: Campaign, n: NodeId)
    requires Defined(c) && n in Dispatchable(c)
    ensures n in c.nodeStatus && NotBegun(c.nodeStatus[n])
  {
    DispatchableKnown(c);
  }

  /** The status a campaign goes on under: `Completed` means all its nodes did; `Failed`, that fail-fast tripped;
      `PartiallyCompleted`, neither. */
  ghost predicate NamedRight(d: Campaign) {
    (d.status == CCompleted ==> forall n :: n in d.nodeStatus ==> d.nodeStatus[n] == Completed) &&
    (d.status == CFailed ==> d.failFastTripped && exists n :: n in d.nodeStatus && d.nodeStatus[n] != Completed) &&
    (d.status == CPartiallyCompleted ==> !d.failFastTripped && exists n :: n in d.nodeStatus && d.nodeStatus[n] != Completed)
  }

  /** What a fill and a finalize leave. A campaign that is not running is left alone. One that is goes on, pauses at
      a gate, or ends under the right name. */
  ghost predicate Filled(c: Campaign, d: Campaign) {
    if c.status != CRunning then d == c
    else
      d.def == c.def && d.nodeAttempt == c.nodeAttempt && NodesGo(c, d) && GatesGo(c, d) && (c.failFastTripped ==> d.failFastTripped) &&
      (d.status == CPaused ==> c.def.policy.HumanGateOnFailure? && d.gates != []) && d.status != CCancelled && NamedRight(d) &&
      (d.status == CRunning ==> Full(d))
  }

  /** Every slot is taken, or nothing can start. */
  ghost predicate Full(d: Campaign) {
    |RunningNodes(d)| >= d.def.cap || Dispatchable(d) == {}
  }

  lemma FullSame(d: Campaign, e: Campaign)
    requires e == d.(status := e.status)
    ensures Full(e) == Full(d)
  {
    assert RunningNodes(e) == RunningNodes(d);
    assert Dispatchable(e) == Dispatchable(d);
  }

  lemma FinalizeNames(d: Campaign)
    requires d.status == CRunning || d.status == CPaused
    ensures var e := FinalizeIfDone(d);
            e == d.(status := e.status) && NamedRight(e) && (e.status == CPaused <==> d.status == CPaused) && e.status != CCancelled
  {
    hide Quiet;
  }

  lemma FinalizeFills(c: Campaign, d: Campaign)
    requires c.status == CRunning && Goes(c, d) && Full(d)
    ensures Filled(c, FinalizeIfDone(d))
  {
    hide FinalizeIfDone, NamedRight, MayGo, Full;
    FinalizeNames(d);
    FullSame(d, FinalizeIfDone(d));
  }

  lemma FilledIs(w: World, engine: Engine)
    requires Defined(w.camp)
    ensures var u := FillAndFinalize(w, engine); Filled(w.camp, u.camp) && u.disk.saved == Some(u.camp)
    ensures w.camp.status != CRunning ==> SameRuns(w, FillAndFinalize(w, engine)) && FillAndFinalize(w, engine).answers == w.answers
  {
    hide WellFormed, Fill, Goes, Filled, FinalizeIfDone;
    if w.camp.status == CRunning {
      FillGoes(w, engine);
      FillStops(w, engine);
      FinalizeFills(w.camp, Fill(w, engine).camp);
    } else {
      NotRunning(w.camp);
    }
  }

  lemma NotRunning(c: Campaign)
    requires c.status != CRunning
    ensures FinalizeIfDone(c) == c && Filled(c, c)
  {
  }

  // ── promotion ───────────────────────────────────────────────────────────────

  /** Every dependency of pending `m` is met. */
  ghost predicate Free(c: Campaign, m: NodeId) {
    m in c.nodeStatus && c.nodeStatus[m] == Pending &&
    forall e :: e in c.def.edges && e.to == m ==>
      e.from in c.nodeStatus &&
      (c.nodeStatus[e.from] == Completed || (e.condition.OnTerminal? && (c.nodeStatus[e.from] == Failed || c.nodeStatus[e.from] == Cancelled)))
  }

  /** The free nodes are made ready, nothing else moves. */
  ghost predicate Freed(c: Campaign, d: Campaign) {
    d == c.(nodeStatus := d.nodeStatus) && d.nodeStatus.Keys == c.nodeStatus.Keys &&
    forall m :: m in c.nodeStatus ==> d.nodeStatus[m] == if Free(c, m) then NodeStatus.Ready else c.nodeStatus[m]
  }

  lemma PromoteFrees(c: Campaign)
    requires Defined(c)
    ensures Freed(c, PromoteReady(c))
  {
    hide PromoteReady, WellFormed;
    PromotesTo(c);
    PromoteShape(c);
    forall m | m in c.nodeStatus && c.nodeStatus[m] == Pending ensures Free(c, m) <==> Eligible(c.def.edges, c.nodeStatus, m) {
      if Free(c, m) {
        assert forall e :: e in c.def.edges && e.to == m ==> Satisfied(c.nodeStatus, e);
      }
    }
  }

  /** `c`, its free nodes made ready, filled and finalized: what is over stays, what is free does not stay pending. */
  ghost predicate FreedAndFilled(c: Campaign, d: Campaign) {
    exists x :: Freed(c, x) && Filled(x, d)
  }

  lemma PromotedIs(w: World, engine: Engine)
    requires Defined(w.camp)
    ensures var u := PromoteAndFill(w, engine); FreedAndFilled(w.camp, u.camp) && u.disk.saved == Some(u.camp)
    ensures w.camp.status != CRunning ==> SameRuns(w, PromoteAndFill(w, engine)) && PromoteAndFill(w, engine).answers == w.answers
  {
    hide WellFormed, PromoteReady, FillAndFinalize, Filled, Freed;
    PromoteDefined(w.camp);
    PromoteFrees(w.camp);
    var x := Persist(w.(camp := PromoteReady(w.camp)));
    FreedStatus(w.camp, x.camp);
    FilledIs(x, engine);
  }

  lemma FreedStatus(c: Campaign, x: Campaign)
    requires Freed(c, x)
    ensures x.status == c.status && x.gates == c.gates && x.def == c.def
  {
  }

  /** What a reader of a filled campaign sees of each node. */
  lemma FreedReads(c: Campaign, d: Campaign)
    requires FreedAndFilled(c, d)
    ensures d.def == c.def && d.nodeAttempt == c.nodeAttempt && d.nodeStatus.Keys == c.nodeStatus.Keys
    ensures forall n :: n in c.nodeStatus ==>
              (Over(c.nodeStatus[n]) ==> d.nodeStatus[n] == c.nodeStatus[n]) && (Free(c, n) ==> d.nodeStatus[n] != Pending) &&
              (d.nodeStatus[n] == Running ==> c.nodeStatus[n] == Running || (NotBegun(c.nodeStatus[n]) && c.status == CRunning))
    ensures forall g :: g in c.gates ==> g in d.gates
    ensures c.status == CRunning ==> NamedRight(d) && d.status != CCancelled && (d.status == CPaused ==> d.gates != [])
    ensures c.status != CRunning ==> d.status == c.status && d.gates == c.gates
  {
    var x :| Freed(c, x) && Filled(x, d);
    hide Free;
    forall n | n in c.nodeStatus
      ensures Over(c.nodeStatus[n]) ==> d.nodeStatus[n] == c.nodeStatus[n]
      ensures Free(c, n) ==> d.nodeStatus[n] != Pending
      ensures d.nodeStatus[n] == Running ==> c.nodeStatus[n] == Running || (NotBegun(c.nodeStatus[n]) && c.status == CRunning)
    {
      FreePending(c, n);
      if x.status == CRunning {
        assert MayGo(x.def.policy, x.nodeStatus[n], d.nodeStatus[n]);
      }
    }
  }

  lemma FreePending(c: Campaign, n: NodeId)
    ensures Free(c, n) ==> n in c.nodeStatus && c.nodeStatus[n] == Pending
  {
  }

  // ── a node ends ─────────────────────────────────────────────────────────────

  function EndFor(o: Outcome): NodeStatus {
    match o
    case OCompleted => Completed
    case OFailed => Failed
    case OCancelled => Cancelled
  }

  /** Fail-fast ends what is not over. */
  ghost predicate FailsFast(c: Campaign, d: Campaign, n: NodeId) {
    d.status == c.status && d.gates == c.gates && d.failFastTripped && d.nodeStatus.Keys == c.nodeStatus.Keys &&
    forall m :: m in c.nodeStatus && m != n ==> d.nodeStatus[m] == if Over(c.nodeStatus[m]) then c.nodeStatus[m] else Cancelled
  }

  /** A gate pauses a running campaign, and queues the node. */
  ghost predicate FailsGated(c: Campaign, d: Campaign, n: NodeId, o: Outcome) {
    d == c.(nodeStatus := c.nodeStatus[n := EndFor(o)], gates := d.gates, status := if c.status == CRunning then CPaused else c.status) &&
    (Rising(c.gates) ==> Rising(d.gates)) && forall g :: g in d.gates <==> g in c.gates || g == n
  }

  predicate FellOrBlocked(c: Campaign, m: NodeId) {
    m in c.nodeStatus && (c.nodeStatus[m] == Failed || c.nodeStatus[m] == Cancelled || c.nodeStatus[m] == Blocked)
  }

  predicate WaitsFor(c: Campaign, m: NodeId, e: Edge) {
    e in c.def.edges && e.condition.OnSuccess? && e.to == m
  }

  /** Exactly the nodes that wait for the success of one that fell or is blocked are blocked, through to the end. */
  ghost predicate BlockedRight(c: Campaign, d: Campaign) {
    (forall e: Edge :: WaitsFor(d, e.to, e) && e.to in d.nodeStatus && FellOrBlocked(d, e.from)
       ==> d.nodeStatus[e.to] != Pending && d.nodeStatus[e.to] != NodeStatus.Ready) &&
    forall m :: m in d.nodeStatus && d.nodeStatus[m] == Blocked && m in c.nodeStatus && c.nodeStatus[m] != Blocked
       ==> exists e :: WaitsFor(d, m, e) && FellOrBlocked(d, e.from)
  }

  lemma BlockingRight(c: Campaign)
    requires Defined(c)
    ensures BlockedRight(c, ApplyBlocking(c))
  {
    BlockingSpreads(c);
    BlockingReasons(c);
  }

  lemma BlockingSpreads(c: Campaign)
    requires Defined(c)
    ensures var d := ApplyBlocking(c);
            forall e: Edge :: WaitsFor(d, e.to, e) && e.to in d.nodeStatus && FellOrBlocked(d, e.from)
              ==> d.nodeStatus[e.to] != Pending && d.nodeStatus[e.to] != NodeStatus.Ready
  {
    BlockingCloses(c);
    BlockingMoves(c);
    hide ApplyBlocking;
    var d := ApplyBlocking(c);
    forall e: Edge | WaitsFor(d, e.to, e) && e.to in d.nodeStatus && FellOrBlocked(d, e.from)
      ensures d.nodeStatus[e.to] != Pending && d.nodeStatus[e.to] != NodeStatus.Ready
    {
      assert e.from in Ids(d.def.nodes);
      assert Bad(d.def.nodes, d.nodeStatus, e.from);
    }
  }

  lemma BlockingReasons(c: Campaign)
    requires Defined(c)
    ensures var d := ApplyBlocking(c);
            forall m :: m in d.nodeStatus && d.nodeStatus[m] == Blocked && m in c.nodeStatus && c.nodeStatus[m] != Blocked
              ==> exists e :: WaitsFor(d, m, e) && FellOrBlocked(d, e.from)
  {
    hide BlockedIn, WellFormed;
    var d := ApplyBlocking(c);
    forall m | m in d.nodeStatus && d.nodeStatus[m] == Blocked && m in c.nodeStatus && c.nodeStatus[m] != Blocked
      ensures exists e :: WaitsFor(d, m, e) && FellOrBlocked(d, e.from)
    {
      BlockedHasBad(c, m);
      ReasonFor(c, d, m);
    }
  }

  lemma ReasonFor(c: Campaign, d: Campaign, m: NodeId)
    requires HasBad(c, d, m) && d.def == c.def
    ensures exists e :: WaitsFor(d, m, e) && FellOrBlocked(d, e.from)
  {
    var e :| e in c.def.edges && e.to == m && e.condition.OnSuccess? && (StatusIn(d, e.from) == Failed || StatusIn(d, e.from) == Cancelled || StatusIn(d, e.from) == Blocked);
    assert WaitsFor(d, m, e) && FellOrBlocked(d, e.from);
  }

  /** It is the nodes and edges that count, and a node that is not blocked does not. */
  lemma RightMoves(c: Campaign, x: Campaign, n: NodeId, d: Campaign, e: Campaign)
    requires BlockedRight(x, d) && e.def == d.def && e.nodeStatus == d.nodeStatus
    requires n in c.nodeStatus && n in d.nodeStatus && d.nodeStatus[n] != Blocked && n in x.nodeStatus
    requires x.nodeStatus == c.nodeStatus[n := x.nodeStatus[n]]
    ensures BlockedRight(c, e)
  {
    forall m | m in e.nodeStatus && e.nodeStatus[m] == Blocked && m in c.nodeStatus && c.nodeStatus[m] != Blocked
      ensures exists edge :: WaitsFor(e, m, edge) && FellOrBlocked(e, edge.from)
    {
      assert x.nodeStatus[m] == c.nodeStatus[m];
      var edge :| WaitsFor(d, m, edge) && FellOrBlocked(d, edge.from);
      assert WaitsFor(e, m, edge) && FellOrBlocked(e, edge.from);
    }
    forall edge: Edge | WaitsFor(e, edge.to, edge) && edge.to in e.nodeStatus && FellOrBlocked(e, edge.from)
      ensures e.nodeStatus[edge.to] != Pending && e.nodeStatus[edge.to] != NodeStatus.Ready
    {
      assert WaitsFor(d, edge.to, edge) && FellOrBlocked(d, edge.from);
    }
  }

  /** Only nodes that have not started are blocked. */
  ghost predicate FailsAlone(c: Campaign, d: Campaign, n: NodeId) {
    d == c.(nodeStatus := d.nodeStatus) && d.nodeStatus.Keys == c.nodeStatus.Keys && BlockedRight(c, d) &&
    forall m :: m in c.nodeStatus && m != n ==>
      d.nodeStatus[m] == c.nodeStatus[m] || ((c.nodeStatus[m] == Pending || c.nodeStatus[m] == NodeStatus.Ready) && d.nodeStatus[m] == Blocked)
  }

  /** `n` has ended in `d` as `o` says, and its failure met the policy of the definition. */
  ghost predicate EndsAs(c: Campaign, d: Campaign, n: NodeId, o: Outcome) {
    d.def == c.def && d.nodeAttempt == c.nodeAttempt && d.nodeStatus.Keys == c.nodeStatus.Keys && n in d.nodeStatus && d.nodeStatus[n] == EndFor(o) &&
    if o == OCompleted then d == c.(nodeStatus := c.nodeStatus[n := Completed])
    else
      match c.def.policy
      case FailFast => FailsFast(c, d, n)
      case HumanGateOnFailure => FailsGated(c, d, n, o)
      case ContinueIndependent => FailsAlone(c, d, n)
  }

  lemma EndNodeIs(w: World, n: NodeId, o: Outcome, engine: Engine)
    requires Defined(w.camp) && n in w.camp.nodeStatus
    ensures EndsAs(w.camp, EndNode(w, n, o, engine).camp, n, o)
  {
    hide WellFormed, FailFastAll, CancelNonTerminal, ApplyBlocking, GateFailure, FailsFast, FailsGated, FailsAlone;
    EndedNodes(w, n, o, engine);
    if o != OCompleted {
      var c := SetNode(w.camp, n, o.AsNodeStatus());
      match w.camp.def.policy {
        case FailFast =>
          FailFastCamp(Persist(w.(camp := c)), engine);
          EndsFast(w.camp, n, o);
        case ContinueIndependent => EndsAlone(w.camp, n, o);
        case HumanGateOnFailure => EndsGated(w.camp, n, o);
      }
    }
  }

  lemma EndsFast(c: Campaign, n: NodeId, o: Outcome)
    requires n in c.nodeStatus && o != OCompleted
    ensures var d := CancelNonTerminal(SetNode(c, n, o.AsNodeStatus())).(failFastTripped := true);
            FailsFast(c, d, n) && d.def == c.def && d.nodeAttempt == c.nodeAttempt
  {
  }

  lemma BlockingMoves(x: Campaign)
    requires Defined(x)
    ensures var d := ApplyBlocking(x);
            d == x.(nodeStatus := d.nodeStatus) && d.nodeStatus.Keys == x.nodeStatus.Keys &&
            forall m :: m in x.nodeStatus ==>
              d.nodeStatus[m] == x.nodeStatus[m] || ((x.nodeStatus[m] == Pending || x.nodeStatus[m] == NodeStatus.Ready) && d.nodeStatus[m] == Blocked)
  {
    hide BlockedIn, WellFormed;
    BlockedAreUnstarted(x);
  }

  lemma EndsAlone(c: Campaign, n: NodeId, o: Outcome)
    requires Defined(c) && n in c.nodeStatus && o != OCompleted
    ensures var d := ApplyBlocking(SetNode(c, n, o.AsNodeStatus())); FailsAlone(c, d, n) && d.def == c.def && d.nodeAttempt == c.nodeAttempt
  {
    var x := SetNode(c, n, o.AsNodeStatus());
    BlockingMoves(x);
    BlockingRight(x);
    hide ApplyBlocking, WellFormed, BlockedRight;
    RightMoves(c, x, n, ApplyBlocking(x), ApplyBlocking(x));
  }

  lemma EndsGated(c: Campaign, n: NodeId, o: Outcome)
    requires n in c.nodeStatus && o != OCompleted
    ensures var d := GateFailure(SetNode(c, n, o.AsNodeStatus()), n); FailsGated(c, d, n, o) && d.def == c.def && d.nodeAttempt == c.nodeAttempt
  {
    GateQueue(SetNode(c, n, o.AsNodeStatus()), n);
    hide Enqueue, Rising;
  }

  ghost predicate EndedAndFilled(c: Campaign, d: Campaign, n: NodeId, o: Outcome) {
    exists x :: EndsAs(c, x, n, o) && FreedAndFilled(x, d)
  }

  /** A session that ended tells its node's end: the node ends exactly as the delivered outcome says, what the end frees
      is made ready and filled; nothing that was over moves. A failure at a gate pauses a running campaign. */
  lemma FinishedEnds(w: World, r: RunId, o: Outcome, engine: Engine)
    requires Rest(false, false, w) && w.disk.saved.Some? && Finished(r, o) in w.inbox
    requires var c := w.disk.saved.value; !Ended(c.status) && r.node in c.nodeStatus && c.nodeStatus[r.node].Live() && c.nodeRunId[r.node] == r
    ensures var c, s := w.disk.saved.value, Step(w, Does(Deliver(Finished(r, o))), engine).disk.saved;
            s.Some? && EndedAndFilled(c, s.value, r.node, o)
  {
    hide Rest, WellFormed, EndNode, PromoteAndFill, EndsAs, FreedAndFilled, Step;
    FoundLive(w, r);
    FinishedIs(w, r, o, engine);
    var v := Load(Taken(w, Finished(r, o)));
    EndNodeIs(v, r.node, o, engine);
    PromotedIs(EndNode(v, r.node, o, engine), engine);
  }

  ghost predicate EndsRightly(c: Campaign, d: Campaign, n: NodeId, o: Outcome) {
    n in d.nodeStatus && d.nodeStatus[n] == EndFor(o) &&
    (forall m :: m in c.nodeStatus && Over(c.nodeStatus[m]) ==> m in d.nodeStatus && d.nodeStatus[m] == c.nodeStatus[m]) &&
    (o == OCompleted ==> forall m :: Free(SetNode(c, n, Completed), m) ==> m in d.nodeStatus && d.nodeStatus[m] != Pending) &&
    (o != OCompleted && c.def.policy.HumanGateOnFailure? && c.status == CRunning ==> d.status == CPaused && n in d.gates)
  }

  /** What a reader sees of it: the node's end is the outcome; a node whose last dependency it was is not pending any
      more; a failure under the gate policy is queued, and a campaign that ran is paused. */
  lemma FinishedReads(w: World, r: RunId, o: Outcome, engine: Engine)
    requires Rest(false, false, w) && w.disk.saved.Some? && Finished(r, o) in w.inbox
    requires var c := w.disk.saved.value; !Ended(c.status) && r.node in c.nodeStatus && c.nodeStatus[r.node].Live() && c.nodeRunId[r.node] == r
    ensures var s := Step(w, Does(Deliver(Finished(r, o))), engine).disk.saved;
            s.Some? && EndsRightly(w.disk.saved.value, s.value, r.node, o)
  {
    hide *;
    FinishedEnds(w, r, o, engine);
    LiveIsNotOver(w.disk.saved.value.nodeStatus[r.node]);
    EndedReads(w.disk.saved.value, Step(w, Does(Deliver(Finished(r, o))), engine).disk.saved.value, r.node, o);
  }

  lemma LiveIsNotOver(s: NodeStatus)
    requires s.Live()
    ensures !Over(s)
  {
  }

  lemma EndedReads(c: Campaign, d: Campaign, n: NodeId, o: Outcome)
    requires EndedAndFilled(c, d, n, o) && n in c.nodeStatus && !Over(c.nodeStatus[n])
    ensures EndsRightly(c, d, n, o)
  {
    hide FreedAndFilled, EndsAs, EndsRightly;
    var x :| EndsAs(c, x, n, o) && FreedAndFilled(x, d);
    EndReads(c, x, d, n, o);
  }

  lemma EndReads(c: Campaign, x: Campaign, d: Campaign, n: NodeId, o: Outcome)
    requires EndsAs(c, x, n, o) && FreedAndFilled(x, d) && n in c.nodeStatus && !Over(c.nodeStatus[n])
    ensures EndsRightly(c, d, n, o)
  {
    FreedReads(x, d);
    hide Free, FreedAndFilled;
    EndKeeps(c, x, n, o);
    if o == OCompleted {
      assert x == SetNode(c, n, Completed);
      forall m | Free(x, m) ensures m in d.nodeStatus && d.nodeStatus[m] != Pending {
        FreePending(x, m);
      }
    }
  }

  lemma EndKeeps(c: Campaign, x: Campaign, n: NodeId, o: Outcome)
    requires EndsAs(c, x, n, o) && n in c.nodeStatus && !Over(c.nodeStatus[n])
    ensures forall m :: m in c.nodeStatus && Over(c.nodeStatus[m]) ==> m in x.nodeStatus && x.nodeStatus[m] == c.nodeStatus[m]
    ensures o != OCompleted && c.def.policy.HumanGateOnFailure? && c.status == CRunning ==> x.status == CPaused && n in x.gates
  {
  }

  // ── gates ───────────────────────────────────────────────────────────────────

  /** A run that awaits a human puts its node at its gate, and gives its slot to another. */
  lemma AwaitingWaits(w: World, r: RunId, engine: Engine)
    requires Rest(false, false, w) && w.disk.saved.Some? && Awaiting(r) in w.inbox
    requires var c := w.disk.saved.value; !Ended(c.status) && r.node in c.nodeStatus && c.nodeStatus[r.node] == Running && c.nodeRunId[r.node] == r
    ensures var c, s := w.disk.saved.value, Step(w, Does(Deliver(Awaiting(r))), engine).disk.saved;
            s.Some? && Filled(SetNode(c, r.node, AwaitingHuman), s.value)
  {
    hide WellFormed, FillAndFinalize, AutoReject, Filled, FindByRun;
    FoundLive(w, r);
    var v := Load(Taken(w, Awaiting(r)));
    var x := AutoReject(Persist(SetNodeW(v, r.node, AwaitingHuman)), r, engine);
    AwaitingIs(w, r, engine);
    FilledIs(x, engine);
  }

  lemma AwaitingIs(w: World, r: RunId, engine: Engine)
    requires Rest(false, false, w) && w.disk.saved.Some? && Awaiting(r) in w.inbox && Defined(w.disk.saved.value)
    requires FindByRun(w.disk.saved.value, r) == Some(r.node) && StatusIn(w.disk.saved.value, r.node) == Running && r.node in w.disk.saved.value.nodeStatus
    ensures var x := AutoReject(Persist(SetNodeW(Load(Taken(w, Awaiting(r))), r.node, AwaitingHuman)), r, engine);
            Defined(x.camp) && Step(w, Does(Deliver(Awaiting(r))), engine) == Fresh(FillAndFinalize(x, engine))
  {
    hide Rest, WellFormed, FillAndFinalize, FindByRun, AutoReject;
  }

  /** The gate of an escalation is denied if and only if the definition says so: the engine is asked once, whether it
      is one, and takes the denial if the session awaits a human. */
  lemma DeniedIff(w: World, r: RunId, engine: Engine)
    ensures var u := AutoReject(w, r, engine);
            var denies := w.camp.def.autoReject && engine(w.calls).escalated && r in w.disk.sessions && w.disk.sessions[r] == SAwaitingHuman;
            u.answers == (if denies then w.answers + [(r, Reject)] else w.answers) &&
            u.calls == w.calls + (if w.camp.def.autoReject then 1 else 0) + (if denies then 1 else 0)
  {
  }

  /** An approval moves its node from the gate to the queue for a slot, and fills. */
  lemma ApprovedFills(w: World, n: NodeId, amend: Option<string>, engine: Engine)
    requires Rest(false, false, w) && w.disk.saved.Some? && n in w.disk.saved.value.nodeStatus
    ensures var c, u := w.disk.saved.value, Step(w, Does(Order(ApproveGate(n, amend))), engine);
            if c.nodeStatus[n] != AwaitingHuman then u == w
            else u.disk.saved.Some? && Filled(c.(nodeStatus := c.nodeStatus[n := ReadyToResume], decisions := c.decisions[n := amend]), u.disk.saved.value)
  {
    SavedDefined(false, false, w);
    RestIsFresh(w);
    ApproveStepIs(w, n, amend, engine);
    hide Rest, WellFormed, FillAndFinalize, Filled, Step;
    var c := w.disk.saved.value;
    if c.nodeStatus[n] == AwaitingHuman {
      FilledIs(Persist(Load(w).(camp := SetNode(c, n, ReadyToResume).(decisions := c.decisions[n := amend]))), engine);
    }
  }

  lemma ApproveStepIs(w: World, n: NodeId, amend: Option<string>, engine: Engine)
    requires Rest(false, false, w) && w.disk.saved.Some? && Defined(w.disk.saved.value)
    ensures Step(w, Does(Order(ApproveGate(n, amend))), engine) == Fresh(Approved(w, n, amend, engine).0)
  {
    hide Rest, WellFormed, Approved, Step;
    OrderStep(w, ApproveGate(n, amend), engine);
  }

  lemma RestIsFresh(w: World)
    requires Rest(false, false, w)
    ensures Fresh(w) == w
  {
  }

  /** A failed node at its gate is tried again: one attempt more, out of the queue; the campaign runs again once no gate
      is left, and only then is anything filled. */
  lemma RetryFills(w: World, n: NodeId, engine: Engine)
    requires Rest(false, false, w) && w.disk.saved.Some?
    ensures var c, u := w.disk.saved.value, Step(w, Does(Order(Retry(n))), engine);
            if n !in c.gates || n !in c.nodeStatus then u == w
            else u.disk.saved.Some? && exists x :: RetriedTo(c, x, n) && Filled(x, u.disk.saved.value)
  {
    SavedDefined(false, false, w);
    RestIsFresh(w);
    RetryStepIs(w, n, engine);
    hide Rest, WellFormed, FillAndFinalize, Filled, LeftQueue, Step, Retried, RetriedTo;
    var c := w.disk.saved.value;
    if Gated(c, n) {
      RetriedIs(c, n);
      RetryNodeIs(w, n, engine);
      FilledIs(Persist(Load(w).(camp := Retried(c, n))), engine);
    }
  }

  lemma RetriedIs(c: Campaign, n: NodeId)
    requires Gated(c, n)
    ensures RetriedTo(c, Retried(c, n), n)
  {
    DequeueLeaves(c.gates, n);
    hide LeftQueue;
  }

  lemma RetryStepIs(w: World, n: NodeId, engine: Engine)
    requires Rest(false, false, w) && w.disk.saved.Some? && Defined(w.disk.saved.value)
    ensures Step(w, Does(Order(Retry(n))), engine) == Fresh(RetryNode(w, n, engine).0)
  {
    hide Rest, WellFormed, RetryNode, Step;
    OrderStep(w, Retry(n), engine);
  }

  lemma RetryNodeIs(w: World, n: NodeId, engine: Engine)
    requires w.disk.saved.Some? && Defined(w.disk.saved.value) && Gated(w.disk.saved.value, n)
    ensures Defined(Retried(w.disk.saved.value, n))
    ensures RetryNode(w, n, engine).0 == FillAndFinalize(Persist(Load(w).(camp := Retried(w.disk.saved.value, n))), engine)
  {
    GateEditsDefined(w.disk.saved.value, n);
    hide WellFormed, FillAndFinalize, Retried;
  }

  ghost predicate RetriedTo(c: Campaign, x: Campaign, n: NodeId) {
    LeftQueue(c.gates, n, x.gates) &&
    x == c.(nodeStatus := c.nodeStatus[n := NodeStatus.Ready], nodeAttempt := c.nodeAttempt[n := AttemptOf(c, n) + 1],
            gates := x.gates, status := if x.gates == [] then CRunning else c.status)
  }

  /** `q` is the queue without `n`, the others in their order. */
  ghost predicate LeftQueue(gates: seq<NodeId>, n: NodeId, q: seq<NodeId>) {
    (forall m :: m in q <==> m in gates && m != n) && exists k :: TakenOut(gates, n, q, k)
  }

  /** The first `n` is at `k`; if it is the only one, it alone is taken out. */
  predicate TakenOut(gates: seq<NodeId>, n: NodeId, q: seq<NodeId>, k: int) {
    0 <= k < |gates| && gates[k] == n && n !in gates[..k] && (n !in gates[k + 1..] ==> q == gates[..k] + gates[k + 1..])
  }

  lemma DequeueLeaves(gates: seq<NodeId>, n: NodeId)
    requires n in gates
    ensures LeftQueue(gates, n, Dequeue(gates, n))
  {
    var k := DequeuedAt(gates, n);
    assert TakenOut(gates, n, Dequeue(gates, n), k);
  }

  lemma {:induction false} DequeuedAt(gates: seq<NodeId>, n: NodeId) returns (k: int)
    requires n in gates
    ensures TakenOut(gates, n, Dequeue(gates, n), k)
    decreases |gates|
  {
    var rest := gates[1..];
    if gates[0] == n {
      k := 0;
      assert gates[..0] == [] && gates[0 + 1..] == rest;
      if n !in rest {
        DequeueNone(rest, n);
        assert Dequeue(gates, n) == [] + rest;
      }
    } else {
      var j := DequeuedAt(rest, n);
      k := j + 1;
      assert gates[..k] == [gates[0]] + rest[..j] && gates[k + 1..] == rest[j + 1..];
      assert Dequeue(gates, n) == [gates[0]] + Dequeue(rest, n);
    }
  }

  lemma {:induction false} DequeueNone(gates: seq<NodeId>, n: NodeId)
    requires n !in gates
    ensures Dequeue(gates, n) == gates
    decreases |gates|
  {
    if gates != [] {
      DequeueNone(gates[1..], n);
      assert gates == [gates[0]] + gates[1..];
    }
  }

  /** A skipped failure stands: the node is failed, out of the queue, and only nodes that had not started are blocked;
      the campaign runs again once no gate is left; what is free is made ready. */
  ghost predicate SkippedTo(c: Campaign, x: Campaign, n: NodeId) {
    x == c.(nodeStatus := x.nodeStatus, gates := x.gates, status := x.status) && LeftQueue(c.gates, n, x.gates) &&
    x.status == (if x.gates == [] then CRunning else c.status) && x.nodeStatus.Keys == c.nodeStatus.Keys &&
    n in x.nodeStatus && x.nodeStatus[n] == Failed && BlockedRight(c, x) &&
    forall m :: m in c.nodeStatus && m != n ==>
      x.nodeStatus[m] == c.nodeStatus[m] || ((c.nodeStatus[m] == Pending || c.nodeStatus[m] == NodeStatus.Ready) && x.nodeStatus[m] == Blocked)
  }

  lemma SkipFills(w: World, n: NodeId, engine: Engine)
    requires Rest(false, false, w) && w.disk.saved.Some?
    ensures var c, u := w.disk.saved.value, Step(w, Does(Order(Skip(n))), engine);
            if n !in c.gates || n !in c.nodeStatus then u == w
            else u.disk.saved.Some? && exists x :: SkippedTo(c, x, n) && FreedAndFilled(x, u.disk.saved.value)
  {
    SavedDefined(false, false, w);
    RestIsFresh(w);
    SkipStepIs(w, n, engine);
    hide Rest, WellFormed, FillAndFinalize, FreedAndFilled, LeftQueue, Skipped, SkippedTo, Step, PromoteReady;
    var c := w.disk.saved.value;
    if Gated(c, n) {
      SkippedIs(c, n);
      SkipNodeIs(w, n, engine);
    }
  }

  lemma SkipStepIs(w: World, n: NodeId, engine: Engine)
    requires Rest(false, false, w) && w.disk.saved.Some? && Defined(w.disk.saved.value)
    ensures Step(w, Does(Order(Skip(n))), engine) == Fresh(SkipNode(w, n, engine).0)
  {
    hide Rest, WellFormed, SkipNode, Step;
    OrderStep(w, Skip(n), engine);
  }

  lemma SkipNodeIs(w: World, n: NodeId, engine: Engine)
    requires w.disk.saved.Some? && Defined(w.disk.saved.value) && Gated(w.disk.saved.value, n)
    ensures var u := SkipNode(w, n, engine).0; u.disk.saved.Some? && FreedAndFilled(Skipped(w.disk.saved.value, n), u.disk.saved.value)
  {
    var c := w.disk.saved.value;
    GateEditsDefined(c, n);
    hide WellFormed, FillAndFinalize, Skipped, PromoteReady, Freed, Filled;
    PromoteDefined(Skipped(c, n));
    PromoteFrees(Skipped(c, n));
    var v := Persist(Load(w).(camp := Skipped(c, n)));
    FilledIs(v.(camp := PromoteReady(v.camp)), engine);
  }

  lemma SkippedIs(c: Campaign, n: NodeId)
    requires Defined(c) && Gated(c, n)
    ensures SkippedTo(c, Skipped(c, n), n)
  {
    var x := SetNode(c, n, Failed).(gates := Dequeue(c.gates, n));
    DequeueLeaves(c.gates, n);
    BlockingMoves(x);
    BlockingRight(x);
    hide WellFormed, ApplyBlocking, LeftQueue, Dequeue, BlockedRight;
    RightMoves(c, x, n, ApplyBlocking(x), Skipped(c, n));
  }

  /** An abort ends every node that was not over and finalizes: the campaign has failed, as the aborted node did not
      complete. The other gates stay queued. */
  lemma AbortEnds(w: World, n: NodeId, engine: Engine)
    requires Rest(false, false, w) && w.disk.saved.Some?
    ensures var c, u := w.disk.saved.value, Step(w, Does(Order(Abort(n))), engine);
            if n !in c.gates || n !in c.nodeStatus then u == w
            else u.disk.saved.Some? && u.disk.saved.value.status == CFailed && u.disk.saved.value.failFastTripped &&
                 LeftQueue(c.gates, n, u.disk.saved.value.gates) && AllEnded(c, u.disk.saved.value)
  {
    RestIsFresh(w);
    hide Rest, WellFormed, FailFastAll, LeftQueue, AllEnded, Reopened;
    var c := w.disk.saved.value;
    if Gated(c, n) {
      AbortCloses(w, n, engine);
      DequeueLeaves(c.gates, n);
      GatedFell(w, n);
      AbortStepIs(w, n, engine);
      var x := Load(w).(camp := Reopened(c, n));
      FailFastCamp(x, engine);
      AbortNamed(c, n);
    } else {
      assert Step(w, Does(Order(Abort(n))), engine) == Fresh(w);
    }
  }

  lemma AbortNamed(c: Campaign, n: NodeId)
    requires Defined(c) && Gated(c, n) && Fallen(c, n)
    ensures var d := FinalizeIfDone(CancelNonTerminal(Reopened(c, n)).(failFastTripped := true));
            d.status == CFailed && d.failFastTripped && d.gates == Dequeue(c.gates, n)
  {
    hide WellFormed, Dispatchable;
    var x := CancelNonTerminal(Reopened(c, n)).(failFastTripped := true);
    assert Defined(x);
    DispatchableKnown(x);
    assert Startable(x) == {};
    assert x.nodeStatus[n] == c.nodeStatus[n];
  }

  /** What the session of `r` is after the engine was asked to deny it. */
  function AfterDenial(w: World, r: RunId, engine: Engine): SessionStatus
    requires r in w.disk.sessions
  {
    if w.disk.sessions[r] == SAwaitingHuman && engine(w.calls).writes then engine(w.calls).status else w.disk.sessions[r]
  }

  predicate DenialTaken(w: World, r: RunId, engine: Engine) {
    r in w.disk.sessions && w.disk.sessions[r] == SAwaitingHuman && engine(w.calls).ok
  }

  /** The calls made before the run is cancelled. */
  function CallsBefore(w: World, r: RunId): nat {
    w.calls + if r in w.disk.sessions && w.disk.sessions[r] == SAwaitingHuman then 1 else 0
  }

  /** The end a refused rejection gives its node at once: that of its run, if it is over; a failure, if there is no session,
      or if it cannot be cancelled either. */
  function DenialEnds(w: World, r: RunId, engine: Engine): Option<Outcome> {
    if DenialTaken(w, r, engine) then None
    else if r !in w.disk.sessions then Some(OFailed)
    else
      match AfterDenial(w, r, engine)
      case SCompleted => Some(OCompleted)
      case SFailed => Some(OFailed)
      case SCancelled => Some(OCancelled)
      case _ => if engine(CallsBefore(w, r)).ok then None else Some(OFailed)
  }

  /** The session of `r` once the denial was asked for. */
  lemma Denied(v: World, r: RunId, engine: Engine)
    ensures var (a, ok) := ConfirmRun(v, r, Reject, engine);
            ok == DenialTaken(v, r, engine) && a.calls == CallsBefore(v, r) && (r in a.disk.sessions <==> r in v.disk.sessions) &&
            (r in v.disk.sessions && r in a.disk.sessions ==> a.disk.sessions[r] == AfterDenial(v, r, engine)) &&
            (ok ==> a.answers == v.answers + [(r, Reject)]) && a.camp == v.camp
  {
    hide CampaignSeam.OnlyRun;
    CampaignSeam.ConfirmSays(v, r, Reject, engine);
    hide ConfirmRun;
  }

  /** ... and once it was cancelled. */
  lemma CancelTries(u: World, r: RunId, engine: Engine)
    requires r in u.disk.sessions && !u.disk.sessions[r].Terminal()
    ensures var (b, done) := CancelRun(u, r, engine);
            done == engine(u.calls).ok && b.calls == u.calls + 1 && b.inFlight == u.inFlight &&
            (done ==> r in b.disk.sessions && b.disk.sessions[r] == SCancelled)
  {
  }

  lemma DenialAgrees(w: World, n: NodeId, engine: Engine)
    requires w.disk.saved.Some? && StatusIn(w.disk.saved.value, n) == AwaitingHuman && n in w.disk.saved.value.nodeRunId
    ensures RejectOutcome(w, n, engine) == DenialEnds(w, w.disk.saved.value.nodeRunId[n], engine)
  {
    hide ConfirmRun, CancelRun, DenialTaken, CallsBefore;
    var v := Load(w);
    var r := v.camp.nodeRunId[n];
    Denied(v, r, engine);
    LoadDenies(w, r, engine);
    var (a, ok) := ConfirmRun(v, r, Reject, engine);
    if !ok && r in a.disk.sessions && !a.disk.sessions[r].Terminal() {
      CancelTries(a.(inFlight := a.inFlight - {r}), r, engine);
    }
  }

  lemma LoadDenies(w: World, r: RunId, engine: Engine)
    requires w.disk.saved.Some?
    ensures DenialTaken(Load(w), r, engine) == DenialTaken(w, r, engine) && CallsBefore(Load(w), r) == CallsBefore(w, r)
    ensures r in w.disk.sessions ==> AfterDenial(Load(w), r, engine) == AfterDenial(w, r, engine)
  {
  }

  /** A rejection. If the session waits and the engine takes the denial, that is all: the end of the run will tell the
      node's. If it does not, and the run is over, or has no session, the node ends as it did, or failed. If the run is not
      over, it is cancelled, and its end will tell the node's, unless the engine refuses that too: then the node failed. */
  lemma RejectEnds(w: World, n: NodeId, engine: Engine)
    requires Rest(false, false, w) && w.disk.saved.Some?
    requires var c := w.disk.saved.value; n in c.nodeStatus && c.nodeStatus[n] == AwaitingHuman && n in c.nodeRunId
    ensures var c, u := w.disk.saved.value, Step(w, Does(Order(RejectGate(n))), engine);
            var end := DenialEnds(w, c.nodeRunId[n], engine);
            if end.Some? then u.disk.saved.Some? && EndedAndFilled(c, u.disk.saved.value, n, end.value) else u.disk.saved == w.disk.saved
  {
    SavedDefined(false, false, w);
    RejectStepIs(w, n, engine);
    DenialAgrees(w, n, engine);
    hide Rest, Step, DenialEnds, Rejected, EndedAndFilled, WellFormed, RejectOutcome;
    RejectedEnds(w, n, engine);
  }

  lemma RejectedEnds(w: World, n: NodeId, engine: Engine)
    requires Rest(false, false, w) && w.disk.saved.Some? && Defined(w.disk.saved.value)
    requires var c := w.disk.saved.value; n in c.nodeStatus && c.nodeStatus[n] == AwaitingHuman && n in c.nodeRunId
    ensures var c, u := w.disk.saved.value, Rejected(w, n, engine).0;
            var end := RejectOutcome(w, n, engine);
            if end.Some? then u.disk.saved.Some? && EndedAndFilled(c, u.disk.saved.value, n, end.value) else u.disk.saved == w.disk.saved
  {
    hide *;
    RejectFills(w, n, engine);
    FillsReject(w, n, engine);
    RejectHandled(w, n, engine);
    if RejectOutcome(w, n, engine).Some? {
      var x := RefusedWorld(w, n, engine);
      var o := RejectOutcome(w, n, engine).value;
      RejectReconciles(x, n, o, engine);
      PromoteFills(ReconcileTerminal(x, n, o, engine), engine);
    }
  }

  lemma FillsReject(w: World, n: NodeId, engine: Engine)
    requires w.disk.saved.Some? && Defined(w.disk.saved.value) && n in w.disk.saved.value.nodeRunId
    ensures Defined(RefusedWorld(w, n, engine).camp) && HasCampaign(w) && FillsFrom(w, RejectGate(n), engine) == RejectFillsFrom(w, n, engine)
    ensures var end := RejectOutcome(w, n, engine);
            RejectFillsFrom(w, n, engine) == if end.Some? then Some(Promoted(ReconcileTerminal(RefusedWorld(w, n, engine), n, end.value, engine))) else None
  {
    hide ConfirmRun, CancelRun, RejectOutcome, WellFormed, ReconcileTerminal, Promoted;
  }

  lemma RejectHandled(w: World, n: NodeId, engine: Engine)
    requires HasCampaign(w) && Defined(w.disk.saved.value)
    ensures Handle(w, RejectGate(n), engine) == Rejected(w, n, engine)
  {
    hide Rejected, WellFormed;
  }

  lemma PromoteFills(x: World, engine: Engine)
    requires Defined(x.camp)
    ensures FillAndFinalize(Promoted(x), engine) == PromoteAndFill(x, engine)
  {
    hide FillAndFinalize, PromoteReady, WellFormed;
  }

  /** The world in which a refused rejection reconciles its node. */
  function RefusedWorld(w: World, n: NodeId, engine: Engine): (x: World)
    requires w.disk.saved.Some? && n in w.disk.saved.value.nodeRunId
    ensures x.camp == w.disk.saved.value
  {
    var r := w.disk.saved.value.nodeRunId[n];
    var a := ConfirmRun(Load(w), r, Reject, engine).0;
    var u := a.(inFlight := a.inFlight - {r});
    if EndedOutcome(a.disk, r).Some? then u else CancelRun(u, r, engine).0
  }

  lemma RejectReconciles(x: World, n: NodeId, o: Outcome, engine: Engine)
    requires Defined(x.camp) && n in x.camp.nodeStatus && x.camp.nodeStatus[n] == AwaitingHuman
    ensures var u := PromoteAndFill(ReconcileTerminal(x, n, o, engine), engine);
            u.disk.saved.Some? && EndedAndFilled(x.camp, u.disk.saved.value, n, o)
  {
    hide WellFormed, EndNode, PromoteAndFill, EndsAs, FreedAndFilled;
    EndNodeIs(x, n, o, engine);
    PromotedIs(EndNode(x, n, o, engine), engine);
  }

  lemma RejectStepIs(w: World, n: NodeId, engine: Engine)
    requires Rest(false, false, w) && w.disk.saved.Some? && Defined(w.disk.saved.value)
    ensures Step(w, Does(Order(RejectGate(n))), engine) == Fresh(Rejected(w, n, engine).0)
  {
    hide Rest, WellFormed, Rejected, Step;
    OrderStep(w, RejectGate(n), engine);
  }

  /** What a rejection that ends no node at once does: the engine took the denial, by one call, or the run was cancelled
      after the denial was refused, and is out of flight. */
  lemma RejectTakes(w: World, n: NodeId, engine: Engine)
    requires Rest(false, false, w) && w.disk.saved.Some?
    requires var c := w.disk.saved.value; n in c.nodeStatus && c.nodeStatus[n] == AwaitingHuman && n in c.nodeRunId
    requires DenialEnds(w, w.disk.saved.value.nodeRunId[n], engine).None?
    ensures var r, u := w.disk.saved.value.nodeRunId[n], Step(w, Does(Order(RejectGate(n))), engine);
            if DenialTaken(w, r, engine) then u.answers == w.answers + [(r, Reject)] && u.calls == w.calls + 1
            else r in u.disk.sessions && u.disk.sessions[r] == SCancelled && r !in u.inFlight && u.calls == CallsBefore(w, r) + 1
  {
    SavedDefined(false, false, w);
    RejectStepIs(w, n, engine);
    hide Rest, Step, DenialEnds, WellFormed;
    RejectedTakes(w, n, engine);
  }

  lemma RejectedTakes(w: World, n: NodeId, engine: Engine)
    requires w.disk.saved.Some? && Defined(w.disk.saved.value)
    requires var c := w.disk.saved.value; n in c.nodeStatus && c.nodeStatus[n] == AwaitingHuman && n in c.nodeRunId
    requires DenialEnds(w, w.disk.saved.value.nodeRunId[n], engine).None?
    ensures var r, u := w.disk.saved.value.nodeRunId[n], Rejected(w, n, engine).0;
            if DenialTaken(w, r, engine) then u.answers == w.answers + [(r, Reject)] && u.calls == w.calls + 1
            else r in u.disk.sessions && u.disk.sessions[r] == SCancelled && r !in u.inFlight && u.calls == CallsBefore(w, r) + 1
  {
    hide ConfirmRun, CancelRun, ReconcileRejected, WellFormed;
    var v := Load(w);
    var r := v.camp.nodeRunId[n];
    Denied(v, r, engine);
    LoadDenies(w, r, engine);
    var (a, ok) := ConfirmRun(v, r, Reject, engine);
    if !ok {
      CancelTries(a.(inFlight := a.inFlight - {r}), r, engine);
    }
  }

  // ── pause, resume, launch ───────────────────────────────────────────────────

  /** A pause changes the status of a running campaign and nothing else. */
  lemma PauseIs(w: World, engine: Engine)
    requires Rest(false, false, w) && w.disk.saved.Some?
    ensures var c, u := w.disk.saved.value, Step(w, Does(Order(Pause)), engine);
            if c.status == CRunning then
              u == w.(camp := c.(status := CPaused), disk := w.disk.(saved := Some(c.(status := CPaused))), log := u.log) && u.log == [u.disk]
            else u == w
  {
    RestIsFresh(w);
    hide Rest, WellFormed;
  }

  /** A launch is refused, and nothing happens, for a faulty definition and over a campaign that runs or is paused; any
      other starts the campaign over, its roots ready. */
  lemma LaunchIs(w: World, def: Def, engine: Engine)
    requires Rest(false, false, w)
    ensures var s, u := w.disk.saved, Step(w, Does(Order(Launch(def))), engine);
            if !WellFormed(def) || (s.Some? && (s.value.status == CRunning || s.value.status == CPaused)) then u == w
            else u.disk.saved.Some? && exists x :: NewCampaign(def, x) && FreedAndFilled(x, u.disk.saved.value)
  {
    RestIsFresh(w);
    hide Rest, WellFormed, PromoteAndFill, FreedAndFilled;
    hide NewCampaign, Step, FreshCampaign;
    LaunchStepIs(w, def, engine);
    if WellFormed(def) {
      FreshIs(def);
      PromotedIs(Persist(w.(camp := FreshCampaign(def))), engine);
    }
  }

  lemma LaunchStepIs(w: World, def: Def, engine: Engine)
    requires Rest(false, false, w)
    ensures var s, u := w.disk.saved, Step(w, Does(Order(Launch(def))), engine);
            if !WellFormed(def) || (s.Some? && (s.value.status == CRunning || s.value.status == CPaused)) then u == Fresh(w)
            else Defined(FreshCampaign(def)) && u == Fresh(PromoteAndFill(Persist(w.(camp := FreshCampaign(def))), engine))
  {
    hide Rest, WellFormed, PromoteAndFill;
    assert WellFormed(def) ==> FreshCampaign(def).nodeStatus.Keys == Ids(def.nodes);
  }

  lemma FreshIs(def: Def)
    requires WellFormed(def)
    ensures NewCampaign(def, FreshCampaign(def)) && Defined(FreshCampaign(def))
  {
    hide WellFormed;
    assert FreshCampaign(def).nodeStatus.Keys == Ids(def.nodes);
  }

  /** Every node pending, nothing recorded, running. */
  ghost predicate NewCampaign(def: Def, x: Campaign) {
    x.def == def && x.status == CRunning && (forall n :: n in x.nodeStatus <==> n in def.nodes) &&
    (forall n :: n in x.nodeStatus ==> x.nodeStatus[n] == Pending) &&
    x.nodeRunId == map[] && x.nodeAttempt == map[] && x.decisions == map[] && x.gates == [] && !x.failFastTripped
  }
}
