/** Launching over a campaign that has ended: when a run id gets a second session. */
module CampaignRelaunch {
  import opened Names
  import opened CampaignGraph
  import opened CampaignCycle
  import opened CampaignModel
  import opened CampaignHandlers
  import opened CampaignInvariants
  import opened CampaignSafety
  import opened CampaignSteps
  import opened CampaignKeeps
  import opened CampaignFindings
  import opened CampaignPromotion

  // ── launching over a campaign that has ended ────────────────────────────────

  /** What `HistoryOneSessionPerRun` asks of a launch, that no id of the definition has a session, for any
      node and any attempt, is what its invariant needs of a fresh campaign. */
  lemma LaunchInOrder(def: Def, sessions: Sessions)
    requires WellFormed(def)
    ensures OnceCamp(FreshCampaign(def), sessions) <==> Unused(def, sessions)
  {
    var c := FreshCampaign(def);
    assert forall n :: n in c.nodeStatus <==> n in def.nodes;
    assert forall n :: n in c.nodeStatus ==> Unstarted(c, n) && AttemptOf(c, n) == 0;
  }

  /** The nodes without a dependency. */
  ghost function Roots(def: Def): set<NodeId> {
    set n | n in def.nodes && forall e :: e in def.edges ==> e.to != n
  }

  lemma RootsFirst(def: Def)
    requires WellFormed(def)
    ensures var c := PromoteReady(FreshCampaign(def));
            Dispatchable(c) == Roots(def) && RunningNodes(c) == {} && forall n :: n in Roots(def) ==> n in c.nodeStatus && c.nodeStatus[n] == Ready
  {
    var c := FreshCampaign(def);
    PromotesTo(c);
    var d := PromoteReady(c);
    assert forall e :: !Satisfied(c.nodeStatus, e) && !Satisfied(d.nodeStatus, e);
    assert forall n :: n in def.nodes ==> (Eligible(def.edges, c.nodeStatus, n) <==> n in Roots(def));
    assert forall n :: n in def.nodes ==> (Eligible(def.edges, d.nodeStatus, n) <==> n in Roots(def));
  }

  lemma {:induction false} CancelMakesMore(w: World, runs: seq<(NodeId, RunId)>, engine: Engine)
    ensures w.disk.made <= CancelRuns(w, runs, engine).disk.made
    decreases |runs|
  {
    if runs != [] {
      var u := CancelRun(w, runs[0].1, engine).0;
      CancelMakesMore(u.(inFlight := u.inFlight - {runs[0].1}), runs[1..], engine);
    }
  }

  lemma EndMakesMore(w: World, n: NodeId, outcome: Outcome, engine: Engine)
    requires Defined(w.camp) && n in w.camp.nodeStatus
    ensures w.disk.made <= EndNode(w, n, outcome, engine).disk.made
  {
    var x := Persist(SetNodeW(w, n, outcome.AsNodeStatus()));
    CancelMakesMore(Persist(x.(camp := CancelNonTerminal(x.camp).(failFastTripped := true))), RunsOf(x.camp, LIVE), engine);
  }

  lemma {:induction false} FillMakesMore(w: World, engine: Engine)
    requires Defined(w.camp)
    ensures w.disk.made <= Fill(w, engine).disk.made
    decreases Startable(w.camp)
  {
    if |RunningNodes(w.camp)| < w.camp.def.cap && Dispatchable(w.camp) != {} {
      var n := Least(Dispatchable(w.camp));
      DispatchShrinks(w, n, engine);
      StartMakesMore(w, n, engine);
      var s := Start(w, n, engine).0;
      EndMakesMore(s, n, OFailed, engine);
      FillMakesMore(Dispatch(w, n, engine), engine);
    }
  }

  lemma StartMakesMore(w: World, n: NodeId, engine: Engine)
    ensures w.disk.made <= Start(w, n, engine).0.disk.made
  {
  }

  /** A fill whose first node is ready over an ended session makes a second session under the same id. */
  lemma FillRepeats(w: World, n: NodeId, engine: Engine)
    requires Defined(w.camp) && |RunningNodes(w.camp)| < w.camp.def.cap && Dispatchable(w.camp) != {} && n == Least(Dispatchable(w.camp))
    requires n in w.camp.nodeStatus && w.camp.nodeStatus[n] == Ready
    requires var r := DeriveRunId(w.camp, n); r in w.disk.sessions && w.disk.sessions[r].Terminal() && r in w.disk.made && r !in w.inFlight
    requires engine(w.calls).ok
    ensures Fill(w, engine).disk.made[DeriveRunId(w.camp, n)] >= 2
  {
    DispatchShrinks(w, n, engine);
    StartRepeats(w, n, engine);
    FillMakesMore(Dispatch(w, n, engine), engine);
  }

  lemma StartRepeats(w: World, n: NodeId, engine: Engine)
    requires n in w.camp.nodeStatus && w.camp.nodeStatus[n] == Ready && engine(w.calls).ok
    requires var r := DeriveRunId(w.camp, n); r in w.disk.sessions && w.disk.sessions[r].Terminal() && r in w.disk.made && r !in w.inFlight
    ensures Start(w, n, engine).1 && Start(w, n, engine).0.disk.made[DeriveRunId(w.camp, n)] >= 2
  {
  }

  /** Relaunching an ended campaign of the same id reuses its run ids: the first root gets a second
      session under the id of its first run. */
  lemma RelaunchRepeats(w: World, def: Def, n: NodeId, engine: Engine)
    requires WellFormed(def) && w.disk.saved.Some? && Ended(w.disk.saved.value.status)
    requires Roots(def) != {} && n == Least(Roots(def))
    requires var r := RunId(def.id, n, 0); r in w.disk.sessions && w.disk.sessions[r].Terminal() && r in w.disk.made && r !in w.inFlight
    requires engine(w.calls).ok
    ensures LaunchCampaign(w, def, engine).1 && LaunchCampaign(w, def, engine).0.disk.made[RunId(def.id, n, 0)] >= 2
  {
    var v := Persist(w.(camp := FreshCampaign(def)));
    PromoteDefined(v.camp);
    var u := Persist(v.(camp := PromoteReady(v.camp)));
    RootsFirst(def);
    FillRepeats(u, n, engine);
  }

  // ── the exact condition ─────────────────────────────────────────────────────

  /** Some run id got a second session. */
  ghost predicate Twice(d: Disk) {
    exists r :: d.made[r] > 1
  }

  /** The engine does not refuse to launch `r` out of hand. */
  predicate Idle(w: World, r: RunId) {
    r !in w.inFlight && (r in w.disk.sessions ==> w.disk.sessions[r].Terminal())
  }

  /** A launch of `r` would make another session under an id that has one. */
  predicate Again(w: World, r: RunId) {
    Idle(w, r) && r in w.disk.sessions
  }

  function FirstRun(def: Def, n: NodeId): RunId {
    RunId(def.id, n, 0)
  }

  ghost function RootsBefore(def: Def, n: NodeId): set<NodeId> {
    set m | m in Roots(def) && Less(m, n)
  }

  /** Some root's first run id has an ended session that nothing is busy with; under fail-fast, a root
      the first fill reaches: fewer than `cap` roots come before it and the engine refuses none of them. */
  ghost predicate Repeats(w: World, def: Def) {
    exists n :: n in Roots(def) && Again(w, FirstRun(def, n)) && (def.policy.FailFast? ==> Reached(w, def, n))
  }

  ghost predicate Reached(w: World, def: Def, n: NodeId) {
    |RootsBefore(def, n)| < def.cap && forall m :: m in RootsBefore(def, n) ==> Idle(w, FirstRun(def, m))
  }

  // ── one dispatch ────────────────────────────────────────────────────────────

  /** What a dispatch of `n` leaves of another run, unless fail-fast trips. */
  ghost predicate OtherRun(w: World, u: World, r: RunId) {
    (r in u.disk.sessions <==> r in w.disk.sessions) && (r in u.disk.sessions ==> u.disk.sessions[r] == w.disk.sessions[r]) &&
    (r in u.inFlight <==> r in w.inFlight) && u.disk.made[r] == w.disk.made[r]
  }

  lemma LaunchOther(v: World, r: RunId, engine: Engine)
    ensures var u := LaunchRun(v, r, engine).0; forall q :: q != r ==> OtherRun(v, u, q)
  {
  }

  lemma ConfirmOther(v: World, r: RunId, answer: GateAnswer, engine: Engine)
    ensures var u := ConfirmRun(v, r, answer, engine).0;
            u.disk.made == v.disk.made && u.disk.sessions.Keys == v.disk.sessions.Keys && forall q :: q != r ==> OtherRun(v, u, q)
  {
  }

  lemma StartOther(w: World, n: NodeId, engine: Engine)
    ensures var u := Start(w, n, engine).0;
            u.camp.nodeAttempt == w.camp.nodeAttempt && (forall r :: r != DeriveRunId(w.camp, n) ==> OtherRun(w, u, r)) &&
            (StatusIn(w.camp, n) != Ready ==> u.disk.made == w.disk.made && u.disk.sessions.Keys == w.disk.sessions.Keys)
  {
    hide LaunchRun, ConfirmRun, OtherRun;
    var r, v := DeriveRunId(w.camp, n), TakeSlot(w, n);
    var x := Persist(v.(camp := v.camp.(decisions := v.camp.decisions - {n})));
    var answer := if n in v.camp.decisions then Approve(v.camp.decisions[n]) else Approve(None);
    LaunchOther(v, r, engine);
    ConfirmOther(x, r, answer, engine);
    SameRuns(w, v, LaunchRun(v, r, engine).0);
    SameRuns(w, x, ConfirmRun(x, r, answer, engine).0);
  }

  lemma SameRuns(w: World, v: World, u: World)
    requires v.disk.sessions == w.disk.sessions && v.disk.made == w.disk.made && v.inFlight == w.inFlight
    ensures forall r :: OtherRun(v, u, r) ==> OtherRun(w, u, r)
  {
  }

  lemma StartMade(w: World, n: NodeId, engine: Engine)
    requires MadeOnce(w.disk) && (StatusIn(w.camp, n) == Ready ==> !Again(w, DeriveRunId(w.camp, n)))
    ensures MadeOnce(Start(w, n, engine).0.disk)
  {
    hide Start, OtherRun;
    StartOther(w, n, engine);
    if StatusIn(w.camp, n) == Ready {
      LaunchMade(w, n, engine);
    }
  }

  lemma LaunchMade(w: World, n: NodeId, engine: Engine)
    requires MadeOnce(w.disk) && StatusIn(w.camp, n) == Ready && !Again(w, DeriveRunId(w.camp, n))
    ensures MadeOnce(Start(w, n, engine).0.disk)
  {
  }

  lemma {:induction false} CancelMade(w: World, runs: seq<(NodeId, RunId)>, engine: Engine)
    ensures var u := CancelRuns(w, runs, engine); u.disk.made == w.disk.made && u.disk.sessions.Keys == w.disk.sessions.Keys
    decreases |runs|
  {
    if runs != [] {
      var u := CancelRun(w, runs[0].1, engine).0;
      CancelMade(u.(inFlight := u.inFlight - {runs[0].1}), runs[1..], engine);
    }
  }

  /** Ending a node makes no session; unless fail-fast trips, it touches no run at all. */
  lemma EndOther(w: World, n: NodeId, outcome: Outcome, engine: Engine)
    requires Defined(w.camp) && n in w.camp.nodeStatus
    ensures var u := EndNode(w, n, outcome, engine);
            u.camp.nodeAttempt == w.camp.nodeAttempt && u.disk.made == w.disk.made && u.disk.sessions.Keys == w.disk.sessions.Keys &&
            (!w.camp.def.policy.FailFast? ==> forall r :: OtherRun(w, u, r))
  {
    hide WellFormed, OtherRun, BlockedIn, ApplyBlocking, CancelRuns;
    var x := Persist(SetNodeW(w, n, outcome.AsNodeStatus()));
    CancelMade(Persist(x.(camp := CancelNonTerminal(x.camp).(failFastTripped := true))), RunsOf(x.camp, LIVE), engine);
    BlockingKeeps(x.camp);
    Untouched(w, EndNode(w, n, outcome, engine));
  }

  lemma BlockingKeeps(c: Campaign)
    ensures ApplyBlocking(c).nodeAttempt == c.nodeAttempt
  {
  }

  lemma Untouched(w: World, u: World)
    ensures u.disk.sessions == w.disk.sessions && u.disk.made == w.disk.made && u.inFlight == w.inFlight ==> forall r :: OtherRun(w, u, r)
  {
  }

  /** A dispatch of `n`: what it leaves of sessions and of the other runs. */
  lemma DispatchOther(w: World, n: NodeId, engine: Engine)
    requires Defined(w.camp) && n in w.camp.nodeStatus
    ensures var (s, ok) := Start(w, n, engine);
            var u := Dispatch(w, n, engine);
            u.camp.nodeAttempt == w.camp.nodeAttempt && u.disk.made == s.disk.made && u.disk.sessions.Keys == s.disk.sessions.Keys &&
            (ok || !w.camp.def.policy.FailFast? ==> forall r :: r != DeriveRunId(w.camp, n) ==> OtherRun(w, u, r))
  {
    hide EndNode, Start, WellFormed;
    StartOther(w, n, engine);
    var (s, ok) := Start(w, n, engine);
    if !ok {
      EndOther(s, n, OFailed, engine);
      forall r | !w.camp.def.policy.FailFast? && r != DeriveRunId(w.camp, n) ensures OtherRun(w, Dispatch(w, n, engine), r) {
        assert OtherRun(w, s, r) && OtherRun(s, Dispatch(w, n, engine), r);
      }
    }
  }

  lemma DispatchMade(w: World, n: NodeId, engine: Engine)
    requires Defined(w.camp) && n in w.camp.nodeStatus && MadeOnce(w.disk)
    requires StatusIn(w.camp, n) == Ready ==> !Again(w, DeriveRunId(w.camp, n))
    ensures MadeOnce(Dispatch(w, n, engine).disk)
  {
    hide Start, Dispatch, WellFormed, Again;
    StartMade(w, n, engine);
    DispatchOther(w, n, engine);
  }

  // ── no second session ───────────────────────────────────────────────────────

  predicate IsReady(c: Campaign, n: NodeId) {
    n in c.nodeStatus && c.nodeStatus[n] == Ready
  }

  /** No ready node would repeat a run. */
  ghost predicate NoneAgain(w: World) {
    forall n :: IsReady(w.camp, n) ==> !Again(w, DeriveRunId(w.camp, n))
  }

  lemma NoneAgainStep(w: World, n: NodeId, engine: Engine)
    requires Defined(w.camp) && n in w.camp.nodeStatus && NoneAgain(w) && MadeOnce(w.disk) && !w.camp.def.policy.FailFast?
    ensures NoneAgain(Dispatch(w, n, engine)) && MadeOnce(Dispatch(w, n, engine).disk)
  {
    hide Start, Dispatch, WellFormed;
    var u := Dispatch(w, n, engine);
    DispatchMade(w, n, engine);
    DispatchOther(w, n, engine);
    DispatchShape(w, n, engine);
    forall m | IsReady(u.camp, m) ensures !Again(u, DeriveRunId(u.camp, m)) {
      assert m != n && IsReady(w.camp, m);
      assert OtherRun(w, u, DeriveRunId(w.camp, m));
    }
  }

  lemma {:induction false} FillOnce(w: World, engine: Engine)
    requires Defined(w.camp) && NoneAgain(w) && MadeOnce(w.disk) && !w.camp.def.policy.FailFast?
    ensures MadeOnce(Fill(w, engine).disk)
    decreases Startable(w.camp)
  {
    hide Dispatch, WellFormed, NoneAgain, MadeOnce;
    if Fills(w.camp) {
      var n := Least(Dispatchable(w.camp));
      DispatchShrinks(w, n, engine);
      NoneAgainStep(w, n, engine);
      FillOnce(Dispatch(w, n, engine), engine);
    }
  }

  ghost function ReadyBefore(c: Campaign, n: NodeId): set<NodeId> {
    set m | m in c.nodeStatus && c.nodeStatus[m] == Ready && Less(m, n)
  }

  /** The nodes a fill may pick are the ready ones. */
  ghost predicate OnlyReady(c: Campaign) {
    forall n :: n in Dispatchable(c) <==> IsReady(c, n)
  }

  /** Under fail-fast: each ready node that would repeat a run lies beyond the cap, or behind a ready node
      whose launch the engine refuses. */
  ghost predicate NoneReached(w: World) {
    forall n :: IsReady(w.camp, n) && Again(w, DeriveRunId(w.camp, n)) ==> Behind(w, n)
  }

  ghost predicate Behind(w: World, n: NodeId) {
    |RunningNodes(w.camp)| + |ReadyBefore(w.camp, n)| >= w.camp.def.cap ||
    exists m :: m in ReadyBefore(w.camp, n) && !Idle(w, DeriveRunId(w.camp, m))
  }

  lemma PickIsFirst(c: Campaign, n: NodeId)
    requires OnlyReady(c) && Dispatchable(c) != {} && n == Least(Dispatchable(c))
    ensures IsReady(c, n) && ReadyBefore(c, n) == {} && forall m :: IsReady(c, m) && m != n ==> Less(n, m)
  {
    forall m | m in ReadyBefore(c, n) ensures false {
      assert IsReady(c, m) && m in Dispatchable(c);
      if m == n {
        LessIrreflexive(n);
      } else {
        LessTransitive(m, n, m);
        LessIrreflexive(m);
      }
    }
  }

  /** A ready node that is refused, or that the engine fails, ends everything; one that starts runs. */
  lemma RunningStep(c: Campaign, d: Campaign, n: NodeId)
    requires Defined(c) && OnlyReady(c) && IsReady(c, n) && d.def == c.def && d.nodeStatus == c.nodeStatus[n := Running]
    ensures OnlyReady(d) && RunningNodes(d) == RunningNodes(c) + {n} && n !in RunningNodes(c)
    ensures forall m :: ReadyBefore(d, m) == ReadyBefore(c, m) - {n}
  {
    assert forall e :: Satisfied(d.nodeStatus, e) <==> Satisfied(c.nodeStatus, e);
    forall m ensures m in Dispatchable(d) <==> IsReady(d, m) {
      assert m in Dispatchable(c) <==> IsReady(c, m);
      assert m != n ==> (Eligible(d.def.edges, d.nodeStatus, m) <==> Eligible(c.def.edges, c.nodeStatus, m));
    }
  }

  lemma StartedIdle(w: World, n: NodeId, engine: Engine)
    requires StatusIn(w.camp, n) == Ready && Start(w, n, engine).1
    ensures Idle(w, DeriveRunId(w.camp, n))
  {
  }

  /** With its start, a node moves from the ready ones before any other to the running ones. */
  lemma StillBehind(w: World, u: World, n: NodeId, m: NodeId)
    requires Behind(w, m) && n in ReadyBefore(w.camp, m) && Idle(w, DeriveRunId(w.camp, n)) && u.camp.def == w.camp.def
    requires u.camp.nodeAttempt == w.camp.nodeAttempt
    requires RunningNodes(u.camp) == RunningNodes(w.camp) + {n} && n !in RunningNodes(w.camp)
    requires ReadyBefore(u.camp, m) == ReadyBefore(w.camp, m) - {n}
    requires forall k :: k != n ==> OtherRun(w, u, DeriveRunId(w.camp, k))
    ensures Behind(u, m)
  {
    if k :| k in ReadyBefore(w.camp, m) && !Idle(w, DeriveRunId(w.camp, k)) {
      assert k in ReadyBefore(u.camp, m) && OtherRun(w, u, DeriveRunId(w.camp, k));
    }
  }

  lemma ReachStep(w: World, n: NodeId, engine: Engine)
    requires Defined(w.camp) && w.camp.def.policy.FailFast? && Fills(w.camp) && n == Least(Dispatchable(w.camp))
    requires OnlyReady(w.camp) && NoneReached(w) && MadeOnce(w.disk)
    ensures var u := Dispatch(w, n, engine);
            MadeOnce(u.disk) && if Start(w, n, engine).1 then OnlyReady(u.camp) && NoneReached(u) else Dispatchable(u.camp) == {}
  {
    hide Start, Dispatch, WellFormed, OnlyReady, OtherRun, Dispatchable, MadeOnce;
    PickIsFirst(w.camp, n);
    var u := Dispatch(w, n, engine);
    assert !Again(w, DeriveRunId(w.camp, n));
    DispatchMade(w, n, engine);
    DispatchShape(w, n, engine);
    if Start(w, n, engine).1 {
      DispatchOther(w, n, engine);
      RunningStep(w.camp, u.camp, n);
      StartedIdle(w, n, engine);
      forall m | IsReady(u.camp, m) && Again(u, DeriveRunId(u.camp, m)) ensures Behind(u, m) {
        AgainBefore(w, u, m);
        StillBehind(w, u, n, m);
      }
    } else {
      StopsAll(w, n, engine);
      DispatchableKnown(u.camp);
    }
  }

  lemma AgainBefore(w: World, u: World, m: NodeId)
    requires u.camp.def == w.camp.def && u.camp.nodeAttempt == w.camp.nodeAttempt && OtherRun(w, u, DeriveRunId(w.camp, m))
    ensures Again(u, DeriveRunId(u.camp, m)) <==> Again(w, DeriveRunId(w.camp, m))
  {
  }

  lemma {:induction false} FillOnceFast(w: World, engine: Engine)
    requires Defined(w.camp) && w.camp.def.policy.FailFast? && MadeOnce(w.disk)
    requires Dispatchable(w.camp) == {} || (OnlyReady(w.camp) && NoneReached(w))
    ensures MadeOnce(Fill(w, engine).disk)
    decreases Startable(w.camp)
  {
    hide Dispatch, WellFormed, NoneReached, OnlyReady, MadeOnce;
    if Fills(w.camp) {
      var n := Least(Dispatchable(w.camp));
      DispatchShrinks(w, n, engine);
      ReachStep(w, n, engine);
      FillOnceFast(Dispatch(w, n, engine), engine);
    }
  }

  /** The world a launch hands to its fill. */
  ghost function Launched(w: World, def: Def): (u: World)
    requires WellFormed(def)
    ensures Defined(u.camp)
  {
    PromoteDefined(FreshCampaign(def));
    Persist(Persist(w.(camp := FreshCampaign(def))).(camp := PromoteReady(FreshCampaign(def))))
  }

  /** A launch over nothing, or over a campaign that has ended. */
  predicate Accepts(w: World) {
    w.disk.saved.Some? ==> Ended(w.disk.saved.value.status) || w.disk.saved.value.status.CPartiallyCompleted?
  }

  lemma LaunchFills(w: World, def: Def, engine: Engine)
    requires WellFormed(def) && Accepts(w)
    ensures LaunchCampaign(w, def, engine).0.disk.made == Fill(Launched(w, def), engine).disk.made
    ensures LaunchCampaign(w, def, engine).0.disk.sessions == Fill(Launched(w, def), engine).disk.sessions
  {
    hide Fill, WellFormed, PromoteReady;
    PromoteShape(FreshCampaign(def));
  }

  /** In a launched campaign the ready nodes are the roots, each about to start its first run. */
  lemma LaunchedReady(w: World, def: Def)
    requires WellFormed(def)
    ensures var u := Launched(w, def);
            u.camp.def == def && OnlyReady(u.camp) && RunningNodes(u.camp) == {} && u.camp.nodeAttempt == map[] &&
            (forall n :: IsReady(u.camp, n) <==> n in Roots(def)) && (forall n :: DeriveRunId(u.camp, n) == FirstRun(def, n)) &&
            (forall n :: ReadyBefore(u.camp, n) == RootsBefore(def, n)) && forall r :: OtherRun(w, u, r)
  {
    hide PromoteReady, WellFormed;
    RootsFirst(def);
    PromoteShape(FreshCampaign(def));
    OnlyRootsReady(def);
  }

  lemma OnlyRootsReady(def: Def)
    requires WellFormed(def)
    ensures forall n :: IsReady(PromoteReady(FreshCampaign(def)), n) ==> n in Roots(def)
  {
    var c := FreshCampaign(def);
    PromotesTo(c);
    assert forall e :: !Satisfied(c.nodeStatus, e);
  }

  /** Without such a root no engine whatever makes a second session. */
  lemma LaunchOnce(w: World, def: Def, engine: Engine)
    requires WellFormed(def) && Accepts(w) && MadeOnce(w.disk) && !Repeats(w, def)
    ensures !Twice(LaunchCampaign(w, def, engine).0.disk)
  {
    hide WellFormed, LaunchCampaign, Fill, OnlyReady;
    var u := Launched(w, def);
    LaunchFills(w, def, engine);
    LaunchedReady(w, def);
    assert MadeOnce(u.disk);
    if def.policy.FailFast? {
      LaunchedBehind(w, def);
      FillOnceFast(u, engine);
    } else {
      LaunchedFresh(w, def);
      FillOnce(u, engine);
    }
    assert MadeOnce(Fill(u, engine).disk);
  }

  lemma LaunchedFresh(w: World, def: Def)
    requires WellFormed(def) && !Repeats(w, def) && !def.policy.FailFast?
    ensures NoneAgain(Launched(w, def))
  {
    hide WellFormed, Launched;
    LaunchedReady(w, def);
    var u := Launched(w, def);
    forall n | IsReady(u.camp, n) ensures !Again(u, DeriveRunId(u.camp, n)) {
      assert OtherRun(w, u, FirstRun(def, n));
    }
  }

  lemma LaunchedBehind(w: World, def: Def)
    requires WellFormed(def) && !Repeats(w, def) && def.policy.FailFast?
    ensures NoneReached(Launched(w, def))
  {
    hide WellFormed, Launched;
    LaunchedReady(w, def);
    var u := Launched(w, def);
    forall n | IsReady(u.camp, n) && Again(u, DeriveRunId(u.camp, n)) ensures Behind(u, n) {
      assert OtherRun(w, u, FirstRun(def, n)) && Again(w, FirstRun(def, n));
      if |RootsBefore(def, n)| < def.cap {
        var m :| m in RootsBefore(def, n) && !Idle(w, FirstRun(def, m));
        assert OtherRun(w, u, FirstRun(def, m)) && m in ReadyBefore(u.camp, n);
      }
    }
  }

  // ── a second session ────────────────────────────────────────────────────────

  /** An engine that leaves a session behind and reports an error, at every call. */
  function Failing(): Engine {
    k => Reply(false, true, SFailed, false, false)
  }

  /** An engine that accepts every call. */
  function Accepting(): Engine {
    k => Reply(true, true, SExecuting, false, false)
  }

  lemma AgainMade(w: World, n: NodeId, engine: Engine)
    requires Defined(w.camp) && IsReady(w.camp, n) && Again(w, DeriveRunId(w.camp, n)) && DeriveRunId(w.camp, n) in w.disk.made
    requires engine(w.calls).ok || engine(w.calls).writes
    ensures Dispatch(w, n, engine).disk.made[DeriveRunId(w.camp, n)] >= 2
  {
    hide EndNode;
    EndMakesMore(Start(w, n, engine).0, n, OFailed, engine);
  }

  /** While such an engine fails every node before `n`, the root `n` stays ready over its ended run. */
  ghost predicate Waiting(w: World, n: NodeId) {
    IsReady(w.camp, n) && Again(w, DeriveRunId(w.camp, n)) && DeriveRunId(w.camp, n) in w.disk.made &&
    forall e :: e in w.camp.def.edges ==> e.to != n
  }

  lemma FailingStarts(w: World, m: NodeId)
    ensures !Start(w, m, Failing()).1
  {
  }

  lemma WaitingStep(w: World, n: NodeId, m: NodeId)
    requires Defined(w.camp) && Waiting(w, n) && RunningNodes(w.camp) == {} && !w.camp.def.policy.FailFast?
    requires m in Dispatchable(w.camp) && m != n
    ensures m in w.camp.nodeStatus
    ensures var u := Dispatch(w, m, Failing()); Waiting(u, n) && RunningNodes(u.camp) == {}
  {
    hide Start, Dispatch, WellFormed, Dispatchable;
    DispatchableKnown(w.camp);
    var u := Dispatch(w, m, Failing());
    FailingStarts(w, m);
    DispatchOther(w, m, Failing());
    DispatchShape(w, m, Failing());
    assert OtherRun(w, u, DeriveRunId(w.camp, n));
  }

  lemma {:induction false} FillTwice(w: World, n: NodeId)
    requires Defined(w.camp) && Waiting(w, n) && RunningNodes(w.camp) == {} && !w.camp.def.policy.FailFast?
    ensures Fill(w, Failing()).disk.made[DeriveRunId(w.camp, n)] >= 2
    decreases Startable(w.camp)
  {
    hide Dispatch, WellFormed, Waiting;
    WaitingPicked(w, n);
    var m := Least(Dispatchable(w.camp));
    DispatchShrinks(w, m, Failing());
    if m == n {
      FirstMade(w, n);
      FillMakesMore(Dispatch(w, n, Failing()), Failing());
    } else {
      WaitingStep(w, n, m);
      DispatchKeepsId(w, m, n, Failing());
      FillTwice(Dispatch(w, m, Failing()), n);
    }
  }

  lemma WaitingPicked(w: World, n: NodeId)
    requires Defined(w.camp) && Waiting(w, n) && RunningNodes(w.camp) == {}
    ensures n in Dispatchable(w.camp) && |RunningNodes(w.camp)| < w.camp.def.cap
  {
    assert Eligible(w.camp.def.edges, w.camp.nodeStatus, n);
  }

  lemma FirstMade(w: World, n: NodeId)
    requires Defined(w.camp) && Waiting(w, n)
    ensures Dispatch(w, n, Failing()).disk.made[DeriveRunId(w.camp, n)] >= 2
  {
    AgainMade(w, n, Failing());
  }

  lemma DispatchKeepsId(w: World, m: NodeId, n: NodeId, engine: Engine)
    requires Defined(w.camp) && m in w.camp.nodeStatus
    ensures DeriveRunId(Dispatch(w, m, engine).camp, n) == DeriveRunId(w.camp, n)
  {
    hide Dispatch, Start;
    DispatchOther(w, m, engine);
  }

  /** Under fail-fast: the ready nodes before `n` all start, and leave it a slot. */
  ghost predicate Next(w: World, n: NodeId) {
    IsReady(w.camp, n) && Again(w, DeriveRunId(w.camp, n)) && DeriveRunId(w.camp, n) in w.disk.made &&
    |RunningNodes(w.camp)| + |ReadyBefore(w.camp, n)| < w.camp.def.cap &&
    forall m :: m in ReadyBefore(w.camp, n) ==> Idle(w, DeriveRunId(w.camp, m))
  }

  lemma AcceptingStarts(w: World, m: NodeId)
    requires IsReady(w.camp, m) && Idle(w, DeriveRunId(w.camp, m))
    ensures Start(w, m, Accepting()).1
  {
  }

  lemma NextStep(w: World, n: NodeId, m: NodeId)
    requires Defined(w.camp) && Next(w, n) && OnlyReady(w.camp) && m in ReadyBefore(w.camp, n) && m != n
    ensures var u := Dispatch(w, m, Accepting()); Next(u, n) && OnlyReady(u.camp)
  {
    hide Start, Dispatch, WellFormed, OnlyReady, Dispatchable;
    var u := Dispatch(w, m, Accepting());
    AcceptingStarts(w, m);
    DispatchOther(w, m, Accepting());
    DispatchShape(w, m, Accepting());
    RunningStep(w.camp, u.camp, m);
    assert OtherRun(w, u, DeriveRunId(w.camp, n));
    forall k | k in ReadyBefore(u.camp, n) ensures Idle(u, DeriveRunId(u.camp, k)) {
      assert k in ReadyBefore(w.camp, n) && OtherRun(w, u, DeriveRunId(w.camp, k));
    }
  }

  lemma {:induction false} FillTwiceFast(w: World, n: NodeId)
    requires Defined(w.camp) && Next(w, n) && OnlyReady(w.camp)
    ensures Fill(w, Accepting()).disk.made[DeriveRunId(w.camp, n)] >= 2
    decreases Startable(w.camp)
  {
    hide Dispatch, WellFormed, Next, OnlyReady, IsReady;
    NextPicked(w, n);
    var m := Least(Dispatchable(w.camp));
    DispatchShrinks(w, m, Accepting());
    if m == n {
      NextMade(w, n);
      FillMakesMore(Dispatch(w, n, Accepting()), Accepting());
    } else {
      NextStep(w, n, m);
      DispatchKeepsId(w, m, n, Accepting());
      FillTwiceFast(Dispatch(w, m, Accepting()), n);
    }
  }

  lemma NextPicked(w: World, n: NodeId)
    requires Defined(w.camp) && Next(w, n) && OnlyReady(w.camp)
    ensures Dispatchable(w.camp) != {} && |RunningNodes(w.camp)| < w.camp.def.cap
    ensures var m := Least(Dispatchable(w.camp)); m == n || m in ReadyBefore(w.camp, n)
  {
    assert n in Dispatchable(w.camp);
    PickIsFirst(w.camp, Least(Dispatchable(w.camp)));
  }

  lemma NextMade(w: World, n: NodeId)
    requires Defined(w.camp) && Next(w, n)
    ensures Dispatch(w, n, Accepting()).disk.made[DeriveRunId(w.camp, n)] >= 2
  {
    AgainMade(w, n, Accepting());
  }

  /** With such a root, some engine makes a second session. */
  lemma LaunchTwice(w: World, def: Def) returns (engine: Engine)
    requires WellFormed(def) && Accepts(w) && MadeOnce(w.disk) && Repeats(w, def)
    ensures Twice(LaunchCampaign(w, def, engine).0.disk)
  {
    hide WellFormed, LaunchCampaign, Fill, OnlyReady;
    var n :| n in Roots(def) && Again(w, FirstRun(def, n)) && (def.policy.FailFast? ==> Reached(w, def, n));
    engine := if def.policy.FailFast? then Accepting() else Failing();
    var u := Launched(w, def);
    LaunchFills(w, def, engine);
    LaunchedReady(w, def);
    LaunchedWaits(w, def, n);
    if def.policy.FailFast? {
      FillTwiceFast(u, n);
    } else {
      FillTwice(u, n);
    }
    assert Fill(u, engine).disk.made[FirstRun(def, n)] > 1;
  }

  lemma LaunchedWaits(w: World, def: Def, n: NodeId)
    requires WellFormed(def) && MadeOnce(w.disk) && n in Roots(def) && Again(w, FirstRun(def, n))
    ensures Waiting(Launched(w, def), n) && (Reached(w, def, n) ==> Next(Launched(w, def), n))
  {
    hide WellFormed, Launched, OnlyReady;
    var u := Launched(w, def);
    LaunchedReady(w, def);
    assert OtherRun(w, u, FirstRun(def, n));
    if Reached(w, def, n) {
      forall m | m in ReadyBefore(u.camp, n) ensures Idle(u, DeriveRunId(u.camp, m)) {
        assert OtherRun(w, u, FirstRun(def, m));
      }
    }
  }

  /** The exact condition: some engine makes a launch give a run id a second session if and only if a root
      has an ended idle session under its first run id, and, under fail-fast, is reached. */
  lemma RelaunchExact(w: World, def: Def)
    requires WellFormed(def) && Accepts(w) && MadeOnce(w.disk)
    ensures (exists engine: Engine :: Twice(LaunchCampaign(w, def, engine).0.disk)) <==> Repeats(w, def)
  {
    hide *;
    if Repeats(w, def) {
      var engine := LaunchTwice(w, def);
    } else {
      forall engine: Engine ensures !Twice(LaunchCampaign(w, def, engine).0.disk) {
        LaunchOnce(w, def, engine);
      }
    }
  }
}
