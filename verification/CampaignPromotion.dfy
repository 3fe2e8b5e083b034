/** Promotion against dispatch: when a fill picks a node that was never promoted. */
module CampaignPromotion {
  import opened Names
  import opened CampaignGraph
  import opened CampaignCycle
  import opened CampaignModel
  import opened CampaignHandlers
  import opened CampaignInvariants
  import opened CampaignSafety
  import opened CampaignSteps
  import opened CampaignKeeps
  import opened CampaignResume
  import opened CampaignRuns
  import opened CampaignTheorems
  import opened CampaignFindings

  // ── dispatching a node that was not promoted ────────────────────────────────

  /** A fill that picks a `Pending` node treats it as a resume: with no session under its id it fails
      without ever running. */
  lemma PendingDispatchFails(w: World, n: NodeId, engine: Engine)
    requires Defined(w.camp) && n in w.camp.nodeStatus && StatusIn(w.camp, n) == Pending
    requires DeriveRunId(w.camp, n) !in w.disk.sessions
    ensures var u := Dispatch(w, n, engine);
            StatusIn(u.camp, n) == Failed && !Start(w, n, engine).1 && DeriveRunId(w.camp, n) !in Start(w, n, engine).0.disk.sessions
  {
    EndNodeEnds(Start(w, n, engine).0, n, OFailed, engine);
  }

  /** Every node a fill could pick is ready or approved. */
  ghost predicate OnlyPromoted(c: Campaign) {
    forall n :: n in Dispatchable(c) ==> StatusIn(c, n) != Pending
  }

  lemma PromotedAll(c: Campaign)
    requires Defined(c) && forall e :: e in c.def.edges ==> e.condition.OnSuccess?
    ensures OnlyPromoted(PromoteReady(c))
  {
    var d := PromoteReady(c);
    PromotesTo(c);
    forall n | n in d.nodeStatus && StatusIn(d, n) == Pending ensures n !in Dispatchable(d) {
      var e :| e in c.def.edges && e.to == n && !Satisfied(c.nodeStatus, e);
      assert !Satisfied(d.nodeStatus, e);
    }
  }

  /** With success edges only, a failed start satisfies no edge, so promotion is never overtaken: no
      fill ever resumes a node that did not start. */
  lemma DispatchKeepsPromoted(w: World, n: NodeId, engine: Engine)
    requires Defined(w.camp) && OnlyPromoted(w.camp) && n in w.camp.nodeStatus && StatusIn(w.camp, n) != Completed
    requires forall e :: e in w.camp.def.edges ==> e.condition.OnSuccess?
    ensures OnlyPromoted(Dispatch(w, n, engine).camp)
  {
    var u := Dispatch(w, n, engine);
    DispatchMoves(w, n, engine);
    DispatchableKnown(u.camp);
    forall m | m in u.camp.nodeStatus && StatusIn(u.camp, m) == Pending ensures m !in Dispatchable(u.camp) {
      assert StatusIn(w.camp, m) == Pending && m !in Dispatchable(w.camp);
      var e :| e in w.camp.def.edges && e.to == m && !Satisfied(w.camp.nodeStatus, e);
      assert !Satisfied(u.camp.nodeStatus, e);
    }
  }

  /** A dispatch completes no node and leaves pending only what was. */
  lemma DispatchMoves(w: World, n: NodeId, engine: Engine)
    requires Defined(w.camp) && n in w.camp.nodeStatus && StatusIn(w.camp, n) != Completed
    ensures var u := Dispatch(w, n, engine);
            forall m :: m in w.camp.nodeStatus ==>
              (StatusIn(u.camp, m) == Completed ==> StatusIn(w.camp, m) == Completed) &&
              (StatusIn(u.camp, m) == Pending ==> StatusIn(w.camp, m) == Pending)
  {
    hide EndNode;
    var started := Start(w, n, engine);
    var running := started.0.camp.nodeStatus;
    assert running == w.camp.nodeStatus[n := Running];
    if !started.1 {
      FailedMoves(started.0, n, engine);
      var failed := EndNode(started.0, n, OFailed, engine).camp.nodeStatus;
      assert forall m :: m in running && m != n ==> StatusOf(failed, m) == running[m] || StatusOf(failed, m) == Blocked || StatusOf(failed, m) == Cancelled;
    }
  }

  lemma FailedMoves(w: World, n: NodeId, engine: Engine)
    requires Defined(w.camp) && n in w.camp.nodeStatus
    ensures var c := EndNode(w, n, OFailed, engine).camp;
            forall m :: m in w.camp.nodeStatus && m != n ==>
              StatusIn(c, m) == StatusIn(w.camp, m) || StatusIn(c, m) == Blocked || StatusIn(c, m) == Cancelled
    ensures StatusIn(EndNode(w, n, OFailed, engine).camp, n) == Failed
  {
    PolicyMoves(Persist(SetNodeW(w, n, Failed)), n, engine);
  }

  // ── what one dispatch does to it ────────────────────────────────────────────

  /** Still pending, although every dependency is satisfied. */
  ghost predicate Overdue(c: Campaign, m: NodeId) {
    m in c.nodeStatus && c.nodeStatus[m] == Pending && forall e :: e in c.def.edges && e.to == m ==> Satisfied(c.nodeStatus, e)
  }

  lemma PromotedIff(c: Campaign)
    requires Defined(c)
    ensures OnlyPromoted(c) <==> forall m :: !Overdue(c, m)
    ensures forall m :: Overdue(c, m) ==> m in Dispatchable(c)
  {
    forall m | Overdue(c, m) ensures m in Dispatchable(c) && StatusIn(c, m) == Pending {
      assert Eligible(c.def.edges, c.nodeStatus, m);
    }
    forall m | m in Dispatchable(c) && StatusIn(c, m) == Pending ensures Overdue(c, m) {
      assert m in c.def.nodes;
    }
  }

  /** The last in-edge of pending `m` that is not satisfied is an `OnTerminal` edge from `n`. */
  ghost predicate LastDependency(c: Campaign, n: NodeId, m: NodeId) {
    m in c.nodeStatus && c.nodeStatus[m] == Pending && Edge(n, m, OnTerminal) in c.def.edges &&
    forall e :: e in c.def.edges && e.to == m && e.from != n ==> Satisfied(c.nodeStatus, e)
  }

  /** The start of `n` fails, and its failure satisfies the last dependency of a pending node (fail-fast
      would cancel that node at once). */
  ghost predicate Overtakes(w: World, n: NodeId, engine: Engine) {
    !Start(w, n, engine).1 && !w.camp.def.policy.FailFast? && exists m :: LastDependency(w.camp, n, m)
  }

  /** What a dispatch leaves of the other nodes. */
  ghost predicate DispatchedTo(c: Campaign, d: Campaign, n: NodeId, ok: bool) {
    d.def == c.def && d.nodeStatus.Keys == c.nodeStatus.Keys && n in c.nodeStatus &&
    d.nodeStatus[n] == (if ok then Running else Failed) &&
    if ok then d.nodeStatus == c.nodeStatus[n := Running]
    else if c.def.policy.FailFast? then forall m :: m in c.nodeStatus ==> d.nodeStatus[m].Terminal()
    else forall m :: m in c.nodeStatus && m != n ==> d.nodeStatus[m] == c.nodeStatus[m] || (d.nodeStatus[m] == Blocked && Blockable(c.nodeStatus, m) && HasBad(c, d, m))
  }

  /** A success dependency of `m` can no longer complete. */
  ghost predicate HasBad(c: Campaign, d: Campaign, m: NodeId) {
    exists e :: e in c.def.edges && e.to == m && e.condition.OnSuccess? &&
                (StatusIn(d, e.from) == Failed || StatusIn(d, e.from) == Cancelled || StatusIn(d, e.from) == Blocked)
  }

  lemma BlockedHasBad(c: Campaign, m: NodeId)
    requires Defined(c) && m in BlockedIn(c) && StatusIn(c, m) != Blocked
    ensures HasBad(c, ApplyBlocking(c), m)
  {
    BlockedAreUnstarted(c);
    var p :| BlockPath(c.def.nodes, c.def.edges, c.nodeStatus, p) && p[|p| - 1] == m;
    var k := |p| - 1;
    assert Spreads(c.def.edges, c.nodeStatus, p[k - 1], p[k]);
    var e := Edge(p[k - 1], p[k], OnSuccess);
    if k > 1 {
      assert Spreads(c.def.edges, c.nodeStatus, p[k - 2], p[k - 1]);
      forall i | 1 <= i < k ensures Spreads(c.def.edges, c.nodeStatus, p[..k][i - 1], p[..k][i]) {
        assert Spreads(c.def.edges, c.nodeStatus, p[i - 1], p[i]);
      }
      assert BlockPath(c.def.nodes, c.def.edges, c.nodeStatus, p[..k]) && p[..k][k - 1] == p[k - 1];
      assert InBlocked(c.def.nodes, c.def.edges, c.nodeStatus, p[k - 1]);
    }
    assert e in c.def.edges && e.to == m;
  }

  lemma DispatchShape(w: World, n: NodeId, engine: Engine)
    requires Defined(w.camp) && n in w.camp.nodeStatus
    ensures DispatchedTo(w.camp, Dispatch(w, n, engine).camp, n, Start(w, n, engine).1)
  {
    hide WellFormed, HasBad, ApplyFailurePolicy;
    var (s, ok) := Start(w, n, engine);
    if !ok {
      FailedShape(w.camp, Persist(SetNodeW(s, n, Failed)), n, engine);
    }
  }

  lemma FailedShape(c: Campaign, x: World, n: NodeId, engine: Engine)
    requires Defined(x.camp) && x.camp.def == c.def && n in c.nodeStatus && x.camp.nodeStatus == c.nodeStatus[n := Failed]
    ensures DispatchedTo(c, ApplyFailurePolicy(x, n, engine).camp, n, false)
  {
    hide WellFormed, HasBad, ApplyBlocking, FailFastAll;
    match x.camp.def.policy
    case FailFast => FailFastCamp(x, engine);
    case HumanGateOnFailure =>
    case ContinueIndependent => BlockedShape(c, x.camp, n);
  }

  lemma BlockedShape(c: Campaign, x: Campaign, n: NodeId)
    requires Defined(x) && x.def == c.def && n in c.nodeStatus && x.nodeStatus == c.nodeStatus[n := Failed] && !c.def.policy.FailFast?
    ensures DispatchedTo(c, ApplyBlocking(x), n, false)
  {
    hide WellFormed, HasBad, BlockedIn;
    BlockedAreUnstarted(x);
    var d := ApplyBlocking(x);
    forall m | m in c.nodeStatus && m != n && d.nodeStatus[m] != c.nodeStatus[m]
      ensures d.nodeStatus[m] == Blocked && Blockable(c.nodeStatus, m) && HasBad(c, d, m)
    {
      BlockedHasBad(x, m);
      SameDef(x, c, d, m);
    }
  }

  lemma SameDef(b: Campaign, c: Campaign, d: Campaign, m: NodeId)
    requires HasBad(b, d, m) && b.def == c.def
    ensures HasBad(c, d, m)
  {
  }

  /** A dispatch that ends with `n` running or failed leaves an overdue node exactly if one was there (and
      is not cancelled with the rest), or the failure satisfied the last dependency of one. */
  lemma OverdueAfter(c: Campaign, d: Campaign, n: NodeId, ok: bool, m: NodeId)
    requires Defined(c) && DispatchedTo(c, d, n, ok) && !c.nodeStatus[n].Terminal() && m != n
    ensures Overdue(d, m) <==> (Overdue(c, m) && (ok || !c.def.policy.FailFast?)) || (!ok && !c.def.policy.FailFast? && LastDependency(c, n, m))
  {
    hide WellFormed;
    if Overdue(d, m) {
      assert c.nodeStatus[m] == Pending;
      forall e | e in c.def.edges && e.to == m && e.from != n ensures Satisfied(c.nodeStatus, e) {
        assert Satisfied(d.nodeStatus, e);
      }
      if !Overdue(c, m) {
        var e :| e in c.def.edges && e.to == m && !Satisfied(c.nodeStatus, e);
        assert Satisfied(d.nodeStatus, e) && e == Edge(n, m, OnTerminal);
      }
    }
    if Overdue(c, m) && (ok || !c.def.policy.FailFast?) {
      assert forall e :: e in c.def.edges && e.to == m ==> Satisfied(c.nodeStatus, e);
      NotBlocked(c, d, n, ok, m);
    }
    if !ok && !c.def.policy.FailFast? && LastDependency(c, n, m) {
      OneEdge(c.def, n, m);
      NotBlocked(c, d, n, ok, m);
      forall e | e in c.def.edges && e.to == m ensures Satisfied(d.nodeStatus, e) {
        if e.from != n {
          assert Satisfied(c.nodeStatus, e);
        }
      }
    }
  }

  /** Between two nodes there is one edge. */
  lemma OneEdge(def: Def, n: NodeId, m: NodeId)
    requires WellFormed(def) && Edge(n, m, OnTerminal) in def.edges
    ensures forall e :: e in def.edges && e.to == m && e.from == n ==> e.condition.OnTerminal?
  {
  }

  /** Blocking spares a node whose success dependencies completed. */
  lemma NotBlocked(c: Campaign, d: Campaign, n: NodeId, ok: bool, m: NodeId)
    requires DispatchedTo(c, d, n, ok) && !c.nodeStatus[n].Terminal() && m != n && m in c.nodeStatus && (ok || !c.def.policy.FailFast?)
    requires forall e :: e in c.def.edges && e.to == m && e.condition.OnSuccess? ==> Satisfied(c.nodeStatus, e)
    ensures d.nodeStatus[m] == c.nodeStatus[m]
  {
    forall e | e in c.def.edges && e.to == m && e.condition.OnSuccess? ensures StatusIn(d, e.from) == Completed {
      assert Satisfied(c.nodeStatus, e);
    }
    assert !HasBad(c, d, m);
  }

  /** The exact condition, dispatch by dispatch: promotion stays complete unless the start fails and the
      failure satisfies the last dependency of a pending node over an `OnTerminal` edge. */
  lemma DispatchPromoted(w: World, n: NodeId, engine: Engine)
    requires Defined(w.camp) && n in Dispatchable(w.camp) && OnlyPromoted(w.camp)
    ensures OnlyPromoted(Dispatch(w, n, engine).camp) <==> !Overtakes(w, n, engine)
  {
    hide Dispatch, Start, WellFormed, DispatchedTo, Overdue, LastDependency;
    DispatchOverdue(w, n, engine);
    var d := Dispatch(w, n, engine).camp;
    PromotedIff(w.camp);
    PromotedIff(d);
    NotItself(w, n, engine);
    if Overtakes(w, n, engine) {
      var m :| LastDependency(w.camp, n, m);
      assert Overdue(d, m);
    }
  }

  lemma NotItself(w: World, n: NodeId, engine: Engine)
    requires Defined(w.camp) && n in w.camp.nodeStatus
    ensures !Overdue(Dispatch(w, n, engine).camp, n) && !LastDependency(w.camp, n, n)
  {
    DispatchShape(w, n, engine);
  }

  lemma DispatchOverdue(w: World, n: NodeId, engine: Engine)
    requires Defined(w.camp) && n in Dispatchable(w.camp)
    ensures n in w.camp.nodeStatus
    ensures forall m :: m != n ==>
              (Overdue(Dispatch(w, n, engine).camp, m) <==>
               (Overdue(w.camp, m) && (Start(w, n, engine).1 || !w.camp.def.policy.FailFast?)) ||
               (!Start(w, n, engine).1 && !w.camp.def.policy.FailFast? && LastDependency(w.camp, n, m)))
  {
    hide Dispatch, Start, WellFormed, DispatchedTo, Overdue, LastDependency;
    DispatchableKnown(w.camp);
    DispatchShape(w, n, engine);
    assert !w.camp.nodeStatus[n].Terminal();
    forall m | m != n
      ensures Overdue(Dispatch(w, n, engine).camp, m) <==>
              (Overdue(w.camp, m) && (Start(w, n, engine).1 || !w.camp.def.policy.FailFast?)) ||
              (!Start(w, n, engine).1 && !w.camp.def.policy.FailFast? && LastDependency(w.camp, n, m))
    {
      OverdueAfter(w.camp, Dispatch(w, n, engine).camp, n, Start(w, n, engine).1, m);
    }
  }

  // ── what a whole fill does ──────────────────────────────────────────────────

  ghost predicate Fills(c: Campaign) {
    |RunningNodes(c)| < c.def.cap && Dispatchable(c) != {}
  }

  /** Some dispatch of the fill picks a pending node. */
  ghost predicate PicksPending(w: World, engine: Engine)
    requires Defined(w.camp)
    decreases Startable(w.camp)
  {
    Fills(w.camp) &&
    var n := Least(Dispatchable(w.camp));
    DispatchShrinks(w, n, engine);
    StatusIn(w.camp, n) == Pending || PicksPending(Dispatch(w, n, engine), engine)
  }

  /** Some dispatch of the fill overtakes promotion. */
  ghost predicate Overtaken(w: World, engine: Engine)
    requires Defined(w.camp)
    decreases Startable(w.camp)
  {
    Fills(w.camp) &&
    var n := Least(Dispatchable(w.camp));
    DispatchShrinks(w, n, engine);
    Overtakes(w, n, engine) || Overtaken(Dispatch(w, n, engine), engine)
  }

  /** Every fill: it picks a pending node only if one was overdue as it started or a failed start inside
      it satisfied the last dependency of one; and, but for fail-fast, if so, unless the cap stops it with
      that node still overdue. Under fail-fast a failed start stops it, every node ended. */
  lemma {:induction false} FillPicks(w: World, engine: Engine)
    requires Defined(w.camp)
    ensures PicksPending(w, engine) ==> !OnlyPromoted(w.camp) || Overtaken(w, engine)
    ensures !w.camp.def.policy.FailFast? ==>
              (!OnlyPromoted(w.camp) || Overtaken(w, engine) <==> PicksPending(w, engine) || !OnlyPromoted(Fill(w, engine).camp))
    ensures w.camp.def.policy.FailFast? ==>
              !Overtaken(w, engine) &&
              (!OnlyPromoted(w.camp) ==> PicksPending(w, engine) || !OnlyPromoted(Fill(w, engine).camp) || Startable(Fill(w, engine).camp) == {})
    ensures !OnlyPromoted(Fill(w, engine).camp) ==> |RunningNodes(Fill(w, engine).camp)| >= w.camp.def.cap
    decreases Startable(w.camp)
  {
    hide Dispatch, Start, WellFormed, OnlyPromoted, Overtakes;
    if Fills(w.camp) {
      var n := Least(Dispatchable(w.camp));
      DispatchShrinks(w, n, engine);
      FillPicks(Dispatch(w, n, engine), engine);
      FillStep(w, n, engine);
    } else if Dispatchable(w.camp) == {} {
      NothingLeft(w.camp);
    }
  }

  lemma NothingLeft(c: Campaign)
    requires Dispatchable(c) == {}
    ensures OnlyPromoted(c)
  {
  }

  /** The step of the induction: what is overdue before and after the dispatch of `n`. */
  lemma FillStep(w: World, n: NodeId, engine: Engine)
    requires Defined(w.camp) && n in Dispatchable(w.camp)
    ensures var d := Dispatch(w, n, engine).camp;
            (StatusIn(w.camp, n) == Pending ==> !OnlyPromoted(w.camp)) &&
            (OnlyPromoted(w.camp) ==> (OnlyPromoted(d) <==> !Overtakes(w, n, engine))) &&
            (!OnlyPromoted(w.camp) && StatusIn(w.camp, n) != Pending ==>
               !OnlyPromoted(d) || (w.camp.def.policy.FailFast? && Startable(d) == {})) &&
            (w.camp.def.policy.FailFast? ==> !Overtakes(w, n, engine)) &&
            (Startable(d) == {} ==> Dispatchable(d) == {})
  {
    hide Dispatch, WellFormed, DispatchedTo, Overdue, LastDependency;
    var d := Dispatch(w, n, engine).camp;
    PromotedIff(w.camp);
    PromotedIff(d);
    if OnlyPromoted(w.camp) {
      DispatchPromoted(w, n, engine);
    }
    DispatchOverdue(w, n, engine);
    DispatchableKnown(d);
    OverduePending(w.camp, n);
    if w.camp.def.policy.FailFast? && !Start(w, n, engine).1 {
      StopsAll(w, n, engine);
    }
  }

  lemma OverduePending(c: Campaign, n: NodeId)
    ensures Overdue(c, n) ==> StatusIn(c, n) == Pending
  {
  }

  lemma StopsAll(w: World, n: NodeId, engine: Engine)
    requires Defined(w.camp) && n in w.camp.nodeStatus && w.camp.def.policy.FailFast? && !Start(w, n, engine).1
    ensures Startable(Dispatch(w, n, engine).camp) == {}
  {
    DispatchShape(w, n, engine);
  }

  // ── the cleanup pair ───────────────────────────────────────────────────────────

  /** Two nodes, the second the first's cleanup. */
  ghost predicate CleanupPair(def: Def, a: NodeId, b: NodeId) {
    a != b && (forall n :: n in def.nodes <==> n == a || n == b) && forall e :: e in def.edges <==> e == Edge(a, b, OnTerminal)
  }

  /** With an `OnTerminal` edge it happens: a fill starts the dependency, its launch fails, and the node
      the same fill picks next is the dependent, still pending, which then fails without running
      (`PendingDispatchFails`). */
  lemma CleanupNodeOvertaken(w: World, a: NodeId, b: NodeId, engine: Engine)
    requires Defined(w.camp) && CleanupPair(w.camp.def, a, b)
    requires w.camp.def.policy.ContinueIndependent? && StatusIn(w.camp, a) == Ready && StatusIn(w.camp, b) == Pending
    requires DeriveRunId(w.camp, a) !in w.disk.sessions && !engine(w.calls).ok && !engine(w.calls).writes
    ensures var c := Dispatch(w, a, engine).camp;
            StatusIn(c, b) == Pending && Dispatchable(c) == {b} && |RunningNodes(c)| < c.def.cap
  {
    CleanupStarts(w, a, b, engine);
    TwoNodes(Dispatch(w, a, engine).camp, a, b);
  }

  lemma CleanupStarts(w: World, a: NodeId, b: NodeId, engine: Engine)
    requires Defined(w.camp) && CleanupPair(w.camp.def, a, b)
    requires w.camp.def.policy.ContinueIndependent? && StatusIn(w.camp, a) == Ready && StatusIn(w.camp, b) == Pending
    requires DeriveRunId(w.camp, a) !in w.disk.sessions && !engine(w.calls).ok && !engine(w.calls).writes
    ensures var c := Dispatch(w, a, engine).camp;
            StatusIn(c, a) == Failed && StatusIn(c, b) == Pending && c.def == w.camp.def && c.nodeStatus.Keys == {a, b}
  {
    assert w.camp.nodeStatus.Keys == {a, b};
    FailedStart(w, a, engine);
  }

  /** What a fill may pick in the two-node campaign, as the first node fails and then the second. */
  lemma TwoNodes(c: Campaign, a: NodeId, b: NodeId)
    requires Defined(c) && CleanupPair(c.def, a, b)
    requires forall n :: n in c.nodeStatus ==> c.nodeStatus[n] == Ready || c.nodeStatus[n] == Pending || c.nodeStatus[n] == Failed
    requires StatusIn(c, a) != Pending
    ensures a != b && c.def.cap > 0 && |RunningNodes(c)| == 0
    ensures StatusIn(c, a) == Failed && StatusIn(c, b) == Pending ==> Dispatchable(c) == {b}
  {
    var e := Edge(a, b, OnTerminal);
    assert e in c.def.edges;
    assert RunningNodes(c) == {};
    assert Satisfied(c.nodeStatus, e) <==> StatusIn(c, a) == Failed;
    assert Eligible(c.def.edges, c.nodeStatus, b) <==> StatusIn(c, b) == Ready || (StatusIn(c, b) == Pending && StatusIn(c, a) == Failed);
    assert Eligible(c.def.edges, c.nodeStatus, a) <==> StatusIn(c, a) == Ready;
  }

  /** A start the engine refuses, under continue-independent with no success edge: only the node fails. */
  lemma FailedStart(w: World, n: NodeId, engine: Engine)
    requires Defined(w.camp) && n in w.camp.nodeStatus && w.camp.def.policy.ContinueIndependent?
    requires (forall e :: e in w.camp.def.edges ==> e.condition.OnTerminal?) && forall m :: m in w.camp.nodeStatus ==> w.camp.nodeStatus[m] != Blocked
    requires DeriveRunId(w.camp, n) !in w.disk.sessions
    requires StatusIn(w.camp, n) == Ready ==> !engine(w.calls).ok && !engine(w.calls).writes
    ensures var u := Dispatch(w, n, engine);
            u.camp.nodeStatus == w.camp.nodeStatus[n := Failed] && u.camp.def == w.camp.def && u.camp.nodeAttempt == w.camp.nodeAttempt
    ensures Dispatch(w, n, engine).disk.sessions == w.disk.sessions
  {
    hide WellFormed, BlockedIn, Start;
    RefusedStart(w, n, engine);
    NothingBlocked(SetNode(Start(w, n, engine).0.camp, n, Failed));
  }

  lemma RefusedStart(w: World, n: NodeId, engine: Engine)
    requires DeriveRunId(w.camp, n) !in w.disk.sessions
    requires StatusIn(w.camp, n) == Ready ==> !engine(w.calls).ok && !engine(w.calls).writes
    ensures var (u, ok) := Start(w, n, engine); !ok && u.disk.sessions == w.disk.sessions && u.camp.nodeAttempt == w.camp.nodeAttempt
  {
  }

  lemma NothingBlocked(c: Campaign)
    requires Defined(c) && (forall e :: e in c.def.edges ==> e.condition.OnTerminal?) && forall n :: n in c.nodeStatus ==> c.nodeStatus[n] != Blocked
    ensures ApplyBlocking(c) == c
  {
    assert ClosedUnderBlocking(c.def.nodes, c.def.edges, c.nodeStatus, {});
    BlockedNodesLeast(c.def.nodes, c.def.edges, c.nodeStatus, {});
  }
}
