/** The list of running nodes that a resume works through, under fail-fast: which entries it launches
    although an earlier entry's failure has already cancelled their node. */
module CampaignReattach {
  import opened Names
  import opened CampaignGraph
  import opened CampaignCycle
  import opened CampaignModel
  import opened CampaignHandlers
  import opened CampaignInvariants
  import opened CampaignSafety
  import opened CampaignSteps
  import opened CampaignKeeps
  import opened CampaignResume
  import opened CampaignFindings

  /** A list as a resume makes it: each node running under its recorded run, no node and no run twice. */
  ghost predicate RunningList(c: Campaign, runs: seq<(NodeId, RunId)>) {
    (forall i :: 0 <= i < |runs| ==> Attached(c, runs[i])) &&
    forall i, j :: 0 <= i < j < |runs| ==> runs[i].0 != runs[j].0 && runs[i].1 != runs[j].1
  }

  ghost predicate Attached(c: Campaign, x: (NodeId, RunId)) {
    x.0 in c.nodeStatus && c.nodeStatus[x.0] == Running && x.0 in c.nodeRunId && c.nodeRunId[x.0] == x.1
  }

  ghost predicate NodesDistinct(q: seq<(NodeId, RunId)>) {
    forall i, j :: 0 <= i < j < |q| ==> q[i].0 != q[j].0
  }

  lemma MoreDistinct(x: (NodeId, RunId), rest: seq<(NodeId, RunId)>)
    requires NodesDistinct(rest) && forall y :: y in rest ==> y.0 != x.0
    ensures NodesDistinct([x] + rest)
  {
    var q := [x] + rest;
    forall i, j | 0 <= i < j < |q| ensures q[i].0 != q[j].0 {
      assert q[j] in rest;
    }
  }

  lemma {:induction false} RunsDistinct(c: Campaign, s: set<NodeId>, kinds: set<NodeStatus>)
    ensures NodesDistinct(Runs(c, Ordered(s), kinds))
    decreases s
  {
    hide NodesDistinct;
    if s == {} {
      EmptyDistinct();
    } else {
      var m := Least(s);
      var rest := Runs(c, Ordered(s - {m}), kinds);
      assert Ordered(s)[0] == m && Ordered(s)[1..] == Ordered(s - {m});
      RunsDistinct(c, s - {m}, kinds);
      RunsAre(c, Ordered(s - {m}), kinds);
      if m in c.nodeStatus && c.nodeStatus[m] in kinds && m in c.nodeRunId {
        MoreDistinct((m, c.nodeRunId[m]), rest);
      } else {
        assert Runs(c, Ordered(s), kinds) == rest;
      }
    }
  }

  lemma EmptyDistinct()
    ensures NodesDistinct([])
  {
  }

  /** The list a resume makes of any campaign that keeps the invariant is such a list. */
  lemma ResumeList(c: Campaign)
    requires Defined(c) && CampOk(c)
    ensures RunningList(c, RunsOf(c, {Running}))
  {
    hide CampOk, WellFormed, Runs, Ordered;
    var q := RunsOf(c, {Running});
    RunsAre(c, Ordered(c.nodeStatus.Keys), {Running});
    RunsDistinct(c, c.nodeStatus.Keys, {Running});
    forall i | 0 <= i < |q| ensures Attached(c, q[i]) {
      assert q[i] in q;
    }
    forall i, j | 0 <= i < j < |q| ensures q[i].0 != q[j].0 && q[i].1 != q[j].1 {
      assert Attached(c, q[i]) && Attached(c, q[j]) && q[i].0 != q[j].0;
      if q[i].1 == q[j].1 {
        OneOwner(c, q[i].0, q[j].0);
      }
    }
  }

  // ── one entry ───────────────────────────────────────────────────────────────

  /** A call on run `r` opens or closes no other session. */
  ghost predicate OthersKept(w: World, u: World, r: RunId) {
    forall q :: q != r ==> (q in u.disk.sessions <==> q in w.disk.sessions)
  }

  lemma {:induction false} CancelRunsForget(w: World, runs: seq<(NodeId, RunId)>, engine: Engine)
    ensures var u := CancelRuns(w, runs, engine);
            u.disk.sessions.Keys == w.disk.sessions.Keys && u.inFlight <= w.inFlight && forall x :: x in runs ==> x.1 !in u.inFlight
    decreases |runs|
  {
    if runs != [] {
      var r := runs[0].1;
      var u := CancelRun(w, r, engine).0;
      CancelRunsForget(u.(inFlight := u.inFlight - {r}), runs[1..], engine);
      assert forall x :: x in runs ==> x == runs[0] || x in runs[1..];
    }
  }

  /** The entry's failure: its node runs, and re-attaching ends it as failed or cancelled. */
  ghost predicate Fails(w: World, x: (NodeId, RunId), engine: Engine)
    requires Defined(w.camp)
  {
    StatusIn(w.camp, x.0) == Running && Fallen(Reattach(w, x.0, x.1, engine).camp, x.0)
  }

  /** What a failing entry leaves under fail-fast: no node to end, no other live run in flight. */
  ghost predicate Tripped(w: World, u: World, x: (NodeId, RunId)) {
    u.camp.def == w.camp.def && u.camp.nodeStatus.Keys == w.camp.nodeStatus.Keys && OthersKept(w, u, x.1) &&
    forall y: (NodeId, RunId) :: y.0 != x.0 && Attached(w.camp, y) ==> StatusIn(u.camp, y.0) == Cancelled && y.1 !in u.inFlight
  }

  lemma FailureTrips(w: World, x: (NodeId, RunId), s: NodeStatus, engine: Engine)
    requires Defined(w.camp) && w.camp.def.policy.FailFast? && Attached(w.camp, x) && (s == Failed || s == Cancelled)
    ensures Tripped(w, ApplyFailurePolicy(Persist(SetNodeW(w, x.0, s)), x.0, engine), x)
  {
    var v := Persist(SetNodeW(w, x.0, s));
    var y := Persist(v.(camp := CancelNonTerminal(v.camp).(failFastTripped := true)));
    CancelRunsForget(y, RunsOf(v.camp, LIVE), engine);
    RunsAre(v.camp, Ordered(v.camp.nodeStatus.Keys), LIVE);
    forall z: (NodeId, RunId) | z.0 != x.0 && Attached(w.camp, z) ensures StatusIn(y.camp, z.0) == Cancelled && z in RunsOf(v.camp, LIVE) {
    }
  }

  lemma EndTrips(w: World, x: (NodeId, RunId), outcome: Outcome, engine: Engine)
    requires Defined(w.camp) && w.camp.def.policy.FailFast? && Attached(w.camp, x)
    ensures var u := ReconcileTerminal(w, x.0, outcome, engine);
            if outcome == OCompleted then u.camp == SetNode(w.camp, x.0, Completed) && OthersKept(w, u, x.1)
            else Fallen(u.camp, x.0) && Tripped(w, u, x)
  {
    hide ApplyFailurePolicy, WellFormed;
    if outcome != OCompleted {
      FailureTrips(w, x, outcome.AsNodeStatus(), engine);
      EndNodeEnds(w, x.0, outcome, engine);
    }
  }

  /** A failing entry trips fail-fast; any other leaves the other nodes running. */
  lemma ReattachEither(w: World, x: (NodeId, RunId), engine: Engine)
    requires Defined(w.camp) && w.camp.def.policy.FailFast? && Attached(w.camp, x)
    ensures var u := Reattach(w, x.0, x.1, engine);
            if Fails(w, x, engine) then Tripped(w, u, x)
            else (u.camp == w.camp || u.camp == SetNode(w.camp, x.0, Completed)) && OthersKept(w, u, x.1)
  {
    hide ReconcileTerminal, WellFormed, Tripped;
    var (n, r) := x;
    if r in w.disk.sessions && w.disk.sessions[r].Terminal() {
      EndTrips(w, x, OutcomeOf(w.disk.sessions[r]), engine);
    } else {
      LaunchStep(w, r, engine);
      if r in w.disk.sessions {
        ResumeStep(w, r, engine);
      }
      var started := if r in w.disk.sessions then ResumeRun(w, r, engine) else LaunchRun(w, r, engine);
      EndTrips(started.0, x, OFailed, engine);
      TrippedFrom(w, started.0, Reattach(w, n, r, engine), x);
    }
  }

  lemma TrippedFrom(w: World, v: World, u: World, x: (NodeId, RunId))
    requires v.camp == w.camp && EngineStep(w, v, x.1)
    ensures OthersKept(w, v, x.1) && (Tripped(v, u, x) ==> Tripped(w, u, x))
  {
  }

  // ── the list ────────────────────────────────────────────────────────────────

  /** The world as entry `i` finds it. */
  ghost function Before(w: World, runs: seq<(NodeId, RunId)>, i: nat, engine: Engine): (v: World)
    requires Defined(w.camp) && i <= |runs|
    ensures Defined(v.camp) && v.camp.def == w.camp.def
  {
    ReattachAll(w, runs[..i], engine)
  }

  lemma BeforeNext(w: World, runs: seq<(NodeId, RunId)>, i: nat, engine: Engine)
    requires Defined(w.camp) && 0 < i <= |runs|
    ensures Before(w, runs, i, engine) == Before(Reattach(w, runs[0].0, runs[0].1, engine), runs[1..], i - 1, engine)
  {
    assert runs[..i][1..] == runs[1..][..i - 1] && runs[..i][0] == runs[0];
  }

  /** The engine is asked to launch the entry's run although its node is cancelled. */
  ghost predicate LaunchesCancelled(w: World, x: (NodeId, RunId), engine: Engine)
    requires Defined(w.camp)
  {
    StatusIn(w.camp, x.0) == Cancelled && x.1 !in w.disk.sessions && Reattach(w, x.0, x.1, engine).calls != w.calls
  }

  ghost predicate SomeFails(w: World, runs: seq<(NodeId, RunId)>, i: nat, engine: Engine)
    requires Defined(w.camp) && i <= |runs|
  {
    exists k: nat :: k < i && Fails(Before(w, runs, k, engine), runs[k], engine)
  }

  /** After the failure the rest of the list belongs to cancelled nodes, none of them in flight. */
  ghost predicate CancelledList(w: World, runs: seq<(NodeId, RunId)>) {
    (forall i :: 0 <= i < |runs| ==> runs[i].0 in w.camp.nodeStatus && StatusIn(w.camp, runs[i].0) == Cancelled && runs[i].1 !in w.inFlight) &&
    forall i, j :: 0 <= i < j < |runs| ==> runs[i].1 != runs[j].1
  }

  lemma ReattachEnded(w: World, x: (NodeId, RunId), engine: Engine)
    requires Defined(w.camp) && x.0 in w.camp.nodeStatus && StatusIn(w.camp, x.0) == Cancelled
    ensures var u := Reattach(w, x.0, x.1, engine);
            u.camp == w.camp && OthersKept(w, u, x.1) && (forall q :: q != x.1 ==> (q in u.inFlight <==> q in w.inFlight)) &&
            (x.1 !in w.disk.sessions ==> (u.calls != w.calls <==> x.1 !in w.inFlight))
  {
    hide LaunchRun, ResumeRun, WellFormed, EndNode;
    AskedLaunch(w, x.1, engine);
    AskedResume(w, x.1, engine);
  }

  lemma AskedLaunch(w: World, r: RunId, engine: Engine)
    ensures var u := LaunchRun(w, r, engine).0;
            OthersKept(w, u, r) && (forall q :: q != r ==> (q in u.inFlight <==> q in w.inFlight)) &&
            (r !in w.disk.sessions ==> (u.calls != w.calls <==> r !in w.inFlight))
  {
  }

  lemma AskedResume(w: World, r: RunId, engine: Engine)
    ensures var u := ResumeRun(w, r, engine).0;
            OthersKept(w, u, r) && forall q :: q != r ==> (q in u.inFlight <==> q in w.inFlight)
  {
  }

  lemma {:induction false} CancelledEntry(w: World, runs: seq<(NodeId, RunId)>, i: nat, engine: Engine)
    requires Defined(w.camp) && i < |runs| && CancelledList(w, runs)
    ensures LaunchesCancelled(Before(w, runs, i, engine), runs[i], engine) <==> runs[i].1 !in w.disk.sessions
    decreases i
  {
    var x := runs[0];
    ReattachEnded(w, x, engine);
    if i == 0 {
      assert runs[..0] == [];
    } else {
      var u := Reattach(w, x.0, x.1, engine);
      BeforeNext(w, runs, i, engine);
      CancelledEntry(u, runs[1..], i - 1, engine);
    }
  }

  lemma SomeFailsNext(w: World, runs: seq<(NodeId, RunId)>, i: nat, engine: Engine)
    requires Defined(w.camp) && 0 < i <= |runs|
    ensures SomeFails(w, runs, i, engine)
            <==> Fails(w, runs[0], engine) || SomeFails(Reattach(w, runs[0].0, runs[0].1, engine), runs[1..], i - 1, engine)
  {
    hide Fails, Reattach, ReattachAll;
    var u := Reattach(w, runs[0].0, runs[0].1, engine);
    BeforeFirst(w, runs, engine);
    if k: nat :| k < i && Fails(Before(w, runs, k, engine), runs[k], engine) {
      if k > 0 {
        BeforeNext(w, runs, k, engine);
        assert runs[1..][k - 1] == runs[k];
        assert Fails(Before(u, runs[1..], k - 1, engine), runs[1..][k - 1], engine);
      }
    }
    if SomeFails(u, runs[1..], i - 1, engine) {
      var k: nat :| k < i - 1 && Fails(Before(u, runs[1..], k, engine), runs[1..][k], engine);
      BeforeNext(w, runs, k + 1, engine);
      assert Fails(Before(w, runs, k + 1, engine), runs[k + 1], engine);
    }
    if Fails(w, runs[0], engine) {
      assert Fails(Before(w, runs, 0, engine), runs[0], engine);
    }
  }

  lemma BeforeFirst(w: World, runs: seq<(NodeId, RunId)>, engine: Engine)
    requires Defined(w.camp)
    ensures Before(w, runs, 0, engine) == w
  {
  }

  /** The entries after one that did not fail, and after one that did. */
  lemma EntryDone(w: World, runs: seq<(NodeId, RunId)>, engine: Engine)
    requires Defined(w.camp) && w.camp.def.policy.FailFast? && runs != [] && RunningList(w.camp, runs)
    ensures var u := Reattach(w, runs[0].0, runs[0].1, engine);
            (forall i :: 1 <= i < |runs| ==> (runs[i].1 in u.disk.sessions <==> runs[i].1 in w.disk.sessions)) &&
            if Fails(w, runs[0], engine) then CancelledList(u, runs[1..]) else RunningList(u.camp, runs[1..])
  {
    hide Reattach, Fails, WellFormed;
    var x := runs[0];
    assert Attached(w.camp, x);
    ReattachEither(w, x, engine);
    assert forall i :: 1 <= i < |runs| ==> Attached(w.camp, runs[i]) && runs[i].0 != x.0 && runs[i].1 != x.1;
  }

  /** The exact condition, over any list a resume can make, under fail-fast: an entry is launched although
      its node is cancelled if and only if its run has no session and an entry before it failed.
      Whether the run was in flight plays no part: the failure takes every live run out of flight. */
  lemma {:induction false} ReattachLaunches(w: World, runs: seq<(NodeId, RunId)>, i: nat, engine: Engine)
    requires Defined(w.camp) && w.camp.def.policy.FailFast? && RunningList(w.camp, runs) && i < |runs|
    ensures LaunchesCancelled(Before(w, runs, i, engine), runs[i], engine)
            <==> runs[i].1 !in w.disk.sessions && SomeFails(w, runs, i, engine)
    decreases i
  {
    hide Reattach, Fails, WellFormed;
    BeforeFirst(w, runs, engine);
    if i == 0 {
      assert Attached(w.camp, runs[0]);
    } else {
      var u := Reattach(w, runs[0].0, runs[0].1, engine);
      EntryDone(w, runs, engine);
      BeforeNext(w, runs, i, engine);
      SomeFailsNext(w, runs, i, engine);
      assert runs[1..][i - 1] == runs[i];
      if Fails(w, runs[0], engine) {
        CancelledEntry(u, runs[1..], i - 1, engine);
      } else {
        ReattachLaunches(u, runs[1..], i - 1, engine);
      }
    }
  }
}
