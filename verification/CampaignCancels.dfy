/** Cancelling: a cancel, an abort and a fail-fast failure close every run of a live node, and touch
    no other. */
module CampaignCancels {
  import opened Names
  import opened CampaignGraph
  import opened CampaignCycle
  import opened CampaignModel
  import opened CampaignHandlers
  import opened CampaignInvariants
  import opened CampaignSafety
  import opened CampaignSteps
  import opened CampaignKeeps
  import opened CampaignResume
  import opened CampaignRuns
  import opened CampaignCrash
  import opened CampaignReattach

  // ── a list of runs ──────────────────────────────────────────────────────────

  /** A run that has a session which can still move. */
  predicate OpenRun(sessions: Sessions, r: RunId) {
    r in sessions && !sessions[r].SCompleted? && !sessions[r].SFailed? && !sessions[r].SCancelled?
  }

  /** How many of the first `j` runs are open: so many calls come before that for the next. */
  function OpenBefore(sessions: Sessions, runs: seq<(NodeId, RunId)>, j: nat): nat
    requires j <= |runs|
  {
    if j == 0 then 0 else OpenBefore(sessions, runs, j - 1) + if OpenRun(sessions, runs[j - 1].1) then 1 else 0
  }

  ghost predicate DistinctRuns(runs: seq<(NodeId, RunId)>) {
    forall i, j :: 0 <= i < j < |runs| ==> runs[i].1 != runs[j].1
  }

  /** The session of `r` is as it was, and so is whether `r` is in flight. */
  predicate Untouched(w: World, u: World, r: RunId) {
    (r in u.disk.sessions <==> r in w.disk.sessions) && (r in w.disk.sessions && r in u.disk.sessions ==> u.disk.sessions[r] == w.disk.sessions[r]) &&
    (r in u.inFlight <==> r in w.inFlight)
  }

  /** `r` is out of flight; its session was open if and only if the engine was asked, and then it is
      cancelled, or as it was if the engine refused at that very call. */
  predicate ClosedAt(w: World, u: World, r: RunId, call: nat, engine: Engine) {
    r !in u.inFlight && (r in u.disk.sessions <==> r in w.disk.sessions) &&
    (r in w.disk.sessions && r in u.disk.sessions ==>
      u.disk.sessions[r] == if OpenRun(w.disk.sessions, r) && engine(call).ok then SCancelled else w.disk.sessions[r])
  }

  lemma {:induction false} OthersUntouched(w: World, runs: seq<(NodeId, RunId)>, engine: Engine, r: RunId)
    requires forall x :: x in runs ==> x.1 != r
    ensures Untouched(w, CancelRuns(w, runs, engine), r)
    decreases |runs|
  {
    if runs != [] {
      assert runs[0] in runs && forall x :: x in runs[1..] ==> x in runs;
      var u := CancelRun(w, runs[0].1, engine).0;
      OthersUntouched(u.(inFlight := u.inFlight - {runs[0].1}), runs[1..], engine, r);
    }
  }

  lemma {:induction false} OpenShift(w: Sessions, u: Sessions, runs: seq<(NodeId, RunId)>, j: nat)
    requires 0 < j <= |runs| && forall i :: 0 < i < |runs| ==> (OpenRun(w, runs[i].1) <==> OpenRun(u, runs[i].1))
    ensures OpenBefore(w, runs, j) == OpenBefore(u, runs[1..], j - 1) + if OpenRun(w, runs[0].1) then 1 else 0
    decreases j
  {
    if j > 1 {
      OpenShift(w, u, runs, j - 1);
      assert runs[1..][j - 2] == runs[j - 1];
    }
  }

  /** One run cancelled, and taken out of flight. */
  function First(w: World, r: RunId, engine: Engine): World {
    var u := CancelRun(w, r, engine).0;
    u.(inFlight := u.inFlight - {r})
  }

  lemma FirstClosed(w: World, r: RunId, engine: Engine)
    ensures var u := First(w, r, engine);
            ClosedAt(w, u, r, w.calls, engine) && u.calls == w.calls + (if OpenRun(w.disk.sessions, r) then 1 else 0) &&
            forall q :: q != r ==> Untouched(w, u, q)
  {
  }

  lemma TailDistinct(runs: seq<(NodeId, RunId)>)
    requires DistinctRuns(runs) && runs != []
    ensures DistinctRuns(runs[1..]) && forall x :: x in runs[1..] ==> x.1 != runs[0].1
  {
  }

  /** Every run of the list is out of flight afterwards; each open one is cancelled by a call of its own, in
      the order of the list, unless the engine refuses that call. */
  lemma {:induction false} CancelsEach(w: World, runs: seq<(NodeId, RunId)>, engine: Engine, j: nat)
    requires DistinctRuns(runs) && j < |runs|
    ensures var u := CancelRuns(w, runs, engine);
            ClosedAt(w, u, runs[j].1, w.calls + OpenBefore(w.disk.sessions, runs, j), engine) &&
            u.calls == w.calls + OpenBefore(w.disk.sessions, runs, |runs|)
    decreases |runs|
  {
    hide CancelRun, DistinctRuns, OpenBefore, ClosedAt, Untouched, First;
    var r := runs[0].1;
    var v := First(w, r, engine);
    CancelsFirst(w, runs, engine);
    FirstClosed(w, r, engine);
    TailDistinct(runs);
    FirstOpens(w, v, runs);
    OpenShift(w.disk.sessions, v.disk.sessions, runs, |runs|);
    if |runs| > 1 {
      CancelsEach(v, runs[1..], engine, if j == 0 then 0 else j - 1);
    } else {
      NoRunsNoCalls(v, engine);
      assert runs[1..] == [];
    }
    if j == 0 {
      OthersUntouched(v, runs[1..], engine, r);
      ClosedOn(w, v, CancelRuns(v, runs[1..], engine), r, engine);
      NoneBefore(w.disk.sessions, runs);
    } else {
      OpenShift(w.disk.sessions, v.disk.sessions, runs, j);
      assert runs[1..][j - 1] == runs[j] && runs[j] in runs[1..];
      ClosedLater(w, v, CancelRuns(v, runs[1..], engine), runs[j].1, v.calls + OpenBefore(v.disk.sessions, runs[1..], j - 1), engine);
    }
  }

  lemma CancelsFirst(w: World, runs: seq<(NodeId, RunId)>, engine: Engine)
    requires runs != []
    ensures CancelRuns(w, runs, engine) == CancelRuns(First(w, runs[0].1, engine), runs[1..], engine)
  {
  }

  lemma NoneBefore(sessions: Sessions, runs: seq<(NodeId, RunId)>)
    ensures OpenBefore(sessions, runs, 0) == 0
  {
  }

  lemma NoRunsNoCalls(w: World, engine: Engine)
    ensures CancelRuns(w, [], engine).calls == w.calls + OpenBefore(w.disk.sessions, [], 0)
  {
  }

  lemma FirstOpens(w: World, v: World, runs: seq<(NodeId, RunId)>)
    requires runs != [] && (forall x :: x in runs[1..] ==> x.1 != runs[0].1) && forall q :: q != runs[0].1 ==> Untouched(w, v, q)
    ensures forall i :: 0 < i < |runs| ==> (OpenRun(w.disk.sessions, runs[i].1) <==> OpenRun(v.disk.sessions, runs[i].1))
  {
    forall i | 0 < i < |runs| ensures OpenRun(w.disk.sessions, runs[i].1) <==> OpenRun(v.disk.sessions, runs[i].1) {
      assert runs[1..][i - 1] == runs[i] && runs[i] in runs[1..];
      assert Untouched(w, v, runs[i].1);
    }
  }

  /** Closed, and touched no more. */
  lemma ClosedOn(w: World, v: World, u: World, r: RunId, engine: Engine)
    requires ClosedAt(w, v, r, w.calls, engine) && Untouched(v, u, r)
    ensures ClosedAt(w, u, r, w.calls, engine)
  {
  }

  /** Untouched, and closed later. */
  lemma ClosedLater(w: World, v: World, u: World, r: RunId, call: nat, engine: Engine)
    requires Untouched(w, v, r) && ClosedAt(v, u, r, call, engine)
    ensures ClosedAt(w, u, r, call, engine)
  {
  }

  // ── the runs of the live nodes ──────────────────────────────────────────────

  /** `n` executes, waits at its gate, or waits for a slot to resume, under a recorded run. */
  predicate HasRun(c: Campaign, n: NodeId) {
    n in c.nodeStatus && n in c.nodeRunId &&
    (c.nodeStatus[n] == Running || c.nodeStatus[n] == AwaitingHuman || c.nodeStatus[n] == ReadyToResume)
  }

  /** `runs` lists the runs of the live nodes of `c`, each once. */
  ghost predicate LiveRuns(c: Campaign, runs: seq<(NodeId, RunId)>) {
    DistinctRuns(runs) &&
    (forall x :: x in runs ==> HasRun(c, x.0) && c.nodeRunId[x.0] == x.1) &&
    forall n :: HasRun(c, n) ==> (n, c.nodeRunId[n]) in runs
  }

  /** The runs in `runs` are closed, each by its own call, and no other run is touched. */
  ghost predicate Closes(w: World, u: World, runs: seq<(NodeId, RunId)>, engine: Engine) {
    u.calls == w.calls + OpenBefore(w.disk.sessions, runs, |runs|) &&
    (forall j :: 0 <= j < |runs| ==> ClosedAt(w, u, runs[j].1, w.calls + OpenBefore(w.disk.sessions, runs, j), engine)) &&
    forall r :: (forall x :: x in runs ==> x.1 != r) ==> Untouched(w, u, r)
  }

  /** The runs of the live nodes of `c` are closed, in some order, and no other run is touched. */
  ghost predicate ClosesLive(c: Campaign, w: World, u: World, engine: Engine) {
    exists runs: seq<(NodeId, RunId)> :: LiveRuns(c, runs) && Closes(w, u, runs, engine)
  }

  lemma ListsLive(c: Campaign)
    requires RunIdsOk(c)
    ensures LiveRuns(c, RunsOf(c, LIVE))
  {
    var runs := RunsOf(c, LIVE);
    RunsAre(c, Ordered(c.nodeStatus.Keys), LIVE);
    RunsDistinct(c, c.nodeStatus.Keys, LIVE);
    hide Runs, Ordered;
    forall i, j | 0 <= i < j < |runs| ensures runs[i].1 != runs[j].1 {
      assert runs[i] in runs && runs[j] in runs;
      assert IsAttempt(c, runs[i].0, runs[i].1) && IsAttempt(c, runs[j].0, runs[j].1);
    }
  }

  lemma CancelsClose(w: World, runs: seq<(NodeId, RunId)>, engine: Engine)
    requires DistinctRuns(runs)
    ensures Closes(w, CancelRuns(w, runs, engine), runs, engine)
  {
    hide CancelRuns, DistinctRuns, OpenBefore, ClosedAt, Untouched;
    var u := CancelRuns(w, runs, engine);
    forall j | 0 <= j < |runs| ensures ClosedAt(w, u, runs[j].1, w.calls + OpenBefore(w.disk.sessions, runs, j), engine) {
      CancelsEach(w, runs, engine, j);
    }
    if runs == [] {
      NoRunsNoCalls(w, engine);
    } else {
      CancelsEach(w, runs, engine, 0);
    }
    forall r | forall x :: x in runs ==> x.1 != r ensures Untouched(w, u, r) {
      OthersUntouched(w, runs, engine, r);
    }
  }

  /** Sessions, workers and calls are the same. */
  predicate SameRuns(w: World, v: World) {
    v.disk.sessions == w.disk.sessions && v.inFlight == w.inFlight && v.calls == w.calls
  }

  lemma ClosesSame(c: Campaign, d: Campaign, w: World, v: World, u: World, x: World, engine: Engine)
    requires ClosesLive(c, w, u, engine) && SameRuns(w, v) && SameRuns(u, x) && d.nodeStatus == c.nodeStatus && d.nodeRunId == c.nodeRunId
    ensures ClosesLive(d, v, x, engine)
  {
    var runs: seq<(NodeId, RunId)> :| LiveRuns(c, runs) && Closes(w, u, runs, engine);
    SameLive(c, d, runs);
    SameCloses(w, v, u, x, runs, engine);
  }

  lemma SameLive(c: Campaign, d: Campaign, runs: seq<(NodeId, RunId)>)
    requires LiveRuns(c, runs) && d.nodeStatus == c.nodeStatus && d.nodeRunId == c.nodeRunId
    ensures LiveRuns(d, runs)
  {
    hide DistinctRuns;
    assert forall n :: HasRun(d, n) <==> HasRun(c, n);
  }

  lemma SameCloses(w: World, v: World, u: World, x: World, runs: seq<(NodeId, RunId)>, engine: Engine)
    requires Closes(w, u, runs, engine) && SameRuns(w, v) && SameRuns(u, x)
    ensures Closes(v, x, runs, engine)
  {
    hide OpenBefore;
    forall j | 0 <= j < |runs| ensures ClosedAt(v, x, runs[j].1, v.calls + OpenBefore(v.disk.sessions, runs, j), engine) {
      assert ClosedAt(w, u, runs[j].1, w.calls + OpenBefore(w.disk.sessions, runs, j), engine);
    }
    forall r | forall y :: y in runs ==> y.1 != r ensures Untouched(v, x, r) {
      assert Untouched(w, u, r);
    }
  }

  /** The engine refused to end the run: its session is as it was. */
  ghost predicate Refused(w: World, u: World, r: RunId, engine: Engine) {
    r in w.disk.sessions && r in u.disk.sessions && u.disk.sessions[r] == w.disk.sessions[r] &&
    exists k :: w.calls <= k < u.calls && !engine(k).ok
  }

  /** What a reader of the outcome sees: the run of every live node is out of flight, and has no session, an
      ended one, or one that the engine refused to end. */
  lemma LiveClosed(c: Campaign, w: World, u: World, engine: Engine, n: NodeId)
    requires ClosesLive(c, w, u, engine) && HasRun(c, n)
    ensures var r := c.nodeRunId[n];
            r !in u.inFlight &&
            (r !in u.disk.sessions || u.disk.sessions[r].Terminal() || Refused(w, u, r, engine))
  {
    hide OpenBefore, ClosedAt, OpenRun;
    var r := c.nodeRunId[n];
    var runs: seq<(NodeId, RunId)> :| LiveRuns(c, runs) && Closes(w, u, runs, engine);
    assert (n, r) in runs;
    var j :| 0 <= j < |runs| && runs[j] == (n, r);
    hide LiveRuns;
    var k := w.calls + OpenBefore(w.disk.sessions, runs, j);
    assert ClosedAt(w, u, runs[j].1, k, engine);
    hide Closes;
    if OpenRun(w.disk.sessions, r) {
      OpenRises(w.disk.sessions, runs, j, |runs|);
    }
    ClosedReads(w, u, r, k, engine);
  }

  lemma ClosedReads(w: World, u: World, r: RunId, k: nat, engine: Engine)
    requires ClosedAt(w, u, r, k, engine) && (OpenRun(w.disk.sessions, r) ==> w.calls <= k < u.calls)
    ensures r !in u.inFlight
    ensures r !in u.disk.sessions || u.disk.sessions[r].Terminal() || Refused(w, u, r, engine)
  {
    if OpenRun(w.disk.sessions, r) && !engine(k).ok {
      assert Refused(w, u, r, engine);
    }
  }

  lemma {:induction false} OpenRises(sessions: Sessions, runs: seq<(NodeId, RunId)>, j: nat, k: nat)
    requires j < k <= |runs| && OpenRun(sessions, runs[j].1)
    ensures OpenBefore(sessions, runs, j) < OpenBefore(sessions, runs, k)
    decreases k
  {
    if k > j + 1 {
      OpenRises(sessions, runs, j, k - 1);
    }
  }

  // ── fail-fast, abort, cancel ────────────────────────────────────────────────

  /** Every node that had not ended is cancelled, the others are as they were. */
  ghost predicate AllEnded(c: Campaign, d: Campaign) {
    d.nodeStatus.Keys == c.nodeStatus.Keys && d.nodeRunId == c.nodeRunId && d.def == c.def &&
    forall n :: n in c.nodeStatus ==>
      d.nodeStatus[n] == if c.nodeStatus[n] == Completed || c.nodeStatus[n] == Failed || c.nodeStatus[n] == Blocked then c.nodeStatus[n] else Cancelled
  }

  lemma FailFastCloses(w: World, engine: Engine)
    requires RunIdsOk(w.camp)
    ensures var u := FailFastAll(w, engine);
            ClosesLive(w.camp, w, u, engine) && AllEnded(w.camp, u.camp) && u.camp.failFastTripped && u.disk.saved == Some(u.camp)
  {
    hide CancelRuns, RunsOf, RunIdsOk, LiveRuns, Closes;
    var x := Persist(w.(camp := CancelNonTerminal(w.camp).(failFastTripped := true)));
    var runs := RunsOf(w.camp, LIVE);
    ListsLive(w.camp);
    DistinctOf(w.camp, runs);
    CancelsClose(x, runs, engine);
    CancelRunsSaved(x, runs, engine);
    assert ClosesLive(w.camp, x, CancelRuns(x, runs, engine), engine);
    ClosesSame(w.camp, w.camp, x, w, FailFastAll(w, engine), FailFastAll(w, engine), engine);
  }

  lemma DistinctOf(c: Campaign, runs: seq<(NodeId, RunId)>)
    requires LiveRuns(c, runs)
    ensures DistinctRuns(runs)
  {
  }

  /** Under fail-fast the end of a node that did not complete closes every other live run. */
  lemma FailureCloses(w: World, n: NodeId, outcome: Outcome, engine: Engine)
    requires Defined(w.camp) && RunIdsOk(w.camp) && n in w.camp.nodeStatus && w.camp.nodeStatus[n] != Pending
    requires w.camp.def.policy.FailFast? && (outcome == OFailed || outcome == OCancelled)
    ensures var c, u := SetNode(w.camp, n, if outcome == OFailed then Failed else Cancelled), EndNode(w, n, outcome, engine);
            ClosesLive(c, w, u, engine) && AllEnded(c, u.camp) && u.disk.saved == Some(u.camp)
  {
    hide FailFastAll, WellFormed, ClosesLive, AllEnded;
    var d := SetNode(w.camp, n, outcome.AsNodeStatus());
    RunIdsStep(w.camp, d);
    var x := Persist(w.(camp := d));
    FailFastCloses(x, engine);
    ClosesSame(d, d, x, w, FailFastAll(x, engine), FailFastAll(x, engine), engine);
  }

  /** When every node has ended, nothing is filled: sessions, workers and calls stay. */
  lemma EndedFills(w: World, engine: Engine)
    requires Defined(w.camp) && forall n :: n in w.camp.nodeStatus ==> w.camp.nodeStatus[n].Terminal()
    ensures var u := PromoteAndFill(w, engine);
            SameRuns(w, u) && u.camp.nodeStatus == w.camp.nodeStatus && u.camp.nodeRunId == w.camp.nodeRunId && u.disk.saved == Some(u.camp)
  {
    hide WellFormed, FinalizeIfDone, PromoteReady, Fill;
    PromoteDefined(w.camp);
    EndedPromotes(w.camp);
    var x := Persist(w.(camp := PromoteReady(w.camp)));
    NothingFills(x, engine);
    FinalizedNodes(x.camp);
  }

  lemma EndedPromotes(c: Campaign)
    requires Defined(c) && forall n :: n in c.nodeStatus ==> c.nodeStatus[n].Terminal()
    ensures var d := PromoteReady(c); d.nodeStatus == c.nodeStatus && d.nodeRunId == c.nodeRunId
  {
    hide WellFormed, PromoteReady;
    PromotesTo(c);
    PromoteShape(c);
  }

  lemma NothingFills(x: World, engine: Engine)
    requires Defined(x.camp) && forall n :: n in x.camp.nodeStatus ==> x.camp.nodeStatus[n].Terminal()
    ensures TryFill(x, engine) == x
  {
    hide WellFormed, Dispatch, Dispatchable;
    DispatchableKnown(x.camp);
    assert Startable(x.camp) == {};
  }

  lemma FinalizedNodes(c: Campaign)
    ensures var d := FinalizeIfDone(c); d.nodeStatus == c.nodeStatus && d.nodeRunId == c.nodeRunId && d.def == c.def
  {
    hide Quiet, AllCompleted;
  }

  lemma AllEndedTerminal(c: Campaign, d: Campaign)
    requires AllEnded(c, d)
    ensures forall n :: n in d.nodeStatus ==> d.nodeStatus[n].Terminal()
  {
  }

  /** A live node fails under fail-fast: its turn closes the runs of all other live nodes, ends every node, and
      starts none. */
  lemma FailedTurnCloses(w: World, r: RunId, outcome: Outcome, engine: Engine)
    requires Rest(false, false, w) && w.disk.saved.Some? && Finished(r, outcome) in w.inbox
    requires outcome == OFailed || outcome == OCancelled
    requires var c := w.disk.saved.value;
             c.def.policy.FailFast? && !Ended(c.status) && r.node in c.nodeStatus && c.nodeStatus[r.node].Live() && c.nodeRunId[r.node] == r
    ensures var c := SetNode(w.disk.saved.value, r.node, if outcome == OFailed then Failed else Cancelled);
            var u := Step(w, Does(Deliver(Finished(r, outcome))), engine);
            ClosesLive(c, w, u, engine) && u.disk.saved.Some? && AllEnded(c, u.disk.saved.value)
  {
    hide WellFormed, ClosesLive, AllEnded, PromoteAndFill, EndNode, CampOk;
    var v := Load(Taken(w, Finished(r, outcome)));
    FoundLive(w, r);
    var c := SetNode(v.camp, r.node, if outcome == OFailed then Failed else Cancelled);
    FailureCloses(v, r.node, outcome, engine);
    var x := EndNode(v, r.node, outcome, engine);
    AllEndedTerminal(c, x.camp);
    EndedFills(x, engine);
    var u := PromoteAndFill(x, engine);
    FinishedIs(w, r, outcome, engine);
    ClosesSame(c, c, v, w, x, Fresh(u), engine);
    SameEnded(c, x.camp, u.camp);
  }

  lemma SameEnded(c: Campaign, d: Campaign, e: Campaign)
    requires AllEnded(c, d) && e.nodeStatus == d.nodeStatus && e.nodeRunId == d.nodeRunId && e.def == d.def
    ensures AllEnded(c, e)
  {
  }

  lemma FoundLive(w: World, r: RunId)
    requires Rest(false, false, w) && w.disk.saved.Some?
    requires var c := w.disk.saved.value; !Ended(c.status) && r.node in c.nodeStatus && c.nodeStatus[r.node].Live() && c.nodeRunId[r.node] == r
    ensures Defined(w.disk.saved.value) && RunIdsOk(w.disk.saved.value) && FindByRun(w.disk.saved.value, r) == Some(r.node)
  {
    var c := w.disk.saved.value;
    assert Good(Promise(Some(c), false, false, {}), Load(w));
    FoundOwner(c, r);
    var owners := set n | n in c.nodeRunId && c.nodeRunId[n] == r;
    assert r.node in owners;
  }

  lemma FinishedIs(w: World, r: RunId, outcome: Outcome, engine: Engine)
    requires Rest(false, false, w) && w.disk.saved.Some? && Finished(r, outcome) in w.inbox && Defined(w.disk.saved.value)
    requires FindByRun(w.disk.saved.value, r) == Some(r.node) && StatusIn(w.disk.saved.value, r.node).Live() && r.node in w.disk.saved.value.nodeStatus
    ensures Step(w, Does(Deliver(Finished(r, outcome))), engine)
         == Fresh(PromoteAndFill(EndNode(Load(Taken(w, Finished(r, outcome))), r.node, outcome, engine), engine))
  {
    hide Rest, WellFormed, PromoteAndFill, EndNode, FindByRun;
  }

  lemma RestRuns(w: World)
    requires Rest(false, false, w) && w.disk.saved.Some?
    ensures RunIdsOk(w.disk.saved.value) && Defined(w.disk.saved.value)
  {
    assert Good(Promise(Some(w.disk.saved.value), false, false, {}), Load(w));
  }

  /** An accepted cancel closes the runs of all live nodes and no other, and ends every node that had not. */
  lemma CancelCloses(w: World, engine: Engine)
    requires Rest(false, false, w) && w.disk.saved.Some?
    requires var s := w.disk.saved.value.status; s.CRunning? || s.CPaused? || s.CPartiallyCompleted?
    ensures var c, u := w.disk.saved.value, Step(w, Does(Order(Cancel)), engine);
            ClosesLive(c, w, u, engine) && u.disk.saved.Some? && u.disk.saved.value.status == CCancelled && AllEnded(c, u.disk.saved.value)
  {
    RestRuns(w);
    hide Rest, WellFormed, CancelRuns, RunsOf, RunIdsOk, ClosesLive, AllEnded, CancelNonTerminal, Step;
    var c := w.disk.saved.value;
    var d := c.(status := CCancelled);
    StatusRuns(c, d);
    var x := Cancelling(w);
    CancellingCloses(w, x, d, engine);
    CancelStepIs(w, engine);
    ClosesSame(d, c, x, w, CancelRuns(x, RunsOf(d, LIVE), engine), Step(w, Does(Order(Cancel)), engine), engine);
    CancelEnds(c);
  }

  /** The world a cancel hands to the engine: both its writes are made. */
  function Cancelling(w: World): World
    requires w.disk.saved.Some?
  {
    var d := w.disk.saved.value.(status := CCancelled);
    var u := Persist(Load(w).(camp := d));
    Persist(u.(camp := CancelNonTerminal(d)))
  }

  lemma CancelEnds(c: Campaign)
    ensures AllEnded(c, CancelNonTerminal(c.(status := CCancelled)))
  {
  }

  lemma CancellingCloses(w: World, x: World, d: Campaign, engine: Engine)
    requires w.disk.saved.Some? && RunIdsOk(d) && x == Cancelling(w)
    ensures var u := CancelRuns(x, RunsOf(d, LIVE), engine); ClosesLive(d, x, u, engine) && u.disk.saved == x.disk.saved && SameRuns(w, x)
  {
    hide CancelRuns, RunsOf, RunIdsOk, LiveRuns, Closes, CancelNonTerminal;
    var runs := RunsOf(d, LIVE);
    ListsLive(d);
    DistinctOf(d, runs);
    CancelsClose(x, runs, engine);
    CancelRunsSaved(x, runs, engine);
  }

  lemma StatusRuns(c: Campaign, d: Campaign)
    requires RunIdsOk(c) && d == c.(status := d.status)
    ensures RunIdsOk(d)
  {
    RunIdsStep(c, d);
  }

  lemma CancelStepIs(w: World, engine: Engine)
    requires Rest(false, false, w) && w.disk.saved.Some? && !Ended(w.disk.saved.value.status)
    ensures Step(w, Does(Order(Cancel)), engine)
         == Fresh(CancelRuns(Cancelling(w), RunsOf(w.disk.saved.value.(status := CCancelled), LIVE), engine))
  {
    hide Rest, WellFormed, CancelRuns, RunsOf, CancelNonTerminal;
  }

  /** So does an abort at a failed node's gate. */
  lemma AbortCloses(w: World, n: NodeId, engine: Engine)
    requires Rest(false, false, w) && w.disk.saved.Some? && n in w.disk.saved.value.gates && n in w.disk.saved.value.nodeStatus
    ensures var c, u := w.disk.saved.value, Step(w, Does(Order(Abort(n))), engine);
            ClosesLive(c, w, u, engine) && u.disk.saved.Some? && AllEnded(c, u.disk.saved.value)
  {
    RestRuns(w);
    hide Rest, WellFormed, ClosesLive, AllEnded, RunIdsOk, FailFastAll;
    var v := Load(w);
    var x := v.(camp := Reopened(v.camp, n));
    ReopenedRuns(v.camp, n);
    FailFastCloses(x, engine);
    var u := Finalize(FailFastAll(x, engine));
    AbortStepIs(w, n, engine);
    ClosesSame(x.camp, v.camp, x, w, FailFastAll(x, engine), Fresh(u), engine);
    AbortedEnds(v.camp, x.camp, FailFastAll(x, engine).camp);
  }

  lemma ReopenedRuns(c: Campaign, n: NodeId)
    requires RunIdsOk(c)
    ensures RunIdsOk(Reopened(c, n))
  {
    RunIdsStep(c, Reopened(c, n));
  }

  lemma AbortStepIs(w: World, n: NodeId, engine: Engine)
    requires Rest(false, false, w) && w.disk.saved.Some? && Gated(w.disk.saved.value, n)
    ensures Step(w, Does(Order(Abort(n))), engine) == Fresh(Finalize(FailFastAll(Load(w).(camp := Reopened(Load(w).camp, n)), engine)))
  {
    hide Rest, WellFormed, FailFastAll, Finalize;
  }

  lemma AbortedEnds(c: Campaign, x: Campaign, d: Campaign)
    requires AllEnded(x, d) && x.nodeStatus == c.nodeStatus && x.nodeRunId == c.nodeRunId && x.def == c.def
    ensures AllEnded(c, FinalizeIfDone(d))
  {
    hide Quiet, AllCompleted;
  }
}
