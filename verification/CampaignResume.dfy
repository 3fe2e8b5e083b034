/** Resume: from any state a crash can leave, every live node is tied to its run again. */
module CampaignResume {
  import opened Names
  import opened CampaignGraph
  import opened CampaignCycle
  import opened CampaignModel
  import opened CampaignHandlers
  import opened CampaignInvariants
  import opened CampaignSafety
  import opened CampaignSteps
  import opened CampaignKeeps

  /** Runs and attempts stay; a node's status stays or becomes terminal. */
  ghost predicate Settles(c: Campaign, d: Campaign) {
    d.def == c.def && d.nodeStatus.Keys == c.nodeStatus.Keys && d.nodeRunId == c.nodeRunId && d.nodeAttempt == c.nodeAttempt &&
    forall n :: n in c.nodeStatus ==> d.nodeStatus[n] == c.nodeStatus[n] || d.nodeStatus[n].Terminal()
  }

  /** An entry of a re-attach list: the node has started, and the run is its current attempt's. */
  ghost predicate ListedIn(c: Campaign, n: NodeId, r: RunId) {
    n in c.nodeStatus && !Unstarted(c, n) && n in c.nodeRunId && c.nodeRunId[n] == r && r == DeriveRunId(c, n)
  }

  ghost predicate AllListed(c: Campaign, runs: seq<(NodeId, RunId)>) {
    forall x :: x in runs ==> ListedIn(c, x.0, x.1)
  }

  /** The list fits the campaign in memory and the one the store holds. */
  ghost predicate Listed(w: World, runs: seq<(NodeId, RunId)>) {
    AllListed(w.camp, runs) && w.disk.saved.Some? && AllListed(w.disk.saved.value, runs)
  }

  lemma PolicySettles(w: World, n: NodeId, engine: Engine)
    requires Defined(w.camp) && w.disk.saved == Some(w.camp)
    ensures var u := ApplyFailurePolicy(w, n, engine);
            Settles(w.camp, u.camp) && u.disk.saved.Some? && Settles(w.camp, u.disk.saved.value)
  {
    match w.camp.def.policy
    case FailFast =>
      var x := Persist(w.(camp := CancelNonTerminal(w.camp).(failFastTripped := true)));
      CancelRunsSaved(x, RunsOf(w.camp, LIVE), engine);
    case ContinueIndependent => BlockedAreUnstarted(w.camp);
    case HumanGateOnFailure =>
  }

  lemma ReconcileSettles(w: World, n: NodeId, outcome: Outcome, engine: Engine)
    requires Defined(w.camp) && w.disk.saved.Some?
    ensures var u := ReconcileTerminal(w, n, outcome, engine);
            Settles(w.camp, u.camp) && u.disk.saved.Some? && (Settles(w.camp, u.disk.saved.value) || u.disk.saved == w.disk.saved)
  {
    if n in w.camp.nodeStatus && !StatusIn(w.camp, n).Terminal() {
      var x := Persist(SetNodeW(w, n, outcome.AsNodeStatus()));
      if outcome != OCompleted {
        PolicySettles(x, n, engine);
      }
    }
  }

  lemma ReattachSettles(w: World, n: NodeId, r: RunId, engine: Engine)
    requires Defined(w.camp) && w.disk.saved.Some?
    ensures var u := Reattach(w, n, r, engine);
            Settles(w.camp, u.camp) && u.disk.saved.Some? && (Settles(w.camp, u.disk.saved.value) || u.disk.saved == w.disk.saved)
  {
    if r in w.disk.sessions && w.disk.sessions[r].Terminal() {
      ReconcileSettles(w, n, OutcomeOf(w.disk.sessions[r]), engine);
    } else {
      LaunchStep(w, r, engine);
      if r in w.disk.sessions {
        ResumeStep(w, r, engine);
      }
      var started := if r in w.disk.sessions then ResumeRun(w, r, engine) else LaunchRun(w, r, engine);
      if !started.1 {
        ReconcileSettles(started.0, n, OFailed, engine);
      }
    }
  }

  lemma SettledList(c: Campaign, d: Campaign, runs: seq<(NodeId, RunId)>)
    requires AllListed(c, runs) && Settles(c, d)
    ensures AllListed(d, runs)
  {
    forall x | x in runs ensures ListedIn(d, x.0, x.1) {
      assert ListedIn(c, x.0, x.1);
    }
  }

  // ── one entry ───────────────────────────────────────────────────────────────

  /** A run that is listed and has no session may be launched: its id is still unused. */
  lemma ListedOnce(c: Campaign, n: NodeId, r: RunId, sessions: Sessions, more: Sessions)
    requires OnceCamp(c, sessions) && ListedIn(c, n, r)
    requires forall q :: q in more && q != r ==> q in sessions
    ensures OnceCamp(c, more)
  {
  }

  lemma GoodRelaunch(p: Promise, w: World, n: NodeId, r: RunId, engine: Engine)
    requires Good(p, w) && r !in w.disk.sessions
    requires ListedIn(w.camp, n, r) && w.disk.saved.Some? && ListedIn(w.disk.saved.value, n, r)
    ensures var (u, ok) := LaunchRun(w, r, engine); Good(p, u) && (ok ==> TiedRun(u, r))
  {
    LaunchStep(w, r, engine);
    var u := LaunchRun(w, r, engine).0;
    if p.once {
      assert OnceDisk(w.disk);
      ListedOnce(w.camp, n, r, w.disk.sessions, u.disk.sessions);
      ListedOnce(w.disk.saved.value, n, r, w.disk.sessions, u.disk.sessions);
    }
    GoodStep(p, w, u, r);
  }

  /** A re-attach that succeeded ties the node's run, and one that failed ends the node. */
  lemma GoodStartedAgain(p: Promise, w: World, n: NodeId, r: RunId, started: (World, bool), engine: Engine)
    requires Good(p, started.0) && started.0.camp == w.camp && ListedIn(w.camp, n, r)
    requires started.1 ==> TiedRun(started.0, r)
    ensures Good(Without(p, n), if started.1 then started.0 else ReconcileTerminal(started.0, n, OFailed, engine))
  {
    if started.1 {
      GoodExempt(p, Without(p, n), started.0);
    } else {
      GoodReconcile(p, started.0, n, OFailed, engine);
    }
  }

  lemma GoodReattach(p: Promise, w: World, n: NodeId, r: RunId, engine: Engine)
    requires Good(p, w) && ListedIn(w.camp, n, r) && w.disk.saved.Some? && ListedIn(w.disk.saved.value, n, r)
    ensures Good(Without(p, n), Reattach(w, n, r, engine))
  {
    if r !in w.disk.sessions {
      GoodRelaunch(p, w, n, r, engine);
      GoodStartedAgain(p, w, n, r, LaunchRun(w, r, engine), engine);
    } else if w.disk.sessions[r].Terminal() {
      GoodReconcile(p, w, n, OutcomeOf(w.disk.sessions[r]), engine);
    } else {
      ResumeStep(w, r, engine);
      GoodStep(p, w, ResumeRun(w, r, engine).0, r);
      GoodStartedAgain(p, w, n, r, ResumeRun(w, r, engine), engine);
    }
  }

  ghost predicate GatedOrEnded(c: Campaign, n: NodeId) {
    StatusIn(c, n) in GATED || StatusIn(c, n).Terminal()
  }

  lemma GoodRegate(p: Promise, w: World, n: NodeId, r: RunId, engine: Engine)
    requires Good(p, w) && ListedIn(w.camp, n, r) && GatedOrEnded(w.camp, n)
    ensures Good(Without(p, n), Regate(w, n, r, engine))
  {
    if r in w.disk.sessions && w.disk.sessions[r].Terminal() {
      GoodReconcile(p, w, n, OutcomeOf(w.disk.sessions[r]), engine);
    } else {
      GoodExempt(p, Without(p, n), w);
    }
  }

  // ── the lists ───────────────────────────────────────────────────────────────

  ghost function Nodes(runs: seq<(NodeId, RunId)>): set<NodeId> {
    set x | x in runs :: x.0
  }

  function WithoutAll(p: Promise, s: set<NodeId>): Promise {
    p.(exempt := p.exempt - s)
  }

  /** The first entry done, the rest of the list still fits. */
  lemma ReattachFirst(p: Promise, w: World, runs: seq<(NodeId, RunId)>, engine: Engine)
    requires Good(p, w) && Listed(w, runs) && runs != []
    ensures var u := Reattach(w, runs[0].0, runs[0].1, engine);
            Good(Without(p, runs[0].0), u) && Settles(w.camp, u.camp) && Listed(u, runs[1..])
  {
    var x := runs[0];
    assert x in runs && forall y :: y in runs[1..] ==> y in runs;
    GoodReattach(p, w, x.0, x.1, engine);
    ReattachSettles(w, x.0, x.1, engine);
    var u := Reattach(w, x.0, x.1, engine);
    SettledList(w.camp, u.camp, runs);
    if Settles(w.camp, u.disk.saved.value) {
      SettledList(w.camp, u.disk.saved.value, runs);
    }
  }

  lemma {:induction false} GoodReattachAll(p: Promise, w: World, runs: seq<(NodeId, RunId)>, engine: Engine)
    requires Good(p, w) && Listed(w, runs)
    ensures Good(WithoutAll(p, Nodes(runs)), ReattachAll(w, runs, engine))
    ensures Settles(w.camp, ReattachAll(w, runs, engine).camp)
    decreases |runs|
  {
    if runs == [] {
      assert WithoutAll(p, Nodes(runs)) == p;
    } else {
      var x := runs[0];
      ReattachFirst(p, w, runs, engine);
      GoodReattachAll(Without(p, x.0), Reattach(w, x.0, x.1, engine), runs[1..], engine);
      ExemptSplit(p, runs);
    }
  }

  lemma ExemptSplit(p: Promise, runs: seq<(NodeId, RunId)>)
    requires runs != []
    ensures WithoutAll(Without(p, runs[0].0), Nodes(runs[1..])) == WithoutAll(p, Nodes(runs))
  {
    assert runs == [runs[0]] + runs[1..];
    assert Nodes(runs) == {runs[0].0} + Nodes(runs[1..]);
    assert (p.exempt - {runs[0].0}) - Nodes(runs[1..]) == p.exempt - Nodes(runs);
  }

  ghost predicate AllGatedOrEnded(c: Campaign, runs: seq<(NodeId, RunId)>) {
    forall x :: x in runs ==> GatedOrEnded(c, x.0)
  }

  lemma RegateFirst(p: Promise, w: World, runs: seq<(NodeId, RunId)>, engine: Engine)
    requires Good(p, w) && AllListed(w.camp, runs) && AllGatedOrEnded(w.camp, runs) && runs != [] && w.disk.saved.Some?
    ensures var u := Regate(w, runs[0].0, runs[0].1, engine);
            Good(Without(p, runs[0].0), u) && Settles(w.camp, u.camp) && AllListed(u.camp, runs[1..]) &&
            AllGatedOrEnded(u.camp, runs[1..]) && u.disk.saved.Some?
  {
    var x := runs[0];
    assert x in runs && forall y :: y in runs[1..] ==> y in runs;
    GoodRegate(p, w, x.0, x.1, engine);
    var u := Regate(w, x.0, x.1, engine);
    if x.1 in w.disk.sessions && w.disk.sessions[x.1].Terminal() {
      ReconcileSettles(w, x.0, OutcomeOf(w.disk.sessions[x.1]), engine);
    }
    SettledList(w.camp, u.camp, runs);
    forall y | y in runs[1..] ensures GatedOrEnded(u.camp, y.0) {
      assert GatedOrEnded(w.camp, y.0) && ListedIn(w.camp, y.0, y.1);
    }
  }

  lemma {:induction false} GoodRegateAll(p: Promise, w: World, runs: seq<(NodeId, RunId)>, engine: Engine)
    requires Good(p, w) && AllListed(w.camp, runs) && AllGatedOrEnded(w.camp, runs) && w.disk.saved.Some?
    ensures Good(WithoutAll(p, Nodes(runs)), RegateAll(w, runs, engine))
    ensures Settles(w.camp, RegateAll(w, runs, engine).camp)
    decreases |runs|
  {
    if runs == [] {
      assert WithoutAll(p, Nodes(runs)) == p;
    } else {
      var x := runs[0];
      RegateFirst(p, w, runs, engine);
      GoodRegateAll(Without(p, x.0), Regate(w, x.0, x.1, engine), runs[1..], engine);
      ExemptSplit(p, runs);
    }
  }

  /** A list of runs holds exactly the nodes of the wanted statuses that have a recorded run. */
  lemma {:induction false} RunsAre(c: Campaign, ns: seq<NodeId>, kinds: set<NodeStatus>)
    ensures forall x :: x in Runs(c, ns, kinds) <==>
              x.0 in ns && x.0 in c.nodeStatus && c.nodeStatus[x.0] in kinds && x.0 in c.nodeRunId && x.1 == c.nodeRunId[x.0]
  {
    if ns != [] {
      RunsAre(c, ns[1..], kinds);
      assert ns == [ns[0]] + ns[1..];
    }
  }

  lemma RunsListed(c: Campaign, kinds: set<NodeStatus>)
    requires RunIdsOk(c) && kinds <= LIVE
    ensures AllListed(c, RunsOf(c, kinds))
    ensures forall n :: n in Nodes(RunsOf(c, kinds)) <==> n in c.nodeStatus && c.nodeStatus[n] in kinds
    ensures kinds == GATED ==> AllGatedOrEnded(c, RunsOf(c, kinds))
  {
    var runs := RunsOf(c, kinds);
    RunsAre(c, Ordered(c.nodeStatus.Keys), kinds);
    forall n | n in c.nodeStatus && c.nodeStatus[n] in kinds ensures n in Nodes(runs) {
      var x := (n, c.nodeRunId[n]);
      assert c.nodeStatus[n].Live() && x in runs;
    }
    forall x | x in runs ensures ListedIn(c, x.0, x.1) {
      assert c.nodeStatus[x.0].Live();
    }
  }

  // ── the command ─────────────────────────────────────────────────────────────

  ghost function LiveNodes(c: Campaign): set<NodeId> {
    set n | n in c.nodeStatus && c.nodeStatus[n].Live()
  }

  ghost function GatedNodes(c: Campaign): set<NodeId> {
    set n | n in c.nodeStatus && c.nodeStatus[n] in GATED
  }

  lemma StillRunning(c: Campaign, d: Campaign, listed: set<NodeId>)
    requires Settles(c, d) && forall n :: n in c.nodeStatus && c.nodeStatus[n] == Running ==> n in listed
    ensures forall n :: n in d.nodeStatus && d.nodeStatus[n].Live() && n !in GatedNodes(d) ==> n in listed
  {
  }

  /** Re-attaching leaves at most the gated nodes untied. */
  lemma GoodReattached(p: Promise, u: World, engine: Engine)
    requires Good(p, u) && p.exempt == LiveNodes(u.camp) && u.disk.saved == Some(u.camp)
    ensures var a := ReattachAll(u, RunsOf(u.camp, {Running}), engine); Good(p.(exempt := GatedNodes(a.camp)), a)
  {
    var runs := RunsOf(u.camp, {Running});
    RunsListed(u.camp, {Running});
    GoodReattachAll(p, u, runs, engine);
    var a := ReattachAll(u, runs, engine);
    var q := WithoutAll(p, Nodes(runs));
    StillRunning(u.camp, a.camp, Nodes(runs));
    GoodExempt(q, p.(exempt := GatedNodes(a.camp)), a);
  }

  /** Looking at the gated nodes ties the rest. */
  lemma GoodRegated(p: Promise, a: World, engine: Engine)
    requires Good(p, a) && p.exempt == GatedNodes(a.camp) && a.disk.saved.Some?
    ensures Good(p.(exempt := {}), RegateAll(a, RunsOf(a.camp, GATED), engine))
  {
    var gated := RunsOf(a.camp, GATED);
    RunsListed(a.camp, GATED);
    GoodRegateAll(p, a, gated, engine);
    assert p.exempt - Nodes(gated) == {};
  }

  lemma {:induction false} ReattachAllSaved(w: World, runs: seq<(NodeId, RunId)>, engine: Engine)
    requires Defined(w.camp) && w.disk.saved.Some?
    ensures ReattachAll(w, runs, engine).disk.saved.Some?
    decreases |runs|
  {
    if runs != [] {
      ReattachSettles(w, runs[0].0, runs[0].1, engine);
      ReattachAllSaved(Reattach(w, runs[0].0, runs[0].1, engine), runs[1..], engine);
    }
  }

  /** Whatever a crash left of a campaign that has not ended, resuming it ties every live node. */
  lemma ResumeLeaves(once: bool, tied: bool, w: World, engine: Engine)
    requires Rest(once, tied, w) && w.disk.saved.Some?
    ensures if Ended(w.disk.saved.value.status) then ResumeCampaign(w, engine).0 == w
            else Leaves(Promise(Some(w.disk.saved.value), once, true, {}), ResumeCampaign(w, engine).0)
  {
    var v := Load(w);
    if !Ended(v.camp.status) {
      var d := Unpaused(v.camp);
      var p := Promise(Some(w.disk.saved.value), once, true, LiveNodes(d));
      assert Good(Promise(Some(w.disk.saved.value), once, tied, {}), v);
      assert Good(p, v);
      SameNodesOk(v.camp, d);
      GoodEdit(p, v, d);
      GoodPersist(p, v.(camp := d));
      ResumedLeaves(p, Persist(v.(camp := d)), engine);
    }
  }

  lemma ResumedLeaves(p: Promise, u: World, engine: Engine)
    requires Good(p, u) && p.exempt == LiveNodes(u.camp) && u.disk.saved == Some(u.camp) && !u.camp.status.CCancelled?
    ensures var a := ReattachAll(u, RunsOf(u.camp, {Running}), engine);
            Leaves(p.(exempt := {}), PromoteAndFill(RegateAll(a, RunsOf(a.camp, GATED), engine), engine))
  {
    var runs := RunsOf(u.camp, {Running});
    var a := ReattachAll(u, runs, engine);
    GoodReattached(p, u, engine);
    ReattachAllSaved(u, runs, engine);
    ReattachAllQuiet(u, runs, engine);
    GoodRegated(p.(exempt := GatedNodes(a.camp)), a, engine);
    RegateAllQuiet(a, RunsOf(a.camp, GATED), engine);
    LeavesPromote(p.(exempt := {}), RegateAll(a, RunsOf(a.camp, GATED), engine), engine);
  }

  lemma {:induction false} ReattachAllQuiet(w: World, runs: seq<(NodeId, RunId)>, engine: Engine)
    requires Defined(w.camp) && !w.camp.status.CCancelled?
    ensures !ReattachAll(w, runs, engine).camp.status.CCancelled?
    decreases |runs|
  {
    if runs != [] {
      var (n, r) := runs[0];
      ReconcileQuiet(w, n, if r in w.disk.sessions then OutcomeOf(w.disk.sessions[r]) else OFailed, engine);
      ReconcileQuiet(ResumeRun(w, r, engine).0, n, OFailed, engine);
      ReconcileQuiet(LaunchRun(w, r, engine).0, n, OFailed, engine);
      ReattachAllQuiet(Reattach(w, n, r, engine), runs[1..], engine);
    }
  }

  lemma {:induction false} RegateAllQuiet(w: World, runs: seq<(NodeId, RunId)>, engine: Engine)
    requires Defined(w.camp) && !w.camp.status.CCancelled?
    ensures !RegateAll(w, runs, engine).camp.status.CCancelled?
    decreases |runs|
  {
    if runs != [] {
      var (n, r) := runs[0];
      ReconcileQuiet(w, n, if r in w.disk.sessions then OutcomeOf(w.disk.sessions[r]) else OFailed, engine);
      RegateAllQuiet(Regate(w, n, r, engine), runs[1..], engine);
    }
  }
}
