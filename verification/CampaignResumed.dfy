/** What a resume leaves of the stored campaign: every node whose run is over ends as its run did. */
module CampaignResumed {
  import opened Names
  import opened CampaignGraph
  import opened CampaignCycle
  import opened CampaignModel
  import opened CampaignHandlers
  import opened CampaignInvariants
  import opened CampaignSafety
  import opened CampaignSteps
  import opened CampaignKeeps
  import opened CampaignResume
  import opened CampaignRuns
  import opened CampaignFindings
  import opened CampaignReattach
  import opened CampaignTurns
  import opened CampaignCancels

  // ── one entry of a list ─────────────────────────────────────────────────────

  predicate RunOver(sessions: Sessions, r: RunId) {
    r in sessions && (sessions[r] == SCompleted || sessions[r] == SFailed || sessions[r] == SCancelled)
  }

  /** The end a session that is over tells. */
  predicate EndOf(s: SessionStatus, t: NodeStatus) {
    (s == SCompleted && t == Completed) || (s == SFailed && t == Failed) || (s == SCancelled && t == Cancelled)
  }

  /** What the end of another node may do to a node. */
  predicate Sideways(policy: Policy, s: NodeStatus, t: NodeStatus) {
    t == s || (policy.FailFast? && !Over(s) && t == Cancelled) ||
    (policy.ContinueIndependent? && (s == Pending || s == NodeStatus.Ready) && t == Blocked)
  }

  /** A node whose run is over ends as its run did. One that ran goes on, or failed; one that is gated stays so. Only
      fail-fast may have cancelled it first. */
  predicate ResumesAs(policy: Policy, sessions: Sessions, r: RunId, s: NodeStatus, t: NodeStatus) {
    (Sideways(policy, s, t) && !(s.Live() && RunOver(sessions, r) && t == s)) ||
    (s.Live() && RunOver(sessions, r) && EndOf(sessions[r], t)) ||
    (s == Running && !RunOver(sessions, r) && t == Failed)
  }

  ghost predicate AllOver(c: Campaign) {
    forall n :: n in c.nodeStatus ==> Over(c.nodeStatus[n])
  }

  /** The sessions that are over, but for that of `r`, stay as they are; so do the others, unless every node is over. */
  ghost predicate OversKept(w: World, u: World, r: RunId) {
    (forall q :: q != r && RunOver(w.disk.sessions, q) ==> q in u.disk.sessions && u.disk.sessions[q] == w.disk.sessions[q]) &&
    (AllOver(u.camp) || forall q :: q != r && q in u.disk.sessions ==> q in w.disk.sessions && u.disk.sessions[q] == w.disk.sessions[q])
  }

  lemma {:induction false} CancelsKeepOvers(w: World, runs: seq<(NodeId, RunId)>, engine: Engine, q: RunId)
    requires RunOver(w.disk.sessions, q)
    ensures var u := CancelRuns(w, runs, engine); q in u.disk.sessions && u.disk.sessions[q] == w.disk.sessions[q]
    decreases |runs|
  {
    if runs != [] {
      var u := CancelRun(w, runs[0].1, engine).0;
      CancelsKeepOvers(u.(inFlight := u.inFlight - {runs[0].1}), runs[1..], engine, q);
    }
  }

  lemma EndKeepsOvers(w: World, n: NodeId, o: Outcome, engine: Engine, q: RunId)
    requires Defined(w.camp) && n in w.camp.nodeStatus && RunOver(w.disk.sessions, q)
    ensures var u := EndNode(w, n, o, engine); q in u.disk.sessions && u.disk.sessions[q] == w.disk.sessions[q]
  {
    hide WellFormed, BlockedIn, Enqueue, RunsOf, CancelRuns, CancelNonTerminal;
    var x := Persist(SetNodeW(w, n, o.AsNodeStatus()));
    var y := Persist(x.(camp := CancelNonTerminal(x.camp).(failFastTripped := true)));
    CancelsKeepOvers(y, RunsOf(x.camp, LIVE), engine, q);
  }

  /** Ending a node touches sessions only under fail-fast, and then every node is over. */
  lemma EndTouches(w: World, n: NodeId, o: Outcome, engine: Engine)
    requires Defined(w.camp) && n in w.camp.nodeStatus
    ensures AllOver(EndNode(w, n, o, engine).camp) || EndNode(w, n, o, engine).disk.sessions == w.disk.sessions
  {
    hide WellFormed, BlockedIn, Enqueue, RunsOf, CancelRuns;
    FailFastCamp(Persist(SetNodeW(w, n, o.AsNodeStatus())), engine);
  }

  lemma EndKeepsAll(w: World, v: World, n: NodeId, o: Outcome, engine: Engine, r: RunId)
    requires Defined(v.camp) && n in v.camp.nodeStatus && !Over(v.camp.nodeStatus[n]) && OversKept(w, v, r)
    ensures OversKept(w, EndNode(v, n, o, engine), r)
  {
    hide WellFormed, EndNode;
    EndTouches(v, n, o, engine);
    var u := EndNode(v, n, o, engine);
    forall q | q != r && RunOver(w.disk.sessions, q) ensures q in u.disk.sessions && u.disk.sessions[q] == w.disk.sessions[q] {
      EndKeepsOvers(v, n, o, engine, q);
    }
  }

  lemma SameKept(w: World, r: RunId)
    ensures OversKept(w, w, r)
  {
  }

  /** What the end of a node does to the others. */
  lemma EndsSideways(c: Campaign, d: Campaign, n: NodeId, o: Outcome)
    requires EndsAs(c, d, n, o)
    ensures forall m :: m in c.nodeStatus && m != n ==> Sideways(c.def.policy, c.nodeStatus[m], d.nodeStatus[m])
    ensures (forall g :: g in c.gates ==> g in d.gates) && forall g :: g in d.gates && g !in c.gates ==> g == n && d.nodeStatus[n] != Completed
    ensures d.status == c.status || (c.status == CRunning && d.status == CPaused && n in d.gates)
  {
  }

  /** The campaign in memory after one entry of a list. */
  ghost predicate EntryDone(c: Campaign, d: Campaign, n: NodeId, sessions: Sessions, r: RunId) {
    d.def == c.def && d.nodeAttempt == c.nodeAttempt && d.nodeRunId == c.nodeRunId && d.nodeStatus.Keys == c.nodeStatus.Keys &&
    (forall m :: m in c.nodeStatus && m != n ==> Sideways(c.def.policy, c.nodeStatus[m], d.nodeStatus[m])) &&
    (forall g :: g in c.gates ==> g in d.gates) && (forall g :: g in d.gates && g !in c.gates ==> g == n) &&
    (d.status == c.status || (c.status == CRunning && d.status == CPaused && d.gates != [])) &&
    (n in c.nodeStatus ==>
      if Over(c.nodeStatus[n]) then d == c
      else if RunOver(sessions, r) then EndOf(sessions[r], d.nodeStatus[n])
      else d.nodeStatus[n] == c.nodeStatus[n] || (c.nodeStatus[n] == Running && d.nodeStatus[n] == Failed))
  }

  lemma EndedEntry(w: World, n: NodeId, o: Outcome, engine: Engine, sessions: Sessions, r: RunId)
    requires Defined(w.camp) && n in w.camp.nodeStatus && !Over(w.camp.nodeStatus[n])
    requires if RunOver(sessions, r) then EndOf(sessions[r], EndFor(o)) else w.camp.nodeStatus[n] == Running && o == OFailed
    ensures EntryDone(w.camp, EndNode(w, n, o, engine).camp, n, sessions, r)
  {
    hide WellFormed, EndNode, FailsFast, FailsGated, FailsAlone;
    EndNodeIs(w, n, o, engine);
    var d := EndNode(w, n, o, engine).camp;
    EndsSideways(w.camp, d, n, o);
    EndRuns(w, n, o, engine);
  }

  lemma EndRuns(w: World, n: NodeId, o: Outcome, engine: Engine)
    requires Defined(w.camp) && n in w.camp.nodeStatus
    ensures EndNode(w, n, o, engine).camp.nodeRunId == w.camp.nodeRunId
  {
    hide WellFormed, BlockedIn, Enqueue, RunsOf, CancelRuns;
  }

  lemma SameEntry(c: Campaign, n: NodeId, sessions: Sessions, r: RunId)
    requires n in c.nodeStatus && (Over(c.nodeStatus[n]) || !RunOver(sessions, r))
    ensures EntryDone(c, c, n, sessions, r)
  {
  }

  lemma ReattachEntry(w: World, n: NodeId, r: RunId, engine: Engine)
    requires Defined(w.camp) && n in w.camp.nodeStatus && (w.camp.nodeStatus[n] == Running || Over(w.camp.nodeStatus[n]))
    ensures EntryDone(w.camp, Reattach(w, n, r, engine).camp, n, w.disk.sessions, r) && OversKept(w, Reattach(w, n, r, engine), r)
  {
    hide WellFormed, EndNode, EntryDone, OversKept;
    SameKept(w, r);
    var over := Over(w.camp.nodeStatus[n]);
    if over || !RunOver(w.disk.sessions, r) {
      SameEntry(w.camp, n, w.disk.sessions, r);
    }
    if RunOver(w.disk.sessions, r) {
      var o := OutcomeOf(w.disk.sessions[r]);
      if !over {
        EndedEntry(w, n, o, engine, w.disk.sessions, r);
        EndKeepsAll(w, w, n, o, engine, r);
      }
    } else {
      AttachEntry(w, n, r, engine);
    }
  }

  lemma AttachEntry(w: World, n: NodeId, r: RunId, engine: Engine)
    requires Defined(w.camp) && n in w.camp.nodeStatus && (w.camp.nodeStatus[n] == Running || Over(w.camp.nodeStatus[n]))
    requires !RunOver(w.disk.sessions, r)
    ensures EntryDone(w.camp, Reattach(w, n, r, engine).camp, n, w.disk.sessions, r) && OversKept(w, Reattach(w, n, r, engine), r)
  {
    hide WellFormed, ReconcileTerminal, EntryDone, LaunchRun, ResumeRun, OversKept;
    SameEntry(w.camp, n, w.disk.sessions, r);
    LaunchStep(w, r, engine);
    CallKeepsOvers(w, LaunchRun(w, r, engine).0, r);
    if r in w.disk.sessions {
      ResumeStep(w, r, engine);
      CallKeepsOvers(w, ResumeRun(w, r, engine).0, r);
    }
    var started := if r in w.disk.sessions then ResumeRun(w, r, engine) else LaunchRun(w, r, engine);
    if !started.1 {
      FailedEntry(w, started.0, n, r, engine);
    }
  }

  lemma CallKeepsOvers(w: World, u: World, r: RunId)
    requires EngineStep(w, u, r)
    ensures OversKept(w, u, r)
  {
  }

  lemma FailedEntry(w: World, v: World, n: NodeId, r: RunId, engine: Engine)
    requires Defined(v.camp) && n in v.camp.nodeStatus && (v.camp.nodeStatus[n] == Running || Over(v.camp.nodeStatus[n]))
    requires v.camp == w.camp && !RunOver(w.disk.sessions, r) && OversKept(w, v, r)
    ensures var u := ReconcileTerminal(v, n, OFailed, engine); EntryDone(w.camp, u.camp, n, w.disk.sessions, r) && OversKept(w, u, r)
  {
    hide WellFormed, EndNode, EntryDone, OversKept;
    SameEntry(w.camp, n, w.disk.sessions, r);
    if !Over(v.camp.nodeStatus[n]) {
      EndedEntry(v, n, OFailed, engine, w.disk.sessions, r);
      EndKeepsAll(w, v, n, OFailed, engine, r);
    }
  }

  lemma RegateEntry(w: World, n: NodeId, r: RunId, engine: Engine)
    requires Defined(w.camp) && n in w.camp.nodeStatus && (w.camp.nodeStatus[n].Live() || Over(w.camp.nodeStatus[n]))
    ensures EntryDone(w.camp, Regate(w, n, r, engine).camp, n, w.disk.sessions, r) && OversKept(w, Regate(w, n, r, engine), r)
  {
    hide WellFormed, EndNode, EntryDone, OversKept;
    SameKept(w, r);
    if Over(w.camp.nodeStatus[n]) || !RunOver(w.disk.sessions, r) {
      SameEntry(w.camp, n, w.disk.sessions, r);
    } else {
      var o := OutcomeOf(w.disk.sessions[r]);
      EndedEntry(w, n, o, engine, w.disk.sessions, r);
      EndKeepsAll(w, w, n, o, engine, r);
    }
  }

  /** A list as a resume makes it: nodes of the campaign with their recorded runs, none twice. */
  ghost predicate Entries(c: Campaign, runs: seq<(NodeId, RunId)>) {
    (forall x :: x in runs ==> x.0 in c.nodeStatus && x.0 in c.nodeRunId && c.nodeRunId[x.0] == x.1) &&
    forall i, j :: 0 <= i < j < |runs| ==> runs[i].0 != runs[j].0 && runs[i].1 != runs[j].1
  }

  predicate OnList(runs: seq<(NodeId, RunId)>, g: NodeId) {
    exists k :: 0 <= k < |runs| && runs[k].0 == g
  }

  /** Only nodes of the list join the gates, and only that pauses a running campaign. */
  ghost predicate GatesBy(c: Campaign, d: Campaign, runs: seq<(NodeId, RunId)>) {
    (forall g :: g in c.gates ==> g in d.gates) && (forall g :: g in d.gates && g !in c.gates ==> OnList(runs, g)) &&
    (d.status == c.status || (c.status == CRunning && d.status == CPaused && d.gates != []))
  }

  /** What working through a list leaves: the runs on it are settled as `ResumesAs` says, other nodes only moved sideways. */
  ghost predicate ListDone(w: World, u: World, runs: seq<(NodeId, RunId)>) {
    var c, d := w.camp, u.camp;
    d.def == c.def && d.nodeAttempt == c.nodeAttempt && d.nodeRunId == c.nodeRunId && d.nodeStatus.Keys == c.nodeStatus.Keys &&
    (forall x :: x in runs && x.0 in c.nodeStatus ==> ResumesAs(c.def.policy, w.disk.sessions, x.1, c.nodeStatus[x.0], d.nodeStatus[x.0])) &&
    (forall m :: m in c.nodeStatus && (forall x :: x in runs ==> x.0 != m) ==> Sideways(c.def.policy, c.nodeStatus[m], d.nodeStatus[m])) &&
    GatesBy(c, d, runs) && ListTouches(w, u, runs)
  }

  /** The sessions that are over, but for those on the list, stay; so do the others, unless every node is over. */
  ghost predicate ListTouches(w: World, u: World, runs: seq<(NodeId, RunId)>) {
    (forall q :: RunOver(w.disk.sessions, q) && !Runs(runs, q) ==> q in u.disk.sessions && u.disk.sessions[q] == w.disk.sessions[q]) &&
    (AllOver(u.camp) || forall q :: !Runs(runs, q) && q in u.disk.sessions ==> q in w.disk.sessions && u.disk.sessions[q] == w.disk.sessions[q])
  }

  predicate Runs(runs: seq<(NodeId, RunId)>, q: RunId) {
    exists k :: 0 <= k < |runs| && runs[k].1 == q
  }

  lemma SidewaysOn(policy: Policy, s: NodeStatus, t: NodeStatus, u: NodeStatus)
    requires Sideways(policy, s, t) && Sideways(policy, t, u)
    ensures Sideways(policy, s, u)
  {
  }

  lemma FirstResumes(policy: Policy, sessions: Sessions, r: RunId, s: NodeStatus, t: NodeStatus, u: NodeStatus)
    requires s.Live() || Over(s)
    requires if Over(s) then t == s else if RunOver(sessions, r) then EndOf(sessions[r], t) else t == s || (s == Running && t == Failed)
    requires Sideways(policy, t, u)
    ensures ResumesAs(policy, sessions, r, s, u)
  {
  }

  lemma LaterResumes(policy: Policy, was: Sessions, sessions: Sessions, r: RunId, s: NodeStatus, t: NodeStatus, u: NodeStatus)
    requires Sideways(policy, s, t) && ResumesAs(policy, sessions, r, t, u)
    requires Over(t) || ((RunOver(was, r) <==> RunOver(sessions, r)) && (RunOver(was, r) ==> was[r] == sessions[r]))
    ensures ResumesAs(policy, was, r, s, u)
  {
  }

  lemma ListGates(c: Campaign, x: Campaign, d: Campaign, runs: seq<(NodeId, RunId)>)
    requires runs != [] && (forall g :: g in c.gates ==> g in x.gates) && (forall g :: g in x.gates && g !in c.gates ==> g == runs[0].0)
    requires x.status == c.status || (c.status == CRunning && x.status == CPaused && x.gates != [])
    requires GatesBy(x, d, runs[1..])
    ensures GatesBy(c, d, runs)
  {
    forall g | g in d.gates && g !in c.gates ensures OnList(runs, g) {
      if g in x.gates {
        assert runs[0].0 == g;
      } else {
        var k :| 0 <= k < |runs[1..]| && runs[1..][k].0 == g;
        assert runs[k + 1].0 == g;
      }
    }
    if x.gates != [] {
      assert x.gates[0] in d.gates;
    }
  }

  lemma LaterSession(w: World, v: World, r: RunId, q: RunId, n: NodeId)
    requires OversKept(w, v, r) && q != r && n in v.camp.nodeStatus
    ensures Over(v.camp.nodeStatus[n]) ||
            ((RunOver(w.disk.sessions, q) <==> RunOver(v.disk.sessions, q)) && (RunOver(w.disk.sessions, q) ==> w.disk.sessions[q] == v.disk.sessions[q]))
  {
  }

  lemma RestOfEntries(runs: seq<(NodeId, RunId)>, c: Campaign)
    requires runs != [] && Entries(c, runs)
    ensures forall y :: y in runs[1..] ==> y.0 != runs[0].0 && y.1 != runs[0].1
    ensures forall y :: y in runs <==> y == runs[0] || y in runs[1..]
  {
  }

  /** The first entry, then the rest. */
  lemma FirstThenRest(w: World, v: World, u: World, runs: seq<(NodeId, RunId)>)
    requires runs != [] && Entries(w.camp, runs)
    requires EntryDone(w.camp, v.camp, runs[0].0, w.disk.sessions, runs[0].1) && OversKept(w, v, runs[0].1) && ListDone(v, u, runs[1..])
    requires w.camp.nodeStatus[runs[0].0].Live() || Over(w.camp.nodeStatus[runs[0].0])
    ensures ListDone(w, u, runs)
  {
    var c, x, d, rest := w.camp, v.camp, u.camp, runs[1..];
    RestOfEntries(runs, c);
    hide Sideways, ResumesAs, RunOver, GatesBy, Over;
    forall y | y in runs && y.0 in c.nodeStatus ensures ResumesAs(c.def.policy, w.disk.sessions, y.1, c.nodeStatus[y.0], d.nodeStatus[y.0]) {
      hide OversKept;
      if y == runs[0] {
        FirstResumes(c.def.policy, w.disk.sessions, y.1, c.nodeStatus[y.0], x.nodeStatus[y.0], d.nodeStatus[y.0]);
      } else {
        LaterSession(w, v, runs[0].1, y.1, y.0);
        LaterResumes(c.def.policy, w.disk.sessions, v.disk.sessions, y.1, c.nodeStatus[y.0], x.nodeStatus[y.0], d.nodeStatus[y.0]);
      }
    }
    forall m | m in c.nodeStatus && (forall y :: y in runs ==> y.0 != m) ensures Sideways(c.def.policy, c.nodeStatus[m], d.nodeStatus[m]) {
      assert runs[0] in runs;
      SidewaysOn(c.def.policy, c.nodeStatus[m], x.nodeStatus[m], d.nodeStatus[m]);
    }
    ListGates(c, x, d, runs);
    FirstTouches(w, v, u, runs);
  }

  lemma TailRuns(runs: seq<(NodeId, RunId)>)
    requires runs != []
    ensures forall q :: Runs(runs, q) <==> q == runs[0].1 || Runs(runs[1..], q)
  {
    forall q ensures Runs(runs, q) <==> q == runs[0].1 || Runs(runs[1..], q) {
      if Runs(runs[1..], q) {
        var k :| 0 <= k < |runs[1..]| && runs[1..][k].1 == q;
        assert runs[k + 1].1 == q;
      }
      if Runs(runs, q) && q != runs[0].1 {
        var k :| 0 <= k < |runs| && runs[k].1 == q;
        assert runs[1..][k - 1].1 == q;
      }
    }
  }

  lemma StayOver(w: World, u: World, runs: seq<(NodeId, RunId)>)
    requires ListDone(w, u, runs) && AllOver(w.camp)
    ensures AllOver(u.camp)
  {
    hide ListTouches, GatesBy;
    forall n | n in u.camp.nodeStatus ensures Over(u.camp.nodeStatus[n]) {
      if exists x :: x in runs && x.0 == n {
        var x :| x in runs && x.0 == n;
        assert ResumesAs(w.camp.def.policy, w.disk.sessions, x.1, w.camp.nodeStatus[n], u.camp.nodeStatus[n]);
      } else {
        assert Sideways(w.camp.def.policy, w.camp.nodeStatus[n], u.camp.nodeStatus[n]);
      }
    }
  }

  lemma FirstTouches(w: World, v: World, u: World, runs: seq<(NodeId, RunId)>)
    requires runs != [] && OversKept(w, v, runs[0].1) && ListDone(v, u, runs[1..])
    ensures ListTouches(w, u, runs)
  {
    hide GatesBy, ResumesAs, Sideways, Runs;
    TailRuns(runs);
    if AllOver(v.camp) {
      StayOver(v, u, runs[1..]);
    }
    forall q | RunOver(w.disk.sessions, q) && !Runs(runs, q) ensures q in u.disk.sessions && u.disk.sessions[q] == w.disk.sessions[q] {
      SameOver(w, v, q);
    }
  }

  lemma SameOver(w: World, v: World, q: RunId)
    requires RunOver(w.disk.sessions, q) && q in v.disk.sessions && v.disk.sessions[q] == w.disk.sessions[q]
    ensures RunOver(v.disk.sessions, q)
  {
  }

  lemma NoEntries(w: World)
    ensures ListDone(w, w, [])
  {
  }

  /** The nodes on the list have started, the ones to re-attach are running or over, the ones to look at live or over. */
  ghost predicate Started(c: Campaign, runs: seq<(NodeId, RunId)>, gated: bool) {
    forall x :: x in runs && x.0 in c.nodeStatus ==> Over(c.nodeStatus[x.0]) || c.nodeStatus[x.0] == Running || (gated && c.nodeStatus[x.0].Live())
  }

  lemma RestStarted(c: Campaign, d: Campaign, runs: seq<(NodeId, RunId)>, sessions: Sessions, gated: bool)
    requires runs != [] && Entries(c, runs) && Started(c, runs, gated) && EntryDone(c, d, runs[0].0, sessions, runs[0].1)
    ensures Entries(d, runs[1..]) && Started(d, runs[1..], gated)
  {
    RestOfEntries(runs, c);
    hide RunOver;
    forall i, j | 0 <= i < j < |runs[1..]| ensures runs[1..][i].0 != runs[1..][j].0 && runs[1..][i].1 != runs[1..][j].1 {
      assert runs[1..][i] == runs[i + 1] && runs[1..][j] == runs[j + 1];
    }
  }

  lemma {:induction false} ReattachDone(w: World, runs: seq<(NodeId, RunId)>, engine: Engine)
    requires Defined(w.camp) && Entries(w.camp, runs) && Started(w.camp, runs, false)
    ensures ListDone(w, ReattachAll(w, runs, engine), runs)
    decreases |runs|
  {
    hide WellFormed, Reattach, ListDone, EntryDone, OversKept;
    if runs == [] {
      NoEntries(w);
    } else {
      var (n, r) := runs[0];
      assert runs[0] in runs;
      ReattachEntry(w, n, r, engine);
      var v := Reattach(w, n, r, engine);
      RestStarted(w.camp, v.camp, runs, w.disk.sessions, false);
      ReattachDone(v, runs[1..], engine);
      FirstThenRest(w, v, ReattachAll(v, runs[1..], engine), runs);
    }
  }

  lemma {:induction false} RegateDone(w: World, runs: seq<(NodeId, RunId)>, engine: Engine)
    requires Defined(w.camp) && Entries(w.camp, runs) && Started(w.camp, runs, true)
    ensures ListDone(w, RegateAll(w, runs, engine), runs)
    decreases |runs|
  {
    hide WellFormed, Regate, ListDone, EntryDone, OversKept;
    if runs == [] {
      NoEntries(w);
    } else {
      var (n, r) := runs[0];
      assert runs[0] in runs;
      RegateEntry(w, n, r, engine);
      var v := Regate(w, n, r, engine);
      RestStarted(w.camp, v.camp, runs, w.disk.sessions, true);
      RegateDone(v, runs[1..], engine);
      FirstThenRest(w, v, RegateAll(v, runs[1..], engine), runs);
    }
  }

  // ── the command ─────────────────────────────────────────────────────────────

  /** The status a resumed campaign goes on under: a pause is over unless a gate is open. */
  function Woken(c: Campaign): CampaignStatus {
    if c.status == CPaused && c.gates == [] then CRunning else c.status
  }

  /** Every node is settled by its run: see `ResumesAs`. Only live nodes join the gates. */
  ghost predicate SettledAs(c: Campaign, x: Campaign, sessions: Sessions) {
    x.def == c.def && x.nodeAttempt == c.nodeAttempt && x.nodeRunId == c.nodeRunId && x.nodeStatus.Keys == c.nodeStatus.Keys &&
    (forall n :: n in c.nodeStatus && c.nodeStatus[n].Live()
       ==> n in c.nodeRunId && ResumesAs(c.def.policy, sessions, c.nodeRunId[n], c.nodeStatus[n], x.nodeStatus[n])) &&
    (forall n :: n in c.nodeStatus && !c.nodeStatus[n].Live() ==> Sideways(c.def.policy, c.nodeStatus[n], x.nodeStatus[n])) &&
    (forall g :: g in c.gates ==> g in x.gates) && forall g :: g in x.gates && g !in c.gates ==> g in c.nodeStatus && c.nodeStatus[g].Live()
  }

  ghost predicate ResumedTo(c: Campaign, x: Campaign, sessions: Sessions) {
    SettledAs(c, x, sessions) && (x.status == Woken(c) || (Woken(c) == CRunning && x.status == CPaused && x.gates != []))
  }

  lemma ResumesOn(policy: Policy, sessions: Sessions, r: RunId, s: NodeStatus, t: NodeStatus, u: NodeStatus)
    requires ResumesAs(policy, sessions, r, s, t) && Sideways(policy, t, u) && (t == s ==> !RunOver(sessions, r) || !s.Live())
    ensures ResumesAs(policy, sessions, r, s, u)
  {
  }

  /** The lists of a resume, of a campaign that keeps the invariant. */
  lemma ListEntries(c: Campaign, kinds: set<NodeStatus>)
    requires RunIdsOk(c) && (kinds == {Running} || kinds == GATED)
    ensures var runs := RunsOf(c, kinds);
            Entries(c, runs) && Started(c, runs, kinds == GATED) &&
            forall n :: OnList(runs, n) <==> n in c.nodeStatus && n in c.nodeRunId && c.nodeStatus[n] in kinds
  {
    var runs := RunsOf(c, kinds);
    RunsAre(c, Ordered(c.nodeStatus.Keys), kinds);
    RunsDistinct(c, c.nodeStatus.Keys, kinds);
    hide CampaignModel.Runs, Ordered;
    forall i, j | 0 <= i < j < |runs| ensures runs[i].0 != runs[j].0 && runs[i].1 != runs[j].1 {
      assert runs[i] in runs && runs[j] in runs;
      assert IsAttempt(c, runs[i].0, runs[i].1) && IsAttempt(c, runs[j].0, runs[j].1);
    }
    forall n ensures OnList(runs, n) <==> n in c.nodeStatus && n in c.nodeRunId && c.nodeStatus[n] in kinds {
      if n in c.nodeStatus && n in c.nodeRunId && c.nodeStatus[n] in kinds {
        var x := (n, c.nodeRunId[n]);
        assert x in runs;
        var k :| 0 <= k < |runs| && runs[k] == x;
        assert runs[k].0 == n;
      }
      if OnList(runs, n) {
        var k :| 0 <= k < |runs| && runs[k].0 == n;
        assert runs[k] in runs;
      }
    }
  }

  lemma OnListRun(c: Campaign, runs: seq<(NodeId, RunId)>, n: NodeId)
    requires Entries(c, runs) && OnList(runs, n)
    ensures n in c.nodeStatus && n in c.nodeRunId && (n, c.nodeRunId[n]) in runs
  {
    var k :| 0 <= k < |runs| && runs[k].0 == n;
    assert runs[k] in runs;
  }

  lemma OffList(c: Campaign, runs: seq<(NodeId, RunId)>, n: NodeId)
    requires Entries(c, runs) && RunIdsOk(c) && n in c.nodeRunId && !OnList(runs, n)
    ensures !Runs(runs, c.nodeRunId[n]) && forall x :: x in runs ==> x.0 != n
  {
    forall x | x in runs ensures x.0 != n {
      var k :| 0 <= k < |runs| && runs[k] == x;
    }
    forall k | 0 <= k < |runs| ensures runs[k].1 != c.nodeRunId[n] {
      assert runs[k] in runs && IsAttempt(c, runs[k].0, runs[k].1) && IsAttempt(c, n, c.nodeRunId[n]);
    }
  }

  /** A node that is live, through both lists. */
  lemma TwoLists(u: World, a: World, b: World, runs: seq<(NodeId, RunId)>, gated: seq<(NodeId, RunId)>, n: NodeId)
    requires ListDone(u, a, runs) && ListDone(a, b, gated) && Entries(u.camp, runs) && Entries(a.camp, gated) && RunIdsOk(u.camp)
    requires forall m :: OnList(runs, m) <==> m in u.camp.nodeStatus && m in u.camp.nodeRunId && u.camp.nodeStatus[m] == Running
    requires forall m :: OnList(gated, m) <==> m in a.camp.nodeStatus && m in a.camp.nodeRunId && a.camp.nodeStatus[m] in GATED
    requires n in u.camp.nodeStatus && u.camp.nodeStatus[n].Live() && n in u.camp.nodeRunId
    ensures ResumesAs(u.camp.def.policy, u.disk.sessions, u.camp.nodeRunId[n], u.camp.nodeStatus[n], b.camp.nodeStatus[n])
  {
    hide GatesBy, RunIdsOk;
    var p, r := u.camp.def.policy, u.camp.nodeRunId[n];
    var s, t, x := u.camp.nodeStatus[n], a.camp.nodeStatus[n], b.camp.nodeStatus[n];
    if OnList(runs, n) {
      OnListRun(u.camp, runs, n);
      assert ResumesAs(p, u.disk.sessions, r, s, t);
      RanOn(u, a, b, runs, gated, n);
    } else {
      OffList(u.camp, runs, n);
      assert Sideways(p, s, t);
      WaitedOn(u, a, b, runs, gated, n);
    }
  }

  /** One that ran: the second list is not about it. */
  lemma RanOn(u: World, a: World, b: World, runs: seq<(NodeId, RunId)>, gated: seq<(NodeId, RunId)>, n: NodeId)
    requires ListDone(a, b, gated) && a.camp.def == u.camp.def && n in u.camp.nodeStatus && n in u.camp.nodeRunId && n in a.camp.nodeStatus
    requires u.camp.nodeStatus[n] == Running && forall m :: OnList(gated, m) ==> m in a.camp.nodeStatus && a.camp.nodeStatus[m] in GATED
    requires ResumesAs(u.camp.def.policy, u.disk.sessions, u.camp.nodeRunId[n], u.camp.nodeStatus[n], a.camp.nodeStatus[n])
    ensures ResumesAs(u.camp.def.policy, u.disk.sessions, u.camp.nodeRunId[n], u.camp.nodeStatus[n], b.camp.nodeStatus[n])
  {
    hide GatesBy, ListTouches;
    assert a.camp.nodeStatus[n] !in GATED;
    assert forall x :: x in gated ==> x.0 != n by {
      forall x | x in gated ensures x.0 != n {
        var k :| 0 <= k < |gated| && gated[k] == x;
        assert OnList(gated, x.0);
      }
    }
    assert Sideways(a.camp.def.policy, a.camp.nodeStatus[n], b.camp.nodeStatus[n]);
    ResumesOn(u.camp.def.policy, u.disk.sessions, u.camp.nodeRunId[n], u.camp.nodeStatus[n], a.camp.nodeStatus[n], b.camp.nodeStatus[n]);
  }

  /** One that was gated: if the first list left it so, the second looks at it, with its session as it was. */
  lemma WaitedOn(u: World, a: World, b: World, runs: seq<(NodeId, RunId)>, gated: seq<(NodeId, RunId)>, n: NodeId)
    requires ListTouches(u, a, runs) && ListDone(a, b, gated) && a.camp.def == u.camp.def && a.camp.nodeRunId == u.camp.nodeRunId
    requires Entries(a.camp, gated) && n in u.camp.nodeStatus && n in u.camp.nodeRunId && n in a.camp.nodeStatus
    requires u.camp.nodeStatus[n] in GATED && !Runs(runs, u.camp.nodeRunId[n])
    requires forall m :: OnList(gated, m) <==> m in a.camp.nodeStatus && m in a.camp.nodeRunId && a.camp.nodeStatus[m] in GATED
    requires Sideways(u.camp.def.policy, u.camp.nodeStatus[n], a.camp.nodeStatus[n])
    ensures ResumesAs(u.camp.def.policy, u.disk.sessions, u.camp.nodeRunId[n], u.camp.nodeStatus[n], b.camp.nodeStatus[n])
  {
    hide GatesBy;
    var p, r := u.camp.def.policy, u.camp.nodeRunId[n];
    var s, t, x := u.camp.nodeStatus[n], a.camp.nodeStatus[n], b.camp.nodeStatus[n];
    if t == s {
      OnListRun(a.camp, gated, n);
      assert ResumesAs(p, a.disk.sessions, r, t, x);
      assert !AllOver(a.camp);
      hide ListDone;
      SameRunOver(u, a, r);
      LaterResumes(p, u.disk.sessions, a.disk.sessions, r, s, t, x);
    } else {
      hide ListTouches;
      assert Over(t);
      assert !OnList(gated, n);
      NotNamed(gated, n);
      assert Sideways(p, t, x);
    }
  }

  lemma NotNamed(runs: seq<(NodeId, RunId)>, n: NodeId)
    requires !OnList(runs, n)
    ensures forall x :: x in runs ==> x.0 != n
  {
    forall x | x in runs ensures x.0 != n {
      var k :| 0 <= k < |runs| && runs[k] == x;
    }
  }

  lemma SameRunOver(u: World, a: World, r: RunId)
    requires RunOver(u.disk.sessions, r) ==> r in a.disk.sessions && a.disk.sessions[r] == u.disk.sessions[r]
    requires r in a.disk.sessions ==> r in u.disk.sessions && a.disk.sessions[r] == u.disk.sessions[r]
    ensures (RunOver(u.disk.sessions, r) <==> RunOver(a.disk.sessions, r)) && (RunOver(u.disk.sessions, r) ==> u.disk.sessions[r] == a.disk.sessions[r])
  {
  }

  /** Both lists worked through. */
  lemma BothLists(u: World, engine: Engine)
    requires Defined(u.camp) && RunIdsOk(u.camp)
    ensures var a := ReattachAll(u, RunsOf(u.camp, {Running}), engine);
            var b := RegateAll(a, RunsOf(a.camp, GATED), engine);
            b.camp.status == u.camp.status || (u.camp.status == CRunning && b.camp.status == CPaused && b.camp.gates != [])
    ensures var a := ReattachAll(u, RunsOf(u.camp, {Running}), engine);
            SettledAs(u.camp, RegateAll(a, RunsOf(a.camp, GATED), engine).camp, u.disk.sessions)
  {
    var runs := RunsOf(u.camp, {Running});
    ListEntries(u.camp, {Running});
    ReattachDone(u, runs, engine);
    var a := ReattachAll(u, runs, engine);
    ListRunIds(u, a, runs);
    var gated := RunsOf(a.camp, GATED);
    ListEntries(a.camp, GATED);
    hide WellFormed, RunsOf, ReattachAll, RegateAll;
    RegateDone(a, gated, engine);
    var b := RegateAll(a, gated, engine);
    hide RunIdsOk, ListDone, Entries, OnList;
    ListsSettle(u, a, b, runs, gated);
    ListsGates(u, a, b, runs, gated);
  }

  /** What a list moves stays started, and gets no liver. */
  lemma ListStatuses(u: World, a: World, runs: seq<(NodeId, RunId)>, n: NodeId)
    requires ListDone(u, a, runs) && n in u.camp.nodeStatus
    ensures var s, t := u.camp.nodeStatus[n], a.camp.nodeStatus[n]; t == s || Over(t)
  {
    hide GatesBy, ListTouches;
    if exists x :: x in runs && x.0 == n {
      var x :| x in runs && x.0 == n;
      assert ResumesAs(u.camp.def.policy, u.disk.sessions, x.1, u.camp.nodeStatus[n], a.camp.nodeStatus[n]);
    } else {
      assert Sideways(u.camp.def.policy, u.camp.nodeStatus[n], a.camp.nodeStatus[n]);
    }
  }

  lemma ListRunIds(u: World, a: World, runs: seq<(NodeId, RunId)>)
    requires ListDone(u, a, runs) && RunIdsOk(u.camp)
    ensures RunIdsOk(a.camp)
  {
    forall n | n in u.camp.nodeStatus ensures a.camp.nodeStatus[n] == u.camp.nodeStatus[n] || Over(a.camp.nodeStatus[n]) {
      ListStatuses(u, a, runs, n);
    }
    hide ResumesAs, Sideways, GatesBy, ListTouches;
    RunIdsStep(u.camp, a.camp);
  }

  /** A node that is not live, through both lists. */
  lemma QuietLists(u: World, a: World, b: World, runs: seq<(NodeId, RunId)>, gated: seq<(NodeId, RunId)>, n: NodeId)
    requires ListDone(u, a, runs) && ListDone(a, b, gated)
    requires forall m :: OnList(runs, m) ==> m in u.camp.nodeStatus && u.camp.nodeStatus[m] == Running
    requires forall m :: OnList(gated, m) ==> m in a.camp.nodeStatus && a.camp.nodeStatus[m] in GATED
    requires n in u.camp.nodeStatus && !u.camp.nodeStatus[n].Live()
    ensures Sideways(u.camp.def.policy, u.camp.nodeStatus[n], b.camp.nodeStatus[n])
  {
    ListStatuses(u, a, runs, n);
    hide GatesBy, ListTouches, ResumesAs, OnList;
    assert !OnList(runs, n);
    NotNamed(runs, n);
    assert Sideways(u.camp.def.policy, u.camp.nodeStatus[n], a.camp.nodeStatus[n]);
    assert !OnList(gated, n);
    NotNamed(gated, n);
    assert Sideways(a.camp.def.policy, a.camp.nodeStatus[n], b.camp.nodeStatus[n]);
    SidewaysOn(u.camp.def.policy, u.camp.nodeStatus[n], a.camp.nodeStatus[n], b.camp.nodeStatus[n]);
  }

  lemma ListsGates(u: World, a: World, b: World, runs: seq<(NodeId, RunId)>, gated: seq<(NodeId, RunId)>)
    requires ListDone(u, a, runs) && ListDone(a, b, gated)
    requires forall m :: OnList(runs, m) ==> m in u.camp.nodeStatus && u.camp.nodeStatus[m] == Running
    requires forall m :: OnList(gated, m) ==> m in a.camp.nodeStatus && a.camp.nodeStatus[m] in GATED
    ensures b.camp.status == u.camp.status || (u.camp.status == CRunning && b.camp.status == CPaused && b.camp.gates != [])
    ensures (forall g :: g in u.camp.gates ==> g in b.camp.gates) &&
            forall g :: g in b.camp.gates && g !in u.camp.gates ==> g in u.camp.nodeStatus && u.camp.nodeStatus[g].Live()
  {
    hide ListTouches, ResumesAs, Sideways, OnList;
    if a.camp.gates != [] {
      assert a.camp.gates[0] in b.camp.gates;
    }
    forall g | g in b.camp.gates && g !in u.camp.gates ensures g in u.camp.nodeStatus && u.camp.nodeStatus[g].Live() {
      if g !in a.camp.gates {
        assert OnList(gated, g);
        ListStatuses(u, a, runs, g);
      }
    }
  }

  lemma ListsSettle(u: World, a: World, b: World, runs: seq<(NodeId, RunId)>, gated: seq<(NodeId, RunId)>)
    requires ListDone(u, a, runs) && ListDone(a, b, gated) && Entries(u.camp, runs) && Entries(a.camp, gated) && RunIdsOk(u.camp)
    requires forall m :: OnList(runs, m) <==> m in u.camp.nodeStatus && m in u.camp.nodeRunId && u.camp.nodeStatus[m] == Running
    requires forall m :: OnList(gated, m) <==> m in a.camp.nodeStatus && m in a.camp.nodeRunId && a.camp.nodeStatus[m] in GATED
    ensures SettledAs(u.camp, b.camp, u.disk.sessions)
  {
    ListsGates(u, a, b, runs, gated);
    hide RunIdsOk, Entries, OnList, GatesBy, ListTouches, ResumesAs, Sideways;
    LiveRecorded(u.camp);
    forall n | n in u.camp.nodeStatus && u.camp.nodeStatus[n].Live()
      ensures n in u.camp.nodeRunId && ResumesAs(u.camp.def.policy, u.disk.sessions, u.camp.nodeRunId[n], u.camp.nodeStatus[n], b.camp.nodeStatus[n])
    {
      TwoLists(u, a, b, runs, gated, n);
    }
    forall n | n in u.camp.nodeStatus && !u.camp.nodeStatus[n].Live() ensures Sideways(u.camp.def.policy, u.camp.nodeStatus[n], b.camp.nodeStatus[n]) {
      QuietLists(u, a, b, runs, gated, n);
    }
  }

  lemma LiveRecorded(c: Campaign)
    requires RunIdsOk(c)
    ensures forall n :: n in c.nodeStatus && c.nodeStatus[n].Live() ==> n in c.nodeRunId
  {
  }

  ghost predicate ResumedAndFilled(c: Campaign, d: Campaign, sessions: Sessions) {
    exists x :: ResumedTo(c, x, sessions) && FreedAndFilled(x, d)
  }

  /** A resume of a campaign that has ended does nothing. Any other it settles by its runs: a node whose run is over ends
      as its run did, whatever the campaign missed of it; one that ran goes on, or failed if that is refused; one that is
      gated stays so. A pause is over unless a gate is open. Then what is free is made ready and filled. */
  lemma ResumeSettles(w: World, engine: Engine)
    requires Rest(false, false, w) && w.disk.saved.Some?
    ensures var c, u := w.disk.saved.value, Step(w, Does(Order(Resume)), engine);
            if c.status == CCompleted || c.status == CFailed || c.status == CCancelled then u == w
            else u.disk.saved.Some? && ResumedAndFilled(c, u.disk.saved.value, w.disk.sessions)
  {
    RestRuns(w);
    RestIsFresh(w);
    ResumeStepIs(w, engine);
    hide Rest, WellFormed, Step, RunIdsOk, ResumedAndFilled, ResumeCampaign;
    ResumedSays(w, engine);
  }

  lemma ResumeStepIs(w: World, engine: Engine)
    requires Rest(false, false, w) && w.disk.saved.Some? && Defined(w.disk.saved.value)
    ensures Step(w, Does(Order(Resume)), engine) == Fresh(ResumeCampaign(w, engine).0)
  {
    hide Rest, WellFormed, Step, ResumeCampaign;
    OrderStep(w, Resume, engine);
  }

  lemma ResumedSays(w: World, engine: Engine)
    requires w.disk.saved.Some? && Defined(w.disk.saved.value) && RunIdsOk(w.disk.saved.value)
    ensures var c, u := w.disk.saved.value, ResumeCampaign(w, engine).0;
            if c.status == CCompleted || c.status == CFailed || c.status == CCancelled then u == w
            else u.disk.saved.Some? && ResumedAndFilled(c, u.disk.saved.value, w.disk.sessions)
  {
    hide WellFormed, RunIdsOk, ReattachAll, RegateAll, PromoteAndFill, SettledAs, FreedAndFilled;
    var c := w.disk.saved.value;
    if !Ended(c.status) {
      var d := Unpaused(c);
      StatusRuns(c, d);
      var u := Persist(Load(w).(camp := d));
      BothLists(u, engine);
      var a := ReattachAll(u, RunsOf(d, {Running}), engine);
      var b := RegateAll(a, RunsOf(a.camp, GATED), engine);
      PromotedIs(b, engine);
      WokenSettles(c, d, b.camp, w.disk.sessions);
      assert ResumedTo(c, b.camp, w.disk.sessions);
    }
  }

  lemma WokenSettles(c: Campaign, d: Campaign, x: Campaign, sessions: Sessions)
    requires SettledAs(d, x, sessions) && d == c.(status := d.status)
    ensures SettledAs(c, x, sessions)
  {
    hide ResumesAs, Sideways;
  }

  /** What a reader sees: a node whose run ended while nobody looked has ended as its run did, or was cancelled by fail-fast;
      a pause without an open gate is over, one with an open gate is not. */
  lemma ResumeReads(w: World, engine: Engine, n: NodeId)
    requires Rest(false, false, w) && w.disk.saved.Some?
    requires var c := w.disk.saved.value;
             (c.status == CRunning || c.status == CPaused || c.status == CPartiallyCompleted) && n in c.nodeStatus && c.nodeStatus[n].Live() &&
             n in c.nodeRunId && RunOver(w.disk.sessions, c.nodeRunId[n])
    ensures var c, s := w.disk.saved.value, Step(w, Does(Order(Resume)), engine).disk.saved;
            s.Some? && n in s.value.nodeStatus &&
            (EndOf(w.disk.sessions[c.nodeRunId[n]], s.value.nodeStatus[n]) || (c.def.policy.FailFast? && s.value.nodeStatus[n] == Cancelled))
  {
    hide *;
    ResumeSettles(w, engine);
    NotEnded(w.disk.saved.value);
    OverReads(w.disk.saved.value, Step(w, Does(Order(Resume)), engine).disk.saved.value, w.disk.sessions, n);
  }

  lemma NotEnded(c: Campaign)
    requires c.status == CRunning || c.status == CPaused || c.status == CPartiallyCompleted
    ensures c.status != CCompleted && c.status != CFailed && c.status != CCancelled
  {
  }

  lemma OverReads(c: Campaign, d: Campaign, sessions: Sessions, n: NodeId)
    requires ResumedAndFilled(c, d, sessions) && n in c.nodeStatus && c.nodeStatus[n].Live() && n in c.nodeRunId && RunOver(sessions, c.nodeRunId[n])
    ensures n in d.nodeStatus &&
            (EndOf(sessions[c.nodeRunId[n]], d.nodeStatus[n]) || (c.def.policy.FailFast? && d.nodeStatus[n] == Cancelled))
  {
    hide FreedAndFilled;
    var x :| ResumedTo(c, x, sessions) && FreedAndFilled(x, d);
    FreedReads(x, d);
    hide NamedRight, Free;
    assert ResumesAs(c.def.policy, sessions, c.nodeRunId[n], c.nodeStatus[n], x.nodeStatus[n]);
  }

  lemma ResumeWakes(w: World, engine: Engine)
    requires Rest(false, false, w) && w.disk.saved.Some? && w.disk.saved.value.status == CPaused
    ensures var c, s := w.disk.saved.value, Step(w, Does(Order(Resume)), engine).disk.saved;
            s.Some? && Wakes(c, s.value)
  {
    hide *;
    ResumeSettles(w, engine);
    PausedNotEnded(w.disk.saved.value);
    WakesReads(w.disk.saved.value, Step(w, Does(Order(Resume)), engine).disk.saved.value, w.disk.sessions);
  }

  lemma PausedNotEnded(c: Campaign)
    requires c.status == CPaused
    ensures c.status != CCompleted && c.status != CFailed && c.status != CCancelled
  {
  }

  /** A paused campaign goes on if and only if no gate is open; while one is, no node starts. */
  ghost predicate Wakes(c: Campaign, d: Campaign) {
    (d.status == CPaused ==> d.gates != []) &&
    (c.gates != [] ==>
      d.status == CPaused && forall n :: n in d.nodeStatus && d.nodeStatus[n] == Running ==> n in c.nodeStatus && c.nodeStatus[n] == Running)
  }

  lemma WakesReads(c: Campaign, d: Campaign, sessions: Sessions)
    requires ResumedAndFilled(c, d, sessions) && c.status == CPaused
    ensures Wakes(c, d)
  {
    hide FreedAndFilled;
    var x :| ResumedTo(c, x, sessions) && FreedAndFilled(x, d);
    FreedReads(x, d);
    hide NamedRight, Free;
    if c.gates != [] {
      assert c.gates[0] in x.gates;
      forall n | n in d.nodeStatus && d.nodeStatus[n] == Running ensures n in c.nodeStatus && c.nodeStatus[n] == Running {
        assert x.nodeStatus[n] == Running;
        if c.nodeStatus[n].Live() {
          assert ResumesAs(c.def.policy, sessions, c.nodeRunId[n], c.nodeStatus[n], x.nodeStatus[n]);
        } else {
          assert Sideways(c.def.policy, c.nodeStatus[n], x.nodeStatus[n]);
        }
      }
    }
  }
}
