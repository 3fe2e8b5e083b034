/** What the world keeps, between any two writes of the store: the campaign clauses for the campaign
    in memory and for every campaign the store held, run ids used once, and (between crashes) every
    live node tied to a session that is running or whose end is announced. */
module CampaignSafety {
  import opened Names
  import opened CampaignGraph
  import opened CampaignCycle
  import opened CampaignModel
  import opened CampaignHandlers
  import opened CampaignInvariants

  type Sessions = map<RunId, SessionStatus>

  /** A gated node's run has a session. */
  ghost predicate SeenOk(c: Campaign, sessions: Sessions) {
    forall n :: n in c.nodeStatus && c.nodeStatus[n] in GATED ==> n in c.nodeRunId && c.nodeRunId[n] in sessions
  }

  /** Nothing `base` completed is undone (a launch has no base: it starts over). */
  ghost predicate Since(base: Option<Campaign>, c: Campaign) {
    base.Some? ==> Advances(base.value, c)
  }

  ghost predicate SavedOk(base: Option<Campaign>, d: Disk) {
    (base.Some? ==> d.saved.Some?) &&
    (d.saved.Some? ==>
      Defined(d.saved.value) && CampOk(d.saved.value) && Since(base, d.saved.value) && SeenOk(d.saved.value, d.sessions))
  }

  /** `base`: the campaign as the step found it. */
  ghost predicate Steady(base: Option<Campaign>, w: World) {
    Defined(w.camp) && CampOk(w.camp) && Since(base, w.camp) && SeenOk(w.camp, w.disk.sessions) &&
    (forall d :: d in w.log ==> SavedOk(base, d)) && w.disk in w.log &&
    (forall s :: s in w.inbox ==> s.run in w.disk.sessions)
  }

  // ── run ids are used once ───────────────────────────────────────────────────

  predicate Unstarted(c: Campaign, n: NodeId) {
    StatusIn(c, n) == Pending || StatusIn(c, n) == Ready
  }

  /** A session belongs to an earlier attempt, or to the current one of a node that has started. */
  ghost predicate OnceCamp(c: Campaign, sessions: Sessions) {
    forall r :: r in sessions && r.campaign == c.def.id && r.node in c.nodeStatus ==>
      r.attempt < AttemptOf(c, r.node) || (r.attempt == AttemptOf(c, r.node) && !Unstarted(c, r.node))
  }

  ghost predicate MadeOnce(d: Disk) {
    forall r :: d.made[r] <= 1 && (r in d.made <==> r in d.sessions)
  }

  ghost predicate OnceDisk(d: Disk) {
    MadeOnce(d) && (d.saved.Some? ==> OnceCamp(d.saved.value, d.sessions))
  }

  ghost predicate Once(w: World) {
    OnceCamp(w.camp, w.disk.sessions) && forall d :: d in w.log ==> OnceDisk(d)
  }

  // ── live nodes are tied to their runs ───────────────────────────────────────

  predicate Notified(inbox: multiset<Signal>, r: RunId) {
    Finished(r, OCompleted) in inbox || Finished(r, OFailed) in inbox || Finished(r, OCancelled) in inbox
  }

  /** The run has a session, and if that has ended its end waits in the actor's queue. */
  predicate TiedRun(w: World, r: RunId) {
    r in w.disk.sessions && (w.disk.sessions[r].Terminal() ==> Notified(w.inbox, r))
  }

  ghost predicate Tied(w: World, exempt: set<NodeId>) {
    forall n :: n in w.camp.nodeStatus && w.camp.nodeStatus[n].Live() && n !in exempt ==>
      n in w.camp.nodeRunId && TiedRun(w, w.camp.nodeRunId[n])
  }

  // ── together ────────────────────────────────────────────────────────────────

  /** What is being kept: always the campaign clauses; on demand, the two others. */
  datatype Promise = Promise(base: Option<Campaign>, once: bool, tied: bool, exempt: set<NodeId>)

  ghost predicate Good(p: Promise, w: World) {
    Steady(p.base, w) && (p.once ==> Once(w)) && (p.tied ==> Tied(w, p.exempt))
  }

  /** An edit of the campaign in memory. */
  ghost predicate OnceEdit(c: Campaign, d: Campaign) {
    forall n :: n in c.nodeStatus ==>
      AttemptOf(d, n) > AttemptOf(c, n) || (AttemptOf(d, n) == AttemptOf(c, n) && (Unstarted(d, n) ==> Unstarted(c, n)))
  }

  ghost predicate TiedEdit(c: Campaign, d: Campaign, exempt: set<NodeId>) {
    forall n :: n in d.nodeStatus && d.nodeStatus[n].Live() && n !in exempt ==>
      n in c.nodeStatus && c.nodeStatus[n].Live() && n in c.nodeRunId && n in d.nodeRunId && d.nodeRunId[n] == c.nodeRunId[n]
  }

  lemma GoodEdit(p: Promise, w: World, d: Campaign)
    requires Good(p, w) && Defined(d) && CampOk(d) && Advances(w.camp, d) && SeenOk(d, w.disk.sessions)
    requires d.nodeStatus.Keys == w.camp.nodeStatus.Keys
    requires p.once ==> OnceEdit(w.camp, d)
    requires p.tied ==> TiedEdit(w.camp, d, p.exempt)
    ensures Good(p, w.(camp := d))
  {
  }

  lemma GoodPersist(p: Promise, w: World)
    requires Good(p, w)
    ensures Good(p, Persist(w))
  {
    var u := Persist(w);
    assert SavedOk(p.base, u.disk);
    assert p.once ==> OnceDisk(u.disk) by {
      if p.once {
        assert OnceDisk(w.disk);
      }
    }
  }

  lemma GoodExempt(p: Promise, q: Promise, w: World)
    requires Good(p, w) && q.(exempt := p.exempt) == p
    requires q.tied ==> forall n :: n in p.exempt && n !in q.exempt && n in w.camp.nodeStatus && w.camp.nodeStatus[n].Live() ==>
               n in w.camp.nodeRunId && TiedRun(w, w.camp.nodeRunId[n])
    ensures Good(q, w)
  {
  }

  // ── the engine's calls ──────────────────────────────────────────────────────

  /** A call on run `r` leaves the campaign alone and touches no other session; a session it ends is
      announced. */
  ghost predicate EngineStep(w: World, u: World, r: RunId) {
    u.camp == w.camp && u.disk.saved == w.disk.saved && w.inbox <= u.inbox &&
    (forall q :: q in w.disk.sessions ==> q in u.disk.sessions) &&
    (forall q :: q in u.disk.sessions && q != r ==> q in w.disk.sessions && u.disk.sessions[q] == w.disk.sessions[q]) &&
    (forall s :: s in u.inbox ==> s in w.inbox || (s.run == r && r in u.disk.sessions)) &&
    (r in u.disk.sessions && u.disk.sessions[r].Terminal() ==>
       Notified(u.inbox, r) || (r in w.disk.sessions && w.disk.sessions[r].Terminal())) &&
    ((u.log == w.log && u.disk == w.disk) || u.log == w.log + [u.disk])
  }

  /** The call created no second session. */
  ghost predicate MakesOnce(w: World, u: World, r: RunId) {
    (u.disk.made == w.disk.made && u.disk.sessions.Keys == w.disk.sessions.Keys) ||
    (r !in w.disk.sessions && u.disk.made == w.disk.made + multiset{r} && r in u.disk.sessions)
  }

  lemma GoodStep(p: Promise, w: World, u: World, r: RunId)
    requires Good(p, w) && EngineStep(w, u, r)
    requires p.once ==> MakesOnce(w, u, r)
    requires p.once && r !in w.disk.sessions && r in u.disk.sessions ==>
               OnceCamp(w.camp, u.disk.sessions) && (w.disk.saved.Some? ==> OnceCamp(w.disk.saved.value, u.disk.sessions))
    ensures Good(p, u)
  {
    SteadyStep(p.base, w, u, r);
    if p.once {
      OnceStep(w, u, r);
    }
    if p.tied {
      TiedStep(w, u, r, p.exempt);
    }
  }

  lemma SteadyStep(base: Option<Campaign>, w: World, u: World, r: RunId)
    requires Steady(base, w) && EngineStep(w, u, r)
    ensures Steady(base, u)
  {
    assert SavedOk(base, w.disk);
    assert SavedOk(base, u.disk);
  }

  lemma OnceStep(w: World, u: World, r: RunId)
    requires Once(w) && w.disk in w.log && EngineStep(w, u, r) && MakesOnce(w, u, r)
    requires r !in w.disk.sessions && r in u.disk.sessions ==>
               OnceCamp(w.camp, u.disk.sessions) && (w.disk.saved.Some? ==> OnceCamp(w.disk.saved.value, u.disk.sessions))
    ensures Once(u)
  {
    assert OnceDisk(w.disk);
    assert MadeOnce(u.disk);
    assert OnceDisk(u.disk);
  }

  lemma TiedStep(w: World, u: World, r: RunId, exempt: set<NodeId>)
    requires Tied(w, exempt) && EngineStep(w, u, r)
    ensures Tied(u, exempt)
  {
    forall n | n in u.camp.nodeStatus && u.camp.nodeStatus[n].Live() && n !in exempt
      ensures n in u.camp.nodeRunId && TiedRun(u, u.camp.nodeRunId[n])
    {
      assert TiedRun(w, w.camp.nodeRunId[n]);
    }
  }

  lemma WriteSessionStep(w: World, r: RunId, s: SessionStatus, anew: bool)
    ensures EngineStep(w, WriteSession(w, r, s, anew), r)
    ensures anew || r !in w.disk.sessions || !w.disk.sessions[r].Terminal() ==> TiedRun(WriteSession(w, r, s, anew), r)
  {
    var u := WriteSession(w, r, s, anew);
    assert u.log == w.log + [u.disk];
  }

  lemma AdvanceStep(w: World, r: RunId, engine: Engine)
    requires r in w.disk.sessions && !w.disk.sessions[r].Terminal()
    ensures var u := Advance(w, r, engine).0; EngineStep(w, u, r) && MakesOnce(w, u, r) && TiedRun(u, r)
  {
    var a := engine(w.calls);
    if a.writes {
      WriteSessionStep(Asked(w), r, a.status, false);
    }
  }

  lemma LaunchStep(w: World, r: RunId, engine: Engine)
    ensures var (u, ok) := LaunchRun(w, r, engine);
            EngineStep(w, u, r) && (ok ==> TiedRun(u, r)) && (r !in w.disk.sessions ==> MakesOnce(w, u, r))
  {
    var a := engine(w.calls);
    WriteSessionStep(Asked(w), r, a.status, true);
  }

  lemma ConfirmStep(w: World, r: RunId, answer: GateAnswer, engine: Engine)
    ensures var (u, ok) := ConfirmRun(w, r, answer, engine);
            EngineStep(w, u, r) && MakesOnce(w, u, r) && (ok ==> TiedRun(u, r))
  {
    if r in w.disk.sessions && w.disk.sessions[r].SAwaitingHuman? {
      AdvanceStep(w.(answers := w.answers + [(r, answer)]), r, engine);
    }
  }

  lemma ResumeStep(w: World, r: RunId, engine: Engine)
    requires r in w.disk.sessions && !w.disk.sessions[r].Terminal()
    ensures var (u, ok) := ResumeRun(w, r, engine);
            EngineStep(w, u, r) && MakesOnce(w, u, r) && (ok ==> TiedRun(u, r))
  {
    AdvanceStep(w, r, engine);
  }

  lemma CancelStep(w: World, r: RunId, engine: Engine)
    ensures var (u, ok) := CancelRun(w, r, engine);
            EngineStep(w, u, r) && MakesOnce(w, u, r)
  {
    WriteSessionStep(Asked(w), r, SCancelled, false);
  }

  /** Which workers are in flight is not part of what is kept. */
  lemma GoodInFlight(p: Promise, w: World, q: set<RunId>)
    requires Good(p, w)
    ensures Good(p, w.(inFlight := q))
  {
    var u := w.(inFlight := q);
    assert Steady(p.base, u);
    if p.tied {
      forall n | n in u.camp.nodeStatus && u.camp.nodeStatus[n].Live() && n !in p.exempt
        ensures n in u.camp.nodeRunId && TiedRun(u, u.camp.nodeRunId[n])
      {
        assert TiedRun(w, w.camp.nodeRunId[n]);
      }
    }
  }

  lemma {:induction false} GoodCancelRuns(p: Promise, w: World, runs: seq<(NodeId, RunId)>, engine: Engine)
    requires Good(p, w)
    ensures Good(p, CancelRuns(w, runs, engine))
    decreases |runs|
  {
    if runs != [] {
      var r := runs[0].1;
      CancelStep(w, r, engine);
      var u := CancelRun(w, r, engine).0;
      GoodStep(p, w, u, r);
      GoodInFlight(p, u, u.inFlight - {r});
      GoodCancelRuns(p, u.(inFlight := u.inFlight - {r}), runs[1..], engine);
    }
  }
}
