/** The engine as the campaign sees it: what each of its four entry points does, and that no end and no
    open gate of a session goes unannounced, in any turn. */
module CampaignSeam {
  import opened Names
  import opened CampaignGraph
  import opened CampaignCycle
  import opened CampaignModel
  import opened CampaignHandlers
  import opened CampaignInvariants
  import opened CampaignSafety
  import opened CampaignSteps
  import opened CampaignKeeps
  import opened CampaignResume
  import opened CampaignRuns
  import opened CampaignCrash

  // ── one call ────────────────────────────────────────────────────────────────

  predicate Over(s: SessionStatus) {
    s == SCompleted || s == SFailed || s == SCancelled
  }

  /** The status an announced outcome stands for. */
  function StatusFor(o: Outcome): SessionStatus {
    match o
    case OCompleted => SCompleted
    case OFailed => SFailed
    case OCancelled => SCancelled
  }

  predicate Exists(w: World, r: RunId) {
    r in w.disk.sessions
  }

  predicate IsOver(w: World, r: RunId) {
    r in w.disk.sessions && Over(w.disk.sessions[r])
  }

  /** No session but that of `r` is touched, nor what is stored of the campaign. */
  ghost predicate OnlyRun(w: World, u: World, r: RunId) {
    u.camp == w.camp && u.disk.saved == w.disk.saved &&
    (forall q :: q != r ==> (q in u.disk.sessions <==> q in w.disk.sessions) && (q in u.inFlight <==> q in w.inFlight)) &&
    forall q :: q != r && q in u.disk.sessions && q in w.disk.sessions ==> u.disk.sessions[q] == w.disk.sessions[q]
  }

  /** Nothing is called, written or announced. */
  predicate Idle(w: World, u: World) {
    u == w
  }

  /** A launch is refused, and nothing happens, while the run is in flight or its session is not over. Else the
      engine is called once: a failed launch may leave a session behind; one that succeeds leaves one, and the run
      is in flight if and only if a worker has started or was there. */
  lemma LaunchSays(w: World, r: RunId, engine: Engine)
    ensures var (u, ok), a := LaunchRun(w, r, engine), engine(w.calls);
            if r in w.inFlight || (Exists(w, r) && !IsOver(w, r)) then Idle(w, u) && !ok
            else
              OnlyRun(w, u, r) && u.calls == w.calls + 1 && ok == a.ok && u.answers == w.answers &&
              (r in u.inFlight <==> a.ok && a.busy) &&
              if a.ok || a.writes then r in u.disk.sessions && u.disk.sessions[r] == a.status else u.disk == w.disk
  {
  }

  /** A resume is refused of a run in flight or without a session, and has nothing to do for one that completed
      or was cancelled; a failed one may go on. */
  lemma ResumeSays(w: World, r: RunId, engine: Engine)
    ensures var (u, ok), a := ResumeRun(w, r, engine), engine(w.calls);
            if r in w.inFlight || !Exists(w, r) then Idle(w, u) && !ok
            else if w.disk.sessions[r] == SCompleted || w.disk.sessions[r] == SCancelled then Idle(w, u) && ok
            else
              OnlyRun(w, u, r) && u.calls == w.calls + 1 && ok == a.ok && u.answers == w.answers &&
              (r in u.inFlight <==> a.ok && a.busy) &&
              r in u.disk.sessions && u.disk.sessions[r] == if a.writes then a.status else w.disk.sessions[r]
  {
  }

  /** An answer is taken only by a session that awaits a human. */
  lemma ConfirmSays(w: World, r: RunId, answer: GateAnswer, engine: Engine)
    ensures var (u, ok), a := ConfirmRun(w, r, answer, engine), engine(w.calls);
            if !Exists(w, r) || w.disk.sessions[r] != SAwaitingHuman then Idle(w, u) && !ok
            else
              OnlyRun(w, u, r) && u.calls == w.calls + 1 && ok == a.ok && u.answers == w.answers + [(r, answer)] &&
              (r in u.inFlight <==> r in w.inFlight || (a.ok && a.busy)) &&
              r in u.disk.sessions && u.disk.sessions[r] == if a.writes then a.status else w.disk.sessions[r]
  {
  }

  /** A cancel is refused for a run without a session, and has nothing to do for one that is over. */
  lemma CancelSays(w: World, r: RunId, engine: Engine)
    ensures var (u, ok), a := CancelRun(w, r, engine), engine(w.calls);
            if !Exists(w, r) then Idle(w, u) && !ok
            else if IsOver(w, r) then Idle(w, u) && ok
            else
              OnlyRun(w, u, r) && u.calls == w.calls + 1 && ok == a.ok && u.answers == w.answers && u.inFlight == w.inFlight &&
              r in u.disk.sessions && u.disk.sessions[r] == if a.ok then SCancelled else w.disk.sessions[r]
  {
  }

  // ── what is announced ───────────────────────────────────────────────────────

  /** Every session that the world came to leave over, or waiting, is announced as such. */
  ghost predicate Tells(w: World, u: World) {
    (forall s :: s in w.inbox ==> s in u.inbox) &&
    (forall o, r :: r in u.disk.sessions && u.disk.sessions[r] == StatusFor(o) && !(r in w.disk.sessions && w.disk.sessions[r] == StatusFor(o))
       ==> Finished(r, o) in u.inbox) &&
    forall r :: r in u.disk.sessions && u.disk.sessions[r] == SAwaitingHuman && !(r in w.disk.sessions && w.disk.sessions[r] == SAwaitingHuman)
       ==> Awaiting(r) in u.inbox
  }

  /** The signal says what a session was when the store was written. */
  predicate SaysTruth(s: Signal, d: Disk) {
    s.run in d.sessions && d.sessions[s.run] == if s.Finished? then StatusFor(s.outcome) else SAwaitingHuman
  }

  /** What is announced is true of some write. */
  ghost predicate MakesUpNone(w: World, u: World) {
    w.log <= u.log && forall s :: s in u.inbox && s !in w.inbox ==> exists d :: d in u.log && SaysTruth(s, d)
  }

  ghost predicate Announces(w: World, u: World) {
    Tells(w, u) && MakesUpNone(w, u)
  }

  lemma TellsOn(w: World, v: World, u: World)
    requires Tells(w, v) && Tells(v, u)
    ensures Tells(w, u)
  {
  }

  lemma TruthOn(w: World, v: World, u: World)
    requires MakesUpNone(w, v) && MakesUpNone(v, u)
    ensures MakesUpNone(w, u)
  {
    forall s | s in u.inbox && s !in w.inbox ensures exists d :: d in u.log && SaysTruth(s, d) {
      if s in v.inbox {
        var d :| d in v.log && SaysTruth(s, d);
        assert d in u.log;
      }
    }
  }

  lemma AnnouncesOn(w: World, v: World, u: World)
    requires Announces(w, v) && Announces(v, u)
    ensures Announces(w, u)
  {
    hide Tells, MakesUpNone;
    TellsOn(w, v, u);
    TruthOn(w, v, u);
  }

  /** Sessions and queue are as they were, the log no shorter. */
  predicate Silent(w: World, u: World) {
    u.disk.sessions == w.disk.sessions && u.inbox == w.inbox && w.log <= u.log
  }

  lemma SilentAnnounces(w: World, u: World)
    requires Silent(w, u)
    ensures Announces(w, u)
  {
  }

  lemma WriteAnnounces(w: World, r: RunId, s: SessionStatus, anew: bool)
    requires anew || !IsOver(w, r)
    ensures Announces(w, WriteSession(w, r, s, anew))
  {
    hide Posts;
    var u := WriteSession(w, r, s, anew);
    WriteTells(w, r, s, anew);
    PostsOf(r, s, !anew && IsOver(w, r));
    assert u.disk in u.log;
    forall x | x in u.inbox && x !in w.inbox ensures exists d :: d in u.log && SaysTruth(x, d) {
      assert SaysTruth(x, u.disk);
    }
  }

  lemma WriteTells(w: World, r: RunId, s: SessionStatus, anew: bool)
    requires anew || !IsOver(w, r)
    ensures Tells(w, WriteSession(w, r, s, anew))
  {
    hide Posts;
    PostsAll(r, s);
    var u := WriteSession(w, r, s, anew);
    assert u.inbox == w.inbox + Posts(r, s, false);
    assert forall q :: q in u.disk.sessions && q != r ==> q in w.disk.sessions && u.disk.sessions[q] == w.disk.sessions[q];
  }

  lemma PostsAll(r: RunId, s: SessionStatus)
    ensures forall o :: s == StatusFor(o) ==> Finished(r, o) in Posts(r, s, false)
    ensures s == SAwaitingHuman ==> Awaiting(r) in Posts(r, s, false)
  {
  }

  lemma PostsOf(r: RunId, s: SessionStatus, wasOver: bool)
    ensures forall x :: x in Posts(r, s, wasOver) ==> x.run == r && s == if x.Finished? then StatusFor(x.outcome) else SAwaitingHuman
  {
  }

  // ── a turn as a series of acts ──────────────────────────────────────────────

  /** `Edits`: the campaign in memory is edited; `Saves`: it is written to the store; `Asks`: the engine is asked
      something that changes nothing; `Leaves`: runs are taken out of flight; the rest are its four entry points. */
  datatype Act =
    | Edits(c: Campaign)
    | Saves
    | Asks
    | Frees(q: set<RunId>)
    | Launches(r: RunId)
    | Resumes(r: RunId)
    | Confirms(r: RunId, answer: GateAnswer)
    | Cancels(r: RunId)

  function Do(w: World, a: Act, engine: Engine): World {
    match a
    case Edits(c) => w.(camp := c)
    case Saves => Persist(w)
    case Asks => Asked(w)
    case Frees(q) => w.(inFlight := w.inFlight - q)
    case Launches(r) => LaunchRun(w, r, engine).0
    case Resumes(r) => ResumeRun(w, r, engine).0
    case Confirms(r, answer) => ConfirmRun(w, r, answer, engine).0
    case Cancels(r) => CancelRun(w, r, engine).0
  }

  function DoAll(w: World, acts: seq<Act>, engine: Engine): World
    decreases |acts|
  {
    if acts == [] then w else DoAll(Do(w, acts[0], engine), acts[1..], engine)
  }

  /** Only a run whose session is not over is resumed. */
  predicate Orderly(w: World, acts: seq<Act>, engine: Engine)
    decreases |acts|
  {
    acts == [] || ((acts[0].Resumes? ==> !IsOver(w, acts[0].r)) && Orderly(Do(w, acts[0], engine), acts[1..], engine))
  }

  lemma ActAnnounces(w: World, a: Act, engine: Engine)
    requires a.Resumes? ==> !IsOver(w, a.r)
    ensures Announces(w, Do(w, a, engine))
  {
    hide Announces, LaunchRun, ResumeRun, ConfirmRun, CancelRun;
    match a
    case Launches(r) => LaunchAnnounces(w, r, engine);
    case Resumes(r) => ResumeAnnounces(w, r, engine);
    case Confirms(r, answer) => ConfirmAnnounces(w, r, answer, engine);
    case Cancels(r) => CancelAnnounces(w, r, engine);
    case _ => SilentAnnounces(w, Do(w, a, engine));
  }

  lemma LaunchAnnounces(w: World, r: RunId, engine: Engine)
    ensures Announces(w, LaunchRun(w, r, engine).0)
  {
    hide Announces, WriteSession;
    var u, a := LaunchRun(w, r, engine).0, engine(w.calls);
    if r in w.inFlight || (r in w.disk.sessions && !w.disk.sessions[r].Terminal()) || (!a.ok && !a.writes) {
      SilentAnnounces(w, u);
    } else {
      WriteAnnounces(Asked(w), r, a.status, true);
      FlightAnnounces(w, WriteSession(Asked(w), r, a.status, true), u);
    }
  }

  lemma AdvanceAnnounces(w: World, r: RunId, engine: Engine)
    requires !IsOver(w, r)
    ensures Announces(w, Advance(w, r, engine).0)
  {
    hide Announces, WriteSession;
    var u, a := Advance(w, r, engine).0, engine(w.calls);
    if a.writes {
      WriteAnnounces(Asked(w), r, a.status, false);
      FlightAnnounces(w, WriteSession(Asked(w), r, a.status, false), u);
    } else {
      SilentAnnounces(w, u);
    }
  }

  lemma ResumeAnnounces(w: World, r: RunId, engine: Engine)
    requires !IsOver(w, r)
    ensures Announces(w, ResumeRun(w, r, engine).0)
  {
    hide Announces, Advance;
    SilentAnnounces(w, w);
    AdvanceAnnounces(w, r, engine);
  }

  lemma ConfirmAnnounces(w: World, r: RunId, answer: GateAnswer, engine: Engine)
    ensures Announces(w, ConfirmRun(w, r, answer, engine).0)
  {
    hide Announces, Advance;
    SilentAnnounces(w, w);
    if Exists(w, r) && w.disk.sessions[r] == SAwaitingHuman {
      var v := w.(answers := w.answers + [(r, answer)]);
      AdvanceAnnounces(v, r, engine);
      SilentAnnounces(w, v);
      AnnouncesOn(w, v, Advance(v, r, engine).0);
    }
  }

  lemma CancelAnnounces(w: World, r: RunId, engine: Engine)
    ensures Announces(w, CancelRun(w, r, engine).0)
  {
    hide Announces, WriteSession;
    var u := CancelRun(w, r, engine).0;
    if Exists(w, r) && !IsOver(w, r) && engine(w.calls).ok {
      WriteAnnounces(Asked(w), r, SCancelled, false);
      FlightAnnounces(w, WriteSession(Asked(w), r, SCancelled, false), u);
    } else {
      SilentAnnounces(w, u);
    }
  }

  /** Neither the count of calls nor the runs in flight nor the answers matter to what is announced. */
  lemma FlightAnnounces(w: World, v: World, u: World)
    requires Announces(Asked(w), v) && u.disk == v.disk && u.inbox == v.inbox && u.log == v.log
    ensures Announces(w, u)
  {
  }

  lemma {:induction false} ActsAnnounce(w: World, acts: seq<Act>, engine: Engine)
    requires Orderly(w, acts, engine)
    ensures Announces(w, DoAll(w, acts, engine))
    decreases |acts|
  {
    hide Announces, Do;
    if acts == [] {
      SilentAnnounces(w, w);
    } else {
      ActAnnounces(w, acts[0], engine);
      ActsAnnounce(Do(w, acts[0], engine), acts[1..], engine);
      AnnouncesOn(w, Do(w, acts[0], engine), DoAll(w, acts, engine));
    }
  }

  /** `u` is reached from `w` by some acts. */
  ghost predicate Reaches(w: World, u: World, engine: Engine) {
    exists acts :: Orderly(w, acts, engine) && DoAll(w, acts, engine) == u
  }

  lemma {:induction false} MoreActs(w: World, acts: seq<Act>, more: seq<Act>, engine: Engine)
    requires Orderly(w, acts, engine) && Orderly(DoAll(w, acts, engine), more, engine)
    ensures Orderly(w, acts + more, engine) && DoAll(w, acts + more, engine) == DoAll(DoAll(w, acts, engine), more, engine)
    decreases |acts|
  {
    hide Do;
    if acts == [] {
      assert acts + more == more;
    } else {
      assert (acts + more)[0] == acts[0] && (acts + more)[1..] == acts[1..] + more;
      MoreActs(Do(w, acts[0], engine), acts[1..], more, engine);
    }
  }

  lemma Chain(w: World, v: World, u: World, engine: Engine)
    requires Reaches(w, v, engine) && Reaches(v, u, engine)
    ensures Reaches(w, u, engine)
  {
    hide Orderly, DoAll;
    var acts :| Orderly(w, acts, engine) && DoAll(w, acts, engine) == v;
    var more :| Orderly(v, more, engine) && DoAll(v, more, engine) == u;
    MoreActs(w, acts, more, engine);
  }

  lemma Once(w: World, a: Act, engine: Engine)
    requires a.Resumes? ==> !IsOver(w, a.r)
    ensures Reaches(w, Do(w, a, engine), engine)
  {
    hide Do;
    var acts := [a];
    NoActs(Do(w, a, engine), engine);
    assert acts[0] == a && acts[1..] == [];
    assert DoAll(w, acts, engine) == DoAll(Do(w, a, engine), [], engine);
    assert Orderly(w, acts, engine);
  }

  lemma NoActs(w: World, engine: Engine)
    ensures Orderly(w, [], engine) && DoAll(w, [], engine) == w
  {
  }

  lemma Stays(w: World, engine: Engine)
    ensures Reaches(w, w, engine)
  {
    NoActs(w, engine);
  }

  /** An edit, and its write. */
  lemma EditSaved(w: World, c: Campaign, engine: Engine)
    ensures Reaches(w, w.(camp := c), engine) && Reaches(w, Persist(w.(camp := c)), engine)
  {
    hide Reaches, Persist;
    Once(w, Edits(c), engine);
    Once(w.(camp := c), Saves, engine);
    Chain(w, w.(camp := c), Persist(w.(camp := c)), engine);
  }

  lemma {:induction false} CancelsReach(w: World, runs: seq<(NodeId, RunId)>, engine: Engine)
    ensures Reaches(w, CancelRuns(w, runs, engine), engine)
    decreases |runs|
  {
    hide Reaches, CancelRun;
    if runs == [] {
      Stays(w, engine);
    } else {
      var r := runs[0].1;
      var v := CancelRun(w, r, engine).0;
      var u := v.(inFlight := v.inFlight - {r});
      Once(w, Cancels(r), engine);
      Once(v, Frees({r}), engine);
      Chain(w, v, u, engine);
      CancelsReach(u, runs[1..], engine);
      Chain(w, u, CancelRuns(u, runs[1..], engine), engine);
    }
  }

  lemma FailFastReaches(w: World, engine: Engine)
    ensures Reaches(w, FailFastAll(w, engine), engine)
  {
    hide Reaches, CancelRuns, RunsOf, CancelNonTerminal;
    var c := CancelNonTerminal(w.camp).(failFastTripped := true);
    EditSaved(w, c, engine);
    var v := Persist(w.(camp := c));
    CancelsReach(v, RunsOf(w.camp, LIVE), engine);
    Chain(w, v, FailFastAll(w, engine), engine);
  }

  lemma EndReaches(w: World, n: NodeId, outcome: Outcome, engine: Engine)
    requires Defined(w.camp) && n in w.camp.nodeStatus
    ensures Reaches(w, EndNode(w, n, outcome, engine), engine)
  {
    hide Reaches, WellFormed, ApplyBlocking, GateFailure, FailFastAll;
    var v := Persist(SetNodeW(w, n, outcome.AsNodeStatus()));
    EditSaved(w, SetNode(w.camp, n, outcome.AsNodeStatus()), engine);
    if outcome != OCompleted {
      FailFastReaches(v, engine);
      EditSaved(v, ApplyBlocking(v.camp), engine);
      EditSaved(v, GateFailure(v.camp, n), engine);
      Chain(w, v, ApplyFailurePolicy(v, n, engine), engine);
    }
  }

  lemma ReconcileReaches(w: World, n: NodeId, outcome: Outcome, engine: Engine)
    requires Defined(w.camp)
    ensures Reaches(w, ReconcileTerminal(w, n, outcome, engine), engine)
  {
    hide Reaches, WellFormed, EndNode;
    Stays(w, engine);
    if n in w.camp.nodeStatus {
      EndReaches(w, n, outcome, engine);
    }
  }

  lemma StartReaches(w: World, n: NodeId, engine: Engine)
    ensures Reaches(w, Start(w, n, engine).0, engine)
  {
    hide Reaches, LaunchRun, ConfirmRun;
    var r := DeriveRunId(w.camp, n);
    EditSaved(w, Slotted(w.camp, n), engine);
    var v := TakeSlot(w, n);
    if StatusIn(w.camp, n) == Ready {
      Once(v, Launches(r), engine);
      Chain(w, v, LaunchRun(v, r, engine).0, engine);
    } else {
      var answer := if n in v.camp.decisions then Approve(v.camp.decisions[n]) else Approve(None);
      var d := v.camp.(decisions := v.camp.decisions - {n});
      EditSaved(v, d, engine);
      var x := Persist(v.(camp := d));
      Chain(w, v, x, engine);
      Once(x, Confirms(r, answer), engine);
      Chain(w, x, ConfirmRun(x, r, answer, engine).0, engine);
    }
  }

  lemma DispatchReaches(w: World, n: NodeId, engine: Engine)
    requires Defined(w.camp) && n in w.camp.nodeStatus
    ensures Reaches(w, Dispatch(w, n, engine), engine)
  {
    hide Reaches, WellFormed, Start, EndNode;
    StartReaches(w, n, engine);
    var started := Start(w, n, engine);
    if !started.1 {
      EndReaches(started.0, n, OFailed, engine);
      Chain(w, started.0, Dispatch(w, n, engine), engine);
    }
  }

  lemma {:induction false} FillReaches(w: World, engine: Engine)
    requires Defined(w.camp)
    ensures Reaches(w, Fill(w, engine), engine)
    decreases Startable(w.camp)
  {
    hide Reaches, WellFormed, Dispatch;
    if |RunningNodes(w.camp)| >= w.camp.def.cap || Dispatchable(w.camp) == {} {
      Stays(w, engine);
    } else {
      var n := Least(Dispatchable(w.camp));
      DispatchShrinks(w, n, engine);
      DispatchReaches(w, n, engine);
      FillReaches(Dispatch(w, n, engine), engine);
      Chain(w, Dispatch(w, n, engine), Fill(w, engine), engine);
    }
  }

  lemma FilledReaches(w: World, engine: Engine)
    requires Defined(w.camp)
    ensures Reaches(w, FillAndFinalize(w, engine), engine)
  {
    hide Reaches, WellFormed, Fill, FinalizeIfDone;
    Stays(w, engine);
    FillReaches(w, engine);
    var v := TryFill(w, engine);
    EditSaved(v, FinalizeIfDone(v.camp), engine);
    Chain(w, v, FillAndFinalize(w, engine), engine);
  }

  lemma PromotedReaches(w: World, engine: Engine)
    requires Defined(w.camp)
    ensures Reaches(w, PromoteAndFill(w, engine), engine)
  {
    hide Reaches, WellFormed, PromoteReady, FillAndFinalize;
    PromoteDefined(w.camp);
    var v := Persist(w.(camp := PromoteReady(w.camp)));
    EditSaved(w, PromoteReady(w.camp), engine);
    FilledReaches(v, engine);
    Chain(w, v, PromoteAndFill(w, engine), engine);
  }

  lemma ReattachReaches(w: World, n: NodeId, r: RunId, engine: Engine)
    requires Defined(w.camp)
    ensures Reaches(w, Reattach(w, n, r, engine), engine)
  {
    hide Reaches, WellFormed, ReconcileTerminal, LaunchRun, ResumeRun;
    if r in w.disk.sessions && w.disk.sessions[r].Terminal() {
      ReconcileReaches(w, n, OutcomeOf(w.disk.sessions[r]), engine);
    } else {
      var started := if r in w.disk.sessions then ResumeRun(w, r, engine) else LaunchRun(w, r, engine);
      Once(w, if r in w.disk.sessions then Resumes(r) else Launches(r), engine);
      if !started.1 {
        ReconcileReaches(started.0, n, OFailed, engine);
        Chain(w, started.0, Reattach(w, n, r, engine), engine);
      }
    }
  }

  lemma {:induction false} ReattachAllReaches(w: World, runs: seq<(NodeId, RunId)>, engine: Engine)
    requires Defined(w.camp)
    ensures Reaches(w, ReattachAll(w, runs, engine), engine)
    decreases |runs|
  {
    hide Reaches, WellFormed, Reattach;
    if runs == [] {
      Stays(w, engine);
    } else {
      ReattachReaches(w, runs[0].0, runs[0].1, engine);
      var v := Reattach(w, runs[0].0, runs[0].1, engine);
      ReattachAllReaches(v, runs[1..], engine);
      Chain(w, v, ReattachAll(v, runs[1..], engine), engine);
    }
  }

  lemma {:induction false} RegateAllReaches(w: World, runs: seq<(NodeId, RunId)>, engine: Engine)
    requires Defined(w.camp)
    ensures Reaches(w, RegateAll(w, runs, engine), engine)
    decreases |runs|
  {
    hide Reaches, WellFormed, ReconcileTerminal;
    if runs == [] {
      Stays(w, engine);
    } else {
      Stays(w, engine);
      var (n, r) := runs[0];
      if r in w.disk.sessions {
        ReconcileReaches(w, n, OutcomeOf(w.disk.sessions[r]), engine);
      }
      var v := Regate(w, n, r, engine);
      RegateAllReaches(v, runs[1..], engine);
      Chain(w, v, RegateAll(v, runs[1..], engine), engine);
    }
  }

  // ── each command ────────────────────────────────────────────────────────────

  lemma ResumeReaches(w: World, engine: Engine)
    requires HasCampaign(w) && Defined(w.disk.saved.value) && !Ended(w.disk.saved.value.status)
    ensures Reaches(Load(w), ResumeCampaign(w, engine).0, engine)
  {
    hide Reaches, WellFormed, ReattachAll, RegateAll, PromoteAndFill;
    var v := Load(w);
    var d := Unpaused(v.camp);
    EditSaved(v, d, engine);
    var u := Persist(v.(camp := d));
    var runs := RunsOf(d, {Running});
    ReattachAllReaches(u, runs, engine);
    var a := ReattachAll(u, runs, engine);
    Chain(v, u, a, engine);
    RegateAllReaches(a, RunsOf(a.camp, GATED), engine);
    var b := RegateAll(a, RunsOf(a.camp, GATED), engine);
    Chain(v, a, b, engine);
    PromotedReaches(b, engine);
    Chain(v, b, PromoteAndFill(b, engine), engine);
  }

  lemma RejectReaches(w: World, n: NodeId, engine: Engine)
    requires HasCampaign(w) && Defined(w.disk.saved.value)
    ensures var u := Rejected(w, n, engine).0; u == w || Reaches(Load(w), u, engine)
  {
    hide Reaches, WellFormed, ConfirmRun, CancelRun, ReconcileTerminal, PromoteAndFill;
    var v := Load(w);
    if StatusIn(v.camp, n) == AwaitingHuman && n in v.camp.nodeRunId {
      var r := v.camp.nodeRunId[n];
      var a := ConfirmRun(v, r, Reject, engine).0;
      Once(v, Confirms(r, Reject), engine);
      var u := a.(inFlight := a.inFlight - {r});
      Once(a, Frees({r}), engine);
      Chain(v, a, u, engine);
      var b := CancelRun(u, r, engine).0;
      Once(u, Cancels(r), engine);
      Chain(v, u, b, engine);
      var o := if EndedOutcome(u.disk, r).Some? then EndedOutcome(u.disk, r).value else OFailed;
      ReconciledReaches(v, u, n, o, engine);
      ReconciledReaches(v, b, n, OFailed, engine);
    }
  }

  lemma ReconciledReaches(v: World, u: World, n: NodeId, o: Outcome, engine: Engine)
    requires Defined(u.camp) && Reaches(v, u, engine)
    ensures Reaches(v, ReconcileRejected(u, n, o, engine), engine)
  {
    hide Reaches, WellFormed, ReconcileTerminal, PromoteAndFill;
    ReconcileReaches(u, n, o, engine);
    var x := ReconcileTerminal(u, n, o, engine);
    Chain(v, u, x, engine);
    PromotedReaches(x, engine);
    Chain(v, x, PromoteAndFill(x, engine), engine);
  }

  lemma EditFilled(v: World, c: Campaign, engine: Engine)
    requires Defined(c)
    ensures Reaches(v, FillAndFinalize(Persist(v.(camp := c)), engine), engine)
  {
    hide Reaches, WellFormed, FillAndFinalize;
    EditSaved(v, c, engine);
    FilledReaches(Persist(v.(camp := c)), engine);
    Chain(v, Persist(v.(camp := c)), FillAndFinalize(Persist(v.(camp := c)), engine), engine);
  }

  lemma SkipReaches(w: World, n: NodeId, engine: Engine)
    requires HasCampaign(w) && Defined(w.disk.saved.value) && Gated(w.disk.saved.value, n)
    ensures Reaches(Load(w), SkipNode(w, n, engine).0, engine)
  {
    hide Reaches, WellFormed, FillAndFinalize, Skipped, PromoteReady;
    var v := Load(w);
    GateEditsDefined(v.camp, n);
    EditSaved(v, Skipped(v.camp, n), engine);
    var u := Persist(v.(camp := Skipped(v.camp, n)));
    PromoteDefined(u.camp);
    var x := u.(camp := PromoteReady(u.camp));
    EditSaved(u, PromoteReady(u.camp), engine);
    Chain(v, u, x, engine);
    FilledReaches(x, engine);
    Chain(v, x, FillAndFinalize(x, engine), engine);
  }

  lemma AbortReaches(w: World, n: NodeId, engine: Engine)
    requires HasCampaign(w)
    ensures var u := AbortNode(w, n, engine).0; u == w || Reaches(Load(w), u, engine)
  {
    hide Reaches, FailFastAll, FinalizeIfDone;
    var v := Load(w);
    var x := v.(camp := Reopened(v.camp, n));
    EditSaved(v, Reopened(v.camp, n), engine);
    FailFastReaches(x, engine);
    var y := FailFastAll(x, engine);
    Chain(v, x, y, engine);
    EditSaved(y, FinalizeIfDone(y.camp), engine);
    Chain(v, y, Finalize(y), engine);
  }

  lemma CancelReaches(w: World, engine: Engine)
    requires HasCampaign(w)
    ensures var u := CancelCampaign(w, engine).0; u == w || Reaches(Load(w), u, engine)
  {
    hide Reaches, CancelRuns, CancelNonTerminal, RunsOf;
    var v := Load(w);
    var d := v.camp.(status := CCancelled);
    EditSaved(v, d, engine);
    var u := Persist(v.(camp := d));
    EditSaved(u, CancelNonTerminal(d), engine);
    var x := Persist(u.(camp := CancelNonTerminal(d)));
    Chain(v, u, x, engine);
    CancelsReach(x, RunsOf(d, LIVE), engine);
    Chain(v, x, CancelRuns(x, RunsOf(d, LIVE), engine), engine);
  }

  lemma AwaitingReaches(w: World, r: RunId, engine: Engine)
    requires HasCampaign(w) && Defined(w.disk.saved.value)
    ensures var u := OnNodeAwaiting(w, r, engine).0; u == w || Reaches(Load(w), u, engine)
  {
    hide Reaches, WellFormed, FillAndFinalize, FindByRun, ConfirmRun;
    var v := Load(w);
    var found := FindByRun(v.camp, r);
    if found.Some? && StatusIn(v.camp, found.value) == Running {
      var c := SetNode(v.camp, found.value, AwaitingHuman);
      EditSaved(v, c, engine);
      var u := Persist(v.(camp := c));
      Stays(u, engine);
      Once(u, Asks, engine);
      Once(Asked(u), Confirms(r, Reject), engine);
      Chain(u, Asked(u), ConfirmRun(Asked(u), r, Reject, engine).0, engine);
      var x := AutoReject(u, r, engine);
      Chain(v, u, x, engine);
      FilledReaches(x, engine);
      Chain(v, x, FillAndFinalize(x, engine), engine);
    }
  }

  lemma FinishedReaches(w: World, r: RunId, outcome: Outcome, engine: Engine)
    requires HasCampaign(w) && Defined(w.disk.saved.value)
    ensures var u := OnRunFinished(w, r, outcome, engine).0; u == w || Reaches(Load(w), u, engine)
  {
    hide Reaches, WellFormed, FindByRun, ReconcileTerminal, PromoteAndFill;
    var v := Load(w);
    var found := FindByRun(v.camp, r);
    if found.Some? {
      Stays(v, engine);
      ReconciledReaches(v, v, found.value, outcome, engine);
    }
  }

  lemma LaunchReaches(w: World, def: Def, engine: Engine)
    ensures var u := LaunchCampaign(w, def, engine).0; u == w || Reaches(w, u, engine)
  {
    hide Reaches, WellFormed, PromoteAndFill;
    if LaunchCampaign(w, def, engine).1 {
      var v := Persist(w.(camp := FreshCampaign(def)));
      EditSaved(w, FreshCampaign(def), engine);
      PromotedReaches(v, engine);
      Chain(w, v, PromoteAndFill(v, engine), engine);
    }
  }

  /** Every command is a series of acts on the campaign it loads, or leaves the world alone. */
  lemma HandleReaches(w: World, cmd: Command, engine: Engine)
    requires HasCampaign(w) ==> Defined(w.disk.saved.value)
    ensures var u := Handle(w, cmd, engine).0;
            u == w || Reaches(if cmd.Launch? then w else Load(w), u, engine)
  {
    hide Reaches, WellFormed, FillAndFinalize, OnRunFinished, OnNodeAwaiting, Rejected, SkipNode, AbortNode, CancelCampaign, ResumeCampaign, LaunchCampaign, Retried;
    match cmd
    case Launch(def) => LaunchReaches(w, def, engine);
    case _ =>
      if HasCampaign(w) {
        var v := Load(w);
        match cmd {
          case RunFinished(r, outcome) => FinishedReaches(w, r, outcome, engine);
          case NodeAwaiting(r) => AwaitingReaches(w, r, engine);
          case ApproveGate(n, amend) =>
            if StatusIn(v.camp, n) == AwaitingHuman {
              EditFilled(v, SetNode(v.camp, n, ReadyToResume).(decisions := v.camp.decisions[n := amend]), engine);
            }
          case RejectGate(n) => RejectReaches(w, n, engine);
          case Retry(n) => RetryReaches(w, n, engine);
          case Skip(n) => SkipOrNot(w, n, engine);
          case Abort(n) => AbortReaches(w, n, engine);
          case Pause => EditSaved(v, v.camp.(status := CPaused), engine);
          case Cancel => CancelReaches(w, engine);
          case Resume => ResumeOrNot(w, engine);
        }
      }
  }

  lemma RetryReaches(w: World, n: NodeId, engine: Engine)
    requires HasCampaign(w) && Defined(w.disk.saved.value)
    ensures var u := RetryNode(w, n, engine).0; u == w || Reaches(Load(w), u, engine)
  {
    hide Reaches, WellFormed, FillAndFinalize, Retried;
    if Gated(w.disk.saved.value, n) {
      GateEditsDefined(w.disk.saved.value, n);
      EditFilled(Load(w), Retried(w.disk.saved.value, n), engine);
    }
  }

  lemma SkipOrNot(w: World, n: NodeId, engine: Engine)
    requires HasCampaign(w) && Defined(w.disk.saved.value)
    ensures var u := SkipNode(w, n, engine).0; u == w || Reaches(Load(w), u, engine)
  {
    hide Reaches, WellFormed, FillAndFinalize, Skipped, PromoteReady;
    if Gated(w.disk.saved.value, n) {
      SkipReaches(w, n, engine);
    }
  }

  lemma ResumeOrNot(w: World, engine: Engine)
    requires HasCampaign(w) && Defined(w.disk.saved.value)
    ensures var u := ResumeCampaign(w, engine).0; u == w || Reaches(Load(w), u, engine)
  {
    hide Reaches, WellFormed, ReattachAll, RegateAll, PromoteAndFill;
    if !Ended(w.disk.saved.value.status) {
      ResumeReaches(w, engine);
    }
  }

  /** The world a turn starts from: a delivered signal has left the queue. */
  function TurnStart(w: World, work: Work): World {
    if work.Deliver? && work.signal in w.inbox then Taken(w, work.signal) else w
  }

  /** In every turn, whatever the engine answers: a session the turn leaves over that was not so before, or not in
      that way, is announced with exactly the outcome it has; one left waiting for a human is announced as waiting;
      nothing queued is lost but the signal that was delivered; and whatever is announced was true of a session at
      some write of the turn. */
  lemma TurnAnnounces(w: World, work: Work, engine: Engine)
    requires Rest(false, false, w)
    ensures Announces(TurnStart(w, work), Perform(w, work, engine))
  {
    var v := TurnStart(w, work);
    if w.disk.saved.Some? {
      SavedDefined(false, false, w);
    }
    hide Rest, WellFormed, Announces, Handle, Reaches;
    SilentAnnounces(v, v);
    match work
    case Order(cmd) =>
      if !Posted(cmd) {
        HandleReaches(w, cmd, engine);
        ReachAnnounces(w, cmd, engine);
      }
    case Deliver(s) =>
      if s in w.inbox {
        var cmd := if s.Finished? then RunFinished(s.run, s.outcome) else NodeAwaiting(s.run);
        HandleReaches(v, cmd, engine);
        ReachAnnounces(v, cmd, engine);
      }
  }

  lemma ReachAnnounces(w: World, cmd: Command, engine: Engine)
    requires HasCampaign(w) ==> Defined(w.disk.saved.value)
    requires var u := Handle(w, cmd, engine).0; u == w || Reaches(if cmd.Launch? then w else Load(w), u, engine)
    requires !cmd.Launch? ==> HasCampaign(w) || Handle(w, cmd, engine).0 == w
    ensures Announces(w, Handle(w, cmd, engine).0)
  {
    hide Handle, WellFormed, Announces, Orderly, DoAll;
    var u := Handle(w, cmd, engine).0;
    if u == w {
      SilentAnnounces(w, w);
    } else {
      var v := if cmd.Launch? then w else Load(w);
      var acts :| Orderly(v, acts, engine) && DoAll(v, acts, engine) == u;
      ActsAnnounce(v, acts, engine);
      SilentAnnounces(w, v);
      AnnouncesOn(w, v, u);
    }
  }
}
