/** Histories: any sequence of operator commands, delivered signals, sessions moving on their own, and
    crashes between any two writes of the store. */
module CampaignRuns {
  import opened Names
  import opened CampaignGraph
  import opened CampaignCycle
  import opened CampaignModel
  import opened CampaignHandlers
  import opened CampaignInvariants
  import opened CampaignSafety
  import opened CampaignKeeps
  import opened CampaignResume

  /** One turn of the actor: an operator's command, or a signal taken from its own queue. */
  datatype Work = Order(cmd: Command) | Deliver(signal: Signal)

  /** `Drifts`: the engine moves a session outside any campaign command. `Crashes`: the process dies
      during `work`, after `at` of its writes. */
  datatype Move =
    | Does(work: Work)
    | Drifts(run: RunId, status: SessionStatus, busy: bool)
    | Crashes(work: Work, at: nat)

  function Fresh(w: World): World {
    w.(log := [w.disk])
  }

  /** Only the engine posts signals; an operator's command is anything else. */
  predicate Posted(cmd: Command) {
    cmd.RunFinished? || cmd.NodeAwaiting?
  }

  ghost function Perform(w: World, work: Work, engine: Engine): World
    requires Rest(false, false, w)
  {
    match work
    case Order(cmd) => if Posted(cmd) then w else Handle(w, cmd, engine).0
    case Deliver(s) =>
      if s !in w.inbox then w
      else if s.Finished? then Handle(Taken(w, s), RunFinished(s.run, s.outcome), engine).0
      else Handle(Taken(w, s), NodeAwaiting(s.run), engine).0
  }

  /** The process restarts on what the store held: the queue and the workers are gone. */
  function Boot(w: World, d: Disk): World {
    w.(disk := d, inbox := multiset{}, inFlight := {}, log := [d])
  }

  ghost function Step(w: World, m: Move, engine: Engine): World
    requires Rest(false, false, w)
  {
    match m
    case Does(work) => Fresh(Perform(w, work, engine))
    case Drifts(r, s, busy) =>
      if r !in w.disk.sessions then w
      else Fresh(WriteSession(w, r, s, false).(inFlight := if busy then w.inFlight + {r} else w.inFlight - {r}))
    case Crashes(work, at) =>
      var u := Perform(w, work, engine);
      if at < |u.log| then Boot(u, u.log[at]) else w
  }

  ghost predicate IsLaunch(work: Work) {
    work.Order? && work.cmd.Launch?
  }

  ghost predicate LaunchesUnused(w: World, work: Work) {
    IsLaunch(work) ==> Unused(work.cmd.def, w.disk.sessions)
  }

  /** The campaign `work` starts from: none for a launch, which starts over. */
  ghost function BaseOf(w: World, work: Work): Option<Campaign> {
    if IsLaunch(work) then None else w.disk.saved
  }

  // ── one move ────────────────────────────────────────────────────────────────

  lemma LeavesRest(p: Promise, u: World)
    requires Leaves(p, u) && p.exempt == {}
    ensures Rest(p.once, p.tied, Fresh(u))
  {
    var v := Fresh(u);
    assert SavedOk(p.base, u.disk);
    assert Load(v).camp == u.camp;
    assert Steady(Some(u.camp), Load(v));
    assert p.once ==> OnceDisk(u.disk);
    if p.tied {
      forall n | n in u.camp.nodeStatus && u.camp.nodeStatus[n].Live() ensures n in u.camp.nodeRunId && TiedRun(v, u.camp.nodeRunId[n]) {
        assert TiedRun(u, u.camp.nodeRunId[n]);
      }
      assert Tied(Load(v), {});
    }
  }

  /** What one turn leaves, at rest and at every write on the way. */
  ghost predicate TurnOk(once: bool, tied: bool, base: Option<Campaign>, u: World) {
    Rest(once, tied, Fresh(u)) && u.disk in u.log &&
    forall d :: d in u.log ==> SavedOk(base, d) && (once ==> OnceDisk(d))
  }

  lemma RestTurn(once: bool, tied: bool, w: World)
    requires Rest(once, tied, w)
    ensures TurnOk(once, tied, w.disk.saved, w) && TurnOk(once, tied, None, w)
  {
    assert Fresh(w) == w;
    if w.disk.saved.Some? {
      var v := Load(w);
      assert v.disk in v.log && SavedOk(w.disk.saved, v.disk);
      assert once ==> OnceDisk(v.disk);
    }
  }

  lemma LeavesTurn(p: Promise, u: World)
    requires Leaves(p, u) && p.exempt == {}
    ensures TurnOk(p.once, p.tied, p.base, u)
  {
    LeavesRest(p, u);
  }

  lemma HandledTurn(p: Promise, w: World, u: World)
    requires Handled(p, w, u) && p.exempt == {} && p.base == w.disk.saved
    ensures TurnOk(p.once, p.tied, w.disk.saved, u)
  {
    if Leaves(p, u) {
      LeavesTurn(p, u);
    } else {
      RestTurn(p.once, p.tied, w);
    }
  }

  lemma SavedDefined(once: bool, tied: bool, w: World)
    requires Rest(once, tied, w) && w.disk.saved.Some?
    ensures Defined(w.disk.saved.value)
  {
    assert Good(Promise(w.disk.saved, once, tied, {}), Load(w));
  }

  lemma LooseTie(once: bool, w: World)
    requires Rest(once, true, w)
    ensures Rest(once, false, w)
  {
    if w.disk.saved.Some? {
      assert Good(Promise(Some(w.disk.saved.value), once, true, {}), Load(w));
    }
  }

  lemma OrderTurn(once: bool, tied: bool, w: World, cmd: Command, engine: Engine)
    requires Rest(once, tied, w) && w.disk.saved.Some? && !cmd.Launch? && !Posted(cmd)
    ensures TurnOk(once, tied, w.disk.saved, Handle(w, cmd, engine).0)
  {
    SavedDefined(once, tied, w);
    hide Rest, TurnOk, Handled, WellFormed, Approved, Rejected, RetryNode, SkipNode, AbortNode, PauseCampaign, CancelCampaign, ResumeCampaign;
    var p := Promise(Some(w.disk.saved.value), once, tied, {});
    match cmd
    case ApproveGate(n, amend) => ApprovedLeaves(once, tied, w, n, amend, engine); HandledTurn(p, w, Approved(w, n, amend, engine).0);
    case RejectGate(n) => RejectedLeaves(once, tied, w, n, engine); HandledTurn(p, w, Rejected(w, n, engine).0);
    case Retry(n) => RetryLeaves(once, tied, w, n, engine); HandledTurn(p, w, RetryNode(w, n, engine).0);
    case Skip(n) => SkipLeaves(once, tied, w, n, engine); HandledTurn(p, w, SkipNode(w, n, engine).0);
    case Abort(n) => AbortLeaves(once, tied, w, n, engine); HandledTurn(p, w, AbortNode(w, n, engine).0);
    case Pause => PauseLeaves(once, tied, w); HandledTurn(p, w, PauseCampaign(w).0);
    case Cancel => CancelLeaves(once, tied, w, engine); HandledTurn(p, w, CancelCampaign(w, engine).0);
    case Resume => ResumeTurn(once, tied, w, engine);
  }

  lemma ResumeTurn(once: bool, tied: bool, w: World, engine: Engine)
    requires Rest(once, tied, w) && w.disk.saved.Some?
    ensures TurnOk(once, tied, w.disk.saved, ResumeCampaign(w, engine).0)
    ensures !Ended(w.disk.saved.value.status) ==> TurnOk(once, true, w.disk.saved, ResumeCampaign(w, engine).0)
  {
    ResumeLeaves(once, tied, w, engine);
    if Ended(w.disk.saved.value.status) {
      RestTurn(once, tied, w);
    } else {
      LeavesTurn(Promise(Some(w.disk.saved.value), once, true, {}), ResumeCampaign(w, engine).0);
      LooseTie(once, Fresh(ResumeCampaign(w, engine).0));
    }
  }

  lemma LaunchTurn(once: bool, tied: bool, w: World, def: Def, engine: Engine)
    requires Rest(once, tied, w) && (once ==> Unused(def, w.disk.sessions))
    ensures TurnOk(once, tied, None, LaunchCampaign(w, def, engine).0)
  {
    if tied {
      LooseTie(once, w);
    }
    LaunchLeaves(w, def, engine, once);
    var (u, ok) := LaunchCampaign(w, def, engine);
    if ok {
      LeavesTurn(Promise(None, once, true, {}), u);
      LooseTie(once, Fresh(u));
    } else {
      RestTurn(once, tied, w);
    }
  }

  lemma DeliverTurn(once: bool, tied: bool, w: World, s: Signal, engine: Engine)
    requires Rest(once, tied, w) && s in w.inbox && Rest(false, false, w)
    ensures TurnOk(once, tied, w.disk.saved, Perform(w, Deliver(s), engine))
  {
    hide CampOk, TurnOk, OnRunFinished, OnNodeAwaiting;
    if w.disk.saved.None? {
      TakenRests(once, tied, w, s);
      RestTurn(once, tied, Taken(w, s));
    } else {
      var p := Promise(Some(w.disk.saved.value), once, tied, {});
      match s
      case Finished(r, outcome) =>
        FinishedLeaves(once, tied, w, r, outcome, engine);
        HandledTurn(p, Taken(w, s), OnRunFinished(Taken(w, s), r, outcome, engine).0);
      case Awaiting(r) =>
        AwaitingLeaves(once, tied, w, r, engine);
        HandledTurn(p, Taken(w, s), OnNodeAwaiting(Taken(w, s), r, engine).0);
    }
  }

  /** One turn of the actor, whatever it is, keeps everything asked for. */
  lemma PerformTurn(once: bool, tied: bool, w: World, work: Work, engine: Engine)
    requires Rest(once, tied, w) && Rest(false, false, w) && (once ==> LaunchesUnused(w, work))
    ensures TurnOk(once, tied, BaseOf(w, work), Perform(w, work, engine))
  {
    match work
    case Order(cmd) =>
      if cmd.Launch? {
        LaunchTurn(once, tied, w, cmd.def, engine);
      } else if Posted(cmd) || w.disk.saved.None? {
        RestTurn(once, tied, w);
      } else {
        OrderTurn(once, tied, w, cmd, engine);
      }
    case Deliver(s) =>
      if s in w.inbox {
        DeliverTurn(once, tied, w, s, engine);
      } else {
        RestTurn(once, tied, w);
      }
  }

  lemma BootRest(once: bool, base: Option<Campaign>, u: World, d: Disk)
    requires SavedOk(base, d) && (once ==> OnceDisk(d))
    ensures Rest(once, false, Boot(u, d))
  {
    var v := Boot(u, d);
    if d.saved.Some? {
      assert SavedOk(Some(d.saved.value), d);
      assert Steady(Some(d.saved.value), Load(v));
      assert once ==> Once(Load(v));
    }
  }

  lemma DriftRest(once: bool, tied: bool, w: World, r: RunId, s: SessionStatus, inFlight: set<RunId>)
    requires Rest(once, tied, w) && r in w.disk.sessions
    ensures Rest(once, tied, Fresh(WriteSession(w, r, s, false).(inFlight := inFlight)))
  {
    var u := WriteSession(w, r, s, false);
    WriteSessionStep(w, r, s, false);
    if w.disk.saved.Some? {
      var p := Promise(Some(w.disk.saved.value), once, tied, {});
      WriteSessionStep(Load(w), r, s, false);
      GoodStep(p, Load(w), WriteSession(Load(w), r, s, false), r);
      GoodInFlight(p, WriteSession(Load(w), r, s, false), inFlight);
      var x := WriteSession(Load(w), r, s, false).(inFlight := inFlight);
      LeavesRest(p, x);
      assert Load(Fresh(x)) == Load(Fresh(u.(inFlight := inFlight)));
    }
  }

  ghost predicate MoveUnused(w: World, m: Move) {
    (m.Does? ==> LaunchesUnused(w, m.work)) && (m.Crashes? ==> LaunchesUnused(w, m.work))
  }

  lemma StepRest(once: bool, tied: bool, w: World, m: Move, engine: Engine)
    requires Rest(once, tied, w) && Rest(false, false, w)
    requires once ==> MoveUnused(w, m)
    requires tied ==> !m.Crashes?
    ensures Rest(once, tied, Step(w, m, engine))
  {
    match m
    case Does(work) => PerformTurn(once, tied, w, work, engine);
    case Drifts(r, s, busy) =>
      if r in w.disk.sessions {
        DriftRest(once, tied, w, r, s, if busy then w.inFlight + {r} else w.inFlight - {r});
      }
    case Crashes(work, at) =>
      PerformTurn(once, tied, w, work, engine);
      var u := Perform(w, work, engine);
      if at < |u.log| {
        assert u.log[at] in u.log;
        BootRest(once, BaseOf(w, work), u, u.log[at]);
      }
  }
}
