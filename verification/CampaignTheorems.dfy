/** What holds in every history of a campaign. */
module CampaignTheorems {
  import opened Names
  import opened CampaignGraph
  import opened CampaignCycle
  import opened CampaignModel
  import opened CampaignHandlers
  import opened CampaignInvariants
  import opened CampaignSafety
  import opened CampaignKeeps
  import opened CampaignResume
  import opened CampaignRuns

  ghost function Run(w: World, moves: seq<Move>, engine: Engine): World
    requires Rest(false, false, w)
    decreases |moves|
  {
    if moves == [] then w
    else
      StepRest(false, false, w, moves[0], engine);
      Run(Step(w, moves[0], engine), moves[1..], engine)
  }

  /** An engine that has not seen this campaign. */
  ghost predicate Initial(w: World) {
    w.disk == Disk(None, map[], multiset{}) && w.inbox == multiset{} && w.log == [w.disk]
  }

  /** Every launch of the history uses run ids that have no session yet. */
  ghost predicate LaunchesUnusedIds(w: World, moves: seq<Move>, engine: Engine)
    requires Rest(false, false, w)
    decreases |moves|
  {
    moves == [] ||
    (MoveUnused(w, moves[0]) &&
     (StepRest(false, false, w, moves[0], engine);
      LaunchesUnusedIds(Step(w, moves[0], engine), moves[1..], engine)))
  }

  predicate NoCrash(moves: seq<Move>) {
    forall m :: m in moves ==> !m.Crashes?
  }

  predicate Relaunches(m: Move) {
    (m.Does? || m.Crashes?) && m.work.Order? && m.work.cmd.Launch?
  }

  // ── safety, through crashes ─────────────────────────────────────────────────

  lemma {:induction false} RunRest(once: bool, tied: bool, w: World, moves: seq<Move>, engine: Engine)
    requires Rest(once, tied, w) && Rest(false, false, w)
    requires once ==> LaunchesUnusedIds(w, moves, engine)
    requires tied ==> NoCrash(moves)
    ensures Rest(once, tied, Run(w, moves, engine)) && Rest(false, false, Run(w, moves, engine))
    decreases |moves|
  {
    if moves != [] {
      StepRest(once, tied, w, moves[0], engine);
      StepRest(false, false, w, moves[0], engine);
      RunRest(once, tied, Step(w, moves[0], engine), moves[1..], engine);
    }
  }

  /** After any history, crashes and relaunches included: the cap bounds what executes; whoever is
      ready, started, failed or gated has its `OnSuccess` dependencies completed; only a failed or
      cancelled node is gated; a live node's recorded run is its current attempt's; a finalized
      campaign has no live node. */
  lemma HistorySafe(w: World, moves: seq<Move>, engine: Engine)
    requires Initial(w)
    ensures var d := Run(w, moves, engine).disk;
            d.saved.Some? ==> Defined(d.saved.value) && CampOk(d.saved.value) && SeenOk(d.saved.value, d.sessions)
  {
    RunRest(false, false, w, moves, engine);
    var u := Run(w, moves, engine);
    if u.disk.saved.Some? {
      assert SavedOk(u.disk.saved, Load(u).disk);
    }
  }

  /** If every launch uses unused run ids, no run id gets a second session, whatever crashes. */
  lemma HistoryOneSessionPerRun(w: World, moves: seq<Move>, engine: Engine, r: RunId)
    requires Initial(w) && LaunchesUnusedIds(w, moves, engine)
    ensures Run(w, moves, engine).disk.made[r] <= 1
    ensures r in Run(w, moves, engine).disk.sessions <==> Run(w, moves, engine).disk.made[r] == 1
  {
    assert MadeOnce(w.disk);
    RunRest(true, false, w, moves, engine);
    assert MadeOnce(Run(w, moves, engine).disk);
  }

  lemma StepAdvances(w: World, m: Move, engine: Engine)
    requires Rest(false, false, w) && w.disk.saved.Some? && !Relaunches(m)
    ensures var d := Step(w, m, engine).disk; d.saved.Some? && Advances(w.disk.saved.value, d.saved.value)
  {
    if m.Does? || m.Crashes? {
      PerformTurn(false, false, w, m.work, engine);
      var u := Perform(w, m.work, engine);
      assert SavedOk(w.disk.saved, u.disk);
      if m.Crashes? && m.at < |u.log| {
        assert u.log[m.at] in u.log && SavedOk(w.disk.saved, u.log[m.at]);
      }
    }
  }

  /** A completed node stays completed, through retries, skips, resumes and crashes at any write; only
      launching the campaign anew starts over. */
  lemma {:induction false} HistoryKeepsCompleted(w: World, moves: seq<Move>, engine: Engine, n: NodeId)
    requires Rest(false, false, w) && w.disk.saved.Some? && StatusIn(w.disk.saved.value, n) == Completed
    requires forall m :: m in moves ==> !Relaunches(m)
    ensures var d := Run(w, moves, engine).disk; d.saved.Some? && StatusIn(d.saved.value, n) == Completed
    decreases |moves|
  {
    if moves != [] {
      StepAdvances(w, moves[0], engine);
      StepRest(false, false, w, moves[0], engine);
      HistoryKeepsCompleted(Step(w, moves[0], engine), moves[1..], engine, n);
    }
  }

  // ── no wedge, between crashes ───────────────────────────────────────────────

  /** Some run of the campaign is unfinished, or its end waits in the actor's queue. */
  ghost predicate Driven(w: World) {
    w.disk.saved.Some? &&
    exists n :: n in w.disk.saved.value.nodeStatus && w.disk.saved.value.nodeStatus[n].Live() &&
                n in w.disk.saved.value.nodeRunId && TiedRun(w, w.disk.saved.value.nodeRunId[n])
  }

  lemma TiedDriven(once: bool, w: World)
    requires Rest(once, true, w)
    ensures w.disk.saved.Some? && w.disk.saved.value.status.CRunning? ==> Driven(w)
  {
    if w.disk.saved.Some? && w.disk.saved.value.status.CRunning? {
      var c := w.disk.saved.value;
      assert Good(Promise(Some(c), once, true, {}), Load(w));
      var n :| n in c.nodeStatus && c.nodeStatus[n].Live();
      assert TiedRun(Load(w), c.nodeRunId[n]);
    }
  }

  /** Without crashes, a running campaign is never wedged, and no live node sits over an ended session
      whose end nobody will report. */
  lemma HistoryNeverWedged(w: World, moves: seq<Move>, engine: Engine)
    requires Initial(w) && NoCrash(moves)
    ensures var u := Run(w, moves, engine);
            (u.disk.saved.Some? ==> Tied(Load(u), {})) &&
            (u.disk.saved.Some? && u.disk.saved.value.status.CRunning? ==> Driven(u))
  {
    TiedRuns(w, moves, engine);
  }

  lemma ResumeTies(w: World, engine: Engine)
    requires Rest(false, false, w) && w.disk.saved.Some? && !Ended(w.disk.saved.value.status)
    ensures Rest(false, true, Step(w, Does(Order(Resume)), engine))
  {
    hide CampOk, ResumeCampaign;
    ResumeTurn(false, false, w, engine);
    assert Perform(w, Order(Resume), engine) == ResumeCampaign(w, engine).0;
  }

  /** From any state a history with crashes leaves, resuming a campaign that has not ended ties every
      live node again, and it stays so until the next crash. */
  lemma ResumeUnwedges(w: World, after: seq<Move>, engine: Engine)
    requires Rest(false, false, w) && NoCrash(after)
    requires w.disk.saved.Some? && !Ended(w.disk.saved.value.status)
    ensures var u := Run(w, [Does(Order(Resume))] + after, engine);
            (u.disk.saved.Some? ==> Tied(Load(u), {})) &&
            (u.disk.saved.Some? && u.disk.saved.value.status.CRunning? ==> Driven(u))
  {
    var m := Does(Order(Resume));
    var moves := [m] + after;
    assert moves[1..] == after && moves[0] == m;
    ResumeTies(w, engine);
    StepRest(false, false, w, m, engine);
    TiedRuns(Step(w, m, engine), after, engine);
  }

  lemma TiedRuns(w: World, moves: seq<Move>, engine: Engine)
    requires Rest(false, true, w) && Rest(false, false, w) && NoCrash(moves)
    ensures var u := Run(w, moves, engine);
            (u.disk.saved.Some? ==> Tied(Load(u), {})) &&
            (u.disk.saved.Some? && u.disk.saved.value.status.CRunning? ==> Driven(u))
  {
    RunRest(false, true, w, moves, engine);
    TiedDriven(false, Run(w, moves, engine));
  }
}
