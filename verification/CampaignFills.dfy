/** Every fill of a history: with `OnSuccess` edges only, none picks a node that was never promoted,
    provided that a crash which cut a promotion off is followed by a resume. */
module CampaignFills {
  import opened Names
  import opened CampaignGraph
  import opened CampaignCycle
  import opened CampaignModel
  import opened CampaignHandlers
  import opened CampaignInvariants
  import opened CampaignSafety
  import opened CampaignSteps
  import opened CampaignKeeps
  import opened CampaignResume
  import opened CampaignRuns
  import opened CampaignTheorems
  import opened CampaignCrash
  import opened CampaignFindings
  import opened CampaignPromotion

  // ── the world a command fills from ──────────────────────────────────────────

  ghost function Promoted(w: World): (u: World)
    requires Defined(w.camp)
    ensures Defined(u.camp) && u.camp.def == w.camp.def
  {
    PromoteDefined(w.camp);
    Persist(w.(camp := PromoteReady(w.camp)))
  }

  ghost function RejectFillsFrom(w: World, n: NodeId, engine: Engine): (f: Option<World>)
    requires HasCampaign(w) && Defined(w.disk.saved.value)
    ensures f.Some? ==> Defined(f.value.camp) && f.value.camp.def == w.disk.saved.value.def
  {
    var v := Load(w);
    if RejectOutcome(w, n, engine).None? then None
    else
      var r := v.camp.nodeRunId[n];
      var a := ConfirmRun(v, r, Reject, engine).0;
      var u := a.(inFlight := a.inFlight - {r});
      var x := if EndedOutcome(a.disk, r).Some? then u else CancelRun(u, r, engine).0;
      Some(Promoted(ReconcileTerminal(x, n, RejectOutcome(w, n, engine).value, engine)))
  }

  /** The world a command hands to its fill, if it comes to one. */
  ghost function FillsFrom(w: World, cmd: Command, engine: Engine): (f: Option<World>)
    requires HasCampaign(w) ==> Defined(w.disk.saved.value)
    ensures f.Some? ==> Defined(f.value.camp)
  {
    if cmd.Launch? then
      if LaunchCampaign(w, cmd.def, engine).1 then Some(Promoted(Persist(w.(camp := FreshCampaign(cmd.def))))) else None
    else if !HasCampaign(w) then None
    else
      var v := Load(w);
      match cmd
      case RunFinished(r, o) =>
        var n := FindByRun(v.camp, r);
        if n.None? || StatusIn(v.camp, n.value).Terminal() then None
        else Some(Promoted(ReconcileTerminal(v, n.value, o, engine)))
      case NodeAwaiting(r) =>
        var n := FindByRun(v.camp, r);
        if n.None? || StatusIn(v.camp, n.value) != Running then None
        else Some(AutoReject(Persist(SetNodeW(v, n.value, AwaitingHuman)), r, engine))
      case ApproveGate(n, amend) =>
        if StatusIn(v.camp, n) != AwaitingHuman then None
        else Some(Persist(v.(camp := SetNode(v.camp, n, ReadyToResume).(decisions := v.camp.decisions[n := amend]))))
      case RejectGate(n) => RejectFillsFrom(w, n, engine)
      case Retry(n) =>
        if !Gated(v.camp, n) then None
        else
          GateEditsDefined(v.camp, n);
          Some(Persist(v.(camp := Retried(v.camp, n))))
      case Skip(n) =>
        if !Gated(v.camp, n) then None
        else
          GateEditsDefined(v.camp, n);
          PromoteDefined(Skipped(v.camp, n));
          var u := Persist(v.(camp := Skipped(v.camp, n)));
          Some(u.(camp := PromoteReady(u.camp)))
      case Resume =>
        if Ended(v.camp.status) then None
        else
          var u := Persist(v.(camp := Unpaused(v.camp)));
          var a := ReattachAll(u, RunsOf(u.camp, {Running}), engine);
          Some(Promoted(RegateAll(a, RunsOf(a.camp, GATED), engine)))
      case _ => None
  }

  /** The nodes are as they were, or none is pending or running any more. */
  ghost predicate StartsNone(c: Campaign, d: Campaign) {
    d.def == c.def && d.nodeStatus.Keys == c.nodeStatus.Keys && (d.nodeStatus == c.nodeStatus || NoPending(d))
  }

  /** It is the only fill of the command: the command is that fill and a finalize, or starts no node. */
  lemma FillsFromIs(w: World, cmd: Command, engine: Engine)
    requires Rest(false, false, w)
    ensures var f, u := FillsFrom(w, cmd, engine), Handle(w, cmd, engine).0;
            if f.Some? then u == FillAndFinalize(f.value, engine)
            else u.disk.saved == w.disk.saved || (w.disk.saved.Some? && u.disk.saved.Some? && StartsNone(w.disk.saved.value, u.disk.saved.value))
  {
    hide FillAndFinalize, ReconcileTerminal, CampOk, Good, WellFormed, PromoteReady, ReattachAll, RegateAll, AutoReject, FailFastAll;
    match cmd
    case RejectGate(n) => RejectFills(w, n, engine);
    case Abort(n) => if HasCampaign(w) { AbortFills(w, n, engine); }
    case Cancel => CancelFills(w, engine);
    case _ =>
  }

  ghost predicate NoPending(c: Campaign) {
    forall n :: n in c.nodeStatus ==> c.nodeStatus[n] != Pending && c.nodeStatus[n] != Running
  }

  lemma RejectFills(w: World, n: NodeId, engine: Engine)
    requires Rest(false, false, w)
    ensures var f, u := FillsFrom(w, RejectGate(n), engine), Handle(w, RejectGate(n), engine).0;
            if f.Some? then u == FillAndFinalize(f.value, engine) else u.disk.saved == w.disk.saved
  {
    hide FillAndFinalize, ReconcileTerminal, CampOk, Good, WellFormed, PromoteReady;
    if HasCampaign(w) && StatusIn(Load(w).camp, n) == AwaitingHuman && n in Load(w).camp.nodeRunId {
      RefusedReject(Load(w), Load(w).camp.nodeRunId[n], engine);
      ConfirmStep(Load(w), Load(w).camp.nodeRunId[n], Reject, engine);
    }
  }

  /** Ending every node starts none. */
  lemma CancelledStarts(c: Campaign, d: Campaign)
    requires d.def == c.def && d.nodeStatus == c.nodeStatus
    ensures StartsNone(c, CancelNonTerminal(d)) && StartsNone(c, CancelNonTerminal(d).(failFastTripped := true))
  {
  }

  lemma EndedStarts(c: Campaign, d: Campaign)
    requires StartsNone(c, d)
    ensures StartsNone(c, FinalizeIfDone(d))
  {
  }

  lemma AbortFills(w: World, n: NodeId, engine: Engine)
    requires Rest(false, false, w) && HasCampaign(w)
    ensures var u := AbortNode(w, n, engine).0;
            u.disk.saved == w.disk.saved || (u.disk.saved.Some? && StartsNone(w.disk.saved.value, u.disk.saved.value))
  {
    hide Rest, StartsNone, FailFastAll;
    var x := Load(w).(camp := Reopened(Load(w).camp, n));
    CancelledStarts(Load(w).camp, x.camp);
    FailFastCamp(x, engine);
    EndedStarts(Load(w).camp, FailFastAll(x, engine).camp);
  }

  lemma CancelFills(w: World, engine: Engine)
    requires Rest(false, false, w)
    ensures var u := Handle(w, Cancel, engine).0;
            u.disk.saved == w.disk.saved || (w.disk.saved.Some? && u.disk.saved.Some? && StartsNone(w.disk.saved.value, u.disk.saved.value))
  {
    hide Rest, StartsNone, CancelRuns;
    if HasCampaign(w) {
      var u := Persist(Load(w).(camp := Load(w).camp.(status := CCancelled)));
      CancelledStarts(Load(w).camp, u.camp);
      CancelRunsSaved(Persist(u.(camp := CancelNonTerminal(u.camp))), RunsOf(u.camp, LIVE), engine);
    }
  }

  // ── one turn ────────────────────────────────────────────────────────────────

  predicate SuccessOnly(def: Def) {
    forall e :: e in def.edges ==> e.condition.OnSuccess?
  }

  /** Some fill of the command dispatches a node that is still pending. */
  ghost predicate CommandPicks(w: World, cmd: Command, engine: Engine)
    requires HasCampaign(w) ==> Defined(w.disk.saved.value)
  {
    var f := FillsFrom(w, cmd, engine);
    f.Some? && f.value.camp.status == CRunning && PicksPending(f.value, engine)
  }

  function SignalCommand(s: Signal): Command {
    match s
    case Finished(r, o) => RunFinished(r, o)
    case Awaiting(r) => NodeAwaiting(r)
  }

  ghost predicate TurnPicks(w: World, work: Work, engine: Engine)
    requires Rest(false, false, w)
  {
    match work
    case Order(cmd) => !Posted(cmd) && CommandPicks(w, cmd, engine)
    case Deliver(s) => s in w.inbox && CommandPicks(Taken(w, s), SignalCommand(s), engine)
  }

  ghost predicate SavedPromoted(w: World) {
    w.disk.saved.Some? ==> OnlyPromoted(w.disk.saved.value)
  }

  ghost predicate SavedSuccessOnly(w: World) {
    w.disk.saved.Some? ==> SuccessOnly(w.disk.saved.value.def)
  }

  /** With success edges only, a fill from a promoted campaign picks no pending node and leaves the
      campaign promoted. */
  lemma {:induction false} FillPromoted(w: World, engine: Engine)
    requires Defined(w.camp) && OnlyPromoted(w.camp) && SuccessOnly(w.camp.def)
    ensures !PicksPending(w, engine) && OnlyPromoted(Fill(w, engine).camp)
    decreases Startable(w.camp)
  {
    hide Dispatch, WellFormed, OnlyPromoted;
    if Fills(w.camp) {
      var n := Least(Dispatchable(w.camp));
      DispatchShrinks(w, n, engine);
      PickedPromoted(w, n, engine);
      FillPromoted(Dispatch(w, n, engine), engine);
    }
  }

  lemma PickedPromoted(w: World, n: NodeId, engine: Engine)
    requires Defined(w.camp) && OnlyPromoted(w.camp) && SuccessOnly(w.camp.def) && n in Dispatchable(w.camp)
    ensures StatusIn(w.camp, n) != Pending && OnlyPromoted(Dispatch(w, n, engine).camp)
  {
    DispatchPromoted(w, n, engine);
  }

  /** An edit that completes nothing and leaves pending only what was keeps a campaign promoted. */
  lemma EditPromoted(c: Campaign, d: Campaign)
    requires Defined(c) && Defined(d) && OnlyPromoted(c) && SuccessOnly(c.def) && d.def == c.def
    requires forall m :: m in c.nodeStatus ==>
               (d.nodeStatus[m] == Pending ==> c.nodeStatus[m] == Pending) && (d.nodeStatus[m] == Completed ==> c.nodeStatus[m] == Completed)
    ensures OnlyPromoted(d)
  {
    hide OnlyPromoted, WellFormed;
    PromotedIff(c);
    PromotedIff(d);
    forall m | m in d.nodeStatus && d.nodeStatus[m] == Pending ensures !Overdue(d, m) {
      assert !Overdue(c, m);
      var e :| e in c.def.edges && e.to == m && !Satisfied(c.nodeStatus, e);
      assert !Satisfied(d.nodeStatus, e);
    }
  }

  lemma PromotedWorld(w: World)
    requires Defined(w.camp) && SuccessOnly(w.camp.def)
    ensures OnlyPromoted(Promoted(w).camp) && SuccessOnly(Promoted(w).camp.def)
  {
    PromotedAll(w.camp);
  }

  /** A command starts its fill from a promoted campaign if it found one, or if it promotes itself. */
  lemma FillsFromPromoted(w: World, cmd: Command, engine: Engine)
    requires HasCampaign(w) ==> Defined(w.disk.saved.value)
    requires if cmd.Launch? then SuccessOnly(cmd.def) else SavedSuccessOnly(w)
    requires cmd.Launch? || cmd.Resume? || SavedPromoted(w)
    ensures var f := FillsFrom(w, cmd, engine); f.Some? ==> OnlyPromoted(f.value.camp) && SuccessOnly(f.value.camp.def)
  {
    hide OnlyPromoted, SuccessOnly, WellFormed, Promoted, ReconcileTerminal, RegateAll, ReattachAll, PromoteReady, FindByRun;
    var f := FillsFrom(w, cmd, engine);
    if f.Some? {
      match cmd
      case Launch(def) => PromotedWorld(Persist(w.(camp := FreshCampaign(def))));
      case RunFinished(r, o) => PromotedWorld(ReconcileTerminal(Load(w), FindByRun(Load(w).camp, r).value, o, engine));
      case NodeAwaiting(r) => GatePromoted(w, cmd, engine);
      case ApproveGate(n, amend) => GatePromoted(w, cmd, engine);
      case RejectGate(n) => RejectPromoted(w, n, engine);
      case Retry(n) => GatePromoted(w, cmd, engine);
      case Skip(n) => SkipPromoted(w, n, engine);
      case Resume => ResumePromoted(w, engine);
      case _ =>
    }
  }

  /** The commands that fill without promoting: they only move nodes that were not pending. */
  lemma GatePromoted(w: World, cmd: Command, engine: Engine)
    requires HasCampaign(w) && Defined(w.disk.saved.value) && SavedSuccessOnly(w) && SavedPromoted(w)
    requires cmd.NodeAwaiting? || cmd.ApproveGate? || cmd.Retry?
    ensures var f := FillsFrom(w, cmd, engine); f.Some? ==> OnlyPromoted(f.value.camp) && SuccessOnly(f.value.camp.def)
  {
    hide OnlyPromoted, WellFormed, FindByRun;
    var f := FillsFrom(w, cmd, engine);
    if f.Some? {
      EditPromoted(w.disk.saved.value, f.value.camp);
    }
  }

  lemma SkipPromoted(w: World, n: NodeId, engine: Engine)
    requires HasCampaign(w) && Defined(w.disk.saved.value) && SavedSuccessOnly(w)
    ensures var f := FillsFrom(w, Skip(n), engine); f.Some? ==> OnlyPromoted(f.value.camp) && SuccessOnly(f.value.camp.def)
  {
    hide OnlyPromoted, WellFormed, PromoteReady, Skipped;
    var c := w.disk.saved.value;
    if Gated(c, n) {
      GateEditsDefined(c, n);
      SkippedDef(c, n);
      PromotedAll(Skipped(c, n));
      PromoteShape(Skipped(c, n));
    }
  }

  lemma SkippedDef(c: Campaign, n: NodeId)
    ensures Skipped(c, n).def == c.def
  {
  }

  lemma RejectPromoted(w: World, n: NodeId, engine: Engine)
    requires HasCampaign(w) && Defined(w.disk.saved.value) && SavedSuccessOnly(w)
    ensures var f := RejectFillsFrom(w, n, engine); f.Some? ==> OnlyPromoted(f.value.camp) && SuccessOnly(f.value.camp.def)
  {
    hide OnlyPromoted, WellFormed, Promoted, ReconcileTerminal;
    if RejectOutcome(w, n, engine).Some? {
      var v := Load(w);
      var r := v.camp.nodeRunId[n];
      var a := ConfirmRun(v, r, Reject, engine).0;
      var u := a.(inFlight := a.inFlight - {r});
      var x := if EndedOutcome(a.disk, r).Some? then u else CancelRun(u, r, engine).0;
      PromotedWorld(ReconcileTerminal(x, n, RejectOutcome(w, n, engine).value, engine));
    }
  }

  lemma ResumePromoted(w: World, engine: Engine)
    requires HasCampaign(w) && Defined(w.disk.saved.value) && SavedSuccessOnly(w)
    ensures var f := FillsFrom(w, Resume, engine); f.Some? ==> OnlyPromoted(f.value.camp) && SuccessOnly(f.value.camp.def)
  {
    hide OnlyPromoted, WellFormed, Promoted, ReattachAll, RegateAll;
    var u := Persist(Load(w).(camp := Unpaused(Load(w).camp)));
    var a := ReattachAll(u, RunsOf(u.camp, {Running}), engine);
    PromotedWorld(RegateAll(a, RunsOf(a.camp, GATED), engine));
  }

  lemma FilledPromoted(w: World, engine: Engine)
    requires Defined(w.camp) && OnlyPromoted(w.camp) && SuccessOnly(w.camp.def)
    ensures var u := FillAndFinalize(w, engine); u.disk.saved == Some(u.camp) && OnlyPromoted(u.camp)
    ensures w.camp.status == CRunning ==> !PicksPending(w, engine)
  {
    hide OnlyPromoted, PicksPending, Fill, WellFormed;
    FillPromoted(w, engine);
    SameDispatch(TryFill(w, engine).camp, FillAndFinalize(w, engine).camp);
  }

  lemma SameDispatch(c: Campaign, d: Campaign)
    requires d.def == c.def && d.nodeStatus == c.nodeStatus
    ensures OnlyPromoted(d) <==> OnlyPromoted(c)
  {
    assert Dispatchable(d) == Dispatchable(c);
  }

  lemma NoPendingPromoted(c: Campaign)
    requires Defined(c) && NoPending(c)
    ensures OnlyPromoted(c)
  {
    DispatchableKnown(c);
  }

  lemma ResumeFills(w: World, engine: Engine)
    requires HasCampaign(w) ==> Defined(w.disk.saved.value)
    ensures HasCampaign(w) && !Ended(w.disk.saved.value.status) ==> FillsFrom(w, Resume, engine).Some?
  {
  }

  /** One command: it picks no pending node, and leaves a promoted campaign in the store. */
  lemma CommandPromoted(w: World, cmd: Command, engine: Engine)
    requires Rest(false, false, w)
    requires if cmd.Launch? then SuccessOnly(cmd.def) else SavedSuccessOnly(w)
    requires SavedPromoted(w) || (cmd.Resume? && !Ended(w.disk.saved.value.status))
    ensures HasCampaign(w) ==> Defined(w.disk.saved.value)
    ensures !CommandPicks(w, cmd, engine) && SavedPromoted(Handle(w, cmd, engine).0)
  {
    hide OnlyPromoted, PicksPending, FillAndFinalize, FillsFrom, Rest, WellFormed, Handle, NoPending;
    if HasCampaign(w) {
      SavedDefined(false, false, w);
    }
    FillsFromIs(w, cmd, engine);
    FillsFromPromoted(w, cmd, engine);
    ResumeFills(w, engine);
    var f, u := FillsFrom(w, cmd, engine), Handle(w, cmd, engine).0;
    if f.Some? {
      FilledPromoted(f.value, engine);
    } else if u.disk.saved != w.disk.saved {
      assert Defined(u.disk.saved.value);
      if u.disk.saved.value.nodeStatus == w.disk.saved.value.nodeStatus {
        SameDispatch(w.disk.saved.value, u.disk.saved.value);
      } else {
        NoPendingPromoted(u.disk.saved.value);
      }
    }
  }

  /** One turn, signals included. */
  lemma TurnPromoted(w: World, work: Work, engine: Engine)
    requires Rest(false, false, w)
    requires if IsLaunch(work) then SuccessOnly(work.cmd.def) else SavedSuccessOnly(w)
    requires SavedPromoted(w) || (work == Order(Resume) && !Ended(w.disk.saved.value.status))
    ensures !TurnPicks(w, work, engine) && SavedPromoted(Perform(w, work, engine))
  {
    hide OnlyPromoted, Handle, CommandPicks, SuccessOnly;
    match work
    case Order(cmd) =>
      CommandPromoted(w, cmd, engine);
    case Deliver(s) =>
      if s in w.inbox {
        TakenRests(false, false, w, s);
        CommandPromoted(Taken(w, s), SignalCommand(s), engine);
      }
  }

  // ── histories ───────────────────────────────────────────────────────────────

  /** Every campaign stored or launched in the history has `OnSuccess` edges only. */
  ghost predicate AlwaysSuccessOnly(w: World, moves: seq<Move>, engine: Engine)
    requires Rest(false, false, w)
    decreases |moves|
  {
    SavedSuccessOnly(w) &&
    (moves == [] ||
     ((Relaunches(moves[0]) ==> SuccessOnly(moves[0].work.cmd.def)) &&
      (StepRest(false, false, w, moves[0], engine);
       AlwaysSuccessOnly(Step(w, moves[0], engine), moves[1..], engine))))
  }

  /** A turn over a campaign with nodes still to promote, as only a crash leaves it, is a resume, of a
      campaign that has not ended. */
  ghost predicate ResumedFirst(w: World, moves: seq<Move>, engine: Engine)
    requires Rest(false, false, w)
    decreases |moves|
  {
    moves == [] ||
    ((moves[0].Drifts? || SavedPromoted(w) || (moves[0].work == Order(Resume) && !Ended(w.disk.saved.value.status))) &&
     (StepRest(false, false, w, moves[0], engine);
      ResumedFirst(Step(w, moves[0], engine), moves[1..], engine)))
  }

  /** No fill of the history picks a pending node, whether its turn completes or crashes. */
  ghost predicate NeverPicks(w: World, moves: seq<Move>, engine: Engine)
    requires Rest(false, false, w)
    decreases |moves|
  {
    moves == [] ||
    ((moves[0].Drifts? || !TurnPicks(w, moves[0].work, engine)) &&
     (StepRest(false, false, w, moves[0], engine);
      NeverPicks(Step(w, moves[0], engine), moves[1..], engine)))
  }

  /** With success edges only, over every history that resumes what a crash cut off before anything else,
      every fill picks promoted nodes only. */
  lemma {:induction false} HistoryNeverPicks(w: World, moves: seq<Move>, engine: Engine)
    requires Rest(false, false, w) && AlwaysSuccessOnly(w, moves, engine) && ResumedFirst(w, moves, engine)
    ensures NeverPicks(w, moves, engine)
    decreases |moves|
  {
    hide Rest, Perform, TurnPicks, SavedPromoted, SuccessOnly;
    if moves != [] {
      var m := moves[0];
      StepRest(false, false, w, m, engine);
      if !m.Drifts? {
        TurnPromoted(w, m.work, engine);
      }
      HistoryNeverPicks(Step(w, m, engine), moves[1..], engine);
    }
  }

  /** Each crash is followed by a resume before any other turn; if it leaves an ended campaign, then one
      with nothing to promote. `due`: such a resume is still to come. */
  ghost predicate CrashThenResumed(w: World, moves: seq<Move>, engine: Engine, due: bool)
    requires Rest(false, false, w)
    decreases |moves|
  {
    moves == [] ||
    (StepRest(false, false, w, moves[0], engine);
     var m, u := moves[0], Step(w, moves[0], engine);
     (due && !m.Drifts? ==> m.work == Order(Resume)) &&
     (m.Crashes? && u.disk.saved.Some? && Ended(u.disk.saved.value.status) ==> SavedPromoted(u)) &&
     CrashThenResumed(u, moves[1..], engine, m.Crashes? || (due && m.Drifts?)))
  }

  ghost predicate Awaited(w: World, due: bool) {
    SavedPromoted(w) || (due && !Ended(w.disk.saved.value.status))
  }

  /** Resuming after each crash is enough: between crashes every turn leaves the campaign promoted. */
  lemma {:induction false} CrashesResumed(w: World, moves: seq<Move>, engine: Engine, due: bool)
    requires Rest(false, false, w) && AlwaysSuccessOnly(w, moves, engine) && CrashThenResumed(w, moves, engine, due)
    requires Awaited(w, due)
    ensures ResumedFirst(w, moves, engine)
    decreases |moves|
  {
    hide Rest, Perform, OnlyPromoted, SuccessOnly;
    if moves != [] {
      var m := moves[0];
      StepRest(false, false, w, m, engine);
      if m.Does? {
        TurnPromoted(w, m.work, engine);
      }
      CrashesResumed(Step(w, m, engine), moves[1..], engine, m.Crashes? || (due && m.Drifts?));
    }
  }

  /** The theorem over histories: with success edges only and each crash followed by a resume, no fill ever
      picks a node that was not promoted. */
  lemma HistoryPromoted(w: World, moves: seq<Move>, engine: Engine)
    requires Initial(w) && AlwaysSuccessOnly(w, moves, engine) && CrashThenResumed(w, moves, engine, false)
    ensures NeverPicks(w, moves, engine)
  {
    CrashesResumed(w, moves, engine, false);
    HistoryNeverPicks(w, moves, engine);
  }

  // ── without the resume ──────────────────────────────────────────────────────

  /** Three nodes: `b` waits for the success of `a`, which runs; `d` waits at its gate, after `b` in id order. */
  ghost predicate HalfWay(c: Campaign, a: NodeId, b: NodeId, d: NodeId) {
    Defined(c) && a != b && a != d && b != d && Less(b, d) && c.status.CRunning? &&
    (forall e :: e in c.def.edges <==> e == Edge(a, b, OnSuccess)) &&
    c.nodeStatus.Keys == {a, b, d} && StatusIn(c, a) == Running && StatusIn(c, b) == Pending && StatusIn(c, d) == AwaitingHuman
  }

  lemma {:induction false} FillKeepsTerminal(w: World, n: NodeId, engine: Engine)
    requires Defined(w.camp) && n in w.camp.nodeStatus && w.camp.nodeStatus[n].Terminal()
    ensures StatusIn(Fill(w, engine).camp, n) == StatusIn(w.camp, n)
    decreases Startable(w.camp)
  {
    hide Dispatch, WellFormed, Dispatchable;
    if Fills(w.camp) {
      var m := Least(Dispatchable(w.camp));
      DispatchShrinks(w, m, engine);
      DispatchableKnown(w.camp);
      TerminalStays(w, m, n, engine);
      FillKeepsTerminal(Dispatch(w, m, engine), n, engine);
    }
  }

  lemma TerminalStays(w: World, m: NodeId, n: NodeId, engine: Engine)
    requires Defined(w.camp) && n in w.camp.nodeStatus && w.camp.nodeStatus[n].Terminal() && m in w.camp.nodeStatus && m != n
    ensures n in Dispatch(w, m, engine).camp.nodeStatus && StatusIn(Dispatch(w, m, engine).camp, n) == StatusIn(w.camp, n)
  {
    hide WellFormed, ApplyFailurePolicy;
    PolicyMoves(Persist(SetNodeW(Start(w, m, engine).0, m, Failed)), m, engine);
  }

  /** `a` completed, `b` still pending behind it, and `d` next for a slot. */
  ghost predicate CutOff(c: Campaign, a: NodeId, b: NodeId, d: NodeId) {
    Defined(c) && a != b && a != d && b != d && Less(b, d) &&
    (forall e :: e in c.def.edges <==> e == Edge(a, b, OnSuccess)) &&
    c.nodeStatus.Keys == {a, b, d} && StatusIn(c, a) == Completed && StatusIn(c, b) == Pending &&
    (StatusIn(c, d) == ReadyToResume || StatusIn(c, d) == Ready)
  }

  /** The lowest node a fill may pick is then the one never promoted. */
  lemma ApprovedPicks(x: Campaign, a: NodeId, b: NodeId, d: NodeId)
    requires CutOff(x, a, b, d)
    ensures Fills(x) && Least(Dispatchable(x)) == b && StatusIn(x, b) == Pending
  {
    hide Dispatchable;
    assert Overdue(x, b);
    assert RunningNodes(x) == {};
    PromotedIff(x);
    DispatchableKnown(x);
    hide Overdue, WellFormed;
    LeastUnique(b, Least(Dispatchable(x)), Dispatchable(x));
  }

  lemma PickedFails(x: World, b: NodeId, engine: Engine)
    requires Defined(x.camp) && Fills(x.camp) && Least(Dispatchable(x.camp)) == b && b in x.camp.nodeStatus && StatusIn(x.camp, b) == Pending
    requires DeriveRunId(x.camp, b) !in x.disk.sessions
    ensures PicksPending(x, engine) && StatusIn(Fill(x, engine).camp, b) == Failed
  {
    hide Dispatch, WellFormed, Dispatchable;
    DispatchShrinks(x, b, engine);
    PendingDispatchFails(x, b, engine);
    FillKeepsTerminal(Dispatch(x, b, engine), b, engine);
  }

  lemma ApproveAfter(u: World, c: Campaign, a: NodeId, b: NodeId, d: NodeId, amend: Option<string>, engine: Engine)
    requires Rest(false, false, u) && HalfWay(c, a, b, d) && u.disk.saved == Some(SetNode(c, a, Completed))
    requires DeriveRunId(c, b) !in u.disk.sessions
    ensures var approve := Order(ApproveGate(d, amend));
            TurnPicks(u, approve, engine) && Perform(u, approve, engine).disk.saved.Some? &&
            StatusIn(Perform(u, approve, engine).disk.saved.value, b) == Failed
  {
    hide Rest, Fill, PicksPending, Dispatchable, OnlyPromoted, WellFormed, HalfWay, CutOff;
    var c1 := SetNode(c, a, Completed);
    var x := Persist(Load(u).(camp := SetNode(c1, d, ReadyToResume).(decisions := c1.decisions[d := amend])));
    CutOffAfter(c, a, b, d, x.camp);
    hide *;
    ApprovedPicks(x.camp, a, b, d);
    PickedFails(x, b, engine);
    ApproveIs(u, d, amend, engine);
    CommandFill(u, ApproveGate(d, amend), x, engine);
  }

  lemma CutOffAfter(c: Campaign, a: NodeId, b: NodeId, d: NodeId, x: Campaign)
    requires HalfWay(c, a, b, d) && x.def == c.def && x.nodeStatus == c.nodeStatus[a := Completed][d := ReadyToResume]
    ensures CutOff(x, a, b, d) && StatusIn(SetNode(c, a, Completed), d) == AwaitingHuman && Defined(SetNode(c, a, Completed))
    ensures b in x.nodeStatus && c.status.CRunning?
  {
    assert x.nodeStatus.Keys == c.nodeStatus.Keys;
    assert SetNode(c, a, Completed).nodeStatus.Keys == c.nodeStatus.Keys;
  }

  /** What such a command does is its fill. */
  lemma CommandFill(u: World, cmd: Command, x: World, engine: Engine)
    requires Rest(false, false, u) && (HasCampaign(u) ==> Defined(u.disk.saved.value)) && !Posted(cmd)
    requires FillsFrom(u, cmd, engine) == Some(x) && x.camp.status == CRunning && PicksPending(x, engine)
    ensures TurnPicks(u, Order(cmd), engine) && Perform(u, Order(cmd), engine).disk.saved.Some?
    ensures Perform(u, Order(cmd), engine).disk.saved.value.nodeStatus == Fill(x, engine).camp.nodeStatus
  {
    FillsFromIs(u, cmd, engine);
    hide *;
    FilledNodes(x, engine);
    PerformIs(u, cmd, x, engine);
  }

  lemma FilledNodes(x: World, engine: Engine)
    requires Defined(x.camp) && x.camp.status == CRunning
    ensures var u := FillAndFinalize(x, engine); u.disk.saved.Some? && u.disk.saved.value.nodeStatus == Fill(x, engine).camp.nodeStatus
  {
    hide Fill, WellFormed, Finalize;
    FinalizedNodes(Fill(x, engine));
  }

  lemma FinalizedNodes(t: World)
    ensures var u := Finalize(t); u.disk.saved == Some(u.camp) && u.camp.nodeStatus == t.camp.nodeStatus
  {
    hide Quiet, AllCompleted;
  }

  lemma PerformIs(u: World, cmd: Command, x: World, engine: Engine)
    requires Rest(false, false, u) && (HasCampaign(u) ==> Defined(u.disk.saved.value)) && !Posted(cmd)
    requires FillsFrom(u, cmd, engine) == Some(x) && x.camp.status == CRunning && PicksPending(x, engine)
    requires Handle(u, cmd, engine).0 == FillAndFinalize(x, engine)
    ensures TurnPicks(u, Order(cmd), engine) && Perform(u, Order(cmd), engine) == FillAndFinalize(x, engine)
  {
    hide FillsFrom, Handle, FillAndFinalize, PicksPending, Rest, Posted;
  }

  lemma ApproveIs(u: World, d: NodeId, amend: Option<string>, engine: Engine)
    requires HasCampaign(u) && Defined(u.disk.saved.value) && StatusIn(u.disk.saved.value, d) == AwaitingHuman
    ensures var c := u.disk.saved.value;
            FillsFrom(u, ApproveGate(d, amend), engine)
            == Some(Persist(Load(u).(camp := SetNode(c, d, ReadyToResume).(decisions := c.decisions[d := amend]))))
  {
  }

  /** The resume is needed: a crash after `a`'s completion is recorded and before `b` is promoted, and then
      an approval of `d`, whose fill picks the pending `b` and fails it without a run. */
  lemma CrashThenApprove(w: World, a: NodeId, b: NodeId, d: NodeId, r: RunId, amend: Option<string>, engine: Engine)
    requires Rest(false, false, w) && Finished(r, OCompleted) in w.inbox && Ends(w, r) && r.node == a
    requires HalfWay(w.disk.saved.value, a, b, d) && DeriveRunId(w.disk.saved.value, b) !in w.disk.sessions
    ensures var crash, approve := Crashes(Deliver(Finished(r, OCompleted)), 1), Order(ApproveGate(d, amend));
            var u := (StepRest(false, false, w, crash, engine); Step(w, crash, engine));
            TurnPicks(u, approve, engine) && Perform(u, approve, engine).disk.saved.Some? &&
            StatusIn(Perform(u, approve, engine).disk.saved.value, b) == Failed
  {
    var c := w.disk.saved.value;
    var crash := Crashes(Deliver(Finished(r, OCompleted)), 1);
    StepRest(false, false, w, crash, engine);
    FinishedCrash(w, r, OCompleted, engine);
    hide *;
    ApproveAfter(Step(w, crash, engine), c, a, b, d, amend, engine);
  }

  // ── when the campaign has ended ─────────────────────────────────────────────

  /** A cancelled campaign whose live nodes a crash left: `a` waits at its gate, `b` for the success of `a`,
      and `g`, after `b` in id order, at the one open failure gate. */
  ghost predicate CancelledMidway(c: Campaign, a: NodeId, b: NodeId, g: NodeId) {
    Defined(c) && a != b && a != g && b != g && Less(b, g) && c.status.CCancelled? && c.gates == [g] &&
    (forall e :: e in c.def.edges <==> e == Edge(a, b, OnSuccess)) &&
    c.nodeStatus.Keys == {a, b, g} && StatusIn(c, a) == AwaitingHuman && StatusIn(c, b) == Pending && StatusIn(c, g) == Failed
  }

  /** A reject of a node whose run has completed records the completion first. */
  lemma RejectCrash(w: World, a: NodeId, r: RunId, engine: Engine)
    requires Rest(false, false, w) && HasCampaign(w) && StatusIn(w.disk.saved.value, a) == AwaitingHuman
    requires a in w.disk.saved.value.nodeRunId && w.disk.saved.value.nodeRunId[a] == r
    requires r in w.disk.sessions && w.disk.sessions[r].SCompleted?
    ensures Step(w, Crashes(Order(RejectGate(a)), 1), engine).disk == w.disk.(saved := Some(SetNode(w.disk.saved.value, a, Completed)))
  {
    SavedDefined(false, false, w);
    var v := Load(w).(inFlight := w.inFlight - {r});
    EndedWrites(v, a, OCompleted, engine);
    RestLog(w);
    RejectedIs(w, a, r, engine);
    hide *;
    SecondWrite(w, RejectGate(a), PromoteAndFill(ReconcileTerminal(v, a, OCompleted, engine), engine), engine);
  }

  /** A crash after the first write of a command. */
  lemma SecondWrite(w: World, cmd: Command, u: World, engine: Engine)
    requires Rest(false, false, w) && HasCampaign(w) && Defined(w.disk.saved.value) && cmd.RejectGate? && |u.log| > 1
    requires Rejected(w, cmd.node, engine).0 == u
    ensures Step(w, Crashes(Order(cmd), 1), engine).disk == u.log[1]
  {
    hide Rejected, Rest, WellFormed;
  }

  lemma RejectedIs(w: World, a: NodeId, r: RunId, engine: Engine)
    requires HasCampaign(w) && Defined(w.disk.saved.value) && StatusIn(w.disk.saved.value, a) == AwaitingHuman
    requires a in w.disk.saved.value.nodeRunId && w.disk.saved.value.nodeRunId[a] == r
    requires r in w.disk.sessions && w.disk.sessions[r].SCompleted?
    ensures Rejected(w, a, engine).0 == PromoteAndFill(ReconcileTerminal(Load(w).(inFlight := w.inFlight - {r}), a, OCompleted, engine), engine)
  {
    hide PromoteAndFill, ReconcileTerminal, WellFormed;
  }

  lemma RestLog(w: World)
    requires Rest(false, false, w)
    ensures w.log == [w.disk]
  {
  }

  lemma RetriedPicks(c: Campaign, a: NodeId, b: NodeId, g: NodeId)
    requires CancelledMidway(c, a, b, g)
    ensures var d := SetNode(c, a, Completed); Gated(d, g) && Retried(d, g).status.CRunning? && Defined(d) && CutOff(Retried(d, g), a, b, g)
  {
    var d := SetNode(c, a, Completed);
    assert g in d.gates && d.nodeStatus.Keys == c.nodeStatus.Keys;
    assert Dequeue(d.gates, g) == [] + Dequeue(d.gates[1..], g) && d.gates[1..] == [];
    assert Retried(d, g).nodeStatus.Keys == c.nodeStatus.Keys;
  }

  /** A resume mends nothing in a campaign that has ended: a crash inside a reject, in a cancelled campaign
      that still had live nodes, leaves a node to promote; the resume is a no-op; and a retry, which sets
      the campaign running again, fills from there and picks that node. */
  lemma EndedThenRetried(w: World, a: NodeId, b: NodeId, g: NodeId, r: RunId, engine: Engine)
    requires Rest(false, false, w) && HasCampaign(w) && CancelledMidway(w.disk.saved.value, a, b, g)
    requires a in w.disk.saved.value.nodeRunId && w.disk.saved.value.nodeRunId[a] == r
    requires r in w.disk.sessions && w.disk.sessions[r].SCompleted?
    ensures var crash := Crashes(Order(RejectGate(a)), 1);
            var u := (StepRest(false, false, w, crash, engine); Step(w, crash, engine));
            Perform(u, Order(Resume), engine) == u && TurnPicks(u, Order(Retry(g)), engine)
  {
    var c := w.disk.saved.value;
    var crash := Crashes(Order(RejectGate(a)), 1);
    StepRest(false, false, w, crash, engine);
    RejectCrash(w, a, r, engine);
    var u := Step(w, crash, engine);
    RetriedPicks(c, a, b, g);
    hide Step, CancelledMidway, CutOff;
    RetryAfter(u, SetNode(c, a, Completed), a, b, g, engine);
    ResumeEnded(u, engine);
  }

  lemma ResumeEnded(u: World, engine: Engine)
    requires Rest(false, false, u) && HasCampaign(u) && u.disk.saved.value.status.CCancelled?
    ensures Perform(u, Order(Resume), engine) == u
  {
  }

  lemma RetryAfter(u: World, d: Campaign, a: NodeId, b: NodeId, g: NodeId, engine: Engine)
    requires Rest(false, false, u) && u.disk.saved == Some(d) && Defined(d) && Gated(d, g)
    requires Retried(d, g).status.CRunning? && CutOff(Retried(d, g), a, b, g)
    ensures TurnPicks(u, Order(Retry(g)), engine)
  {
    var x := Persist(Load(u).(camp := Retried(d, g)));
    ApprovedPicks(x.camp, a, b, g);
    CutOffKnows(x.camp, a, b, g);
    RetryIs(u, g, engine);
    hide *;
    FirstPicked(x, b, engine);
    RetryPicks(u, g, x, engine);
  }

  lemma CutOffKnows(x: Campaign, a: NodeId, b: NodeId, d: NodeId)
    requires CutOff(x, a, b, d)
    ensures Defined(x) && b in x.nodeStatus
  {
  }

  lemma FirstPicked(x: World, b: NodeId, engine: Engine)
    requires Defined(x.camp) && Fills(x.camp) && Least(Dispatchable(x.camp)) == b && StatusIn(x.camp, b) == Pending
    ensures PicksPending(x, engine)
  {
    hide Dispatch, WellFormed, Dispatchable;
    DispatchShrinks(x, b, engine);
  }

  lemma RetryIs(u: World, g: NodeId, engine: Engine)
    requires HasCampaign(u) && Defined(u.disk.saved.value) && Gated(u.disk.saved.value, g)
    ensures FillsFrom(u, Retry(g), engine) == Some(Persist(Load(u).(camp := Retried(u.disk.saved.value, g))))
  {
  }

  lemma RetryPicks(u: World, g: NodeId, x: World, engine: Engine)
    requires Rest(false, false, u) && HasCampaign(u) && Defined(u.disk.saved.value)
    requires FillsFrom(u, Retry(g), engine) == Some(x) && x.camp.status.CRunning? && PicksPending(x, engine)
    ensures TurnPicks(u, Order(Retry(g)), engine)
  {
    hide FillsFrom, PicksPending, Rest, WellFormed;
  }
}
