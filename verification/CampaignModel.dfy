/** The campaign driver as functions on one world: the campaign in memory, what the store holds,
    the actor's queue, and the replies of the engine. Every handler is one actor step. */
module CampaignModel {
  import opened Names
  import opened CampaignGraph
  import opened CampaignCycle

  datatype Policy = FailFast | ContinueIndependent | HumanGateOnFailure

  /** `refusedWords`: the nodes whose own QE word is refused (a skip beside a force, a blank skip). */
  datatype Def = Def(id: string, nodes: seq<NodeId>, refusedWords: set<NodeId>, edges: seq<Edge>,
                     policy: Policy, cap: nat, autoReject: bool)

  datatype CampaignStatus = CRunning | CPaused | CCompleted | CPartiallyCompleted | CFailed | CCancelled

  /** The live campaign. `decisions` holds the amendment of an approved gate that waits for a slot;
      `gates` is the queue of failed nodes that wait for a Retry, Skip or Abort. */
  datatype Campaign = Campaign(
    def: Def,
    status: CampaignStatus,
    nodeStatus: Statuses,
    nodeRunId: map<NodeId, RunId>,
    nodeAttempt: map<NodeId, nat>,
    decisions: map<NodeId, Option<string>>,
    gates: seq<NodeId>,
    failFastTripped: bool)

  // ── define-time validation ──────────────────────────────────────────────────

  ghost predicate DistinctPairs(edges: seq<Edge>) {
    forall i, j :: 0 <= i < j < |edges| ==> edges[i].from != edges[j].from || edges[i].to != edges[j].to
  }

  ghost predicate NoSelfEdge(edges: seq<Edge>) {
    forall e :: e in edges ==> e.from != e.to
  }

  ghost predicate WellFormed(def: Def) {
    def.nodes != [] && def.cap >= 1 && ':' !in def.id &&
    (forall n :: n in def.nodes ==> ':' !in n && n !in def.refusedWords) &&
    Distinct(def.nodes) && NoDangling(def.nodes, def.edges) && NoSelfEdge(def.edges) &&
    DistinctPairs(def.edges) && !Cyclic(def.edges)
  }

  datatype DefError =
    | NoNodes | CapTooSmall | ColonInCampaignId | ColonInNodeId(node: NodeId) | DuplicateNode(node: NodeId)
    | RefusedQeWord(node: NodeId) | DanglingFrom(edge: Edge) | DanglingTo(edge: Edge) | SelfEdge(edge: Edge)
    | DuplicateEdge(edge: Edge) | HasCycle

  datatype Verdict = Valid | Invalid(error: DefError)

  /** The fault an error names is in the definition. */
  ghost predicate FaultPresent(def: Def, e: DefError) {
    match e
    case NoNodes => def.nodes == []
    case CapTooSmall => def.cap < 1
    case ColonInCampaignId => ':' in def.id
    case ColonInNodeId(n) => n in def.nodes && ':' in n
    case DuplicateNode(n) => exists i, j :: 0 <= i < j < |def.nodes| && def.nodes[i] == n && def.nodes[j] == n
    case RefusedQeWord(n) => n in def.nodes && n in def.refusedWords
    case DanglingFrom(x) => x in def.edges && x.from !in def.nodes
    case DanglingTo(x) => x in def.edges && x.to !in def.nodes
    case SelfEdge(x) => x in def.edges && x.from == x.to
    case DuplicateEdge(x) => exists i, j :: 0 <= i < j < |def.edges| && def.edges[j] == x
                                            && def.edges[i].from == x.from && def.edges[i].to == x.to
    case HasCycle => Cyclic(def.edges)
  }

  method ValidateNodes(def: Def) returns (v: Verdict)
    ensures v.Valid? ==> Distinct(def.nodes) && forall n :: n in def.nodes ==> ':' !in n && n !in def.refusedWords
    ensures v.Invalid? ==> FaultPresent(def, v.error)
  {
    var ids: set<NodeId> := {};
    for i := 0 to |def.nodes|
      invariant ids == Ids(def.nodes[..i]) && Distinct(def.nodes[..i])
      invariant forall n :: n in def.nodes[..i] ==> ':' !in n && n !in def.refusedWords
    {
      var n := def.nodes[i];
      assert def.nodes[..i + 1] == def.nodes[..i] + [n];
      if ':' in n { return Invalid(ColonInNodeId(n)); }
      if n in ids { return Invalid(DuplicateNode(n)); }
      ids := ids + {n};
      if n in def.refusedWords { return Invalid(RefusedQeWord(n)); }
    }
    assert def.nodes[..|def.nodes|] == def.nodes;
    return Valid;
  }

  method ValidateEdges(def: Def) returns (v: Verdict)
    ensures v.Valid? ==> NoDangling(def.nodes, def.edges) && NoSelfEdge(def.edges) && DistinctPairs(def.edges)
    ensures v.Invalid? ==> FaultPresent(def, v.error)
  {
    var pairs: set<(NodeId, NodeId)> := {};
    for i := 0 to |def.edges|
      invariant forall p :: p in pairs <==> exists j :: 0 <= j < i && p == (def.edges[j].from, def.edges[j].to)
      invariant NoDangling(def.nodes, def.edges[..i]) && NoSelfEdge(def.edges[..i]) && DistinctPairs(def.edges[..i])
    {
      var e := def.edges[i];
      assert def.edges[..i + 1] == def.edges[..i] + [e];
      if e.from !in def.nodes { return Invalid(DanglingFrom(e)); }
      if e.to !in def.nodes { return Invalid(DanglingTo(e)); }
      if e.from == e.to { return Invalid(SelfEdge(e)); }
      if (e.from, e.to) in pairs { return Invalid(DuplicateEdge(e)); }
      assert forall j :: 0 <= j < i ==> (def.edges[j].from, def.edges[j].to) in pairs;
      pairs := pairs + {(e.from, e.to)};
    }
    assert def.edges[..|def.edges|] == def.edges;
    return Valid;
  }

  /** Accepts exactly the well-formed definitions; an error names a fault that is there. */
  method Validate(def: Def) returns (v: Verdict)
    ensures v.Valid? <==> WellFormed(def)
    ensures v.Invalid? ==> FaultPresent(def, v.error)
  {
    if def.nodes == [] { return Invalid(NoNodes); }
    if def.cap < 1 { return Invalid(CapTooSmall); }
    if ':' in def.id { return Invalid(ColonInCampaignId); }
    v := ValidateNodes(def);
    if v.Invalid? { return; }
    v := ValidateEdges(def);
    if v.Invalid? { return; }
    var acyclic := DetectCycle(def.nodes, def.edges);
    if !acyclic { return Invalid(HasCycle); }
    return Valid;
  }

  // ── the world ───────────────────────────────────────────────────────────────

  datatype SessionStatus =
    | SPlanning | SDistributing | SExecuting | SAwaitingHuman | SCompleted | SFailed | SCancelled
  {
    predicate Terminal() {
      SCompleted? || SFailed? || SCancelled?
    }
  }

  datatype Outcome = OCompleted | OFailed | OCancelled {
    function AsNodeStatus(): NodeStatus {
      match this
      case OCompleted => Completed
      case OFailed => Failed
      case OCancelled => Cancelled
    }
  }

  function OutcomeOf(s: SessionStatus): Outcome {
    match s
    case SCompleted => OCompleted
    case SCancelled => OCancelled
    case _ => OFailed
  }

  /** The two commands the engine posts back to the actor's own queue. */
  datatype Signal = Finished(run: RunId, outcome: Outcome) | Awaiting(run: RunId)

  datatype GateAnswer = Approve(amend: Option<string>) | Reject

  /** What survives a crash. `made` counts the sessions created under each run id. */
  datatype Disk = Disk(saved: Option<Campaign>, sessions: map<RunId, SessionStatus>, made: multiset<RunId>)

  /** `log` lists every state the store went through since the current step began (its last entry is
      `disk`): the states a crash can leave. `answers` lists the gate answers the engine accepted. */
  datatype World = World(
    camp: Campaign,
    disk: Disk,
    inbox: multiset<Signal>,
    inFlight: set<RunId>,
    calls: nat,
    answers: seq<(RunId, GateAnswer)>,
    log: seq<Disk>)

  /** One answer of the engine: whether the call succeeded, whether it wrote the session, the status
      it left, whether a worker is now running, and whether the open gate is an escalation. */
  datatype Reply = Reply(ok: bool, writes: bool, status: SessionStatus, busy: bool, escalated: bool)

  /** The engine's behaviour: an arbitrary answer per call. */
  type Engine = nat -> Reply

  function Stored(w: World, d: Disk): World {
    w.(disk := d, log := w.log + [d])
  }

  /** Write the in-memory campaign to the store. */
  function Persist(w: World): World {
    Stored(w, w.disk.(saved := Some(w.camp)))
  }

  // ── the engine's four entry points ──────────────────────────────────────────

  /** What writing session `r` posts: a session that becomes terminal notifies the campaign; one that
      opens a gate announces it. */
  function Posts(r: RunId, s: SessionStatus, wasEnded: bool): multiset<Signal> {
    (if s.Terminal() && !wasEnded then multiset{Finished(r, OutcomeOf(s))} else multiset{})
    + (if s.SAwaitingHuman? then multiset{Awaiting(r)} else multiset{})
  }

  /** Write session `r`; `anew`: a new session is created under this id. */
  function WriteSession(w: World, r: RunId, s: SessionStatus, anew: bool): World {
    var wasEnded := !anew && r in w.disk.sessions && w.disk.sessions[r].Terminal();
    var w1 := Stored(w, w.disk.(sessions := w.disk.sessions[r := s],
                                made := w.disk.made + if anew then multiset{r} else multiset{}));
    w1.(inbox := w.inbox + Posts(r, s, wasEnded))
  }

  function Asked(w: World): World {
    w.(calls := w.calls + 1)
  }

  /** `launch_run_inner`: refused while the run is in flight or its session is not terminal; else it
      plans a new session (an error may leave one behind or not). */
  function LaunchRun(w: World, r: RunId, engine: Engine): (res: (World, bool))
    ensures res.0.camp == w.camp
  {
    if r in w.inFlight || (r in w.disk.sessions && !w.disk.sessions[r].Terminal()) then (w, false)
    else
      var a := engine(w.calls);
      if !a.ok && !a.writes then (Asked(w), false)
      else
        var w1 := WriteSession(Asked(w), r, a.status, true);
        (w1.(inFlight := if a.ok && a.busy then w1.inFlight + {r} else w1.inFlight), a.ok)
  }

  /** The common tail of a resume and of a gate answer: the engine moves the session, or not. */
  function Advance(w: World, r: RunId, engine: Engine): (res: (World, bool))
    ensures res.0.camp == w.camp
  {
    var a := engine(w.calls);
    var w1 := if a.writes then WriteSession(Asked(w), r, a.status, false) else Asked(w);
    (w1.(inFlight := if a.ok && a.busy then w1.inFlight + {r} else w1.inFlight), a.ok)
  }

  /** `resume_run_inner`: busy or unknown runs are refused, a completed or cancelled one is left. */
  function ResumeRun(w: World, r: RunId, engine: Engine): (res: (World, bool))
    ensures res.0.camp == w.camp
  {
    if r in w.inFlight || r !in w.disk.sessions then (w, false)
    else if w.disk.sessions[r].SCompleted? || w.disk.sessions[r].SCancelled? then (w, true)
    else Advance(w, r, engine)
  }

  /** `actor::confirm_gate`: refused unless the run's session awaits a human. */
  function ConfirmRun(w: World, r: RunId, answer: GateAnswer, engine: Engine): (res: (World, bool))
    ensures res.0.camp == w.camp
  {
    if r !in w.disk.sessions || !w.disk.sessions[r].SAwaitingHuman? then (w, false)
    else Advance(w.(answers := w.answers + [(r, answer)]), r, engine)
  }

  /** `cancel_run`: a terminal run is left; a failed store write leaves the run as it was. */
  function CancelRun(w: World, r: RunId, engine: Engine): (res: (World, bool))
    ensures res.0.camp == w.camp
  {
    if r !in w.disk.sessions then (w, false)
    else if w.disk.sessions[r].Terminal() then (w, true)
    else if engine(w.calls).ok then (WriteSession(Asked(w), r, SCancelled, false), true)
    else (Asked(w), false)
  }

  // ── the campaign's own edits ────────────────────────────────────────────────

  function FreshCampaign(def: Def): Campaign {
    Campaign(def, CRunning, map n | n in def.nodes :: Pending, map[], map[], map[], [], false)
  }

  function StatusIn(c: Campaign, n: NodeId): NodeStatus {
    StatusOf(c.nodeStatus, n)
  }

  function AttemptOf(c: Campaign, n: NodeId): nat {
    if n in c.nodeAttempt then c.nodeAttempt[n] else 0
  }

  function DeriveRunId(c: Campaign, n: NodeId): RunId {
    RunId(c.def.id, n, AttemptOf(c, n))
  }

  function SetNode(c: Campaign, n: NodeId, s: NodeStatus): Campaign {
    c.(nodeStatus := c.nodeStatus[n := s])
  }

  function SetNodeW(w: World, n: NodeId, s: NodeStatus): World {
    w.(camp := SetNode(w.camp, n, s))
  }

  ghost function ReadyIn(c: Campaign): set<NodeId> {
    ReadyNodes(c.def.nodes, c.def.edges, c.nodeStatus)
  }

  /** Fresh starts and approved gates that wait for a slot. */
  ghost function Dispatchable(c: Campaign): set<NodeId> {
    ReadyIn(c) + set n | n in c.nodeStatus && c.nodeStatus[n] == ReadyToResume
  }

  function RunningNodes(c: Campaign): set<NodeId> {
    set n | n in c.nodeStatus && c.nodeStatus[n] == Running
  }

  /** The pending nodes of `rs` become ready. */
  function WithReady(status: Statuses, rs: set<NodeId>): Statuses {
    status + map n | n in rs && StatusOf(status, n) == Pending :: Ready
  }

  /** The nodes of `blocked` become blocked. */
  function WithBlocked(status: Statuses, blocked: set<NodeId>): Statuses {
    status + map n | n in blocked && StatusOf(status, n) != Blocked :: Blocked
  }

  ghost function PromoteReady(c: Campaign): Campaign {
    c.(nodeStatus := WithReady(c.nodeStatus, ReadyIn(c)))
  }

  ghost function BlockedIn(c: Campaign): set<NodeId> {
    BlockedNodes(c.def.nodes, c.def.edges, c.nodeStatus)
  }

  ghost function ApplyBlocking(c: Campaign): Campaign {
    c.(nodeStatus := WithBlocked(c.nodeStatus, BlockedIn(c)))
  }

  function CancelNonTerminal(c: Campaign): Campaign {
    c.(nodeStatus := map n | n in c.nodeStatus :: if c.nodeStatus[n].Terminal() then c.nodeStatus[n] else Cancelled)
  }

  /** The queue keeps its order; a node already queued is not queued twice. */
  ghost function Enqueue(gates: seq<NodeId>, n: NodeId): seq<NodeId> {
    if n in gates then gates else Ordered((set m | m in gates) + {n})
  }

  function Dequeue(gates: seq<NodeId>, n: NodeId): (q: seq<NodeId>)
    ensures forall m :: m in q <==> m in gates && m != n
  {
    if gates == [] then []
    else (if gates[0] == n then [] else [gates[0]]) + Dequeue(gates[1..], n)
  }

  /** The nodes among `ns` with one of `kinds` of status, each with its recorded run id. */
  function Runs(c: Campaign, ns: seq<NodeId>, kinds: set<NodeStatus>): seq<(NodeId, RunId)> {
    if ns == [] then []
    else (if ns[0] in c.nodeStatus && c.nodeStatus[ns[0]] in kinds && ns[0] in c.nodeRunId
          then [(ns[0], c.nodeRunId[ns[0]])] else []) + Runs(c, ns[1..], kinds)
  }

  const LIVE: set<NodeStatus> := {Running, AwaitingHuman, ReadyToResume}

  const GATED: set<NodeStatus> := {AwaitingHuman, ReadyToResume}

  ghost function RunsOf(c: Campaign, kinds: set<NodeStatus>): seq<(NodeId, RunId)> {
    Runs(c, Ordered(c.nodeStatus.Keys), kinds)
  }

  /** A campaign as validation lets it in: a well-formed definition, one status per node. */
  ghost predicate Defined(c: Campaign) {
    WellFormed(c.def) && c.nodeStatus.Keys == Ids(c.def.nodes)
  }

  /** The nodes a fill can still start. */
  ghost function Startable(c: Campaign): set<NodeId> {
    set n | n in c.nodeStatus && (c.nodeStatus[n].Pending? || c.nodeStatus[n].Ready? || c.nodeStatus[n].ReadyToResume?)
  }

  /** Blocking hits known nodes that have not started. */
  lemma BlockedAreUnstarted(c: Campaign)
    requires Defined(c)
    ensures forall n :: n in BlockedIn(c) ==> n in c.nodeStatus && (c.nodeStatus[n].Blocked? || Blockable(c.nodeStatus, n))
    ensures Defined(ApplyBlocking(c)) && Startable(ApplyBlocking(c)) <= Startable(c)
  {
    forall n | n in BlockedIn(c)
      ensures n in c.nodeStatus && (c.nodeStatus[n].Blocked? || Blockable(c.nodeStatus, n))
    {
      if Doomed(c.def.nodes, c.def.edges, c.nodeStatus, n) {
        var p :| BlockPath(c.def.nodes, c.def.edges, c.nodeStatus, p) && p[|p| - 1] == n;
        assert Spreads(c.def.edges, c.nodeStatus, p[|p| - 2], p[|p| - 1]);
      }
    }
  }

  // ── failure handling ────────────────────────────────────────────────────────

  /** Cancel every listed run, whether or not the engine could, and forget it is in flight. */
  function CancelRuns(w: World, runs: seq<(NodeId, RunId)>, engine: Engine): (u: World)
    ensures u.camp == w.camp
    decreases |runs|
  {
    if runs == [] then w
    else
      var w1 := CancelRun(w, runs[0].1, engine).0;
      CancelRuns(w1.(inFlight := w1.inFlight - {runs[0].1}), runs[1..], engine)
  }

  ghost function FailFastAll(w: World, engine: Engine): World {
    var runs := RunsOf(w.camp, LIVE);
    CancelRuns(Persist(w.(camp := CancelNonTerminal(w.camp).(failFastTripped := true))), runs, engine)
  }

  ghost function GateFailure(c: Campaign, n: NodeId): Campaign {
    c.(gates := Enqueue(c.gates, n), status := if c.status == CRunning then CPaused else c.status)
  }

  ghost function ApplyFailurePolicy(w: World, n: NodeId, engine: Engine): (u: World)
    requires Defined(w.camp)
    ensures Defined(u.camp) && u.camp.def == w.camp.def
  {
    BlockedAreUnstarted(w.camp);
    match w.camp.def.policy
    case FailFast => FailFastAll(w, engine)
    case ContinueIndependent => w.(camp := ApplyBlocking(w.camp))
    case HumanGateOnFailure => w.(camp := GateFailure(w.camp, n))
  }

  /** A node ends with `outcome`: persist it, then apply the failure policy to a non-success. */
  ghost function EndNode(w: World, n: NodeId, outcome: Outcome, engine: Engine): (u: World)
    requires Defined(w.camp) && n in w.camp.nodeStatus
    ensures Defined(u.camp) && u.camp.def == w.camp.def
  {
    var w1 := Persist(SetNodeW(w, n, outcome.AsNodeStatus()));
    if outcome == OCompleted then w1 else ApplyFailurePolicy(w1, n, engine)
  }

  ghost function ReconcileTerminal(w: World, n: NodeId, outcome: Outcome, engine: Engine): (u: World)
    requires Defined(w.camp)
    ensures Defined(u.camp) && u.camp.def == w.camp.def
  {
    if n !in w.camp.nodeStatus || StatusIn(w.camp, n).Terminal() then w else EndNode(w, n, outcome, engine)
  }

  // ── dispatch ────────────────────────────────────────────────────────────────

  /** Record the run id, take the slot and persist, before anything launches. */
  function TakeSlot(w: World, n: NodeId): World {
    Persist(w.(camp := SetNode(w.camp, n, Running).(nodeRunId := w.camp.nodeRunId[n := DeriveRunId(w.camp, n)])))
  }

  /** A node that was not `Ready` is resumed: its stored decision answers the run's gate. */
  function ResumeApproved(w: World, n: NodeId, r: RunId, engine: Engine): (World, bool) {
    var answer := if n in w.camp.decisions then Approve(w.camp.decisions[n]) else Approve(None);
    ConfirmRun(Persist(w.(camp := w.camp.(decisions := w.camp.decisions - {n}))), r, answer, engine)
  }

  /** Take the slot, then launch a `Ready` node or resume any other. */
  function Start(w: World, n: NodeId, engine: Engine): (res: (World, bool))
    ensures res.0.camp.nodeStatus == w.camp.nodeStatus[n := Running] && res.0.camp.def == w.camp.def
  {
    var r := DeriveRunId(w.camp, n);
    if StatusIn(w.camp, n) == Ready then LaunchRun(TakeSlot(w, n), r, engine)
    else ResumeApproved(TakeSlot(w, n), n, r, engine)
  }

  /** A start that fails ends the node as a run failure would. */
  ghost function Dispatch(w: World, n: NodeId, engine: Engine): (u: World)
    requires Defined(w.camp) && n in w.camp.nodeStatus
    ensures Defined(u.camp) && u.camp.def == w.camp.def
  {
    var started := Start(w, n, engine);
    if started.1 then started.0 else EndNode(started.0, n, OFailed, engine)
  }

  lemma DispatchableKnown(c: Campaign)
    requires Defined(c)
    ensures Dispatchable(c) <= Startable(c) <= c.nodeStatus.Keys
  {
  }

  /** Dispatch the lowest-id dispatchable node until the cap is reached or none is left. */
  ghost function Fill(w: World, engine: Engine): (u: World)
    requires Defined(w.camp)
    ensures Defined(u.camp) && u.camp.def == w.camp.def
    decreases Startable(w.camp)
  {
    if |RunningNodes(w.camp)| >= w.camp.def.cap || Dispatchable(w.camp) == {} then w
    else
      var n := Least(Dispatchable(w.camp));
      DispatchShrinks(w, n, engine);
      Fill(Dispatch(w, n, engine), engine)
  }

  ghost function TryFill(w: World, engine: Engine): (u: World)
    requires Defined(w.camp)
    ensures Defined(u.camp) && u.camp.def == w.camp.def
  {
    if w.camp.status != CRunning then w else Fill(w, engine)
  }

  /** Blocking, gating and cancelling never make a node startable. */
  lemma PolicyShrinks(w: World, n: NodeId, engine: Engine)
    requires Defined(w.camp)
    ensures Startable(ApplyFailurePolicy(w, n, engine).camp) <= Startable(w.camp)
  {
    BlockedAreUnstarted(w.camp);
  }

  lemma StartShrinks(w: World, n: NodeId, engine: Engine)
    requires n in Startable(w.camp)
    ensures Startable(Start(w, n, engine).0.camp) == Startable(w.camp) - {n}
  {
  }

  lemma DispatchShrinks(w: World, n: NodeId, engine: Engine)
    requires Defined(w.camp) && n in Dispatchable(w.camp)
    ensures n in w.camp.nodeStatus
    ensures Startable(Dispatch(w, n, engine).camp) < Startable(w.camp)
  {
    DispatchableKnown(w.camp);
    var started := Start(w, n, engine);
    var u := started.0;
    StartShrinks(w, n, engine);
    if !started.1 {
      var v := Persist(SetNodeW(u, n, Failed));
      assert Startable(v.camp) == Startable(w.camp) - {n};
      PolicyShrinks(v, n, engine);
    }
  }
}
