/** The pure scheduling half of the campaign scheduler: which nodes may start, and which a failure
    blocks. The loops are the source's; the specifications are paths and least fixpoints. */
module CampaignGraph {
  import opened Names

  /** When a dependency edge is satisfied. */
  datatype Condition = OnSuccess | OnTerminal

  /** `to` becomes eligible once `from` satisfies `condition`. */
  datatype Edge = Edge(from: NodeId, to: NodeId, condition: Condition)

  datatype NodeStatus =
    | Pending | Ready | Running | AwaitingHuman | ReadyToResume
    | Completed | Failed | Blocked | Cancelled
  {
    predicate Terminal() {
      Completed? || Failed? || Blocked? || Cancelled?
    }

    /** A run of this node exists or is about to: it is executing, gated or queued to resume. */
    predicate Live() {
      Running? || AwaitingHuman? || ReadyToResume?
    }
  }

  type Statuses = map<NodeId, NodeStatus>

  /** The status of a node (`Pending` for an unknown id). */
  function StatusOf(status: Statuses, n: NodeId): NodeStatus {
    if n in status then status[n] else Pending
  }

  /** `OnSuccess`: the dependency completed. `OnTerminal`: it completed, failed or was cancelled. */
  predicate Satisfied(status: Statuses, e: Edge) {
    e.from in status &&
    match status[e.from]
    case Completed => true
    case Failed => e.condition.OnTerminal?
    case Cancelled => e.condition.OnTerminal?
    case _ => false
  }

  // ── the ready set ───────────────────────────────────────────────────────────

  ghost predicate Eligible(edges: seq<Edge>, status: Statuses, n: NodeId) {
    StatusOf(status, n) == Ready ||
    (StatusOf(status, n) == Pending && forall e :: e in edges && e.to == n ==> Satisfied(status, e))
  }

  ghost function ReadyNodes(nodes: seq<NodeId>, edges: seq<Edge>, status: Statuses): set<NodeId> {
    set n | n in nodes && Eligible(edges, status, n)
  }

  /** The nodes that may launch from scratch. */
  method ReadySet(nodes: seq<NodeId>, edges: seq<Edge>, status: Statuses) returns (out: set<NodeId>)
    ensures out == ReadyNodes(nodes, edges, status)
  {
    out := {};
    for i := 0 to |nodes|
      invariant out == ReadyNodes(nodes[..i], edges, status)
    {
      var n := nodes[i];
      assert nodes[..i + 1] == nodes[..i] + [n];
      match StatusOf(status, n)
      case Ready =>
        out := out + {n};
      case Pending =>
        var all := true;
        for j := 0 to |edges|
          invariant all <==> forall e :: e in edges[..j] && e.to == n ==> Satisfied(status, e)
        {
          assert edges[..j + 1] == edges[..j] + [edges[j]];
          if edges[j].to == n && !Satisfied(status, edges[j]) {
            all := false;
          }
        }
        assert edges[..|edges|] == edges;
        if all {
          out := out + {n};
        }
      case _ =>
    }
    assert nodes[..|nodes|] == nodes;
  }

  // ── blocking ────────────────────────────────────────────────────────────────

  /** A node whose outcome blocks its `OnSuccess` dependents. */
  predicate Bad(nodes: seq<NodeId>, status: Statuses, n: NodeId) {
    StatusOf(status, n) == Failed || StatusOf(status, n) == Cancelled ||
    (n in nodes && StatusOf(status, n) == Blocked)
  }

  /** A node that has not started: the only kind blocking may hit. */
  predicate Blockable(status: Statuses, n: NodeId) {
    StatusOf(status, n) == Pending || StatusOf(status, n) == Ready
  }

  ghost predicate Spreads(edges: seq<Edge>, status: Statuses, a: NodeId, b: NodeId) {
    Edge(a, b, OnSuccess) in edges && Blockable(status, b)
  }

  /** A path of `OnSuccess` edges from a bad node through nodes that have not started. */
  ghost predicate BlockPath(nodes: seq<NodeId>, edges: seq<Edge>, status: Statuses, p: seq<NodeId>) {
    |p| >= 2 && Bad(nodes, status, p[0]) &&
    forall i :: 1 <= i < |p| ==> Spreads(edges, status, p[i - 1], p[i])
  }

  ghost predicate Doomed(nodes: seq<NodeId>, edges: seq<Edge>, status: Statuses, n: NodeId) {
    exists p :: BlockPath(nodes, edges, status, p) && p[|p| - 1] == n
  }

  ghost predicate InBlocked(nodes: seq<NodeId>, edges: seq<Edge>, status: Statuses, n: NodeId) {
    (n in nodes && StatusOf(status, n) == Blocked) || Doomed(nodes, edges, status, n)
  }

  /** Already blocked, or at the end of a blocking path. */
  ghost function BlockedNodes(nodes: seq<NodeId>, edges: seq<Edge>, status: Statuses): (s: set<NodeId>)
    ensures forall n :: n in s <==> InBlocked(nodes, edges, status, n)
  {
    var s := (set n | n in nodes && InBlocked(nodes, edges, status, n))
             + (set e | e in edges && InBlocked(nodes, edges, status, e.to) :: e.to);
    assert forall n :: InBlocked(nodes, edges, status, n) ==> n in s by {
      forall n | InBlocked(nodes, edges, status, n) && n !in nodes ensures n in s {
        var p :| BlockPath(nodes, edges, status, p) && p[|p| - 1] == n;
        assert Spreads(edges, status, p[|p| - 2], p[|p| - 1]);
      }
    }
    s
  }

  /** The two closure conditions the source's loop runs to: seeded, and closed under one round. */
  ghost predicate ClosedUnderBlocking(nodes: seq<NodeId>, edges: seq<Edge>, status: Statuses, s: set<NodeId>) {
    (forall n :: n in nodes && StatusOf(status, n) == Blocked ==> n in s) &&
    forall e | e in edges && e.condition.OnSuccess? && Blockable(status, e.to)
               && (Bad(nodes, status, e.from) || e.from in s) :: e.to in s
  }

  lemma ExtendPath(nodes: seq<NodeId>, edges: seq<Edge>, status: Statuses, e: Edge)
    requires e in edges && e.condition.OnSuccess? && Blockable(status, e.to)
    requires Bad(nodes, status, e.from) || Doomed(nodes, edges, status, e.from)
    ensures Doomed(nodes, edges, status, e.to)
  {
    assert Spreads(edges, status, e.from, e.to);
    if Bad(nodes, status, e.from) {
      assert BlockPath(nodes, edges, status, [e.from, e.to]);
    } else {
      var p :| BlockPath(nodes, edges, status, p) && p[|p| - 1] == e.from;
      var q := p + [e.to];
      forall i | 1 <= i < |q| ensures Spreads(edges, status, q[i - 1], q[i]) {
        if i < |p| {
          assert Spreads(edges, status, p[i - 1], p[i]);
        }
      }
      assert BlockPath(nodes, edges, status, q) && q[|q| - 1] == e.to;
    }
  }

  /** `BlockedNodes` is closed: no further round adds a node. */
  lemma BlockedNodesClosed(nodes: seq<NodeId>, edges: seq<Edge>, status: Statuses)
    ensures ClosedUnderBlocking(nodes, edges, status, BlockedNodes(nodes, edges, status))
  {
    forall e | e in edges && e.condition.OnSuccess? && Blockable(status, e.to)
               && (Bad(nodes, status, e.from) || e.from in BlockedNodes(nodes, edges, status))
      ensures e.to in BlockedNodes(nodes, edges, status)
    {
      ExtendPath(nodes, edges, status, e);
    }
  }

  lemma {:induction false} PathInClosed(nodes: seq<NodeId>, edges: seq<Edge>, status: Statuses, s: set<NodeId>, p: seq<NodeId>)
    requires ClosedUnderBlocking(nodes, edges, status, s)
    requires BlockPath(nodes, edges, status, p)
    ensures p[|p| - 1] in s
    decreases |p|
  {
    var k := |p| - 1;
    assert Spreads(edges, status, p[k - 1], p[k]);
    if |p| > 2 {
      forall i | 1 <= i < k ensures Spreads(edges, status, p[..k][i - 1], p[..k][i]) {
        assert Spreads(edges, status, p[i - 1], p[i]);
      }
      PathInClosed(nodes, edges, status, s, p[..k]);
      assert p[..k][k - 1] == p[k - 1];
    }
    assert Edge(p[k - 1], p[k], OnSuccess) in edges;
  }

  /** ... and it is the least closed set. */
  lemma BlockedNodesLeast(nodes: seq<NodeId>, edges: seq<Edge>, status: Statuses, s: set<NodeId>)
    requires ClosedUnderBlocking(nodes, edges, status, s)
    ensures BlockedNodes(nodes, edges, status) <= s
  {
    forall n | n in BlockedNodes(nodes, edges, status) ensures n in s {
      if Doomed(nodes, edges, status, n) {
        var p :| BlockPath(nodes, edges, status, p) && p[|p| - 1] == n;
        PathInClosed(nodes, edges, status, s, p);
      }
    }
  }

  /** The answer depends on the set of edges, not on their order or repetition. */
  lemma BlockedNodesOrderFree(nodes: seq<NodeId>, edges: seq<Edge>, other: seq<Edge>, status: Statuses)
    requires forall e :: e in edges <==> e in other
    ensures BlockedNodes(nodes, edges, status) == BlockedNodes(nodes, other, status)
  {
    BlockedNodesClosed(nodes, edges, status);
    BlockedNodesClosed(nodes, other, status);
    BlockedNodesLeast(nodes, edges, status, BlockedNodes(nodes, other, status));
    BlockedNodesLeast(nodes, other, status, BlockedNodes(nodes, edges, status));
  }

  /** The fixpoint loop over the edge list. */
  method BlockedByFailure(nodes: seq<NodeId>, edges: seq<Edge>, status: Statuses) returns (blocked: set<NodeId>)
    ensures blocked == BlockedNodes(nodes, edges, status)
  {
    blocked := set n | n in nodes && n in status && status[n] == Blocked;
    ghost var reach := BlockedNodes(nodes, edges, status);
    var added := true;
    while added
      invariant blocked <= reach
      invariant forall n :: n in nodes && StatusOf(status, n) == Blocked ==> n in blocked
      invariant !added ==> ClosedUnderBlocking(nodes, edges, status, blocked)
      decreases reach - blocked, added
    {
      added := false;
      ghost var before := blocked;
      for i := 0 to |edges|
        invariant before <= blocked <= reach
        invariant added <==> before != blocked
        invariant !added ==>
                    forall e | e in edges[..i] && e.condition.OnSuccess? && Blockable(status, e.to)
                               && (Bad(nodes, status, e.from) || e.from in blocked) :: e.to in blocked
      {
        var e := edges[i];
        assert edges[..i + 1] == edges[..i] + [e];
        var depStatus := StatusOf(status, e.from);
        var depBad := depStatus == Failed || depStatus == Cancelled || e.from in blocked;
        var blockable := Blockable(status, e.to) && e.to !in blocked;
        if e.condition.OnSuccess? && depBad && blockable {
          ExtendPath(nodes, edges, status, e);
          blocked := blocked + {e.to};
          added := true;
        }
      }
      assert edges[..|edges|] == edges;
      assert added ==> reach - blocked < reach - before;
    }
    BlockedNodesLeast(nodes, edges, status, blocked);
  }
}
