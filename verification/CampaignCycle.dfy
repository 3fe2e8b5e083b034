/** Define-time validation of a campaign: distinct ids, no dangling, self or duplicate edge, and no
    cycle, decided by Kahn's count. */
module CampaignCycle {
  import opened Names
  import opened CampaignGraph

  // ── what a cycle is ─────────────────────────────────────────────────────────

  ghost predicate Linked(edges: seq<Edge>, a: NodeId, b: NodeId) {
    exists e :: e in edges && e.from == a && e.to == b
  }

  ghost predicate Walk(edges: seq<Edge>, p: seq<NodeId>) {
    forall i :: 1 <= i < |p| ==> Linked(edges, p[i - 1], p[i])
  }

  ghost predicate ClosedWalk(edges: seq<Edge>, p: seq<NodeId>) {
    |p| >= 2 && Walk(edges, p) && p[0] == p[|p| - 1]
  }

  ghost predicate Cyclic(edges: seq<Edge>) {
    exists p :: ClosedWalk(edges, p)
  }

  ghost predicate Distinct(nodes: seq<NodeId>) {
    forall i, j :: 0 <= i < j < |nodes| ==> nodes[i] != nodes[j]
  }

  ghost predicate NoDangling(nodes: seq<NodeId>, edges: seq<Edge>) {
    forall e :: e in edges ==> e.from in nodes && e.to in nodes
  }

  ghost predicate HasPredecessor(edges: seq<Edge>, s: set<NodeId>, n: NodeId) {
    exists m :: m in s && Linked(edges, m, n)
  }

  /** A finite nonempty set whose every member has a predecessor in the set holds a cycle. */
  lemma PredecessorsCycle(edges: seq<Edge>, s: set<NodeId>)
    requires s != {}
    requires forall n {:trigger HasPredecessor(edges, s, n)} :: n in s ==> HasPredecessor(edges, s, n)
    ensures Cyclic(edges)
  {
    var n :| n in s;
    BackwardWalk(edges, s, {n}, [n]);
  }

  /** Extends `p` backwards inside `s` until a node repeats. */
  lemma {:induction false} BackwardWalk(edges: seq<Edge>, s: set<NodeId>, seen: set<NodeId>, p: seq<NodeId>)
    requires forall n {:trigger HasPredecessor(edges, s, n)} :: n in s ==> HasPredecessor(edges, s, n)
    requires |p| >= 1 && Walk(edges, p) && seen <= s
    requires forall n :: n in seen <==> n in p
    ensures Cyclic(edges)
    decreases s - seen
  {
    var n := p[0];
    assert n in seen && HasPredecessor(edges, s, n);
    var m :| m in s && Linked(edges, m, n);
    var q := [m] + p;
    forall i | 1 <= i < |q| ensures Linked(edges, q[i - 1], q[i]) {
      if i > 1 {
        assert Linked(edges, p[i - 2], p[i - 1]);
      }
    }
    if m in seen {
      var k :| 0 <= k < |p| && p[k] == m;
      var c := q[..k + 2];
      forall i | 1 <= i < |c| ensures Linked(edges, c[i - 1], c[i]) {
        assert Linked(edges, q[i - 1], q[i]);
      }
      assert ClosedWalk(edges, c);
    } else {
      BackwardWalk(edges, s, seen + {m}, q);
    }
  }

  /** An order that lists every edge's source before its target rules a cycle out. */
  ghost predicate TopoOrder(edges: seq<Edge>, order: seq<NodeId>) {
    Distinct(order) &&
    forall e, i | e in edges && 0 <= i < |order| && order[i] == e.to :: e.from in order[..i]
  }

  lemma {:induction false} TopoWalk(edges: seq<Edge>, order: seq<NodeId>, p: seq<NodeId>, k: nat)
    requires TopoOrder(edges, order) && Walk(edges, p) && |p| >= 2
    requires k < |order| && order[k] == p[|p| - 1]
    ensures p[0] in order[..k]
    decreases |p|
  {
    var l := |p| - 1;
    assert Linked(edges, p[l - 1], p[l]);
    var e :| e in edges && e.from == p[l - 1] && e.to == p[l];
    assert e.from in order[..k];
    var j :| 0 <= j < k && order[j] == p[l - 1];
    if |p| > 2 {
      forall i | 1 <= i < l ensures Linked(edges, p[..l][i - 1], p[..l][i]) {
        assert Linked(edges, p[i - 1], p[i]);
      }
      TopoWalk(edges, order, p[..l], j);
      assert order[..j] <= order[..k];
    }
  }

  lemma TopoOrderAcyclic(nodes: seq<NodeId>, edges: seq<Edge>, order: seq<NodeId>)
    requires NoDangling(nodes, edges) && TopoOrder(edges, order)
    requires forall n :: n in nodes ==> n in order
    ensures !Cyclic(edges)
  {
    if Cyclic(edges) {
      var p :| ClosedWalk(edges, p);
      var l := |p| - 1;
      assert Linked(edges, p[l - 1], p[l]);
      var k :| 0 <= k < |order| && order[k] == p[l];
      TopoWalk(edges, order, p, k);
      assert false;
    }
  }

  // ── in-degrees ──────────────────────────────────────────────────────────────

  /** How many of `edges` lead to `n` from a node outside `done`. */
  ghost function InDegree(edges: seq<Edge>, done: set<NodeId>, n: NodeId): nat {
    if edges == [] then 0
    else InDegree(edges[..|edges| - 1], done, n)
         + if edges[|edges| - 1].to == n && edges[|edges| - 1].from !in done then 1 else 0
  }

  lemma {:induction false} InDegreeZero(edges: seq<Edge>, done: set<NodeId>, n: NodeId)
    ensures InDegree(edges, done, n) == 0 <==> forall e :: e in edges && e.to == n ==> e.from in done
  {
    if edges != [] {
      InDegreeZero(edges[..|edges| - 1], done, n);
      assert edges == edges[..|edges| - 1] + [edges[|edges| - 1]];
    }
  }

  /** Popping `v` lowers a node's in-degree by the number of edges from `v` to it. */
  ghost function EdgesFrom(edges: seq<Edge>, v: NodeId, n: NodeId): nat {
    if edges == [] then 0
    else EdgesFrom(edges[..|edges| - 1], v, n)
         + if edges[|edges| - 1].from == v && edges[|edges| - 1].to == n then 1 else 0
  }

  lemma {:induction false} InDegreeAfter(edges: seq<Edge>, done: set<NodeId>, v: NodeId, n: NodeId)
    requires v !in done
    ensures InDegree(edges, done, n) == InDegree(edges, done + {v}, n) + EdgesFrom(edges, v, n)
  {
    if edges != [] {
      InDegreeAfter(edges[..|edges| - 1], done, v, n);
    }
  }

  lemma {:induction false} EdgesFromPrefix(edges: seq<Edge>, i: nat, v: NodeId, n: NodeId)
    requires i <= |edges|
    ensures EdgesFrom(edges[..i], v, n) <= EdgesFrom(edges, v, n)
    decreases |edges|
  {
    if i < |edges| {
      assert edges[..i] == edges[..|edges| - 1][..i];
      EdgesFromPrefix(edges[..|edges| - 1], i, v, n);
    } else {
      assert edges[..i] == edges;
    }
  }

  // ── Kahn's count ────────────────────────────────────────────────────────────

  ghost function Ids(nodes: seq<NodeId>): set<NodeId> {
    set n | n in nodes
  }

  /** The queue and the visited order between two pops. */
  ghost predicate KahnState(nodes: seq<NodeId>, edges: seq<Edge>, indeg: map<NodeId, nat>, queue: seq<NodeId>, order: seq<NodeId>) {
    indeg.Keys == Ids(nodes) &&
    Distinct(order) && Distinct(queue) &&
    (forall n :: n in order ==> n in indeg && n !in queue) &&
    (forall n :: n in indeg ==> indeg[n] == InDegree(edges, Ids(order), n)) &&
    (forall n :: n in queue <==> n in indeg && indeg[n] == 0 && n !in order) &&
    TopoOrder(edges, order)
  }

  /** In-degree table: every edge whose target is a node counts, wherever it comes from. */
  method InDegrees(nodes: seq<NodeId>, edges: seq<Edge>) returns (indeg: map<NodeId, nat>)
    ensures indeg.Keys == Ids(nodes)
    ensures forall n :: n in indeg ==> indeg[n] == InDegree(edges, {}, n)
  {
    indeg := map n | n in nodes :: 0;
    for i := 0 to |edges|
      invariant indeg.Keys == Ids(nodes)
      invariant forall n :: n in indeg ==> indeg[n] == InDegree(edges[..i], {}, n)
    {
      assert edges[..i + 1][..i] == edges[..i];
      var t := edges[i].to;
      if t in indeg {
        indeg := indeg[t := indeg[t] + 1];
      }
    }
    assert edges[..|edges|] == edges;
  }

  /** The nodes of in-degree zero, in id order (the sorted seed queue). */
  method Seeds(indeg: map<NodeId, nat>) returns (queue: seq<NodeId>)
    ensures Distinct(queue)
    ensures forall n :: n in queue <==> n in indeg && indeg[n] == 0
  {
    queue := [];
    var todo := indeg.Keys;
    while todo != {}
      invariant todo <= indeg.Keys
      invariant Distinct(queue)
      invariant forall n :: n in queue <==> n in indeg.Keys - todo && indeg[n] == 0
      decreases todo
    {
      assert IsLeast(Least(todo), todo);
      var n :| n in todo && IsLeast(n, todo);
      if indeg[n] == 0 {
        queue := queue + [n];
      }
      todo := todo - {n};
    }
  }

  /** One pop: lower the in-degree of `v`'s targets, queueing those that reach zero. */
  method Visit(edges: seq<Edge>, indeg0: map<NodeId, nat>, queue0: seq<NodeId>, v: NodeId)
    returns (indeg: map<NodeId, nat>, queue: seq<NodeId>)
    requires forall n :: n in indeg0 ==> EdgesFrom(edges, v, n) <= indeg0[n]
    requires Distinct(queue0) && forall n :: n in queue0 ==> n in indeg0 && indeg0[n] == 0
    ensures indeg.Keys == indeg0.Keys
    ensures forall n :: n in indeg ==> indeg[n] + EdgesFrom(edges, v, n) == indeg0[n]
    ensures Distinct(queue)
    ensures forall n :: n in queue <==> n in queue0 || (n in indeg && indeg[n] == 0 && 0 < indeg0[n])
  {
    indeg, queue := indeg0, queue0;
    for i := 0 to |edges|
      invariant indeg.Keys == indeg0.Keys
      invariant forall n :: n in indeg ==> indeg[n] + EdgesFrom(edges[..i], v, n) == indeg0[n]
      invariant Distinct(queue)
      invariant forall n :: n in queue <==> n in queue0 || (n in indeg && indeg[n] == 0 && 0 < indeg0[n])
    {
      assert edges[..i + 1][..i] == edges[..i];
      var e := edges[i];
      if e.from == v && e.to in indeg {
        EdgesFromPrefix(edges, i + 1, v, e.to);
        indeg := indeg[e.to := indeg[e.to] - 1];
        if indeg[e.to] == 0 {
          queue := queue + [e.to];
        }
      }
    }
    assert edges[..|edges|] == edges;
  }

  lemma KahnStart(nodes: seq<NodeId>, edges: seq<Edge>, indeg: map<NodeId, nat>, queue: seq<NodeId>)
    requires indeg.Keys == Ids(nodes) && Distinct(queue)
    requires forall n :: n in indeg ==> indeg[n] == InDegree(edges, {}, n)
    requires forall n :: n in queue <==> n in indeg && indeg[n] == 0
    ensures KahnState(nodes, edges, indeg, queue, [])
  {
    assert Ids([]) == {};
  }

  /** A pop keeps the state between pops. */
  lemma KahnStep(nodes: seq<NodeId>, edges: seq<Edge>, indeg0: map<NodeId, nat>, queue0: seq<NodeId>, order: seq<NodeId>,
                 v: NodeId, indeg: map<NodeId, nat>, queue: seq<NodeId>)
    requires KahnState(nodes, edges, indeg0, queue0 + [v], order)
    requires indeg.Keys == indeg0.Keys && Distinct(queue)
    requires forall n :: n in indeg ==> indeg[n] + EdgesFrom(edges, v, n) == indeg0[n]
    requires forall n :: n in queue <==> n in queue0 || (n in indeg && indeg[n] == 0 && 0 < indeg0[n])
    ensures KahnState(nodes, edges, indeg, queue, order + [v])
  {
    var done := Ids(order);
    var whole := queue0 + [v];
    assert v in whole && v !in order && indeg0[v] == 0;
    assert forall i :: 0 <= i < |queue0| ==> whole[i] == queue0[i] && whole[i] != whole[|queue0|];
    assert forall n :: n in whole <==> n in queue0 || n == v;
    assert v !in queue0;
    InDegreeZero(edges, done, v);
    TopoExtends(edges, order, v);
    assert Ids(order + [v]) == done + {v};
    forall n | n in indeg
      ensures indeg[n] == InDegree(edges, done + {v}, n)
      ensures n in order ==> indeg0[n] == 0
    {
      InDegreeAfter(edges, done, v, n);
      InDegreeZero(edges, done, n);
      if n in order {
        var k :| 0 <= k < |order| && order[k] == n;
        assert order[..k] <= order;
      }
    }
  }

  /** At a pop, every queued node has in-degree zero and the popped node's out-edges still count. */
  lemma KahnPop(nodes: seq<NodeId>, edges: seq<Edge>, indeg: map<NodeId, nat>, queue: seq<NodeId>, order: seq<NodeId>, v: NodeId)
    requires KahnState(nodes, edges, indeg, queue + [v], order)
    ensures Ids(nodes) - Ids(order + [v]) < Ids(nodes) - Ids(order) && Distinct(queue)
    ensures forall n :: n in queue ==> n in indeg && indeg[n] == 0
    ensures forall n :: n in indeg ==> EdgesFrom(edges, v, n) <= indeg[n]
  {
    var whole := queue + [v];
    assert v in whole && v in indeg && v in Ids(nodes);
    assert Ids(order + [v]) == Ids(order) + {v};
    assert v in Ids(nodes) - Ids(order) && v !in Ids(nodes) - Ids(order + [v]);
    assert forall n :: n in queue ==> n in whole;
    assert forall i :: 0 <= i < |queue| ==> whole[i] == queue[i];
    forall n | n in indeg ensures EdgesFrom(edges, v, n) <= indeg[n] {
      InDegreeAfter(edges, Ids(order), v, n);
    }
  }

  lemma TopoExtends(edges: seq<Edge>, order: seq<NodeId>, v: NodeId)
    requires TopoOrder(edges, order) && v !in order
    requires forall e :: e in edges && e.to == v ==> e.from in order
    ensures TopoOrder(edges, order + [v])
  {
    var q := order + [v];
    forall e, i | e in edges && 0 <= i < |q| && q[i] == e.to ensures e.from in q[..i] {
      if i < |order| {
        assert order[i] == e.to && q[..i] == order[..i];
      } else {
        assert q[..i] == order;
      }
    }
  }

  lemma {:induction false} DistinctSize(q: seq<NodeId>)
    requires Distinct(q)
    ensures |Ids(q)| == |q|
  {
    if q != [] {
      var p := q[..|q| - 1];
      DistinctSize(p);
      assert Ids(q) == Ids(p) + {q[|q| - 1]};
    }
  }

  /** Pops until the queue is empty, then compares the count with the number of nodes. */
  method DetectCycle(nodes: seq<NodeId>, edges: seq<Edge>) returns (ok: bool)
    ensures Distinct(nodes) && NoDangling(nodes, edges) ==> (ok <==> !Cyclic(edges))
  {
    var indeg := InDegrees(nodes, edges);
    var queue := Seeds(indeg);
    var visited := 0;
    ghost var order: seq<NodeId> := [];
    KahnStart(nodes, edges, indeg, queue);
    while queue != []
      invariant KahnState(nodes, edges, indeg, queue, order)
      invariant visited == |order|
      decreases Ids(nodes) - Ids(order)
    {
      var n := queue[|queue| - 1];
      ghost var indeg0, queue0 := indeg, queue[..|queue| - 1];
      assert queue == queue0 + [n];
      KahnPop(nodes, edges, indeg, queue0, order, n);
      visited := visited + 1;
      indeg, queue := Visit(edges, indeg, queue[..|queue| - 1], n);
      KahnStep(nodes, edges, indeg0, queue0, order, n, indeg, queue);
      order := order + [n];
    }
    ok := visited == |nodes|;
    if Distinct(nodes) && NoDangling(nodes, edges) {
      KahnVerdict(nodes, edges, indeg, order);
    }
  }

  /** With an empty queue, the count reaches every node exactly when there is no cycle. */
  lemma KahnVerdict(nodes: seq<NodeId>, edges: seq<Edge>, indeg: map<NodeId, nat>, order: seq<NodeId>)
    requires Distinct(nodes) && NoDangling(nodes, edges)
    requires KahnState(nodes, edges, indeg, [], order)
    ensures |order| == |nodes| <==> !Cyclic(edges)
  {
    DistinctSize(nodes);
    DistinctSize(order);
    var all, done := Ids(nodes), Ids(order);
    assert done <= all;
    if |order| == |nodes| {
      SubsetSameSize(done, all);
      assert forall n :: n in nodes ==> n in done;
      TopoOrderAcyclic(nodes, edges, order);
    } else {
      var rest := all - done;
      assert all == done + rest;
      forall n {:trigger HasPredecessor(edges, rest, n)} | n in rest ensures HasPredecessor(edges, rest, n) {
        InDegreeZero(edges, done, n);
        var e :| e in edges && e.to == n && e.from !in done;
        assert Linked(edges, e.from, n);
      }
      PredecessorsCycle(edges, rest);
    }
  }

  lemma SubsetSameSize(a: set<NodeId>, b: set<NodeId>)
    requires a <= b && |a| == |b|
    ensures a == b
  {
    assert b == a + (b - a);
    assert |b - a| == |b| - |a|;
  }
}
