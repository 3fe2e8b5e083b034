/** The process groups of a run's live tool children: what a cancel must be able to reach. */
module ToolChildren {
  import opened Lists

  type Run = string
  type Groups = map<Run, seq<nat>>

  function Live(g: Groups, run: Run): seq<nat> {
    if run in g then g[run] else []
  }

  function Added(g: Groups, run: Run, pgid: nat): Groups {
    g[run := if pgid in Live(g, run) then Live(g, run) else Live(g, run) + [pgid]]
  }

  function Dropped(g: Groups, run: Run, pgid: nat): Groups {
    if run !in g then g
    else if Without(g[run], pgid) == [] then g - {run}
    else g[run := Without(g[run], pgid)]
  }

  /** The registry as it is edited in place. */
  class Children {
    var groups: Groups

    constructor ()
      ensures groups == map[]
    {
      groups := map[];
    }

    /** The groups that were live already. */
    method Register(run: Run, pgid: nat) returns (already: seq<nat>)
      modifies this
      ensures groups == Added(old(groups), run, pgid)
      ensures already == Without(Live(old(groups), run), pgid)
    {
      var live := if run in groups then groups[run] else [];
      already := Without(live, pgid);
      if pgid !in live {
        live := live + [pgid];
      }
      groups := groups[run := live];
    }

    method Deregister(run: Run, pgid: nat)
      modifies this
      ensures groups == Dropped(old(groups), run, pgid)
    {
      if run in groups {
        var live := Without(groups[run], pgid);
        if live == [] {
          groups := groups - {run};
        } else {
          groups := groups[run := live];
        }
      }
    }

    method Take(run: Run) returns (pgids: seq<nat>)
      modifies this
      ensures pgids == Live(old(groups), run) && groups == old(groups) - {run}
    {
      pgids := if run in groups then groups[run] else [];
      groups := groups - {run};
    }
  }

  datatype Step = Register(run: Run, pgid: nat) | Deregister(run: Run, pgid: nat) | Take(run: Run)

  function Do(g: Groups, s: Step): Groups {
    match s
    case Register(run, pgid) => Added(g, run, pgid)
    case Deregister(run, pgid) => Dropped(g, run, pgid)
    case Take(run) => g - {run}
  }

  function After(g: Groups, steps: seq<Step>): Groups
    decreases |steps|
  {
    if steps == [] then g else After(Do(g, steps[0]), steps[1..])
  }

  /** Each live group once, and no empty list. */
  ghost predicate Tidy(g: Groups) {
    forall run :: run in g ==> g[run] != [] && Distinct(g[run])
  }

  lemma StepTidy(g: Groups, s: Step)
    requires Tidy(g)
    ensures Tidy(Do(g, s))
  {
    match s
    case Register(run, pgid) =>
      var live := Live(g, run);
      if pgid !in live {
        JoinDistinct(live, [pgid]);
        assert Distinct(live + [pgid]);
      }
    case Deregister(run, pgid) =>
      if run in g {
        WithoutDistinct(g[run], pgid);
      }
    case Take(run) =>
  }

  /** A registered group stays reachable by a cancel of its run until its own deregistration or a take, whoever else
      registers or leaves meanwhile. */
  lemma {:induction false} Reachable(g: Groups, steps: seq<Step>, run: Run, pgid: nat)
    requires Tidy(g) && pgid in Live(g, run)
    requires forall i :: 0 <= i < |steps| ==> steps[i] != Deregister(run, pgid) && steps[i] != Take(run)
    ensures pgid in Live(After(g, steps), run) && Tidy(After(g, steps))
    decreases |steps|
  {
    if steps != [] {
      StepTidy(g, steps[0]);
      assert pgid in Live(Do(g, steps[0]), run) by {
        LiveIff(g, steps[0], run, pgid);
      }
      Reachable(Do(g, steps[0]), steps[1..], run, pgid);
    }
  }

  /** A group is live from its registration to its own deregistration or a take of its run. */
  lemma LiveIff(g: Groups, s: Step, run: Run, pgid: nat)
    ensures pgid in Live(Do(g, s), run) <==>
              s == Register(run, pgid) || (pgid in Live(g, run) && s != Deregister(run, pgid) && s != Take(run))
  {
    if s.Deregister? && s.run == run && run in g {
      assert pgid in Without(g[run], s.pgid) <==> pgid in g[run] && pgid != s.pgid;
    }
  }
}
