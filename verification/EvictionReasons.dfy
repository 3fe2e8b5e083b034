/** Why a volume is removed and what is left, in terms of the volumes alone. */
module EvictionReasons {
  import opened Names
  import opened Eviction

  /** Not used for longer than the time to live; a use in the future counts as one now. */
  predicate Unused(v: Volume, caps: Caps) {
    v.used < caps.now && caps.now - v.used > caps.ttl
  }

  predicate NodeModules(v: Volume, repo: string) {
    "wfloor-nm-" <= v.name && v.repo == repo
  }

  /** The other node_modules volumes of its repository that were used no earlier. */
  ghost function Ahead(vols: seq<Volume>, v: Volume): set<string> {
    set w | w in vols && NodeModules(w, v.repo) && w.name != v.name && w.used >= v.used :: w.name
  }

  /** The bytes of the volumes that are left, the cargo home apart, of one repository or of all. */
  lemma WeightCons(v: Volume, vs: seq<Volume>, gone: set<string>, repo: Option<string>)
    ensures Weight([], gone, repo) == 0
    ensures Weight([v] + vs, gone, repo) ==
              Weight(vs, gone, repo) + if v.name !in gone && v.name != "wfloor-cargo-home" && (repo.None? || v.repo == repo.value) then v.bytes else 0
  {
    assert ([v] + vs)[1..] == vs;
  }

  // ── why a volume goes ───────────────────────────────────────────────────────

  /** Unused for too long, a node_modules volume with three of its repository ahead of it, or over a cap with what went
      before it gone. */
  ghost predicate Reason(vols: seq<Volume>, v: Volume, before: seq<string>, caps: Caps) {
    Unused(v, caps) || ("wfloor-nm-" <= v.name && |Ahead(vols, v)| >= 3) ||
    Weight(vols, NamesOf(before), None) > caps.total || Weight(vols, NamesOf(before), Some(v.repo)) > caps.repo
  }

  ghost function NmNames(vs: seq<Volume>, k: nat, repo: string): set<string>
    requires k <= |vs|
  {
    set j | 0 <= j < k && NodeModules(vs[j], repo) :: vs[j].name
  }

  lemma {:induction false} NmCounted(vs: seq<Volume>, k: nat, repo: string)
    requires k <= |vs| && DistinctNames(vs)
    ensures |NmNames(vs, k, repo)| == NmSeen(vs, k, repo)
    decreases k
  {
    if k > 0 {
      NmCounted(vs, k - 1, repo);
      var last := vs[k - 1];
      if NodeModules(last, repo) {
        assert NmNames(vs, k, repo) == NmNames(vs, k - 1, repo) + {last.name};
        assert last.name !in NmNames(vs, k - 1, repo);
      } else {
        assert NmNames(vs, k, repo) == NmNames(vs, k - 1, repo);
      }
    }
  }

  lemma Fewer(a: set<string>, b: set<string>)
    requires a <= b
    ensures |a| <= |b|
  {
    assert b == a + (b - a);
  }

  lemma StaleReason(vols: seq<Volume>, i: nat, caps: Caps)
    requires DistinctNames(vols) && i < |Newest(vols)| && Stale(Newest(vols), i, caps)
    ensures var v := Newest(vols)[i]; Unused(v, caps) || ("wfloor-nm-" <= v.name && |Ahead(vols, v)| >= 3)
  {
    var vs := Newest(vols);
    NewestSorts(vols);
    NewestDistinct(vols);
    hide Newest;
    var v := vs[i];
    if !Idle(v, caps) {
      NmCounted(vs, i, v.repo);
      forall n | n in NmNames(vs, i, v.repo) ensures n in Ahead(vols, v) {
        var j :| 0 <= j < i && NodeModules(vs[j], v.repo) && vs[j].name == n;
        assert vs[j] in vs;
        InNewest(vols, vs[j]);
      }
      Fewer(NmNames(vs, i, v.repo), Ahead(vols, v));
    }
  }

  /** Every volume of a plan is there for a reason, told from the volumes and what the plan lists before it. */
  lemma PlanReasons(vols: seq<Volume>, plan: seq<string>, stale: nat, at: seq<nat>, caps: Caps, k: nat) returns (v: Volume)
    requires DistinctNames(vols) && PlanOk(vols, plan, stale, at, caps) && k < |plan|
    ensures v in vols && v.name == plan[k] && Reason(vols, v, plan[..k], caps)
  {
    hide Weight, Newest, Keep, StaleNames, Stale, Ahead;
    var vs := Newest(vols);
    NewestDistinct(vols);
    if k < stale {
      StaleAre(vs, |vs|, caps);
      assert plan[k] == plan[..stale][k] && plan[k] in StaleNames(vs, |vs|, caps);
      var i :| 0 <= i < |vs| && vs[i].name == plan[k];
      StaleReason(vols, i, caps);
      v := vs[i];
      InNewest(vols, v);
    } else {
      var kept := KeptOf(vols, plan, stale);
      KeptFacts(vols, plan, stale);
      var j := k - stale;
      v := kept[at[j]];
      assert v in kept && plan[stale..][j] == plan[k];
      assert Over(kept, v, NamesOf(plan[stale..][..j]), caps);
      assert plan[..stale] + plan[stale..][..j] == plan[..k];
      LeftWeight(vols, plan[..stale], plan[stale..][..j], None);
      LeftWeight(vols, plan[..stale], plan[stale..][..j], Some(v.repo));
    }
  }

  // ── what is left ────────────────────────────────────────────────────────────

  /** The node_modules volumes of `repo` that stay although no floor leases them. */
  ghost function NmStay(vols: seq<Volume>, plan: seq<string>, repo: string, caps: Caps): set<string> {
    set v | v in vols && NodeModules(v, repo) && v.name !in plan && v.name !in caps.leased :: v.name
  }

  ghost function NmStayBy(vs: seq<Volume>, k: nat, repo: string, plan: seq<string>, caps: Caps): set<string>
    requires k <= |vs|
  {
    set j | 0 <= j < k && NodeModules(vs[j], repo) && vs[j].name !in plan && vs[j].name !in caps.leased :: vs[j].name
  }

  lemma {:induction false} StayCounted(vs: seq<Volume>, k: nat, repo: string, plan: seq<string>, caps: Caps)
    requires k <= |vs|
    ensures |NmStayBy(vs, k, repo, plan, caps)| <= NmLeftBy(vs, k, repo, plan, caps)
    decreases k
  {
    if k > 0 {
      StayCounted(vs, k - 1, repo, plan, caps);
      var last := vs[k - 1];
      if NodeModules(last, repo) && last.name !in plan && last.name !in caps.leased {
        assert NmStayBy(vs, k, repo, plan, caps) == NmStayBy(vs, k - 1, repo, plan, caps) + {last.name};
      } else {
        assert NmStayBy(vs, k, repo, plan, caps) == NmStayBy(vs, k - 1, repo, plan, caps);
      }
    }
  }

  /** What a plan leaves of the volumes no floor leases: none unused for too long, at most three node_modules volumes of
      each repository, and, if any but the cargo home, both caps met. */
  lemma PlanStays(vols: seq<Volume>, plan: seq<string>, stale: nat, at: seq<nat>, caps: Caps, v: Volume)
    requires DistinctNames(vols) && PlanOk(vols, plan, stale, at, caps)
    requires v in vols && v.name !in plan && v.name !in caps.leased && v.name != "wfloor-cargo-home"
    ensures !Unused(v, caps) && |NmStay(vols, plan, v.repo, caps)| <= 3
    ensures Weight(vols, NamesOf(plan), None) <= caps.total && Weight(vols, NamesOf(plan), Some(v.repo)) <= caps.repo
  {
    PlanLeaves(vols, plan, stale, at, caps, v.repo);
    assert Left(vols, plan, v);
    hide Weight, Newest, PlanOk, NmLeftBy;
    var vs := Newest(vols);
    StayCounted(vs, |vs|, v.repo, plan, caps);
    forall n | n in NmStay(vols, plan, v.repo, caps) ensures n in NmStayBy(vs, |vs|, v.repo, plan, caps) {
      var w :| w in vols && NodeModules(w, v.repo) && w.name !in plan && w.name !in caps.leased && w.name == n;
      NmNotCargo(w);
      InNewest(vols, w);
      var j :| 0 <= j < |vs| && vs[j] == w;
    }
    Fewer(NmStay(vols, plan, v.repo, caps), NmStayBy(vs, |vs|, v.repo, plan, caps));
    CapsMet(vols, plan, stale, at, caps, v);
  }

  lemma NmNotCargo(w: Volume)
    requires "wfloor-nm-" <= w.name
    ensures w.name != CARGO_HOME
  {
    assert w.name[7] == 'n' && CARGO_HOME[7] == 'c';
  }

  lemma CapsMet(vols: seq<Volume>, plan: seq<string>, stale: nat, at: seq<nat>, caps: Caps, v: Volume)
    requires PlanOk(vols, plan, stale, at, caps) && Left(vols, plan, v) && v.name !in caps.leased
    ensures Weight(vols, NamesOf(plan), None) <= caps.total && Weight(vols, NamesOf(plan), Some(v.repo)) <= caps.repo
  {
    hide Weight, Newest, Evicts, StaleNames, Keep, OldestOfRepo;
  }
}
