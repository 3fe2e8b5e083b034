/** Which cache volumes the floor removes, and the mtimes its tree copies carry. */
module Eviction {
  import opened Names

  datatype Volume = Volume(name: string, repo: string, bytes: nat, used: int)

  const CARGO_HOME := "wfloor-cargo-home"
  const NM_PREFIX := "wfloor-nm-"
  const NM_KEEP := 3

  datatype Caps = Caps(now: int, ttl: nat, total: nat, repo: nat, leased: set<string>)

  ghost predicate DistinctNames(vs: seq<Volume>) {
    forall i, j :: 0 <= i < j < |vs| ==> vs[i].name != vs[j].name
  }

  // ── newest first ────────────────────────────────────────────────────────────

  function NotCargo(vs: seq<Volume>): seq<Volume> {
    if vs == [] then []
    else (if vs[0].name != CARGO_HOME then [vs[0]] else []) + NotCargo(vs[1..])
  }

  /** `v` in front of the first volume that was not used later. */
  function Insert(v: Volume, vs: seq<Volume>): seq<Volume> {
    if vs == [] || vs[0].used <= v.used then [v] + vs else [vs[0]] + Insert(v, vs[1..])
  }

  /** The volumes but the cargo home, by decreasing last use; equal uses keep their order. */
  function Newest(vs: seq<Volume>): seq<Volume> {
    if vs == [] then []
    else if vs[0].name == CARGO_HOME then Newest(vs[1..])
    else Insert(vs[0], Newest(vs[1..]))
  }

  ghost predicate Descending(vs: seq<Volume>) {
    forall i, j :: 0 <= i < j < |vs| ==> vs[i].used >= vs[j].used
  }

  lemma {:induction false} InsertMultiset(v: Volume, vs: seq<Volume>)
    ensures multiset(Insert(v, vs)) == multiset([v]) + multiset(vs)
  {
    if vs != [] && vs[0].used > v.used {
      InsertMultiset(v, vs[1..]);
      assert vs == [vs[0]] + vs[1..];
    }
  }

  lemma {:induction false} InsertDescending(v: Volume, vs: seq<Volume>)
    requires Descending(vs)
    ensures Descending(Insert(v, vs))
    ensures Insert(v, vs)[0] == v || (vs != [] && Insert(v, vs)[0] == vs[0])
  {
    if vs != [] && vs[0].used > v.used {
      InsertDescending(v, vs[1..]);
      var r := Insert(v, vs[1..]);
      assert vs[0].used >= r[0].used;
    }
  }

  /** Sorting keeps every volume but the cargo home, newest first. */
  lemma {:induction false} NewestSorts(vs: seq<Volume>)
    ensures Descending(Newest(vs)) && multiset(Newest(vs)) == multiset(NotCargo(vs))
  {
    if vs != [] {
      NewestSorts(vs[1..]);
      if vs[0].name != CARGO_HOME {
        InsertDescending(vs[0], Newest(vs[1..]));
        InsertMultiset(vs[0], Newest(vs[1..]));
      }
    }
  }

  /** The volumes used at `t`, in order. */
  function UsedAt(vs: seq<Volume>, t: int): seq<Volume> {
    if vs == [] then [] else (if vs[0].used == t then [vs[0]] else []) + UsedAt(vs[1..], t)
  }

  lemma {:induction false} InsertStable(v: Volume, vs: seq<Volume>, t: int)
    ensures UsedAt(Insert(v, vs), t) == UsedAt([v], t) + UsedAt(vs, t)
  {
    if vs != [] && vs[0].used > v.used {
      InsertStable(v, vs[1..], t);
    } else {
      assert ([v] + vs)[1..] == vs;
    }
  }

  lemma {:induction false} NewestStable(vs: seq<Volume>, t: int)
    ensures UsedAt(Newest(vs), t) == UsedAt(NotCargo(vs), t)
  {
    if vs != [] {
      NewestStable(vs[1..], t);
      if vs[0].name != CARGO_HOME {
        InsertStable(vs[0], Newest(vs[1..]), t);
        assert ([vs[0]] + NotCargo(vs[1..]))[1..] == NotCargo(vs[1..]);
      } else {
        assert [] + NotCargo(vs[1..]) == NotCargo(vs[1..]);
      }
    }
  }

  // ── what is left ────────────────────────────────────────────────────────────

  predicate Counts(v: Volume, gone: set<string>, repo: Option<string>) {
    v.name !in gone && v.name != CARGO_HOME && (repo.None? || v.repo == repo.value)
  }

  /** The bytes left, of one repository or of all; the cargo home does not count. */
  function Weight(vs: seq<Volume>, gone: set<string>, repo: Option<string>): nat {
    if vs == [] then 0
    else Weight(vs[1..], gone, repo) + if Counts(vs[0], gone, repo) then vs[0].bytes else 0
  }

  lemma {:induction false} InsertWeight(v: Volume, vs: seq<Volume>, gone: set<string>, repo: Option<string>)
    ensures Weight(Insert(v, vs), gone, repo) == Weight(vs, gone, repo) + if Counts(v, gone, repo) then v.bytes else 0
  {
    if vs != [] && vs[0].used > v.used {
      InsertWeight(v, vs[1..], gone, repo);
    } else {
      assert ([v] + vs)[1..] == vs;
    }
  }

  lemma {:induction false} NewestWeight(vs: seq<Volume>, gone: set<string>, repo: Option<string>)
    ensures Weight(Newest(vs), gone, repo) == Weight(vs, gone, repo)
  {
    if vs != [] {
      NewestWeight(vs[1..], gone, repo);
      if vs[0].name != CARGO_HOME {
        InsertWeight(vs[0], Newest(vs[1..]), gone, repo);
      }
    }
  }

  lemma {:induction false} WeightGone(vs: seq<Volume>, i: nat, gone: set<string>, repo: Option<string>)
    requires DistinctNames(vs) && i < |vs| && vs[i].name !in gone && vs[i].name != CARGO_HOME
    ensures Weight(vs, gone + {vs[i].name}, repo) == Weight(vs, gone, repo) - (if repo.None? || vs[i].repo == repo.value then vs[i].bytes else 0)
  {
    if i == 0 {
      WeightSame(vs[1..], vs[0].name, gone, repo);
    } else {
      WeightGone(vs[1..], i - 1, gone, repo);
    }
  }

  lemma {:induction false} WeightSame(vs: seq<Volume>, name: string, gone: set<string>, repo: Option<string>)
    requires forall i :: 0 <= i < |vs| ==> vs[i].name != name
    ensures Weight(vs, gone + {name}, repo) == Weight(vs, gone, repo)
  {
    if vs != [] {
      WeightSame(vs[1..], name, gone, repo);
    }
  }

  // ── the first pass ──────────────────────────────────────────────────────────

  predicate IsNm(v: Volume) {
    NM_PREFIX <= v.name
  }

  predicate Idle(v: Volume, caps: Caps) {
    (if caps.now >= v.used then caps.now - v.used else 0) > caps.ttl
  }

  /** How many of the first `k` are node_modules volumes of `repo`. */
  function NmSeen(vs: seq<Volume>, k: nat, repo: string): nat
    requires k <= |vs|
  {
    if k == 0 then 0 else NmSeen(vs, k - 1, repo) + if IsNm(vs[k - 1]) && vs[k - 1].repo == repo then 1 else 0
  }

  /** Idle past the TTL, or a node_modules volume behind the newest `NM_KEEP` of its repository. */
  predicate Stale(vs: seq<Volume>, i: nat, caps: Caps)
    requires i < |vs|
  {
    Idle(vs[i], caps) || (IsNm(vs[i]) && NmSeen(vs, i + 1, vs[i].repo) > NM_KEEP)
  }

  /** The stale volumes no floor leases, newest first. */
  function StaleNames(vs: seq<Volume>, k: nat, caps: Caps): (r: seq<string>)
    requires k <= |vs|
  {
    if k == 0 then []
    else StaleNames(vs, k - 1, caps) + if Stale(vs, k - 1, caps) && vs[k - 1].name !in caps.leased then [vs[k - 1].name] else []
  }

  method FirstPass(vs: seq<Volume>, caps: Caps) returns (out: seq<string>)
    ensures out == StaleNames(vs, |vs|, caps)
  {
    out := [];
    var seen: map<string, nat> := map[];
    for i := 0 to |vs|
      invariant out == StaleNames(vs, i, caps)
      invariant forall r :: (if r in seen then seen[r] else 0) == NmSeen(vs, i, r)
    {
      var v := vs[i];
      var overKeep := false;
      if IsNm(v) {
        var n := (if v.repo in seen then seen[v.repo] else 0) + 1;
        seen := seen[v.repo := n];
        overKeep := n > NM_KEEP;
      }
      if (Idle(v, caps) || overKeep) && v.name !in caps.leased {
        out := out + [v.name];
      }
    }
  }

  function NamesOf(ns: seq<string>): set<string> {
    set n | n in ns
  }

  lemma {:induction false} StaleAre(vs: seq<Volume>, k: nat, caps: Caps)
    requires k <= |vs| && DistinctNames(vs)
    ensures forall i :: 0 <= i < |vs| ==>
      (vs[i].name in StaleNames(vs, k, caps) <==> i < k && Stale(vs, i, caps) && vs[i].name !in caps.leased)
    ensures forall n :: n in StaleNames(vs, k, caps) ==> exists i :: 0 <= i < k && vs[i].name == n
    ensures forall i, j :: 0 <= i < j < |StaleNames(vs, k, caps)| ==> StaleNames(vs, k, caps)[i] != StaleNames(vs, k, caps)[j]
  {
    if k > 0 {
      StaleAre(vs, k - 1, caps);
    }
  }

  /** How many unleased node_modules volumes of `repo` among the first `k` are not stale. */
  function NmLeft(vs: seq<Volume>, k: nat, repo: string, caps: Caps): nat
    requires k <= |vs|
  {
    if k == 0 then 0
    else NmLeft(vs, k - 1, repo, caps) +
         if IsNm(vs[k - 1]) && vs[k - 1].repo == repo && vs[k - 1].name !in caps.leased && !Stale(vs, k - 1, caps) then 1 else 0
  }

  /** At most `NM_KEEP` unleased node_modules volumes of a repository survive the first pass. */
  lemma {:induction false} NmKept(vs: seq<Volume>, k: nat, repo: string, caps: Caps)
    requires k <= |vs|
    ensures NmLeft(vs, k, repo, caps) <= NM_KEEP && NmLeft(vs, k, repo, caps) <= NmSeen(vs, k, repo)
  {
    if k > 0 {
      NmKept(vs, k - 1, repo, caps);
    }
  }

  // ── the second pass ─────────────────────────────────────────────────────────

  function Keep(vs: seq<Volume>, gone: set<string>): (r: seq<Volume>)
    ensures forall v :: v in r <==> v in vs && v.name !in gone
  {
    if vs == [] then [] else (if vs[0].name !in gone then [vs[0]] else []) + Keep(vs[1..], gone)
  }

  lemma {:induction false} KeepWeight(vs: seq<Volume>, gone: set<string>, more: set<string>, repo: Option<string>)
    ensures Weight(Keep(vs, gone), more, repo) == Weight(vs, gone + more, repo)
  {
    if vs != [] {
      KeepWeight(vs[1..], gone, more, repo);
      if vs[0].name !in gone {
        assert ([vs[0]] + Keep(vs[1..], gone))[1..] == Keep(vs[1..], gone);
      } else {
        assert [] + Keep(vs[1..], gone) == Keep(vs[1..], gone);
      }
    }
  }

  lemma ConsOrder(v: Volume, rest: seq<Volume>)
    requires DistinctNames(rest) && Descending(rest)
    requires forall x :: x in rest ==> x.name != v.name && x.used <= v.used
    ensures DistinctNames([v] + rest) && Descending([v] + rest)
  {
    var all := [v] + rest;
    forall i, j | 0 <= i < j < |all| ensures all[i].name != all[j].name && all[i].used >= all[j].used {
      assert all[j] == rest[j - 1] && rest[j - 1] in rest;
    }
  }

  lemma TailOrder(vs: seq<Volume>)
    requires vs != [] && DistinctNames(vs) && Descending(vs)
    ensures DistinctNames(vs[1..]) && Descending(vs[1..])
    ensures forall x :: x in vs[1..] ==> x.name != vs[0].name && x.used <= vs[0].used
  {
  }

  /** A selection of a list keeps names distinct and the order of use. */
  lemma {:induction false} KeepOrder(vs: seq<Volume>, gone: set<string>)
    requires DistinctNames(vs) && Descending(vs)
    ensures DistinctNames(Keep(vs, gone)) && Descending(Keep(vs, gone))
  {
    if vs != [] {
      TailOrder(vs);
      KeepOrder(vs[1..], gone);
      hide DistinctNames, Descending;
      var rest := Keep(vs[1..], gone);
      ConsOrder(vs[0], rest);
      assert [] + rest == rest;
    }
  }

  /** Some cap is exceeded for `v` when what is gone is gone. */
  predicate Over(vs: seq<Volume>, v: Volume, gone: set<string>, caps: Caps) {
    Weight(vs, gone, None) > caps.total || Weight(vs, gone, Some(v.repo)) > caps.repo
  }

  /** `at[k]` is the position of the `k`-th evicted volume: from the oldest to newer ones, each unleased and
      over a cap when its turn comes. */
  ghost predicate Evicts(vs: seq<Volume>, out: seq<string>, at: seq<nat>, caps: Caps) {
    |at| == |out| &&
    (forall k :: 0 <= k < |at| ==> at[k] < |vs| && vs[at[k]].name == out[k] && out[k] !in caps.leased) &&
    (forall j, k :: 0 <= j < k < |at| ==> at[j] > at[k]) &&
    forall k :: 0 <= k < |at| ==> Over(vs, vs[at[k]], NamesOf(out[..k]), caps)
  }

  /** A volume that was passed over is leased, or every cap it counts against is met. */
  ghost predicate Spared(vs: seq<Volume>, out: seq<string>, i: nat, caps: Caps)
    requires i < |vs|
  {
    vs[i].name in out || vs[i].name in caps.leased || !Over(vs, vs[i], NamesOf(out), caps)
  }

  method SumUp(vs: seq<Volume>) returns (total: nat, perRepo: map<string, nat>)
    requires forall i :: 0 <= i < |vs| ==> vs[i].name != CARGO_HOME
    ensures total == Weight(vs, {}, None)
    ensures forall i :: 0 <= i < |vs| ==> vs[i].repo in perRepo
    ensures forall r :: r in perRepo ==> perRepo[r] == Weight(vs, {}, Some(r))
  {
    total, perRepo := 0, map[];
    var i := |vs|;
    while i > 0
      invariant 0 <= i <= |vs| && total == Weight(vs[i..], {}, None)
      invariant forall k :: i <= k < |vs| ==> vs[k].repo in perRepo
      invariant forall r :: (if r in perRepo then perRepo[r] else 0) == Weight(vs[i..], {}, Some(r))
    {
      i := i - 1;
      assert vs[i..][1..] == vs[i + 1..];
      total := total + vs[i].bytes;
      perRepo := perRepo[vs[i].repo := (if vs[i].repo in perRepo then perRepo[vs[i].repo] else 0) + vs[i].bytes];
    }
    assert vs[0..] == vs;
  }

  lemma {:induction false} WeightShrinks(vs: seq<Volume>, gone: set<string>, more: set<string>, repo: Option<string>)
    requires gone <= more
    ensures Weight(vs, more, repo) <= Weight(vs, gone, repo)
  {
    if vs != [] {
      WeightShrinks(vs[1..], gone, more, repo);
    }
  }

  lemma SparedStays(vs: seq<Volume>, out: seq<string>, name: string, i: nat, caps: Caps)
    requires i < |vs| && Spared(vs, out, i, caps)
    ensures Spared(vs, out + [name], i, caps)
  {
    WeightShrinks(vs, NamesOf(out), NamesOf(out + [name]), None);
    WeightShrinks(vs, NamesOf(out), NamesOf(out + [name]), Some(vs[i].repo));
  }

  lemma EvictsNone(vs: seq<Volume>, caps: Caps)
    ensures Evicts(vs, [], [], caps)
  {
  }

  lemma EvictOne(vs: seq<Volume>, out: seq<string>, at: seq<nat>, i: nat, caps: Caps)
    requires Evicts(vs, out, at, caps) && i < |vs| && (forall k :: 0 <= k < |at| ==> at[k] > i)
    requires vs[i].name !in caps.leased && Over(vs, vs[i], NamesOf(out), caps)
    ensures Evicts(vs, out + [vs[i].name], at + [i], caps)
  {
    var next := out + [vs[i].name];
    assert next[..|out|] == out;
    assert forall k :: 0 <= k < |out| ==> next[..k] == out[..k];
  }

  /** No volume goes for the caps while an older unleased one of its repository stays. */
  ghost predicate OldestOfRepo(vs: seq<Volume>, out: seq<string>, at: seq<nat>, caps: Caps) {
    forall i, k :: 0 <= i < |vs| && 0 <= k < |at| && at[k] < |vs| && i > at[k] && vs[i].name !in out && vs[i].name !in caps.leased ==>
      vs[i].repo != vs[at[k]].repo
  }

  /** From the oldest on, while a cap is exceeded. */
  method SecondPass(vs: seq<Volume>, caps: Caps) returns (out: seq<string>, ghost at: seq<nat>)
    requires DistinctNames(vs) && forall i :: 0 <= i < |vs| ==> vs[i].name != CARGO_HOME
    ensures Evicts(vs, out, at, caps)
    ensures forall i :: 0 <= i < |vs| ==> Spared(vs, out, i, caps)
    ensures OldestOfRepo(vs, out, at, caps)
  {
    EvictsNone(vs, caps);
    hide Weight, Evicts;
    out, at := [], [];
    var total, perRepo := SumUp(vs);
    assert NamesOf([]) == {};
    var i := |vs|;
    while i > 0
      invariant 0 <= i <= |vs|
      invariant Evicts(vs, out, at, caps) && |at| == |out| && forall k :: 0 <= k < |at| ==> at[k] >= i
      invariant total == Weight(vs, NamesOf(out), None)
      invariant forall k :: 0 <= k < |vs| ==> vs[k].repo in perRepo
      invariant forall r :: r in perRepo ==> perRepo[r] == Weight(vs, NamesOf(out), Some(r))
      invariant forall k :: i <= k < |vs| ==> Spared(vs, out, k, caps)
      invariant forall k, j :: i <= k < |vs| && 0 <= j < |at| && k > at[j] && vs[k].name !in out && vs[k].name !in caps.leased ==>
                  vs[k].repo != vs[at[j]].repo
    {
      i := i - 1;
      var v := vs[i];
      var repoOver := perRepo[v.repo] > caps.repo;
      if (total <= caps.total && !repoOver) || v.name in caps.leased {
        continue;
      }
      EvictStep(vs, out, at, i, caps);
      total := if total >= v.bytes then total - v.bytes else 0;
      var r := perRepo[v.repo];
      perRepo := perRepo[v.repo := if r >= v.bytes then r - v.bytes else 0];
      forall k | i + 1 <= k < |vs| ensures Spared(vs, out + [v.name], k, caps) {
        SparedStays(vs, out, v.name, k, caps);
      }
      forall k | i + 1 <= k < |vs| && vs[k].name !in out && vs[k].name !in caps.leased ensures vs[k].repo != v.repo {
        assert Spared(vs, out, k, caps);
      }
      out, at := out + [v.name], at + [i];
    }
  }

  lemma NotAgain(vs: seq<Volume>, out: seq<string>, at: seq<nat>, i: nat, caps: Caps)
    requires DistinctNames(vs) && Evicts(vs, out, at, caps) && i < |vs| && (forall k :: 0 <= k < |at| ==> at[k] > i)
    ensures vs[i].name !in out && NamesOf(out + [vs[i].name]) == NamesOf(out) + {vs[i].name}
  {
    hide Over;
    forall k | 0 <= k < |out| ensures out[k] != vs[i].name {
      assert vs[at[k]].name == out[k];
    }
  }

  lemma EvictStep(vs: seq<Volume>, out: seq<string>, at: seq<nat>, i: nat, caps: Caps)
    requires DistinctNames(vs) && forall k :: 0 <= k < |vs| ==> vs[k].name != CARGO_HOME
    requires Evicts(vs, out, at, caps) && i < |vs| && (forall k :: 0 <= k < |at| ==> at[k] > i)
    requires vs[i].name !in caps.leased && Over(vs, vs[i], NamesOf(out), caps)
    ensures Evicts(vs, out + [vs[i].name], at + [i], caps)
    ensures vs[i].name !in out
    ensures forall r :: Weight(vs, NamesOf(out + [vs[i].name]), r) == Weight(vs, NamesOf(out), r) - (if r.None? || r.value == vs[i].repo then vs[i].bytes else 0)
  {
    hide Weight, Over, Evicts;
    EvictOne(vs, out, at, i, caps);
    NotAgain(vs, out, at, i, caps);
    var gone := NamesOf(out);
    forall r ensures Weight(vs, gone + {vs[i].name}, r) == Weight(vs, gone, r) - (if r.None? || r.value == vs[i].repo then vs[i].bytes else 0) {
      WeightGone(vs, i, gone, r);
    }
  }

  // ── the plan ────────────────────────────────────────────────────────────────

  /** The volumes that are neither removed nor the cargo home. */
  ghost predicate Left(vols: seq<Volume>, plan: seq<string>, v: Volume) {
    v in vols && v.name !in plan && v.name != CARGO_HOME
  }

  /** What a plan must be: `stale` of its names are the first pass's, the rest the second's. */
  ghost predicate PlanOk(vols: seq<Volume>, plan: seq<string>, stale: nat, at: seq<nat>, caps: Caps) {
    var vs := Newest(vols);
    stale <= |plan| && plan[..stale] == StaleNames(vs, |vs|, caps) &&
    Evicts(Keep(vs, NamesOf(plan[..stale])), plan[stale..], at, caps) &&
    OldestOfRepo(Keep(vs, NamesOf(plan[..stale])), plan[stale..], at, caps) &&
    forall v :: Left(vols, plan, v) ==>
      v.name in caps.leased || (Weight(vols, NamesOf(plan), None) <= caps.total && Weight(vols, NamesOf(plan), Some(v.repo)) <= caps.repo)
  }

  lemma InNewest(vols: seq<Volume>, v: Volume)
    ensures v in Newest(vols) <==> v in vols && v.name != CARGO_HOME
  {
    NewestSorts(vols);
    assert v in Newest(vols) <==> v in multiset(Newest(vols));
    InNotCargo(vols, v);
  }

  lemma {:induction false} InNotCargo(vols: seq<Volume>, v: Volume)
    ensures v in multiset(NotCargo(vols)) <==> v in vols && v.name != CARGO_HOME
  {
    if vols != [] {
      InNotCargo(vols[1..], v);
      var head := if vols[0].name != CARGO_HOME then [vols[0]] else [];
      assert vols == [vols[0]] + vols[1..];
      assert multiset(NotCargo(vols)) == multiset(head) + multiset(NotCargo(vols[1..]));
    }
  }

  lemma {:induction false} NewestDistinct(vols: seq<Volume>)
    requires DistinctNames(vols)
    ensures DistinctNames(Newest(vols))
  {
    if vols != [] {
      NewestDistinct(vols[1..]);
      forall v | v in Newest(vols[1..]) ensures v.name != vols[0].name {
        InNewest(vols[1..], v);
      }
      if vols[0].name != CARGO_HOME {
        InsertDistinct(vols[0], Newest(vols[1..]));
      }
    }
  }

  lemma {:induction false} InsertDistinct(v: Volume, vs: seq<Volume>)
    requires DistinctNames(vs) && forall x :: x in vs ==> x.name != v.name
    ensures DistinctNames(Insert(v, vs)) && forall x :: x in Insert(v, vs) <==> x == v || x in vs
  {
    if vs != [] && vs[0].used > v.used {
      assert vs == [vs[0]] + vs[1..];
      InsertDistinct(v, vs[1..]);
      var r := Insert(v, vs[1..]);
      assert forall j :: 0 <= j < |r| ==> r[j] in r;
    }
  }

  /** The bytes left of the kept volumes are the bytes left of them all. */
  lemma LeftWeight(vols: seq<Volume>, first: seq<string>, second: seq<string>, repo: Option<string>)
    ensures Weight(Keep(Newest(vols), NamesOf(first)), NamesOf(second), repo) == Weight(vols, NamesOf(first + second), repo)
  {
    KeepWeight(Newest(vols), NamesOf(first), NamesOf(second), repo);
    assert NamesOf(first) + NamesOf(second) == NamesOf(first + second);
    NewestWeight(vols, NamesOf(first + second), repo);
  }

  /** The kept volumes, and who of them the second pass takes. */
  ghost function KeptOf(vols: seq<Volume>, plan: seq<string>, stale: nat): seq<Volume>
    requires stale <= |plan|
  {
    Keep(Newest(vols), NamesOf(plan[..stale]))
  }

  lemma KeptFacts(vols: seq<Volume>, plan: seq<string>, stale: nat)
    requires DistinctNames(vols) && stale <= |plan|
    ensures DistinctNames(KeptOf(vols, plan, stale)) && Descending(KeptOf(vols, plan, stale))
    ensures forall v :: v in KeptOf(vols, plan, stale) ==> v in vols && v.name != CARGO_HOME && v.name !in plan[..stale]
  {
    hide Newest, Keep;
    NewestSorts(vols);
    NewestDistinct(vols);
    KeepOrder(Newest(vols), NamesOf(plan[..stale]));
    forall v | v in KeptOf(vols, plan, stale) ensures v in vols && v.name != CARGO_HOME {
      InNewest(vols, v);
    }
  }

  /** A plan lists unleased volumes only, never the cargo home, and none twice. */
  lemma PlanLists(vols: seq<Volume>, plan: seq<string>, stale: nat, at: seq<nat>, caps: Caps)
    requires DistinctNames(vols) && PlanOk(vols, plan, stale, at, caps)
    ensures forall i, j :: 0 <= i < j < |plan| ==> plan[i] != plan[j]
    ensures forall n :: n in plan ==> n !in caps.leased && n != CARGO_HOME && exists i :: 0 <= i < |vols| && vols[i].name == n
  {
    hide Weight, Over, Newest, Keep, StaleNames, Stale;
    var vs, kept := Newest(vols), KeptOf(vols, plan, stale);
    NewestDistinct(vols);
    KeptFacts(vols, plan, stale);
    StaleAre(vs, |vs|, caps);
    forall k | 0 <= k < |plan|
      ensures plan[k] !in caps.leased && plan[k] != CARGO_HOME && exists i :: 0 <= i < |vols| && vols[i].name == plan[k]
      ensures k >= stale ==> at[k - stale] < |kept| && kept[at[k - stale]].name == plan[k] && plan[k] !in plan[..stale]
    {
      if k < stale {
        assert plan[k] == plan[..stale][k];
        assert plan[k] in StaleNames(vs, |vs|, caps);
        var i :| 0 <= i < |vs| && vs[i].name == plan[k];
        InNewest(vols, vs[i]);
      } else {
        assert plan[k] == plan[stale..][k - stale];
        assert kept[at[k - stale]] in kept;
      }
    }
    forall i, j | 0 <= i < j < |plan| ensures plan[i] != plan[j] {
      if j < stale {
        assert plan[..stale][i] == plan[i] && plan[..stale][j] == plan[j];
      } else if i < stale {
        assert plan[i] in plan[..stale];
      } else {
        assert at[i - stale] > at[j - stale];
      }
    }
  }

  /** How many unleased node_modules volumes of `repo` among the first `k` the plan leaves. */
  function NmLeftBy(vs: seq<Volume>, k: nat, repo: string, plan: seq<string>, caps: Caps): nat
    requires k <= |vs|
  {
    if k == 0 then 0
    else NmLeftBy(vs, k - 1, repo, plan, caps) +
         if IsNm(vs[k - 1]) && vs[k - 1].repo == repo && vs[k - 1].name !in caps.leased && vs[k - 1].name !in plan then 1 else 0
  }

  lemma {:induction false} NmLeftBound(vs: seq<Volume>, k: nat, repo: string, plan: seq<string>, caps: Caps)
    requires k <= |vs| && forall i :: 0 <= i < |vs| && Stale(vs, i, caps) && vs[i].name !in caps.leased ==> vs[i].name in plan
    ensures NmLeftBy(vs, k, repo, plan, caps) <= NmLeft(vs, k, repo, caps)
  {
    if k > 0 {
      NmLeftBound(vs, k - 1, repo, plan, caps);
    }
  }

  /** What a plan leaves: no unleased volume idle past the TTL, and at most `NM_KEEP` unleased node_modules
      volumes of each repository. */
  lemma PlanLeaves(vols: seq<Volume>, plan: seq<string>, stale: nat, at: seq<nat>, caps: Caps, repo: string)
    requires DistinctNames(vols) && PlanOk(vols, plan, stale, at, caps)
    ensures forall v :: Left(vols, plan, v) && v.name !in caps.leased ==> !Idle(v, caps)
    ensures var vs := Newest(vols); NmLeftBy(vs, |vs|, repo, plan, caps) <= NM_KEEP
  {
    hide Weight, Over, Newest, Keep, StaleNames, Evicts;
    var vs := Newest(vols);
    NewestDistinct(vols);
    StaleAre(vs, |vs|, caps);
    forall i | 0 <= i < |vs| && Stale(vs, i, caps) && vs[i].name !in caps.leased ensures vs[i].name in plan {
      assert vs[i].name in plan[..stale];
    }
    forall v | Left(vols, plan, v) && v.name !in caps.leased ensures !Idle(v, caps) {
      InNewest(vols, v);
      var i :| 0 <= i < |vs| && vs[i] == v;
      assert !Stale(vs, i, caps);
    }
    NmLeftBound(vs, |vs|, repo, plan, caps);
    NmKept(vs, |vs|, repo, caps);
  }

  /** The two passes. What the plan leaves that no floor leases is neither idle nor over a cap. */
  method EvictionPlan(vols: seq<Volume>, caps: Caps) returns (plan: seq<string>, ghost stale: nat, ghost at: seq<nat>)
    requires DistinctNames(vols)
    ensures PlanOk(vols, plan, stale, at, caps)
    ensures forall i, j :: 0 <= i < j < |plan| ==> plan[i] != plan[j]
    ensures forall n :: n in plan ==> n !in caps.leased && n != CARGO_HOME
    ensures forall v :: v in vols && v.name !in plan && v.name != CARGO_HOME && v.name !in caps.leased ==>
              !Idle(v, caps) && Weight(vols, NamesOf(plan), None) <= caps.total && Weight(vols, NamesOf(plan), Some(v.repo)) <= caps.repo
  {
    hide Weight, StaleNames, Newest;
    var vs := Newest(vols);
    var first := FirstPass(vs, caps);
    NewestSorts(vols);
    NewestDistinct(vols);
    KeepOrder(vs, NamesOf(first));
    var kept := Keep(vs, NamesOf(first));
    forall i | 0 <= i < |kept| ensures kept[i].name != CARGO_HOME {
      InNewest(vols, kept[i]);
    }
    var second;
    second, at := SecondPass(kept, caps);
    plan, stale := first + second, |first|;
    assert NamesOf(plan) == NamesOf(first) + NamesOf(second);
    forall v | Left(vols, plan, v) && v.name !in caps.leased
      ensures Weight(vols, NamesOf(plan), None) <= caps.total && Weight(vols, NamesOf(plan), Some(v.repo)) <= caps.repo
    {
      InNewest(vols, v);
      var i :| 0 <= i < |kept| && kept[i] == v;
      assert Spared(kept, second, i, caps);
      LeftWeight(vols, first, second, None);
      LeftWeight(vols, first, second, Some(v.repo));
    }
    PlanLists(vols, plan, stale, at, caps);
    PlanLeaves(vols, plan, stale, at, caps, "");
    forall v | v in vols && v.name !in plan && v.name != CARGO_HOME && v.name !in caps.leased
      ensures !Idle(v, caps) && Weight(vols, NamesOf(plan), None) <= caps.total && Weight(vols, NamesOf(plan), Some(v.repo)) <= caps.repo
    {
      assert Left(vols, plan, v);
    }
  }
}
