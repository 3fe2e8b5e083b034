/** In-flight elicitations, epochs and launches of a run, as one lock guards them. */
module Elicitation {
  import opened Names
  import opened Bytes
  import AskAnswer

  type Id = string
  type Run = string
  type Text = Bytes
  type Chan = nat
  type Listing = seq<(Id, nat)>

  datatype Entry = Entry(run: Run, epoch: nat, options: Option<seq<Text>>, chan: Chan)

  datatype Action = Accept | Decline | Cancel | Unknown

  datatype Message = Message(action: Action, response: Option<AskAnswer.Json>)

  /** `mail` holds what was sent on each reply channel; `nextChan` is the next channel to be made. */
  datatype Maps = Maps(
    pending: map<Id, Entry>, runIndex: map<Run, Listing>,
    cancelled: set<(Run, nat)>, suppressed: set<Id>, announced: set<Id>,
    workers: set<(Run, nat)>, runEpoch: map<Run, nat>,
    launchSeq: map<Run, nat>, activated: map<Run, nat>, inFlight: set<(Run, nat)>, tombstones: set<Run>,
    mail: map<Chan, seq<Message>>, nextChan: Chan)

  const EMPTY := Maps(map[], map[], {}, {}, {}, {}, map[], map[], map[], {}, {}, map[], 0)

  // ── lists of registrations ──────────────────────────────────────────────────

  function WithoutId(xs: Listing, id: Id): (r: Listing)
    ensures forall x :: x in r <==> x in xs && x.0 != id
  {
    if xs == [] then [] else (if xs[0].0 != id then [xs[0]] else []) + WithoutId(xs[1..], id)
  }

  function WithoutEpoch(xs: Listing, epoch: nat): (r: Listing)
    ensures forall x :: x in r <==> x in xs && x.1 != epoch
  {
    if xs == [] then [] else (if xs[0].1 != epoch then [xs[0]] else []) + WithoutEpoch(xs[1..], epoch)
  }

  function WithoutIdsOf(xs: Listing, epoch: nat, ids: set<Id>): (r: Listing)
    ensures forall x :: x in r <==> x in xs && (x.1 != epoch || x.0 !in ids)
  {
    if xs == [] then []
    else (if xs[0].1 != epoch || xs[0].0 !in ids then [xs[0]] else []) + WithoutIdsOf(xs[1..], epoch, ids)
  }

  function Listed(m: Maps, run: Run): Listing {
    if run in m.runIndex then m.runIndex[run] else []
  }

  /** An empty list is not kept. */
  function SetListed(m: Maps, run: Run, xs: Listing): map<Run, Listing> {
    if run !in m.runIndex then m.runIndex
    else if xs == [] then m.runIndex - {run}
    else m.runIndex[run := xs]
  }

  // ── registering and answering ───────────────────────────────────────────────

  const MSG_CAP := 0x2000
  const OPT_CAP := 512
  const LIST_CAP := 100
  const FREE_TEXT_CAP := 0x1_0000
  const MARKER: Text := [91, 116, 114, 117, 110, 99, 97, 116, 101, 100, 93] // "[truncated]"

  predicate Boundary(s: Text, i: nat) {
    i == 0 || i == |s| || (i < |s| && !Continuation(s[i]))
  }

  /** The largest character boundary no greater than `max`. */
  method MsgFloorAt(s: Text, max: nat) returns (floor: nat)
    ensures floor <= |s| && floor <= max && Boundary(s, floor)
    ensures forall i :: floor < i <= max && i <= |s| ==> !Boundary(s, i)
  {
    if |s| <= max {
      return |s|;
    }
    floor := max;
    while floor > 0 && !Boundary(s, floor)
      invariant floor <= max && forall i :: floor < i <= max ==> !Boundary(s, i)
    {
      floor := floor - 1;
    }
  }

  /** A character is read from its own bytes only. */
  lemma CharAlone(s: Text, k: nat)
    requires CharLength(s) <= k <= |s|
    ensures CharLength(s[..k]) == CharLength(s) || CharLength(s) == 0
  {
    if k > 0 {
      assert s[..k][0] == s[0];
    }
  }

  lemma InsideChar(s: Text, k: nat)
    requires 0 < k < CharLength(s)
    ensures !Boundary(s, k)
  {
  }

  /** Cut at a boundary, UTF-8 stays UTF-8. */
  lemma {:induction false} CutStaysText(s: Text, k: nat)
    requires Utf8(s) && k <= |s| && Boundary(s, k)
    ensures Utf8(s[..k]) && Utf8(s[k..])
    decreases |s|
  {
    if k == 0 {
      assert s[..0] == [] && s[0..] == s;
    } else {
      var n := CharLength(s);
      if k < n {
        InsideChar(s, k);
      }
      CharAlone(s, k);
      BoundaryAfter(s, n, k);
      hide CharLength, Boundary;
      CutStaysText(s[n..], k - n);
      assert s[..k][n..] == s[n..][..k - n];
      assert s[n..][k - n..] == s[k..];
    }
  }

  lemma BoundaryAfter(s: Text, n: nat, k: nat)
    requires n <= k <= |s| && Boundary(s, k)
    ensures Boundary(s[n..], k - n)
  {
  }

  /** Four bytes back there is a boundary: at most three bytes of text are lost to the cut. */
  lemma {:induction false} BoundaryNear(s: Text, max: nat)
    requires Utf8(s) && max < |s|
    ensures exists i :: 0 <= i <= max && max - i <= 3 && Boundary(s, i)
    decreases |s|
  {
    var n := CharLength(s);
    if max < n {
      assert Boundary(s, 0);
    } else {
      BoundaryNear(s[n..], max - n);
      var i :| 0 <= i <= max - n && max - n - i <= 3 && Boundary(s[n..], i);
      if i == 0 {
        assert n < |s| ==> s[n..][0] == s[n] && CharLength(s[n..]) > 0;
        assert Boundary(s, n);
      } else {
        assert Boundary(s, i + n);
      }
    }
  }

  function KeptOptions(options: seq<Text>): (r: seq<Text>)
    ensures forall o :: o in r <==> o in options && o != [] && |o| <= OPT_CAP
  {
    if options == [] then []
    else (if options[0] != [] && |options[0]| <= OPT_CAP then [options[0]] else []) + KeptOptions(options[1..])
  }

  function ShownOptions(options: Option<seq<Text>>): Option<seq<Text>> {
    match options
    case None => None
    case Some(os) => var kept := KeptOptions(os); Some(if |kept| > LIST_CAP then kept[..LIST_CAP] else kept)
  }

  /** The reply channel of a new registration, or `None` when its epoch was cancelled. */
  function Register(m: Maps, run: Run, epoch: nat, id: Id, options: Option<seq<Text>>): (Maps, Option<Chan>) {
    if (run, epoch) in m.cancelled then (m, None)
    else
      (m.(pending := m.pending[id := Entry(run, epoch, ShownOptions(options), m.nextChan)],
          runIndex := m.runIndex[run := Listed(m, run) + [(id, epoch)]],
          mail := m.mail[m.nextChan := []], nextChan := m.nextChan + 1),
       Some(m.nextChan))
  }

  function Remove(m: Maps, run: Run, id: Id): Maps {
    m.(pending := m.pending - {id}, announced := m.announced - {id}, runIndex := SetListed(m, run, WithoutId(Listed(m, run), id)))
  }

  datatype Delivery = Delivered | WorkerGone | NotFound | WrongRun | BadAction | BadResponse

  /** Whether an answer fits the question shown. */
  predicate Answers(e: Entry, action: Action, response: Option<AskAnswer.Json>) {
    action.Accept? ==>
      response.Some? && response.value.JText? &&
      if e.options.Some? then response.value.text in e.options.value else |response.value.text| <= FREE_TEXT_CAP
  }

  function Refusal(m: Maps, run: Run, id: Id, action: Action, response: Option<AskAnswer.Json>): Option<Delivery> {
    if id !in m.pending then Some(NotFound)
    else if m.pending[id].run != run then Some(WrongRun)
    else if action.Unknown? then Some(BadAction)
    else if !Answers(m.pending[id], action, response) then Some(BadResponse)
    else None
  }

  function Send(mail: map<Chan, seq<Message>>, chan: Chan, msg: Message): map<Chan, seq<Message>> {
    if chan in mail then mail[chan := mail[chan] + [msg]] else mail[chan := [msg]]
  }

  /** `listening`: whether the worker still holds its end of the channel. */
  function Deliver(m: Maps, run: Run, id: Id, action: Action, response: Option<AskAnswer.Json>, listening: bool): (Maps, Delivery) {
    var no := Refusal(m, run, id, action, response);
    if no.Some? then (m, no.value)
    else
      var u := Remove(m, run, id);
      if listening then (u.(mail := Send(m.mail, m.pending[id].chan, Message(action, response))), Delivered) else (u, WorkerGone)
  }

  // ── epochs ──────────────────────────────────────────────────────────────────

  ghost function OfEpoch(m: Maps, run: Run, epoch: nat): set<Id> {
    set id | id in m.pending && m.pending[id].run == run && m.pending[id].epoch == epoch
  }

  const CANCELS: Message := Message(Action.Cancel, None)

  ghost function CancelMail(m: Maps, ids: set<Id>): map<Chan, seq<Message>> {
    map c | c in m.mail :: if exists id :: id in ids && id in m.pending && m.pending[id].chan == c then m.mail[c] + [CANCELS] else m.mail[c]
  }

  ghost function CancelEpoch(m: Maps, run: Run, epoch: nat): Maps {
    var ids := OfEpoch(m, run, epoch);
    m.(cancelled := m.cancelled + {(run, epoch)}, pending := m.pending - ids,
       mail := CancelMail(m, ids),
       suppressed := m.suppressed + (ids - m.announced), announced := m.announced - ids,
       runIndex := SetListed(m, run, WithoutIdsOf(Listed(m, run), epoch, ids)))
  }

  function CurrentEpoch(m: Maps, run: Run): nat {
    if run in m.runEpoch then m.runEpoch[run] else 0
  }

  /** As its callers guard it: only the run's current epoch, and only if it has one. */
  ghost function CancelCurrent(m: Maps, run: Run): Maps {
    if CurrentEpoch(m, run) > 0 then CancelEpoch(m, run, CurrentEpoch(m, run)) else m
  }

  function NextEpoch(m: Maps, run: Run): (Maps, nat) {
    var e := CurrentEpoch(m, run) + 1;
    (m.(runEpoch := m.runEpoch[run := e]), e)
  }

  predicate HasWorker(workers: set<(Run, nat)>, run: Run) {
    exists w | w in workers :: w.0 == run
  }

  function IdsOf(xs: Listing, epoch: nat): set<Id> {
    set x | x in xs && x.1 == epoch :: x.0
  }

  /** A worker's turn is over: its registrations go, and with the run's last worker its epochs. */
  function CleanupRun(m: Maps, run: Run, epoch: nat, seq_: nat): Maps {
    var workers := m.workers - {(run, seq_)};
    var last := !HasWorker(workers, run);
    m.(workers := workers, pending := m.pending - IdsOf(Listed(m, run), epoch),
       runIndex := SetListed(m, run, WithoutEpoch(Listed(m, run), epoch)),
       cancelled := if last then set c | c in m.cancelled && c.0 != run else m.cancelled - {(run, epoch)},
       runEpoch := if last then m.runEpoch - {run} else m.runEpoch)
  }

  // ── launches ────────────────────────────────────────────────────────────────

  function CurrentLaunch(m: Maps, run: Run): nat {
    if run in m.launchSeq then m.launchSeq[run] else 0
  }

  function Advance(m: Maps, run: Run): Maps {
    m.(launchSeq := m.launchSeq[run := CurrentLaunch(m, run) + 1])
  }

  /** The counter put back, as a failed dispatch would: nothing checks that it held this value before. */
  function Restore(m: Maps, run: Run, s: nat): Maps {
    m.(launchSeq := m.launchSeq[run := s])
  }

  function BeginLaunch(m: Maps, run: Run, tracks: bool): (Maps, nat) {
    var a := Advance(m, run);
    var s := CurrentLaunch(a, run);
    (a.(workers := if tracks then m.workers + {(run, s)} else m.workers, tombstones := m.tombstones - {run}, activated := m.activated - {run}), s)
  }

  function Tombstone(m: Maps, run: Run): Maps {
    m.(tombstones := m.tombstones + {run})
  }

  predicate HasActivated(m: Maps, run: Run, s: nat) {
    run in m.activated && m.activated[run] >= s
  }

  /** The epoch a dispatched task runs under, or `None` when it must be dropped. */
  function TryActivate(m: Maps, run: Run, s: nat, acp: bool): (Maps, Option<nat>) {
    if s == 0 || run in m.tombstones || s < CurrentLaunch(m, run) then (m, None)
    else
      var was := if run in m.activated then m.activated[run] else 0;
      var u := m.(activated := m.activated[run := if was < s then s else was], inFlight := m.inFlight + {(run, s)});
      if acp then
        var (v, e) := NextEpoch(u.(workers := u.workers + {(run, s)}), run);
        (v, Some(e))
      else (u, Some(0))
  }

  /** The bus consumer first asks whether this launch ran already. */
  function BusTake(m: Maps, run: Run, s: nat, acp: bool): (Maps, Option<nat>) {
    if HasActivated(m, run, s) then (m, None) else TryActivate(m, run, s, acp)
  }

  function ClearInFlight(m: Maps, run: Run, s: nat): Maps {
    m.(inFlight := m.inFlight - {(run, s)})
  }

  function ResetActivation(m: Maps, run: Run, s: nat): Maps {
    var u := ClearInFlight(m, run, s);
    if run in m.activated && m.activated[run] == s then u.(activated := m.activated - {run}) else u
  }

  /** A worker's guard: the marker goes unless the bus consumer owns it, then the worker is cleaned up. */
  function DropGuard(m: Maps, run: Run, epoch: nat, launch: nat, deferred: bool): Maps {
    CleanupRun(if deferred then m else ClearInFlight(m, run, launch), run, epoch, launch)
  }

  // ── one command at a time ───────────────────────────────────────────────────

  datatype Command =
    | DoRegister(run: Run, epoch: nat, id: Id, options: Option<seq<Text>>)
    | DoRemove(run: Run, id: Id)
    | DoDeliver(run: Run, id: Id, action: Action, response: Option<AskAnswer.Json>, listening: bool)
    | DoCancel(run: Run)
    | DoNextEpoch(run: Run)
    | DoCleanup(run: Run, epoch: nat, launch: nat)
    | DoLaunch(run: Run, tracks: bool)
    | DoAdvance(run: Run)
    | DoRestore(run: Run, launch: nat)
    | DoTombstone(run: Run)
    | DoTake(run: Run, launch: nat, acp: bool)
    | DoClear(run: Run, launch: nat)
    | DoReset(run: Run, launch: nat)
    | DoAnnounce(id: Id)

  ghost function Step(m: Maps, c: Command): Maps {
    match c
    case DoRegister(run, epoch, id, options) => Register(m, run, epoch, id, options).0
    case DoRemove(run, id) => Remove(m, run, id)
    case DoDeliver(run, id, action, response, listening) => Deliver(m, run, id, action, response, listening).0
    case DoCancel(run) => CancelCurrent(m, run)
    case DoNextEpoch(run) => NextEpoch(m, run).0
    case DoCleanup(run, epoch, launch) => CleanupRun(m, run, epoch, launch)
    case DoLaunch(run, tracks) => BeginLaunch(m, run, tracks).0
    case DoAdvance(run) => Advance(m, run)
    case DoRestore(run, launch) => Restore(m, run, launch)
    case DoTombstone(run) => Tombstone(m, run)
    case DoTake(run, launch, acp) => BusTake(m, run, launch, acp).0
    case DoClear(run, launch) => ClearInFlight(m, run, launch)
    case DoReset(run, launch) => ResetActivation(m, run, launch)
    case DoAnnounce(id) => m.(announced := m.announced + {id})
  }

  ghost function After(m: Maps, cs: seq<Command>): Maps {
    if cs == [] then m else Step(After(m, cs[..|cs| - 1]), cs[|cs| - 1])
  }

  /** Ids are new, and each is removed under its own run. */
  ghost predicate Legal(m: Maps, issued: set<Id>, c: Command) {
    (c.DoRegister? ==> c.id !in issued) &&
    (c.DoRemove? ==> c.id in m.pending ==> m.pending[c.id].run == c.run)
  }

  ghost function Issued(cs: seq<Command>): set<Id> {
    set i | 0 <= i < |cs| && cs[i].DoRegister? :: cs[i].id
  }

  ghost predicate LegalRun(cs: seq<Command>) {
    forall k :: 0 <= k < |cs| ==> Legal(After(EMPTY, cs[..k]), Issued(cs[..k]), cs[k])
  }

  // ── the two indexes agree ───────────────────────────────────────────────────

  ghost predicate Distinct(xs: Listing) {
    forall i, j :: 0 <= i < j < |xs| ==> xs[i].0 != xs[j].0
  }

  ghost predicate PendingListed(m: Maps) {
    forall id :: id in m.pending ==> (id, m.pending[id].epoch) in Listed(m, m.pending[id].run)
  }

  ghost predicate ListedPending(m: Maps) {
    forall run, x :: run in m.runIndex && x in m.runIndex[run] ==> x.0 in m.pending && m.pending[x.0].run == run && m.pending[x.0].epoch == x.1
  }

  ghost predicate ListsTidy(m: Maps) {
    forall run :: run in m.runIndex ==> m.runIndex[run] != [] && Distinct(m.runIndex[run])
  }

  /** Every pending registration is listed under its run, everything listed is pending, each once, and no empty
      list is kept. */
  ghost predicate Agree(m: Maps) {
    PendingListed(m) && ListedPending(m) && ListsTidy(m)
  }

  lemma ConsDistinct(x: (Id, nat), rest: Listing)
    requires Distinct(rest) && forall y :: y in rest ==> y.0 != x.0
    ensures Distinct([x] + rest)
  {
    var xs := [x] + rest;
    forall i, j | 0 <= i < j < |xs| ensures xs[i].0 != xs[j].0 {
      assert xs[j] == rest[j - 1];
    }
  }

  lemma TailDistinct(xs: Listing)
    requires xs != [] && Distinct(xs)
    ensures Distinct(xs[1..]) && forall x :: x in xs[1..] ==> x.0 != xs[0].0
  {
  }

  /** What any of the three removals keeps is still listed once. */
  lemma {:induction false} WithoutDistinct(xs: Listing, id: Id, epoch: nat, ids: set<Id>)
    requires Distinct(xs)
    ensures Distinct(WithoutId(xs, id)) && Distinct(WithoutEpoch(xs, epoch)) && Distinct(WithoutIdsOf(xs, epoch, ids))
  {
    if xs != [] {
      TailDistinct(xs);
      WithoutDistinct(xs[1..], id, epoch, ids);
      hide Distinct;
      var a, b, c := WithoutId(xs[1..], id), WithoutEpoch(xs[1..], epoch), WithoutIdsOf(xs[1..], epoch, ids);
      ConsDistinct(xs[0], a);
      ConsDistinct(xs[0], b);
      ConsDistinct(xs[0], c);
      assert [] + a == a && [] + b == b && [] + c == c;
    }
  }

  /** Some of a run's registrations are taken out of both indexes at once; `xs` is what the run keeps. */
  ghost predicate Takes(m: Maps, run: Run, ids: set<Id>, xs: Listing, u: Maps) {
    u.pending == m.pending - ids && u.runIndex == SetListed(m, run, xs) && Distinct(xs) &&
    (forall id :: id in ids && id in m.pending ==> m.pending[id].run == run) &&
    forall x :: x in xs <==> x in Listed(m, run) && x.0 !in ids
  }

  lemma TakesPending(m: Maps, run: Run, ids: set<Id>, xs: Listing, u: Maps)
    requires PendingListed(m) && Takes(m, run, ids, xs, u)
    ensures PendingListed(u)
  {
    hide Distinct;
    forall id | id in u.pending ensures (id, u.pending[id].epoch) in Listed(u, u.pending[id].run) {
      assert (id, m.pending[id].epoch) in Listed(m, m.pending[id].run);
    }
  }

  lemma TakesListed(m: Maps, run: Run, ids: set<Id>, xs: Listing, u: Maps)
    requires ListedPending(m) && Takes(m, run, ids, xs, u)
    ensures ListedPending(u)
  {
    hide Distinct;
    forall r, x | r in u.runIndex && x in u.runIndex[r] ensures x.0 in u.pending && u.pending[x.0].run == r && u.pending[x.0].epoch == x.1 {
      assert r in m.runIndex && x in m.runIndex[r];
    }
  }

  lemma AgreeTakes(m: Maps, run: Run, ids: set<Id>, xs: Listing, u: Maps)
    requires Agree(m) && Takes(m, run, ids, xs, u)
    ensures Agree(u)
  {
    hide PendingListed, ListedPending, Distinct;
    TakesPending(m, run, ids, xs, u);
    TakesListed(m, run, ids, xs, u);
  }

  lemma AppendDistinct(xs: Listing, x: (Id, nat))
    requires Distinct(xs) && forall y :: y in xs ==> y.0 != x.0
    ensures Distinct(xs + [x])
  {
    forall i, j | 0 <= i < j < |xs + [x]| ensures (xs + [x])[i].0 != (xs + [x])[j].0 {
      assert xs[i] in xs;
    }
  }

  lemma RegisterFresh(m: Maps, run: Run, epoch: nat, id: Id, options: Option<seq<Text>>)
    requires Agree(m) && (run, epoch) !in m.cancelled && id !in m.pending
    ensures Agree(Register(m, run, epoch, id, options).0)
  {
    hide ShownOptions, Distinct;
    var u := Register(m, run, epoch, id, options).0;
    var xs := Listed(m, run);
    AppendEmpty(xs, (id, epoch));
    assert ListsTidy(u) by {
      AppendDistinct(xs, (id, epoch));
    }
    RegisterListed(m, run, epoch, id, options);
    hide ListsTidy;
    forall k | k in u.pending ensures (k, u.pending[k].epoch) in Listed(u, u.pending[k].run) {
      if k != id {
        assert (k, m.pending[k].epoch) in Listed(m, m.pending[k].run);
      }
    }
  }

  lemma RegisterListed(m: Maps, run: Run, epoch: nat, id: Id, options: Option<seq<Text>>)
    requires ListedPending(m) && (run, epoch) !in m.cancelled && id !in m.pending
    ensures ListedPending(Register(m, run, epoch, id, options).0)
  {
    hide ShownOptions;
    var u := Register(m, run, epoch, id, options).0;
    AppendEmpty(Listed(m, run), (id, epoch));
    forall r, x | r in u.runIndex && x in u.runIndex[r] ensures x.0 in u.pending && u.pending[x.0].run == r && u.pending[x.0].epoch == x.1 {
      if x != (id, epoch) || r != run {
        assert r in m.runIndex && x in m.runIndex[r];
      }
    }
  }

  lemma AppendEmpty(xs: Listing, x: (Id, nat))
    ensures Distinct([]) && x in xs + [x] && xs + [x] != [] && forall y :: y in xs + [x] <==> y in xs || y == x
  {
    assert (xs + [x])[|xs|] == x;
  }

  lemma RegisterTwice(m: Maps, run: Run, epoch: nat, id: Id, options: Option<seq<Text>>)
    requires Agree(m) && (run, epoch) !in m.cancelled && id in m.pending
    ensures !Agree(Register(m, run, epoch, id, options).0)
  {
    hide ShownOptions;
    var u := Register(m, run, epoch, id, options).0;
    var was := m.pending[id];
    var x := (id, was.epoch);
    assert x in Listed(m, was.run);
    if was.run == run {
      var xs := Listed(m, run);
      var i :| 0 <= i < |xs| && xs[i] == x;
      var ys := u.runIndex[run];
      assert ys[i].0 == ys[|xs|].0;
      assert !Distinct(ys);
    } else {
      assert x in u.runIndex[was.run];
      assert u.pending[id].run != was.run;
    }
  }

  /** A new registration keeps the indexes in agreement exactly when its id is not pending. */
  lemma RegisterAgrees(m: Maps, run: Run, epoch: nat, id: Id, options: Option<seq<Text>>)
    requires Agree(m) && (run, epoch) !in m.cancelled
    ensures Agree(Register(m, run, epoch, id, options).0) <==> id !in m.pending
  {
    hide Agree, Register;
    if id in m.pending {
      RegisterTwice(m, run, epoch, id, options);
    } else {
      RegisterFresh(m, run, epoch, id, options);
    }
  }

  lemma RemoveElsewhere(m: Maps, run: Run, id: Id)
    requires Agree(m) && id in m.pending && m.pending[id].run != run
    ensures !Agree(Remove(m, run, id))
  {
    hide Distinct;
    var u := Remove(m, run, id);
    var r := m.pending[id].run;
    assert (id, m.pending[id].epoch) in Listed(m, r);
    assert (id, m.pending[id].epoch) in u.runIndex[r];
    assert !ListedPending(u);
  }

  /** A removal keeps them in agreement exactly when the id is not pending under another run. */
  lemma RemoveAgrees(m: Maps, run: Run, id: Id)
    requires Agree(m)
    ensures Agree(Remove(m, run, id)) <==> (id in m.pending ==> m.pending[id].run == run)
  {
    hide Agree, Remove;
    if id in m.pending && m.pending[id].run != run {
      RemoveElsewhere(m, run, id);
    } else {
      RemoveHere(m, run, id);
    }
  }

  lemma RemoveHere(m: Maps, run: Run, id: Id)
    requires Agree(m) && (id in m.pending ==> m.pending[id].run == run)
    ensures Agree(Remove(m, run, id))
  {
    TidyList(m, run);
    hide *;
    WithoutDistinct(Listed(m, run), id, 0, {});
    RemoveTakes(m, run, id);
    AgreeTakes(m, run, {id}, WithoutId(Listed(m, run), id), Remove(m, run, id));
  }

  lemma RemoveTakes(m: Maps, run: Run, id: Id)
    requires (id in m.pending ==> m.pending[id].run == run) && Distinct(WithoutId(Listed(m, run), id))
    ensures Takes(m, run, {id}, WithoutId(Listed(m, run), id), Remove(m, run, id))
  {
    hide Distinct, Listed, SetListed;
  }

  lemma TidyList(m: Maps, run: Run)
    requires Agree(m)
    ensures Distinct(Listed(m, run))
  {
  }

  /** What is listed for an epoch is what is pending for it. */
  lemma EpochListed(m: Maps, run: Run, epoch: nat)
    requires Agree(m)
    ensures IdsOf(Listed(m, run), epoch) == OfEpoch(m, run, epoch)
    ensures forall x :: x in Listed(m, run) ==> (x.0 in OfEpoch(m, run, epoch) <==> x.1 == epoch)
  {
    hide Distinct;
    forall id | id in OfEpoch(m, run, epoch) ensures id in IdsOf(Listed(m, run), epoch) {
      assert (id, epoch) in Listed(m, run);
    }
  }

  lemma CancelAgrees(m: Maps, run: Run, epoch: nat)
    requires Agree(m)
    ensures Agree(CancelEpoch(m, run, epoch))
  {
    var ids := OfEpoch(m, run, epoch);
    TidyList(m, run);
    EpochListed(m, run, epoch);
    hide Agree, Distinct, CancelMail;
    WithoutDistinct(Listed(m, run), "", epoch, ids);
    AgreeTakes(m, run, ids, WithoutIdsOf(Listed(m, run), epoch, ids), CancelEpoch(m, run, epoch));
  }

  lemma CleanupAgrees(m: Maps, run: Run, epoch: nat, launch: nat)
    requires Agree(m)
    ensures Agree(CleanupRun(m, run, epoch, launch))
  {
    TidyList(m, run);
    EpochListed(m, run, epoch);
    hide Agree, Distinct, HasWorker;
    WithoutDistinct(Listed(m, run), "", epoch, {});
    AgreeTakes(m, run, OfEpoch(m, run, epoch), WithoutEpoch(Listed(m, run), epoch), CleanupRun(m, run, epoch, launch));
  }
}
