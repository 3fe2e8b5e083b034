/** What holds of the elicitation maps over any sequence of locked steps. */
module ElicitationRuns {
  import opened Names
  import AskAnswer
  import opened Elicitation

  // ── steps that leave epochs and launches alone ──────────────────────────────

  predicate Talks(c: Command) {
    c.DoRegister? || c.DoRemove? || c.DoDeliver? || c.DoAnnounce?
  }

  predicate SameRuns(m: Maps, u: Maps) {
    u.cancelled == m.cancelled && u.workers == m.workers && u.runEpoch == m.runEpoch && u.launchSeq == m.launchSeq &&
    u.activated == m.activated && u.inFlight == m.inFlight && u.tombstones == m.tombstones
  }

  lemma TalkStep(m: Maps, c: Command)
    requires Talks(c)
    ensures SameRuns(m, Step(m, c))
  {
    hide ShownOptions, Answers, SetListed, WithoutId, Send, Refusal, Listed;
    match c
    case DoRegister(_, _, _, _) =>
    case DoRemove(_, _) =>
    case DoDeliver(_, _, _, _, _) =>
    case _ =>
  }

  // ── one message per channel ─────────────────────────────────────────────────

  /** Every channel got at most one message; a pending registration's got none yet, and is its own. */
  ghost predicate MailOk(m: Maps) {
    (forall c :: c in m.mail ==> c < m.nextChan && |m.mail[c]| <= 1) &&
    (forall id :: id in m.pending ==> m.pending[id].chan in m.mail && m.mail[m.pending[id].chan] == []) &&
    forall id, x :: id in m.pending && x in m.pending && id != x ==> m.pending[id].chan != m.pending[x].chan
  }

  lemma CancelMailOk(m: Maps, run: Run, epoch: nat)
    requires MailOk(m)
    ensures MailOk(CancelEpoch(m, run, epoch))
    ensures forall id :: id in OfEpoch(m, run, epoch) ==> CancelEpoch(m, run, epoch).mail[m.pending[id].chan] == [CANCELS]
    ensures forall c :: c in m.mail && (forall id :: id in OfEpoch(m, run, epoch) ==> m.pending[id].chan != c) ==>
              CancelEpoch(m, run, epoch).mail[c] == m.mail[c]
  {
  }

  /** An answer reaches the channel of the question it is for, which had none, and the question is no longer pending;
      no other channel hears of it. */
  lemma DeliverReaches(m: Maps, run: Run, id: Id, action: Action, response: Option<AskAnswer.Json>, listening: bool)
    requires MailOk(m)
    ensures MailOk(Deliver(m, run, id, action, response, listening).0)
    ensures var (u, d) := Deliver(m, run, id, action, response, listening);
            (d.Delivered? <==> id in m.pending && m.pending[id].run == run && !action.Unknown? && Answers(m.pending[id], action, response) && listening) &&
            (d.Delivered? ==> id !in u.pending && m.mail[m.pending[id].chan] == [] && u.mail == m.mail[m.pending[id].chan := [Message(action, response)]])
    ensures var (u, d) := Deliver(m, run, id, action, response, listening);
            !d.Delivered? && !d.WorkerGone? ==> u == m
    ensures var d := Deliver(m, run, id, action, response, listening).1;
            (d.Delivered? || d.WorkerGone?) && action.Accept? ==>
              response.Some? && response.value.JText? &&
              match m.pending[id].options
              case Some(os) => response.value.text in os
              case None => |response.value.text| <= 0x1_0000
    ensures var d := Deliver(m, run, id, action, response, listening).1;
            d.BadResponse? <==>
              id in m.pending && m.pending[id].run == run && action.Accept? &&
              (response.None? || !response.value.JText? ||
               match m.pending[id].options
               case Some(os) => response.value.text !in os
               case None => |response.value.text| > 0x1_0000)
  {
    var (u, d) := Deliver(m, run, id, action, response, listening);
    if d.Delivered? {
      assert [] + [Message(action, response)] == [Message(action, response)];
    }
  }

  predicate IsOneOf(response: Option<AskAnswer.Json>, options: seq<Text>) {
    response.Some? && response.value.JText? && response.value.text in options && 1 <= |response.value.text| <= 512
  }

  /** What is accepted of a question that was registered with options is one of those options, not empty and
      of at most 512 bytes; of up to 100 options each such one is accepted; a decline and a cancel need no
      response. */
  lemma AcceptedOption(m: Maps, run: Run, epoch: nat, id: Id, options: seq<Text>, action: Action, response: Option<AskAnswer.Json>, listening: bool)
    requires (run, epoch) !in m.cancelled
    ensures var d := Deliver(Register(m, run, epoch, id, Some(options)).0, run, id, action, response, listening).1;
            (d.Delivered? || d.WorkerGone?) && action.Accept? ==> IsOneOf(response, options)
    ensures var d := Deliver(Register(m, run, epoch, id, Some(options)).0, run, id, action, response, listening).1;
            action.Decline? || action.Cancel? || (action.Accept? && |options| <= 100 && IsOneOf(response, options)) ==>
              d == if listening then Delivered else WorkerGone
  {
    KeptFewer(options);
  }

  lemma {:induction false} KeptFewer(options: seq<Text>)
    ensures |KeptOptions(options)| <= |options|
  {
    if options != [] {
      KeptFewer(options[1..]);
    }
  }

  // ── epochs ──────────────────────────────────────────────────────────────────

  /** Only epochs that were allocated are cancelled. */
  ghost predicate EpochsOk(m: Maps) {
    forall c :: c in m.cancelled ==> 1 <= c.1 <= CurrentEpoch(m, c.0)
  }

  /** A new epoch is above every cancelled one. */
  lemma NextEpochLive(m: Maps, run: Run, e: nat)
    requires EpochsOk(m) && (run, e) in m.cancelled
    ensures e < NextEpoch(m, run).1 && (run, NextEpoch(m, run).1) !in m.cancelled
  {
    var c := (run, NextEpoch(m, run).1);
    assert c in m.cancelled ==> c.1 <= CurrentEpoch(m, c.0);
  }

  /** The one step that forgets a cancelled epoch: its own cleanup, or that of the run's last worker. */
  ghost predicate Forgets(m: Maps, c: Command, run: Run, e: nat) {
    c.DoCleanup? && c.run == run && (c.epoch == e || !HasWorker(m.workers - {(run, c.launch)}, run))
  }

  lemma CancelledStays(m: Maps, c: Command, run: Run, e: nat)
    requires (run, e) in m.cancelled
    ensures (run, e) in Step(m, c).cancelled <==> !Forgets(m, c, run, e)
  {
    hide Register, Remove, Deliver, HasWorker, CancelMail, WithoutIdsOf, WithoutEpoch, SetListed, OfEpoch, IdsOf, Listed;
    if Talks(c) {
      TalkStep(m, c);
    } else {
      match c
      case DoCancel(_) =>
      case DoCleanup(_, _, _) =>
      case DoTake(_, _, _) =>
      case _ =>
    }
  }

  ghost predicate NeverForgets(m: Maps, cs: seq<Command>, run: Run, e: nat) {
    forall k :: 0 <= k < |cs| ==> !Forgets(After(m, cs[..k]), cs[k], run, e)
  }

  /** A cancelled epoch registers nothing until it, or the run's last worker, is cleaned up. */
  lemma {:induction false} RefusedThroughout(m: Maps, cs: seq<Command>, run: Run, e: nat, id: Id, options: Option<seq<Text>>)
    requires (run, e) in m.cancelled && NeverForgets(m, cs, run, e)
    ensures (run, e) in After(m, cs).cancelled
    ensures Register(After(m, cs), run, e, id, options) == (After(m, cs), None)
  {
    if cs != [] {
      var k := |cs| - 1;
      forall i | 0 <= i < k ensures !Forgets(After(m, cs[..k][..i]), cs[..k][i], run, e) {
        assert cs[..k][..i] == cs[..i];
      }
      RefusedThroughout(m, cs[..k], run, e, id, options);
      CancelledStays(After(m, cs[..k]), cs[k], run, e);
    }
  }

  // ── launches ────────────────────────────────────────────────────────────────

  /** A launch that was superseded, or whose run was tombstoned when it was the latest. */
  predicate Dead(m: Maps, run: Run, s: nat) {
    s < CurrentLaunch(m, run) || (run in m.tombstones && s <= CurrentLaunch(m, run))
  }

  /** The one step that makes a dead launch runnable: the counter is put back to a value below it, or to
      its own while the run has no tombstone. */
  predicate Revives(m: Maps, c: Command, run: Run, s: nat) {
    c.DoRestore? && c.run == run && (c.launch < s || (c.launch == s && run !in m.tombstones))
  }

  lemma DeadStays(m: Maps, c: Command, run: Run, s: nat)
    requires Dead(m, run, s)
    ensures Dead(Step(m, c), run, s) <==> !Revives(m, c, run, s)
  {
    hide Register, Remove, Deliver, HasWorker, CancelMail, WithoutIdsOf, WithoutEpoch, SetListed, OfEpoch, IdsOf, Listed;
    if Talks(c) {
      TalkStep(m, c);
    } else {
      match c
      case DoCancel(_) =>
      case DoCleanup(_, _, _) =>
      case DoTake(_, _, _) =>
      case _ =>
    }
  }

  ghost predicate NeverRevives(m: Maps, cs: seq<Command>, run: Run, s: nat) {
    forall k :: 0 <= k < |cs| ==> !Revives(After(m, cs[..k]), cs[k], run, s)
  }

  /** A task of a dead launch is never run, whatever is launched, cancelled or cleaned up since, unless the
      counter is put back below it. */
  lemma {:induction false} DeadNeverRuns(m: Maps, cs: seq<Command>, run: Run, s: nat, acp: bool)
    requires Dead(m, run, s) && NeverRevives(m, cs, run, s)
    ensures BusTake(After(m, cs), run, s, acp) == (After(m, cs), None)
  {
    DeadAfter(m, cs, run, s);
  }

  lemma {:induction false} DeadAfter(m: Maps, cs: seq<Command>, run: Run, s: nat)
    requires Dead(m, run, s) && NeverRevives(m, cs, run, s)
    ensures Dead(After(m, cs), run, s)
  {
    if cs != [] {
      var k := |cs| - 1;
      forall i | 0 <= i < k ensures !Revives(After(m, cs[..k][..i]), cs[..k][i], run, s) {
        assert cs[..k][..i] == cs[..i];
      }
      DeadAfter(m, cs[..k], run, s);
      DeadStays(After(m, cs[..k]), cs[k], run, s);
    }
  }

  /** Put back so far, the counter lets a superseded launch run that these maps did not activate since. */
  lemma RestoredRuns(m: Maps, run: Run, s: nat, low: nat, acp: bool)
    requires s > 0 && low <= s && run !in m.tombstones && !HasActivated(m, run, s)
    ensures BusTake(Restore(m, run, low), run, s, acp).1.Some?
  {
  }

  /** Every launch up to a cancel is dead from then on. */
  lemma CancelKills(m: Maps, run: Run, s: nat)
    requires s <= CurrentLaunch(m, run)
    ensures Dead(Tombstone(m, run), run, s) && Dead(Advance(Tombstone(m, run), run), run, s) && Dead(Advance(m, run), run, s)
  {
  }

  /** Zero is never a launch: what begins one gets a number above all before it. */
  lemma LaunchRises(m: Maps, run: Run, tracks: bool)
    ensures var (u, s) := BeginLaunch(m, run, tracks); s == CurrentLaunch(u, run) == CurrentLaunch(m, run) + 1 && !Dead(u, run, s)
  {
  }

  /** Run already, or no longer to be run. */
  predicate Spent(m: Maps, run: Run, s: nat) {
    s < CurrentLaunch(m, run) || (s == CurrentLaunch(m, run) && HasActivated(m, run, s))
  }

  /** The steps that allow a task to run again: its completion could not be published, or the counter is put
      back below it, or to it when it is not on record as run. */
  predicate Reopens(m: Maps, c: Command, run: Run, s: nat) {
    (c.DoReset? && c.run == run && s == CurrentLaunch(m, run) && run in m.activated && m.activated[run] == c.launch) ||
    (c.DoRestore? && c.run == run && (c.launch < s || (c.launch == s && !HasActivated(m, run, s))))
  }

  lemma TakeSpends(m: Maps, run: Run, s: nat, r: Run, launch: nat, acp: bool)
    requires Spent(m, run, s)
    ensures Spent(BusTake(m, r, launch, acp).0, run, s)
  {
  }

  /** Messages, epochs and workers are not part of it. */
  lemma SpentSame(m: Maps, u: Maps, run: Run, s: nat)
    requires u.launchSeq == m.launchSeq && u.activated == m.activated
    ensures Spent(u, run, s) <==> Spent(m, run, s)
  {
  }

  lemma SpentStays(m: Maps, c: Command, run: Run, s: nat)
    requires Spent(m, run, s)
    ensures Spent(Step(m, c), run, s) <==> !Reopens(m, c, run, s)
  {
    hide Register, Remove, Deliver, HasWorker, CancelMail, WithoutIdsOf, WithoutEpoch, SetListed, OfEpoch, IdsOf, Listed, BusTake;
    if Talks(c) {
      TalkStep(m, c);
      SpentSame(m, Step(m, c), run, s);
    } else {
      match c
      case DoCancel(_) => SpentSame(m, Step(m, c), run, s);
      case DoCleanup(_, _, _) => SpentSame(m, Step(m, c), run, s);
      case DoTake(r, launch, acp) => TakeSpends(m, run, s, r, launch, acp);
      case _ =>
    }
  }

  ghost predicate NeverReopens(m: Maps, cs: seq<Command>, run: Run, s: nat) {
    forall k :: 0 <= k < |cs| ==> !Reopens(After(m, cs[..k]), cs[k], run, s)
  }

  lemma {:induction false} SpentAfter(m: Maps, cs: seq<Command>, run: Run, s: nat)
    requires Spent(m, run, s) && NeverReopens(m, cs, run, s)
    ensures Spent(After(m, cs), run, s)
  {
    if cs != [] {
      var k := |cs| - 1;
      forall i | 0 <= i < k ensures !Reopens(After(m, cs[..k][..i]), cs[..k][i], run, s) {
        assert cs[..k][..i] == cs[..i];
      }
      SpentAfter(m, cs[..k], run, s);
      SpentStays(After(m, cs[..k]), cs[k], run, s);
    }
  }

  /** However often a task of an issued launch is redelivered, it runs once, unless its activation is
      reset or the counter is put back. */
  lemma RunsOnce(m: Maps, run: Run, s: nat, acp: bool, cs: seq<Command>, again: bool)
    requires s <= CurrentLaunch(m, run)
    requires BusTake(m, run, s, acp).1.Some? && NeverReopens(BusTake(m, run, s, acp).0, cs, run, s)
    ensures var u := After(BusTake(m, run, s, acp).0, cs); BusTake(u, run, s, again) == (u, None)
  {
    SpentAfter(BusTake(m, run, s, acp).0, cs, run, s);
  }

  /** A launch number that these maps never issued, as after a restart, is forgotten with the next launch. */
  lemma UnissuedRunsTwice(m: Maps, run: Run, s: nat, acp: bool)
    requires s > CurrentLaunch(m, run) && run !in m.tombstones && !HasActivated(m, run, s)
    ensures var (u, first) := BusTake(m, run, s, acp);
            first.Some? && BusTake(u, run, s, acp).1.None? && BusTake(BeginLaunch(u, run, false).0, run, s, acp).1.Some?
  {
  }

  lemma AgreeSame(m: Maps, u: Maps)
    requires Agree(m) && u.pending == m.pending && u.runIndex == m.runIndex
    ensures Agree(u)
  {
  }

  /** When a worker's guard falls: its token is gone, and its bus marker too unless the bus consumer owns it; no other
      worker's is touched, and nothing of its epoch stays pending. */
  lemma GuardReleases(m: Maps, run: Run, epoch: nat, launch: nat, deferred: bool, other: (Run, nat))
    requires Agree(m)
    ensures var u := DropGuard(m, run, epoch, launch, deferred);
            (run, launch) !in u.workers && ((run, launch) in u.inFlight <==> deferred && (run, launch) in m.inFlight) &&
            (other != (run, launch) ==> (other in u.workers <==> other in m.workers) && (other in u.inFlight <==> other in m.inFlight)) &&
            OfEpoch(u, run, epoch) == {} && u.mail == m.mail && Agree(u)
  {
    var x := if deferred then m else ClearInFlight(m, run, launch);
    AgreeSame(m, x);
    EpochListed(x, run, epoch);
    CleanupAgrees(x, run, epoch, launch);
  }

  // ── every reachable state ───────────────────────────────────────────────────

  ghost predicate Sound(m: Maps, issued: set<Id>) {
    Agree(m) && MailOk(m) && EpochsOk(m) && m.pending.Keys <= issued
  }

  lemma StepAgrees(m: Maps, issued: set<Id>, c: Command)
    requires Agree(m) && m.pending.Keys <= issued && Legal(m, issued, c)
    ensures Agree(Step(m, c))
  {
    hide Agree, HasWorker, ShownOptions, Answers, CancelEpoch, CleanupRun, Remove;
    match c
    case DoRegister(run, epoch, id, options) =>
      if (run, epoch) !in m.cancelled {
        RegisterAgrees(m, run, epoch, id, options);
      }
    case DoRemove(run, id) => RemoveAgrees(m, run, id);
    case DoDeliver(run, id, action, response, listening) =>
      RemoveAgrees(m, run, id);
      if Refusal(m, run, id, action, response).None? {
        AgreeSame(Remove(m, run, id), Step(m, c));
      }
    case DoCancel(run) => CancelAgrees(m, run, CurrentEpoch(m, run));
    case DoCleanup(run, epoch, launch) => CleanupAgrees(m, run, epoch, launch);
    case _ => AgreeSame(m, Step(m, c));
  }

  lemma MailSame(m: Maps, u: Maps)
    requires MailOk(m) && u.mail == m.mail && u.nextChan == m.nextChan
    requires u.pending.Keys <= m.pending.Keys && forall id :: id in u.pending ==> u.pending[id] == m.pending[id]
    ensures MailOk(u)
  {
  }

  lemma RegisterMail(m: Maps, run: Run, epoch: nat, id: Id, options: Option<seq<Text>>)
    requires MailOk(m)
    ensures MailOk(Register(m, run, epoch, id, options).0)
  {
    hide ShownOptions, Listed;
  }

  lemma RemoveMail(m: Maps, run: Run, id: Id)
    requires MailOk(m)
    ensures MailOk(Remove(m, run, id))
  {
    MailSame(m, Remove(m, run, id));
  }

  lemma CleanupMail(m: Maps, run: Run, epoch: nat, launch: nat)
    requires MailOk(m)
    ensures MailOk(CleanupRun(m, run, epoch, launch))
  {
    MailSame(m, CleanupRun(m, run, epoch, launch));
  }

  lemma TakeMail(m: Maps, run: Run, launch: nat, acp: bool)
    requires MailOk(m)
    ensures MailOk(BusTake(m, run, launch, acp).0)
  {
    MailSame(m, BusTake(m, run, launch, acp).0);
  }

  lemma StepMail(m: Maps, c: Command)
    requires MailOk(m)
    ensures MailOk(Step(m, c))
  {
    hide MailOk, HasWorker, CancelEpoch, ShownOptions, Answers, SetListed, Deliver, Register, Listed, IdsOf, WithoutEpoch, WithoutId, BusTake, CleanupRun, Remove;
    match c
    case DoRegister(run, epoch, id, options) => RegisterMail(m, run, epoch, id, options);
    case DoDeliver(run, id, action, response, listening) => DeliverReaches(m, run, id, action, response, listening);
    case DoCancel(run) => CancelMailOk(m, run, CurrentEpoch(m, run));
    case DoRemove(run, id) => RemoveMail(m, run, id);
    case DoCleanup(run, epoch, launch) => CleanupMail(m, run, epoch, launch);
    case DoTake(run, launch, acp) => TakeMail(m, run, launch, acp);
    case _ => MailSame(m, Step(m, c));
  }

  lemma StepEpochs(m: Maps, c: Command)
    requires EpochsOk(m)
    ensures EpochsOk(Step(m, c))
  {
    hide Register, Remove, Deliver, HasWorker, CancelMail, WithoutIdsOf, WithoutEpoch, SetListed, OfEpoch, IdsOf, Listed;
    if Talks(c) {
      TalkStep(m, c);
    } else {
      match c
      case DoCancel(_) =>
      case DoCleanup(_, _, _) =>
      case DoTake(_, _, _) =>
      case _ =>
    }
  }

  /** Over any legal sequence of steps the two indexes agree, each reply channel gets at most one message, and
      only allocated epochs are cancelled. */
  lemma {:induction false} AlwaysSound(cs: seq<Command>)
    requires LegalRun(cs)
    ensures Sound(After(EMPTY, cs), Issued(cs))
  {
    if cs != [] {
      var k := |cs| - 1;
      var before := cs[..k];
      forall i | 0 <= i < k ensures Legal(After(EMPTY, before[..i]), Issued(before[..i]), before[i]) {
        assert before[..i] == cs[..i];
      }
      AlwaysSound(before);
      var m := After(EMPTY, before);
      StepAgrees(m, Issued(before), cs[k]);
      StepMail(m, cs[k]);
      StepEpochs(m, cs[k]);
      StepPending(m, cs[k]);
      forall id | id in Issued(before) ensures id in Issued(cs) {
        var i :| 0 <= i < |before| && before[i].DoRegister? && before[i].id == id;
        assert cs[i] == before[i];
      }
    }
  }

  lemma StepPending(m: Maps, c: Command)
    ensures Step(m, c).pending.Keys <= m.pending.Keys + (if c.DoRegister? then {c.id} else {})
  {
    hide HasWorker, CancelMail, WithoutIdsOf, WithoutEpoch, WithoutId, ShownOptions, Answers, SetListed;
  }
}
