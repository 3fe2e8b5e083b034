/** The elicitation maps as they are kept: one object, edited in place under its lock. */
module ElicitationMaps {
  import opened Names
  import opened Bytes
  import AskAnswer
  import Lists
  import opened Elicitation

  /** `shown` is the message, or its longest part of whole characters within the cap, marked as cut. */
  ghost predicate IsCut(message: Text, shown: Text) {
    if |message| <= MSG_CAP then shown == message
    else exists k :: 0 <= k <= MSG_CAP && Boundary(message, k) && (forall i :: k < i <= MSG_CAP ==> !Boundary(message, i)) && shown == message[..k] + MARKER
  }

  method CutMessage(message: Text) returns (shown: Text)
    ensures IsCut(message, shown)
  {
    shown := message;
    if |message| > MSG_CAP {
      var k := MsgFloorAt(message, MSG_CAP);
      shown := message[..k] + MARKER;
    }
  }

  class Registry {
    var pending: map<Id, Entry>
    var runIndex: map<Run, Listing>
    var cancelledEpochs: seq<(Run, nat)>
    var suppressedCreations: set<Id>
    var creationAnnounced: set<Id>
    var activeWorkers: set<(Run, nat)>
    var runEpoch: map<Run, nat>
    var runLaunchSeq: map<Run, nat>
    var busActivatedSeqs: map<Run, nat>
    var busInFlight: set<(Run, nat)>
    var allCancelled: set<Run>
    var mail: map<Chan, seq<Message>>
    var nextChan: Chan

    ghost function CancelledSet(): set<(Run, nat)> reads this`cancelledEpochs {
      set c | c in cancelledEpochs
    }

    ghost function M(): Maps reads this {
      Maps(pending, runIndex, CancelledSet(), suppressedCreations, creationAnnounced, activeWorkers, runEpoch,
           runLaunchSeq, busActivatedSeqs, busInFlight, allCancelled, mail, nextChan)
    }

    constructor ()
      ensures M() == EMPTY
    {
      pending, runIndex, cancelledEpochs, suppressedCreations, creationAnnounced := map[], map[], [], {}, {};
      activeWorkers, runEpoch, runLaunchSeq, busActivatedSeqs, busInFlight, allCancelled := {}, map[], map[], map[], {}, {};
      mail, nextChan := map[], 0;
    }

    /** Refused when the epoch was cancelled; otherwise a long message is cut at a character boundary. */
    method RegisterNew(run: Run, epoch: nat, id: Id, message: Text, options: Option<seq<Text>>)
      returns (chan: Option<Chan>, shown: Text)
      modifies this
      ensures (M(), chan) == Register(old(M()), run, epoch, id, options)
      ensures chan.Some? ==> IsCut(message, shown)
    {
      hide IsCut, ShownOptions;
      if (run, epoch) in cancelledEpochs {
        return None, [];
      }
      shown := CutMessage(message);
      chan := Some(nextChan);
      mail, nextChan := mail[nextChan := []], nextChan + 1;
      pending := pending[id := Entry(run, epoch, ShownOptions(options), chan.value)];
      runIndex := runIndex[run := (if run in runIndex then runIndex[run] else []) + [(id, epoch)]];
    }

    method Unlist(run: Run, id: Id)
      modifies this`runIndex
      ensures runIndex == SetListed(old(M()), run, WithoutId(Listed(old(M()), run), id))
    {
      Keep(run, WithoutId(if run in runIndex then runIndex[run] else [], id));
    }

    method RemoveOne(run: Run, id: Id)
      modifies this
      ensures M() == Remove(old(M()), run, id)
    {
      pending := pending - {id};
      creationAnnounced := creationAnnounced - {id};
      Unlist(run, id);
    }

    method DeliverAnswer(run: Run, id: Id, action: Action, response: Option<AskAnswer.Json>, listening: bool) returns (d: Delivery)
      modifies this
      ensures (M(), d) == Deliver(old(M()), run, id, action, response, listening)
    {
      if id !in pending {
        return NotFound;
      }
      var entry := pending[id];
      if entry.run != run {
        return WrongRun;
      }
      if action.Unknown? {
        return BadAction;
      }
      if !Answers(entry, action, response) {
        return BadResponse;
      }
      pending := pending - {id};
      Unlist(run, id);
      creationAnnounced := creationAnnounced - {id};
      if !listening {
        return WorkerGone;
      }
      mail := Send(mail, entry.chan, Message(action, response));
      return Delivered;
    }

    /** One by one in the table's order; no two of them share a channel. */
    method CancelMembers(ids: set<Id>)
      requires ids <= pending.Keys && OwnChannels(M())
      modifies this`pending, this`mail, this`suppressedCreations, this`creationAnnounced
      ensures pending == old(pending) - ids && mail == CancelMail(old(M()), ids)
      ensures suppressedCreations == old(suppressedCreations) + (ids - old(creationAnnounced))
      ensures creationAnnounced == old(creationAnnounced) - ids
    {
      hide OwnChannels, CancelMail, Send;
      ghost var m := M();
      var rest := ids;
      CancelNone(m);
      assert ids - rest == {};
      while rest != {}
        invariant rest <= ids && pending == m.pending - (ids - rest)
        invariant mail == CancelMail(m, ids - rest)
        invariant suppressedCreations == m.suppressed + ((ids - rest) - m.announced)
        invariant creationAnnounced == m.announced - (ids - rest)
      {
        var id :| id in rest;
        var entry := pending[id];
        CancelStep(m, ids - rest, id);
        pending := pending - {id};
        mail := Send(mail, entry.chan, CANCELS);
        if id in creationAnnounced {
          creationAnnounced := creationAnnounced - {id};
        } else {
          suppressedCreations := suppressedCreations + {id};
        }
        assert ids - (rest - {id}) == ids - rest + {id};
        rest := rest - {id};
      }
      assert ids - rest == ids;
    }

    method Keep(run: Run, kept: Listing)
      modifies this`runIndex
      ensures runIndex == SetListed(old(M()), run, kept)
    {
      if run in runIndex {
        if kept == [] {
          runIndex := runIndex - {run};
        } else {
          runIndex := runIndex[run := kept];
        }
      }
    }

    method NoteCancelled(c: (Run, nat))
      modifies this`cancelledEpochs
      ensures CancelledSet() == old(CancelledSet()) + {c}
    {
      if c !in cancelledEpochs {
        cancelledEpochs := cancelledEpochs + [c];
      }
      assert c in cancelledEpochs;
    }

    method CancelOneEpoch(run: Run, epoch: nat)
      requires OwnChannels(M())
      modifies this
      ensures M() == CancelEpoch(old(M()), run, epoch)
    {
      hide OwnChannels, CancelMail, WithoutIdsOf, CancelledSet;
      ghost var m := M();
      var ids := set id | id in pending && pending[id].run == run && pending[id].epoch == epoch;
      assert ids == OfEpoch(m, run, epoch);
      CancelMembers(ids);
      var kept := WithoutIdsOf(if run in runIndex then runIndex[run] else [], epoch, ids);
      Keep(run, kept);
      NoteCancelled((run, epoch));
    }

    method AllocateEpoch(run: Run) returns (epoch: nat)
      modifies this`runEpoch
      ensures (M(), epoch) == NextEpoch(old(M()), run)
    {
      epoch := (if run in runEpoch then runEpoch[run] else 0) + 1;
      runEpoch := runEpoch[run := epoch];
    }

    method DropEpoch(run: Run, epoch: nat)
      modifies this`pending, this`runIndex
      ensures pending == old(pending) - IdsOf(Listed(old(M()), run), epoch)
      ensures runIndex == SetListed(old(M()), run, WithoutEpoch(Listed(old(M()), run), epoch))
    {
      hide IdsOf, WithoutEpoch;
      ghost var before := pending;
      var xs := if run in runIndex then runIndex[run] else [];
      IdsNone(epoch);
      for i := 0 to |xs|
        invariant pending == before - IdsOf(xs[..i], epoch)
        modifies this`pending
      {
        IdsStep(xs, i, epoch);
        if xs[i].1 == epoch {
          pending := pending - {xs[i].0};
        }
      }
      assert xs[..|xs|] == xs;
      Keep(run, WithoutEpoch(xs, epoch));
    }

    /** A finished worker's cancellation is forgotten, with the last one all of its run's. */
    method Forget(run: Run, epoch: nat, last: bool)
      modifies this`cancelledEpochs, this`runEpoch
      ensures CancelledSet() == if last then set c | c in old(CancelledSet()) && c.0 != run else old(CancelledSet()) - {(run, epoch)}
      ensures runEpoch == if last then old(runEpoch) - {run} else old(runEpoch)
    {
      cancelledEpochs := Lists.Without(cancelledEpochs, (run, epoch));
      if last {
        runEpoch := runEpoch - {run};
        cancelledEpochs := WithoutId(cancelledEpochs, run);
      }
    }

    method CleanUp(run: Run, epoch: nat, launch: nat)
      modifies this
      ensures M() == CleanupRun(old(M()), run, epoch, launch)
    {
      hide IdsOf, WithoutEpoch, HasWorker;
      activeWorkers := activeWorkers - {(run, launch)};
      var last := !HasWorker(activeWorkers, run);
      DropEpoch(run, epoch);
      Forget(run, epoch, last);
    }

    method GuardDrop(run: Run, epoch: nat, launch: nat, deferred: bool)
      modifies this
      ensures M() == DropGuard(old(M()), run, epoch, launch, deferred)
    {
      if !deferred {
        busInFlight := busInFlight - {(run, launch)};
      }
      CleanUp(run, epoch, launch);
    }

    method Launch(run: Run, tracks: bool) returns (launch: nat)
      modifies this
      ensures (M(), launch) == BeginLaunch(old(M()), run, tracks)
    {
      launch := AdvanceLaunch(run);
      if tracks {
        activeWorkers := activeWorkers + {(run, launch)};
      }
      allCancelled := allCancelled - {run};
      busActivatedSeqs := busActivatedSeqs - {run};
    }

    method AdvanceLaunch(run: Run) returns (launch: nat)
      modifies this`runLaunchSeq
      ensures M() == Advance(old(M()), run) && launch == CurrentLaunch(M(), run)
    {
      launch := (if run in runLaunchSeq then runLaunchSeq[run] else 0) + 1;
      runLaunchSeq := runLaunchSeq[run := launch];
    }

    method RestoreLaunch(run: Run, launch: nat)
      modifies this`runLaunchSeq
      ensures M() == Restore(old(M()), run, launch)
    {
      runLaunchSeq := runLaunchSeq[run := launch];
    }

    method TombstoneOne(run: Run)
      modifies this`allCancelled
      ensures M() == Tombstone(old(M()), run)
    {
      allCancelled := allCancelled + {run};
    }

    method TryNextEpochBus(run: Run, launch: nat, acp: bool) returns (epoch: Option<nat>)
      modifies this
      ensures (M(), epoch) == TryActivate(old(M()), run, launch, acp)
    {
      if launch == 0 || run in allCancelled {
        return None;
      }
      var current := if run in runLaunchSeq then runLaunchSeq[run] else 0;
      if launch < current {
        return None;
      }
      var was := if run in busActivatedSeqs then busActivatedSeqs[run] else 0;
      busActivatedSeqs := busActivatedSeqs[run := if was < launch then launch else was];
      busInFlight := busInFlight + {(run, launch)};
      if !acp {
        return Some(0);
      }
      activeWorkers := activeWorkers + {(run, launch)};
      var e := AllocateEpoch(run);
      return Some(e);
    }

    method ResetBusActivation(run: Run, launch: nat)
      modifies this`busInFlight, this`busActivatedSeqs
      ensures M() == ResetActivation(old(M()), run, launch)
    {
      busInFlight := busInFlight - {(run, launch)};
      if run in busActivatedSeqs && busActivatedSeqs[run] == launch {
        busActivatedSeqs := busActivatedSeqs - {run};
      }
    }
  }

  /** Every pending registration has a reply channel of its own. */
  ghost predicate OwnChannels(m: Maps) {
    (forall id :: id in m.pending ==> m.pending[id].chan in m.mail) &&
    forall id, x :: id in m.pending && x in m.pending && id != x ==> m.pending[id].chan != m.pending[x].chan
  }

  lemma CancelNone(m: Maps)
    ensures CancelMail(m, {}) == m.mail
  {
  }

  lemma CancelStep(m: Maps, done: set<Id>, id: Id)
    requires OwnChannels(m) && id in m.pending && id !in done && done <= m.pending.Keys
    ensures CancelMail(m, done + {id}) == Send(CancelMail(m, done), m.pending[id].chan, CANCELS)
  {
    var a, b := CancelMail(m, done + {id}), Send(CancelMail(m, done), m.pending[id].chan, CANCELS);
    assert id in done + {id};
    assert a.Keys == b.Keys;
    forall c | c in a ensures a[c] == b[c] {
      if x :| x in done && m.pending[x].chan == c {
        assert x in done + {id};
      }
    }
  }

  lemma IdsNone(epoch: nat)
    ensures IdsOf([], epoch) == {}
  {
  }

  lemma IdsStep(xs: Listing, i: nat, epoch: nat)
    requires i < |xs|
    ensures IdsOf(xs[..i + 1], epoch) == IdsOf(xs[..i], epoch) + (if xs[i].1 == epoch then {xs[i].0} else {})
  {
    assert xs[..i + 1] == xs[..i] + [xs[i]];
    assert forall x :: x in xs[..i + 1] <==> x in xs[..i] || x == xs[i];
  }
}
