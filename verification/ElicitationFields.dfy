/** The elicitation maps, field by field: which steps put something in, and which take it out. */
module ElicitationFields {
  import opened Names
  import AskAnswer
  import opened Elicitation
  import opened ElicitationRuns

  function EpochOf(m: Maps, run: Run): nat {
    if run in m.runEpoch then m.runEpoch[run] else 0
  }

  function LaunchOf(m: Maps, run: Run): nat {
    if run in m.launchSeq then m.launchSeq[run] else 0
  }

  /** A registration of the run's current epoch, which a cancel of the run takes. */
  predicate Cancels(m: Maps, c: Command, id: Id) {
    c.DoCancel? && EpochOf(m, c.run) > 0 && id in m.pending && m.pending[id].run == c.run && m.pending[id].epoch == EpochOf(m, c.run)
  }

  /** An answer that fits the question, from its own run. */
  predicate Fits(m: Maps, c: Command, id: Id) {
    c.DoDeliver? && c.id == id && id in m.pending && m.pending[id].run == c.run && !c.action.Unknown? &&
    (c.action.Accept? ==>
      c.response.Some? && c.response.value.JText? &&
      match m.pending[id].options
      case Some(os) => c.response.value.text in os
      case None => |c.response.value.text| <= 0x1_0000)
  }

  /** A launch task that is taken: not the reserved number, of a run without a tombstone, not superseded and not taken before. */
  predicate Takes(m: Maps, c: Command) {
    c.DoTake? && c.launch != 0 && c.run !in m.tombstones && c.launch >= LaunchOf(m, c.run) &&
    !(c.run in m.activated && m.activated[c.run] >= c.launch)
  }

  /** The run's last worker goes. */
  predicate LastOf(m: Maps, c: Command, run: Run) {
    c.DoCleanup? && c.run == run && forall w :: w in m.workers && w.0 == run ==> w.1 == c.launch
  }

  lemma NoneLeft(m: Maps, c: Command)
    requires c.DoCleanup?
    ensures LastOf(m, c, c.run) <==> !HasWorker(m.workers - {(c.run, c.launch)}, c.run)
  {
    if LastOf(m, c, c.run) {
      forall w | w in m.workers - {(c.run, c.launch)} ensures w.0 != c.run {
        assert w == (w.0, w.1);
      }
    }
    if !HasWorker(m.workers - {(c.run, c.launch)}, c.run) {
      forall w | w in m.workers && w.0 == c.run ensures w.1 == c.launch {
        assert w == (c.run, w.1);
      }
    }
  }

  /** A cancel and a cleanup touch neither launches nor tombstones; a cancel no worker, a cleanup no announcement. */
  lemma EndFrames(m: Maps, c: Command)
    requires c.DoCancel? || c.DoCleanup?
    ensures var u := Step(m, c);
            u.launchSeq == m.launchSeq && u.activated == m.activated && u.inFlight == m.inFlight && u.tombstones == m.tombstones &&
            (c.DoCancel? ==> u.workers == m.workers && u.runEpoch == m.runEpoch) &&
            (c.DoCleanup? ==> u.announced == m.announced && u.suppressed == m.suppressed)
  {
    hide SetListed, WithoutEpoch, WithoutIdsOf, CancelMail, HasWorker, OfEpoch, IdsOf, Listed;
  }

  /** A task that is taken is in flight, activated, and, if a worker runs it, has one, and an epoch; any other is dropped. */
  lemma TakeIs(m: Maps, c: Command)
    requires c.DoTake?
    ensures Step(m, c) ==
              if !Takes(m, c) then m
              else m.(activated := m.activated[c.run := c.launch], inFlight := m.inFlight + {(c.run, c.launch)},
                      workers := if c.acp then m.workers + {(c.run, c.launch)} else m.workers,
                      runEpoch := if c.acp then m.runEpoch[c.run := EpochOf(m, c.run) + 1] else m.runEpoch)
  {
  }

  /** Launches, epochs and tasks touch no registration. */
  lemma LaunchFrames(m: Maps, c: Command)
    requires !Talks(c) && !c.DoCancel? && !c.DoCleanup?
    ensures var u := Step(m, c); u.pending == m.pending && u.announced == m.announced && u.suppressed == m.suppressed && u.cancelled == m.cancelled
  {
    hide BusTake, Takes;
    if c.DoTake? {
      TakeIs(m, c);
    }
  }

  /** What is done with registrations is done with them alone. */
  lemma TalkFrames(m: Maps, c: Command)
    requires Talks(c)
    ensures Step(m, c).suppressed == m.suppressed
  {
    hide SetListed, WithoutId, Send, Listed, ShownOptions, Refusal;
  }

  /** A registration is pending from its own step, of an epoch that is not cancelled, until it is answered, removed, cancelled
      with its epoch or cleaned up with its worker. */
  lemma PendingIff(m: Maps, c: Command, id: Id)
    requires Agree(m)
    ensures id in Step(m, c).pending <==>
              (c.DoRegister? && c.id == id && (c.run, c.epoch) !in m.cancelled) ||
              (id in m.pending && !Cancels(m, c, id) && !Fits(m, c, id) && !(c.DoRemove? && c.id == id) &&
               !(c.DoCleanup? && m.pending[id].run == c.run && m.pending[id].epoch == c.epoch))
  {
    if c.DoCleanup? {
      CleanedIff(m, c, id);
    }
    hide SetListed, WithoutId, WithoutEpoch, WithoutIdsOf, CancelMail, Send, HasWorker, Listed, IdsOf, Agree, ShownOptions;
    if Talks(c) {
      TalkPending(m, c, id);
    } else if c.DoCancel? || c.DoCleanup? {
    } else {
      LaunchFrames(m, c);
      hide Step;
    }
  }

  lemma TalkPending(m: Maps, c: Command, id: Id)
    requires Talks(c)
    ensures id in Step(m, c).pending <==>
              (c.DoRegister? && c.id == id && (c.run, c.epoch) !in m.cancelled) ||
              (id in m.pending && !Fits(m, c, id) && !(c.DoRemove? && c.id == id))
  {
    hide SetListed, WithoutId, Send, Listed, ShownOptions;
  }

  lemma CleanedIff(m: Maps, c: Command, id: Id)
    requires Agree(m) && c.DoCleanup?
    ensures id in m.pending ==> (id in IdsOf(Listed(m, c.run), c.epoch) <==> m.pending[id].run == c.run && m.pending[id].epoch == c.epoch)
  {
    if id in IdsOf(Listed(m, c.run), c.epoch) {
      var x :| x in Listed(m, c.run) && x.1 == c.epoch && x.0 == id;
      assert c.run in m.runIndex && x in m.runIndex[c.run];
    }
    if id in m.pending && m.pending[id].run == c.run && m.pending[id].epoch == c.epoch {
      assert (id, c.epoch) in Listed(m, c.run);
    }
  }

  /** An announcement is remembered until its registration is answered, removed or cancelled. */
  lemma AnnouncedIff(m: Maps, c: Command, id: Id)
    ensures id in Step(m, c).announced <==>
              (c.DoAnnounce? && c.id == id) ||
              (id in m.announced && !Cancels(m, c, id) && !Fits(m, c, id) && !(c.DoRemove? && c.id == id))
  {
    hide SetListed, WithoutId, WithoutEpoch, WithoutIdsOf, CancelMail, Send, HasWorker, Listed, IdsOf, ShownOptions;
    if c.DoCleanup? {
      EndFrames(m, c);
      hide Step;
    } else if !Talks(c) && !c.DoCancel? {
      LaunchFrames(m, c);
      hide Step;
    }
  }

  /** An event about a question is suppressed exactly if a cancel took the question before it was announced. */
  lemma SuppressedIff(m: Maps, c: Command, id: Id)
    ensures id in Step(m, c).suppressed <==> id in m.suppressed || (Cancels(m, c, id) && id !in m.announced)
  {
    hide SetListed, WithoutId, WithoutEpoch, WithoutIdsOf, CancelMail, Send, HasWorker, Listed, IdsOf;
    if Talks(c) {
      TalkFrames(m, c);
      hide Step;
    } else if c.DoCleanup? {
      EndFrames(m, c);
      hide Step;
    } else if !c.DoCancel? {
      LaunchFrames(m, c);
      hide Step;
    }
  }

  /** An epoch is cancelled by a cancel of its run while it is the current one, until it, or the run's last worker, is cleaned up. */
  lemma CancelledIff(m: Maps, c: Command, run: Run, epoch: nat)
    ensures (run, epoch) in Step(m, c).cancelled <==>
              (c.DoCancel? && c.run == run && epoch > 0 && epoch == EpochOf(m, run)) ||
              ((run, epoch) in m.cancelled && !(c.DoCleanup? && c.run == run && (c.epoch == epoch || LastOf(m, c, run))))
  {
    hide SetListed, WithoutId, WithoutEpoch, WithoutIdsOf, CancelMail, Send, HasWorker, LastOf, Listed, IdsOf, OfEpoch;
    if c.DoCleanup? {
      NoneLeft(m, c);
      OnlyCleanup(m, c, run);
    } else if Talks(c) {
      TalkStep(m, c);
      hide Step;
    } else if !c.DoCancel? {
      LaunchFrames(m, c);
      hide Step;
    }
  }

  /** A worker is counted from a launch that tracks it, or from its task, until it is cleaned up. */
  lemma WorkersIff(m: Maps, c: Command, run: Run, launch: nat)
    ensures (run, launch) in Step(m, c).workers <==>
              (c.DoLaunch? && c.tracks && c.run == run && launch == LaunchOf(m, run) + 1) ||
              (Takes(m, c) && c.acp && c.run == run && c.launch == launch) ||
              ((run, launch) in m.workers && !(c.DoCleanup? && c.run == run && c.launch == launch))
  {
    hide SetListed, WithoutId, WithoutEpoch, WithoutIdsOf, CancelMail, Send, HasWorker, Listed, OfEpoch, IdsOf;
    if Talks(c) {
      TalkStep(m, c);
      hide Step;
    } else if c.DoCancel? || c.DoCleanup? {
      EndFrames(m, c);
    } else if c.DoTake? {
      TakeIs(m, c);
      hide Step, Takes;
    }
  }

  /** A task is in flight from when it is taken until it is cleared or reset. */
  lemma InFlightIff(m: Maps, c: Command, run: Run, launch: nat)
    ensures (run, launch) in Step(m, c).inFlight <==>
              (Takes(m, c) && c.run == run && c.launch == launch) ||
              ((run, launch) in m.inFlight && !((c.DoClear? || c.DoReset?) && c.run == run && c.launch == launch))
  {
    hide SetListed, WithoutId, WithoutEpoch, WithoutIdsOf, CancelMail, Send, HasWorker, Listed, OfEpoch, IdsOf;
    if Talks(c) {
      TalkStep(m, c);
      hide Step;
    } else if c.DoCancel? || c.DoCleanup? {
      EndFrames(m, c);
      hide Step;
    } else if c.DoTake? {
      TakeIs(m, c);
      hide Step, Takes;
    }
  }

  /** A run's epoch rises by one when one is allocated, for a task of a worker too, and is forgotten with the run's last worker. */
  lemma EpochIs(m: Maps, c: Command, run: Run)
    ensures EpochOf(Step(m, c), run) ==
              if (c.DoNextEpoch? || (Takes(m, c) && c.acp)) && c.run == run then EpochOf(m, run) + 1
              else if LastOf(m, c, run) then 0
              else EpochOf(m, run)
  {
    hide SetListed, WithoutId, WithoutEpoch, WithoutIdsOf, CancelMail, Send, HasWorker, Listed, OfEpoch, IdsOf, LastOf;
    OnlyCleanup(m, c, run);
    if c.DoCleanup? {
      NoneLeft(m, c);
      OnlyCleanup(m, c, c.run);
    } else if Talks(c) {
      TalkStep(m, c);
      hide Step;
    } else if c.DoCancel? {
      EndFrames(m, c);
      hide Step;
    } else if c.DoTake? {
      TakeIs(m, c);
      hide Step, Takes;
    }
  }

  lemma OnlyCleanup(m: Maps, c: Command, run: Run)
    ensures LastOf(m, c, run) ==> c.DoCleanup? && c.run == run
  {
  }

  /** A run's launch counter rises by one with each launch and each advance; only a restore sets it. */
  lemma LaunchIs(m: Maps, c: Command, run: Run)
    ensures LaunchOf(Step(m, c), run) ==
              if (c.DoLaunch? || c.DoAdvance?) && c.run == run then LaunchOf(m, run) + 1
              else if c.DoRestore? && c.run == run then c.launch
              else LaunchOf(m, run)
  {
    hide SetListed, WithoutId, WithoutEpoch, WithoutIdsOf, CancelMail, Send, HasWorker, Listed, OfEpoch, IdsOf;
    if Talks(c) {
      TalkStep(m, c);
      hide Step;
    } else if c.DoCancel? || c.DoCleanup? {
      EndFrames(m, c);
      hide Step;
    } else if c.DoTake? {
      TakeIs(m, c);
      hide Step, Takes;
    }
  }

  /** A tombstone stands until the next launch of its run. */
  lemma TombstoneIff(m: Maps, c: Command, run: Run)
    ensures run in Step(m, c).tombstones <==> (c.DoTombstone? && c.run == run) || (run in m.tombstones && !(c.DoLaunch? && c.run == run))
  {
    hide SetListed, WithoutId, WithoutEpoch, WithoutIdsOf, CancelMail, Send, HasWorker, Listed, OfEpoch, IdsOf;
    if Talks(c) {
      TalkStep(m, c);
      hide Step;
    } else if c.DoCancel? || c.DoCleanup? {
      EndFrames(m, c);
      hide Step;
    } else if c.DoTake? {
      TakeIs(m, c);
      hide Step, Takes;
    }
  }

  /** The launch that was taken last is remembered until the next launch of the run, or its own reset. */
  lemma ActivatedIs(m: Maps, c: Command, run: Run)
    ensures var u := Step(m, c);
            if Takes(m, c) && c.run == run then run in u.activated && u.activated[run] == c.launch
            else if (c.DoLaunch? && c.run == run) || (c.DoReset? && c.run == run && run in m.activated && m.activated[run] == c.launch) then run !in u.activated
            else (run in u.activated <==> run in m.activated) && (run in m.activated && run in u.activated ==> u.activated[run] == m.activated[run])
  {
    hide SetListed, WithoutId, WithoutEpoch, WithoutIdsOf, CancelMail, Send, HasWorker, Listed, OfEpoch, IdsOf;
    if Talks(c) {
      TalkStep(m, c);
      hide Step;
    } else if c.DoCancel? || c.DoCleanup? {
      EndFrames(m, c);
      hide Step;
    } else if c.DoTake? {
      TakeIs(m, c);
      hide Step, Takes;
    }
  }
}
