/** The question table as it is kept: updated in place, command by command. */
module AskRegistry {
  import opened Names
  import AskAnswer
  import opened AskQueue

  class Registry {
    var entries: Entries
    var nextSeq: nat

    ghost function Q(): Queue reads this {
      Queue(entries, nextSeq)
    }

    constructor ()
      ensures Q() == Queue(map[], 0)
    {
      entries, nextSeq := map[], 0;
    }

    /** Whether some question of `run` is shown. */
    method ShowsAny(run: Run) returns (any: bool)
      ensures any <==> AnyShown(entries, run)
    {
      any := exists id | id in entries :: Shown(entries, id, run);
    }

    method OpenQuestion(id: Id, unit: Unit, request: AskAnswer.Request) returns (events: seq<Event>)
      modifies this
      ensures (Q(), events) == Open(old(Q()), id, unit, request)
    {
      var any := ShowsAny(unit.run);
      var x := Question(unit, request, !any, nextSeq);
      nextSeq := nextSeq + 1;
      events := if x.shown then [Created1(id, x)] else [];
      entries := entries[id := x];
    }

    /** The waiting question of `run` with the smallest arrival number, found by going through the table. */
    method FirstWaiting(run: Run) returns (first: Option<Id>)
      ensures first.None? ==> !HasNext(entries, run)
      ensures first.Some? ==> IsNext(entries, first.value, run)
    {
      first := None;
      var rest := entries.Keys;
      while rest != {}
        invariant rest <= entries.Keys
        invariant first.None? ==> forall id :: Waiting(entries, id, run) ==> id in rest
        invariant first.Some? ==> Waiting(entries, first.value, run) && first.value !in rest
        invariant first.Some? ==> forall id :: Waiting(entries, id, run) && id !in rest ==> entries[first.value].arrival <= entries[id].arrival
      {
        var id :| id in rest;
        rest := rest - {id};
        if Waiting(entries, id, run) && (first.None? || entries[id].arrival < entries[first.value].arrival) {
          first := Some(id);
        }
      }
    }

    method PromoteNext(run: Run) returns (events: seq<Event>)
      requires ArrivalsDistinct(entries)
      modifies this`entries
      ensures (entries, events) == Promote(old(entries), run)
    {
      var first := FirstWaiting(run);
      match first
      case None => events := [];
      case Some(id) =>
        NextUnique(entries, run, id);
        entries := entries[id := entries[id].(shown := true)];
        events := [Created1(id, entries[id])];
    }

    method ResolveAndPromote(id: Id, action: Action, reason: Reason, answer: Option<AskAnswer.Text>) returns (events: seq<Event>)
      requires ArrivalsDistinct(entries) && id in entries
      modifies this`entries
      ensures (Q(), events) == TakeShown(old(Q()), id, action, reason, answer)
    {
      var x := entries[id];
      entries := entries - {id};
      var shown := PromoteNext(x.unit.run);
      events := [AskQueue.End(id, x, action, reason, answer)] + shown;
    }

    method CloseQuestion(id: Id, reason: Reason) returns (events: Option<seq<Event>>)
      requires Valid(Q())
      modifies this`entries
      ensures (Q(), events) == Close(old(Q()), id, reason)
      ensures Valid(Q())
    {
      if !(reason.Timeout? || reason.Teardown?) || id !in entries {
        return None;
      }
      if entries[id].shown {
        TakeShownValid(Q(), id, Action.Cancel, reason, None);
        var ended := ResolveAndPromote(id, Action.Cancel, reason, None);
        events := Some(ended);
      } else {
        DropValid(Q(), id);
        entries := entries - {id};
        events := Some([]);
      }
    }

    /** Take out `ids` one by one, in the table's order, tearing down what was shown. */
    method Remove(ids: set<Id>) returns (events: seq<Event>, ghost order: seq<Id>)
      requires ids <= entries.Keys
      modifies this`entries
      ensures entries == old(entries) - ids
      ensures Lists(order, ids) && events == Teardowns(old(entries), order)
    {
      var rest := ids;
      events, order := [], [];
      while rest != {}
        invariant rest <= ids && entries == old(entries) - (ids - rest)
        invariant Lists(order, ids - rest) && events == Teardowns(old(entries), order)
      {
        var id :| id in rest;
        var x := entries[id];
        entries := entries - {id};
        TeardownsAppend(old(entries), order, id);
        rest, order := rest - {id}, order + [id];
        if x.shown {
          events := events + [AskQueue.End(id, x, Action.Cancel, Teardown, None)];
        }
      }
    }

    method CloseUnitAttempt(run: Run, ord: nat, attempt: nat) returns (events: seq<Event>, ghost order: seq<Id>)
      requires Valid(Q())
      modifies this`entries
      ensures Lists(order, OfAttempt(old(entries), run, ord, attempt))
      ensures (Q(), events) == CloseAttempt(old(Q()), run, ord, attempt, order)
      ensures Valid(Q())
    {
      var ids := set id | id in entries && entries[id].unit.run == run && entries[id].unit.ord == ord && entries[id].unit.attempt == attempt;
      assert ids == OfAttempt(entries, run, ord, attempt);
      events, order := Remove(ids);
      CloseAttemptValid(old(Q()), run, ord, attempt, order);
      if events != [] {
        var shown := PromoteNext(run);
        events := events + shown;
      }
    }

    method CloseWholeRun(run: Run) returns (events: seq<Event>, ghost order: seq<Id>)
      requires Valid(Q())
      modifies this`entries
      ensures Lists(order, OfRun(old(entries), run))
      ensures (Q(), events) == CloseRun(old(Q()), run, order)
      ensures Valid(Q())
    {
      CloseRunValid(Q(), run, []);
      var ids := set id | id in entries && entries[id].unit.run == run;
      assert ids == OfRun(entries, run);
      events, order := Remove(ids);
    }

    method ResolveQuestion(run: Run, id: Id, action: Action, response: Option<AskAnswer.Json>, codec: AskAnswer.Codec)
      returns (events: seq<Event>, reply: Reply)
      requires Valid(Q())
      modifies this`entries
      ensures (Q(), events, reply) == Resolve(old(Q()), run, id, action, response, codec)
      ensures Valid(Q())
    {
      if !Shown(entries, id, run) {
        return [], NotShown;
      }
      if action.Unknown? {
        return [], Refused;
      }
      var answer := None;
      if action.Accept? {
        answer := AnswerTo(entries[id].request, response, codec);
        if answer.None? {
          return [], Refused;
        }
      }
      TakeShownValid(Q(), id, action, Human, answer);
      events := ResolveAndPromote(id, action, Human, answer);
      reply := Done;
    }

    method DrainAll() returns (events: seq<Event>, ghost order: seq<Id>)
      modifies this`entries
      ensures Lists(order, old(entries).Keys)
      ensures (Q(), events) == Drain(old(Q()), order)
    {
      events, order := Remove(entries.Keys);
      assert old(entries) - old(entries).Keys == map[];
    }
  }

  lemma NextUnique(entries: Entries, run: Run, id: Id)
    requires ArrivalsDistinct(entries) && IsNext(entries, id, run)
    ensures HasNext(entries, run) && Next(entries, run) == id
  {
    var n := Next(entries, run);
    assert Waiting(entries, n, run) && Waiting(entries, id, run);
  }

  lemma {:induction false} TeardownsAppend(entries: Entries, order: seq<Id>, id: Id)
    ensures Teardowns(entries, order + [id]) ==
            Teardowns(entries, order) + (if id in entries && entries[id].shown then [Torn(entries, id)] else [])
  {
    if order == [] {
      assert order + [id] == [id];
    } else {
      TeardownsAppend(entries, order[1..], id);
      assert (order + [id])[1..] == order[1..] + [id];
    }
  }
}
