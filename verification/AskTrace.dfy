/** What a run's operator sees over any sequence of commands. */
module AskTrace {
  import opened Names
  import AskAnswer
  import opened AskQueue

  /** The run, the arrival number and the question an id was admitted with. */
  datatype Ticket = Ticket(run: Run, arrival: nat, request: AskAnswer.Request)

  datatype History = History(queue: Queue, trace: seq<Event>, log: map<Id, Ticket>)

  ghost function Do(h: History, c: Command): History {
    var (u, events) := Step(h.queue, c);
    History(u, h.trace + events, if c.OpenAsk? then h.log[c.id := Ticket(c.unit.run, h.queue.nextSeq, c.request)] else h.log)
  }

  const EMPTY: History := History(Queue(map[], 0), [], map[])

  ghost function After(cs: seq<Command>): History {
    if cs == [] then EMPTY else Do(After(cs[..|cs| - 1]), cs[|cs| - 1])
  }

  /** Every command is legal where it is issued: ids are new, and tables are listed entry by entry. */
  ghost predicate LegalRun(cs: seq<Command>) {
    cs == [] || (LegalRun(cs[..|cs| - 1]) &&
                 var h := After(cs[..|cs| - 1]); Legal(h.queue, h.log.Keys, cs[|cs| - 1]))
  }

  // ── what one run's trace looks like ─────────────────────────────────────────

  ghost predicate Showing(t: seq<Event>, i: int, log: map<Id, Ticket>, run: Run) {
    0 <= i < |t| && i % 2 == 0 && t[i].Created? && t[i].id in log && log[t[i].id].run == run && log[t[i].id].request == t[i].request
  }

  ghost predicate Resolving(t: seq<Event>, i: int) {
    0 < i < |t| && t[i].Resolved? && t[i].id == t[i - 1].id
  }

  /** Shown, resolved, shown, resolved, ...: each question is shown as it was admitted, and each resolution is of the
      question shown just before it. */
  ghost predicate Alternates(t: seq<Event>, log: map<Id, Ticket>, run: Run) {
    forall i {:trigger Showing(t, i, log, run)} {:trigger Resolving(t, i)} :: 0 <= i < |t| ==>
      if i % 2 == 0 then Showing(t, i, log, run) else Resolving(t, i)
  }

  /** Questions are shown in the order they arrived, hence each at most once. */
  ghost predicate InOrder(t: seq<Event>, log: map<Id, Ticket>, run: Run) {
    forall i, j :: Showing(t, i, log, run) && Showing(t, j, log, run) && i < j ==> log[t[i].id].arrival < log[t[j].id].arrival
  }

  /** The trace's questions all arrived before `arrival`. */
  ghost predicate Before(t: seq<Event>, log: map<Id, Ticket>, run: Run, arrival: nat) {
    forall i :: Showing(t, i, log, run) ==> log[t[i].id].arrival < arrival
  }

  /** The trace and the table agree on what is shown, and what waits arrived later than all that was shown. */
  ghost predicate Tracks(t: seq<Event>, entries: Entries, log: map<Id, Ticket>, run: Run) {
    (if |t| % 2 == 1 then Shown(entries, t[|t| - 1].id, run) else !AnyShown(entries, run)) &&
    forall id :: Waiting(entries, id, run) ==> Before(t, log, run, entries[id].arrival)
  }

  ghost predicate Linked(t: seq<Event>, entries: Entries, log: map<Id, Ticket>, run: Run) {
    Alternates(t, log, run) && InOrder(t, log, run) && Tracks(t, entries, log, run)
  }

  /** Every entry is logged under its run and arrival, and every logged arrival is past. */
  ghost predicate Logged(q: Queue, log: map<Id, Ticket>) {
    (forall id :: id in q.entries ==> id in log && log[id] == Ticket(q.entries[id].unit.run, q.entries[id].arrival, q.entries[id].request)) &&
    forall id :: id in log ==> log[id].arrival < q.nextSeq
  }

  ghost predicate Tidy(h: History) {
    Valid(h.queue) && Logged(h.queue, h.log) &&
    forall run :: Linked(Only(h.trace, run), h.queue.entries, h.log, run)
  }

  // ── how the link is kept ────────────────────────────────────────────────────

  /** Nothing shown or resolved: the same question stays shown, and what waits waited before. */
  lemma LinkKeep(t: seq<Event>, e: Entries, f: Entries, log: map<Id, Ticket>, run: Run)
    requires Linked(t, e, log, run)
    requires forall id :: Shown(e, id, run) <==> Shown(f, id, run)
    requires forall id :: Waiting(f, id, run) ==> Waiting(e, id, run) && e[id].arrival == f[id].arrival
    ensures Linked(t, f, log, run)
  {
  }

  lemma AppendAlternates(t: seq<Event>, event: Event, log: map<Id, Ticket>, run: Run)
    requires Alternates(t, log, run)
    requires if |t| % 2 == 0 then event.Created? && event.id in log && log[event.id].run == run && log[event.id].request == event.request
             else event.Resolved? && event.id == t[|t| - 1].id
    ensures Alternates(t + [event], log, run)
    ensures forall i :: 0 <= i < |t| ==> (Showing(t + [event], i, log, run) <==> Showing(t, i, log, run))
  {
    var u := t + [event];
    forall i | 0 <= i < |u| ensures if i % 2 == 0 then Showing(u, i, log, run) else Resolving(u, i) {
      if i < |t| {
        if i % 2 == 0 {
          assert Showing(t, i, log, run);
        } else {
          assert Resolving(t, i);
        }
      }
    }
  }

  /** The next question is shown. */
  lemma LinkShow(t: seq<Event>, e: Entries, log: map<Id, Ticket>, run: Run, n: Id, event: Event)
    requires Linked(t, e, log, run) && !AnyShown(e, run) && IsNext(e, n, run) && ArrivalsDistinct(e)
    requires n in log && log[n] == Ticket(run, e[n].arrival, e[n].request)
    requires event.Created? && event.id == n && event.request == e[n].request
    ensures Linked(t + [event], e[n := e[n].(shown := true)], log, run)
  {
    var f := e[n := e[n].(shown := true)];
    var u := t + [event];
    assert |t| % 2 == 0;
    AppendAlternates(t, event, log, run);
    assert Before(t, log, run, e[n].arrival);
    assert InOrder(u, log, run);
    assert Shown(f, n, run);
    forall id | Waiting(f, id, run) ensures Before(u, log, run, f[id].arrival) {
      assert Waiting(e, id, run);
      assert Before(t, log, run, e[id].arrival);
    }
  }

  /** The shown question goes, with others of its run or none. */
  lemma LinkEnd(t: seq<Event>, e: Entries, f: Entries, log: map<Id, Ticket>, run: Run, s: Id, event: Event)
    requires Linked(t, e, log, run) && Shown(e, s, run) && ShownFirst(e)
    requires !AnyShown(f, run)
    requires forall id :: Waiting(f, id, run) ==> Waiting(e, id, run) && e[id].arrival == f[id].arrival
    requires event.Resolved? && event.id == s
    ensures Linked(t + [event], f, log, run)
  {
    var u := t + [event];
    assert AnyShown(e, run);
    assert Of(e, t[|t| - 1].id, run);
    AppendAlternates(t, event, log, run);
    assert InOrder(u, log, run);
    forall id | Waiting(f, id, run) ensures Before(u, log, run, f[id].arrival) {
      assert Before(t, log, run, e[id].arrival);
    }
  }

  /** A new question is logged under a new id. */
  lemma LinkLog(t: seq<Event>, e: Entries, log: map<Id, Ticket>, run: Run, id: Id, ticket: Ticket)
    requires Linked(t, e, log, run) && id !in log
    ensures Linked(t, e, log[id := ticket], run)
  {
    var more := log[id := ticket];
    forall i | 0 <= i < |t| ensures if i % 2 == 0 then Showing(t, i, more, run) else Resolving(t, i)
      ensures Showing(t, i, more, run) ==> Showing(t, i, log, run) {
      assert if i % 2 == 0 then Showing(t, i, log, run) else Resolving(t, i);
    }
    assert InOrder(t, more, run);
    forall x | Waiting(e, x, run) ensures Before(t, more, run, e[x].arrival) {
      assert Before(t, log, run, e[x].arrival);
    }
  }

  lemma PromoteLink(t: seq<Event>, e: Entries, log: map<Id, Ticket>, run: Run, other: Run)
    requires Linked(t, e, log, other) && ArrivalsDistinct(e) && !AnyShown(e, run)
    requires forall id :: id in e ==> id in log && log[id] == Ticket(e[id].unit.run, e[id].arrival, e[id].request)
    ensures Linked(t + Only(Promote(e, run).1, other), Promote(e, run).0, log, other)
  {
    var (f, events) := Promote(e, run);
    if HasNext(e, run) {
      var n := Next(e, run);
      if other == run {
        LinkShow(t, e, log, run, n, events[0]);
        assert Only(events, other) == events;
      } else {
        LinkKeep(t, e, f, log, other);
        assert Only(events, other) == [];
        assert t + [] == t;
      }
    } else {
      assert t + [] == t;
    }
  }

  // ── every step ──────────────────────────────────────────────────────────────

  /** Removing `s` (shown) and perhaps others of its run: `other`'s part of the trace. */
  lemma EndLink(t: seq<Event>, q: Queue, log: map<Id, Ticket>, gone: set<Id>, run: Run, s: Id, ended: seq<Event>, other: Run)
    requires Linked(t, q.entries, log, other) && Valid(q) && Shown(q.entries, s, run) && s in gone
    requires forall id :: id in gone && id in q.entries ==> q.entries[id].unit.run == run
    requires |Only(ended, run)| == 1 && Only(ended, run)[0].Resolved? && Only(ended, run)[0].id == s
    requires other != run ==> Only(ended, other) == []
    ensures Linked(t + Only(ended, other), q.entries - gone, log, other)
    ensures !AnyShown(q.entries - gone, run)
  {
    var f := q.entries - gone;
    assert forall id :: Of(q.entries, id, run) && id != s ==> !q.entries[id].shown;
    if other == run {
      LinkEnd(t, q.entries, f, log, run, s, Only(ended, run)[0]);
      assert Only(ended, run) == [Only(ended, run)[0]];
    } else {
      LinkKeep(t, q.entries, f, log, other);
      assert t + [] == t;
    }
  }

  lemma ThenPromote(t: seq<Event>, ended: seq<Event>, e: Entries, log: map<Id, Ticket>, run: Run, other: Run)
    requires Linked(t + Only(ended, other), e, log, other) && ArrivalsDistinct(e) && !AnyShown(e, run)
    requires forall id :: id in e ==> id in log && log[id] == Ticket(e[id].unit.run, e[id].arrival, e[id].request)
    ensures Linked(t + Only(ended + Promote(e, run).1, other), Promote(e, run).0, log, other)
  {
    var events := Promote(e, run).1;
    PromoteLink(t + Only(ended, other), e, log, run, other);
    OnlyConcat(ended, events, other);
    assert t + Only(ended, other) + Only(events, other) == t + (Only(ended, other) + Only(events, other));
  }

  lemma TakeShownLink(t: seq<Event>, q: Queue, log: map<Id, Ticket>, id: Id, action: Action, reason: Reason, answer: Option<AskAnswer.Text>, other: Run)
    requires Linked(t, q.entries, log, other) && Valid(q) && Logged(q, log) && id in q.entries && q.entries[id].shown
    ensures var (u, events) := TakeShown(q, id, action, reason, answer);
            Linked(t + Only(events, other), u.entries, log, other)
  {
    var x := q.entries[id];
    var run := x.unit.run;
    var ended := [AskQueue.End(id, x, action, reason, answer)];
    assert Only(ended, run) == ended;
    EndLink(t, q, log, {id}, run, id, ended, other);
    ThenPromote(t, ended, q.entries - {id}, log, run, other);
  }

  /** Of a valid queue's run, a teardown lists at most the one shown question. */
  lemma OneTorn(q: Queue, order: seq<Id>, run: Run, s: Id)
    requires Valid(q) && Shown(q.entries, s, run) && s in order
    requires forall i, j :: 0 <= i < j < |order| ==> order[i] != order[j]
    ensures Only(Teardowns(q.entries, order), run) == [Torn(q.entries, s)]
  {
    forall id | id in order && id != s ensures !Shown(q.entries, id, run) {
      assert Of(q.entries, id, run) ==> !q.entries[id].shown;
    }
    TeardownsOne(q.entries, order, run, s);
  }

  /** No question of the attempt was shown: nobody sees it end. */
  lemma CloseQueuedLink(t: seq<Event>, q: Queue, log: map<Id, Ticket>, run: Run, gone: set<Id>, order: seq<Id>, other: Run)
    requires Linked(t, q.entries, log, other) && Valid(q) && Lists(order, gone)
    requires forall id :: id in gone ==> Of(q.entries, id, run)
    requires Teardowns(q.entries, order) == []
    ensures Linked(t, q.entries - gone, log, other)
  {
    forall id | id in gone ensures !Shown(q.entries, id, run) {
      if Shown(q.entries, id, run) {
        OneTorn(q, order, run, id);
      }
    }
    LinkKeep(t, q.entries, q.entries - gone, log, other);
  }

  /** The attempt's shown question ends before another attempt's is shown. */
  lemma CloseShownLink(t: seq<Event>, q: Queue, log: map<Id, Ticket>, run: Run, gone: set<Id>, order: seq<Id>, other: Run)
    requires Linked(t, q.entries, log, other) && Valid(q) && Lists(order, gone)
    requires forall id :: id in gone ==> Of(q.entries, id, run)
    requires Teardowns(q.entries, order) != []
    ensures Linked(t + Only(Teardowns(q.entries, order), other), q.entries - gone, log, other)
    ensures !AnyShown(q.entries - gone, run)
  {
    var s := TeardownsShown(q.entries, order);
    OneTorn(q, order, run, s);
    if other != run {
      TeardownsNone(q.entries, order, other);
    }
    EndLink(t, q, log, gone, run, s, Teardowns(q.entries, order), other);
  }

  lemma CloseAttemptLink(t: seq<Event>, q: Queue, log: map<Id, Ticket>, run: Run, ord: nat, attempt: nat, order: seq<Id>, other: Run)
    requires Linked(t, q.entries, log, other) && Valid(q) && Logged(q, log) && Lists(order, OfAttempt(q.entries, run, ord, attempt))
    ensures var (u, events) := CloseAttempt(q, run, ord, attempt, order);
            Linked(t + Only(events, other), u.entries, log, other)
  {
    var gone := OfAttempt(q.entries, run, ord, attempt);
    var ended := Teardowns(q.entries, order);
    if ended == [] {
      CloseQueuedLink(t, q, log, run, gone, order, other);
      assert t + [] == t;
    } else {
      CloseShownLink(t, q, log, run, gone, order, other);
      ThenPromote(t, ended, q.entries - gone, log, run, other);
    }
  }

  /** A run whose entries are all torn down, or none. */
  lemma TearLink(t: seq<Event>, q: Queue, log: map<Id, Ticket>, gone: set<Id>, order: seq<Id>, other: Run)
    requires Linked(t, q.entries, log, other) && Valid(q) && Lists(order, gone) && gone <= q.entries.Keys
    requires (forall id :: Of(q.entries, id, other) ==> id in gone) || (forall id :: Of(q.entries, id, other) ==> id !in gone)
    ensures Linked(t + Only(Teardowns(q.entries, order), other), q.entries - gone, log, other)
  {
    var f := q.entries - gone;
    if s :| Shown(q.entries, s, other) && s in gone {
      OneTorn(q, order, other, s);
      LinkEnd(t, q.entries, f, log, other, s, Torn(q.entries, s));
    } else {
      TeardownsNone(q.entries, order, other);
      LinkKeep(t, q.entries, f, log, other);
      assert t + [] == t;
    }
  }

  /** A run that shows no question has none. */
  lemma NoneOf(q: Queue, run: Run, id: Id)
    requires Valid(q) && !AnyShown(q.entries, run)
    ensures !Of(q.entries, id, run)
  {
  }

  /** A new question enters the table, not yet shown. */
  lemma EnqueueLink(t: seq<Event>, q: Queue, log: map<Id, Ticket>, id: Id, x: Question, other: Run)
    requires Linked(t, q.entries, log, other) && Logged(q, log) && id !in log
    requires !x.shown && x.arrival == q.nextSeq
    ensures Linked(t, q.entries[id := x], log[id := Ticket(x.unit.run, q.nextSeq, x.request)], other)
  {
    var more := log[id := Ticket(x.unit.run, q.nextSeq, x.request)];
    LinkLog(t, q.entries, log, other, id, more[id]);
    var e := q.entries[id := x];
    forall y | Waiting(e, y, other) ensures Before(t, more, other, e[y].arrival) {
      if y != id {
        assert Waiting(q.entries, y, other);
        assert Before(t, more, other, q.entries[y].arrival);
      } else {
        forall i | Showing(t, i, more, other) ensures more[t[i].id].arrival < e[y].arrival {
          assert Showing(t, i, log, other);
        }
      }
    }
    assert forall y :: Shown(q.entries, y, other) <==> Shown(e, y, other);
  }

  lemma OpenLink(t: seq<Event>, q: Queue, log: map<Id, Ticket>, id: Id, unit: Unit, request: AskAnswer.Request, other: Run)
    requires Linked(t, q.entries, log, other) && Valid(q) && Logged(q, log) && id !in log
    ensures var (u, events) := Open(q, id, unit, request);
            Linked(t + Only(events, other), u.entries, log[id := Ticket(unit.run, q.nextSeq, request)], other)
  {
    hide Linked, Logged, Valid;
    var x := Question(unit, request, false, q.nextSeq);
    EnqueueLink(t, q, log, id, x, other);
    var e, more := q.entries[id := x], log[id := Ticket(unit.run, q.nextSeq, request)];
    var (u, events) := Open(q, id, unit, request);
    if events == [] || other != unit.run {
      assert Only(events, other) == [];
      assert t + [] == t;
      LinkKeep(t, e, u.entries, more, other);
    } else {
      OpenShown(q, log, id, x);
      LinkShow(t, e, more, other, id, events[0]);
      assert u.entries == e[id := x.(shown := true)];
      assert Only(events, other) == events;
    }
  }

  /** A question that is shown at once is its run's first and only one. */
  lemma OpenShown(q: Queue, log: map<Id, Ticket>, id: Id, x: Question)
    requires Valid(q) && Logged(q, log) && id !in log && !AnyShown(q.entries, x.unit.run) && !x.shown && x.arrival == q.nextSeq
    ensures var e := q.entries[id := x];
            IsNext(e, id, x.unit.run) && ArrivalsDistinct(e) && forall y :: Of(e, y, x.unit.run) ==> y == id
  {
    var e := q.entries[id := x];
    forall y ensures Of(e, y, x.unit.run) ==> y == id {
      NoneOf(q, x.unit.run, y);
    }
  }

  lemma {:induction false} LoggedStep(h: History, c: Command)
    requires Logged(h.queue, h.log) && Legal(h.queue, h.log.Keys, c)
    ensures Logged(Do(h, c).queue, Do(h, c).log)
  {
  }

  lemma CloseLink(t: seq<Event>, q: Queue, log: map<Id, Ticket>, id: Id, reason: Reason, run: Run)
    requires Linked(t, q.entries, log, run) && Valid(q) && Logged(q, log)
    ensures var (u, events) := Step(q, CloseAsk(id, reason)); Linked(t + Only(events, run), u.entries, log, run)
  {
    assert t + [] == t;
    if (reason.Timeout? || reason.Teardown?) && id in q.entries {
      if q.entries[id].shown {
        TakeShownLink(t, q, log, id, Action.Cancel, reason, None, run);
      } else {
        LinkKeep(t, q.entries, q.entries - {id}, log, run);
      }
    }
  }

  lemma ResolveLink(t: seq<Event>, q: Queue, log: map<Id, Ticket>, c: Command, run: Run)
    requires Linked(t, q.entries, log, run) && Valid(q) && Logged(q, log) && c.ResolveAsk?
    ensures var (u, events) := Step(q, c); Linked(t + Only(events, run), u.entries, log, run)
  {
    assert t + [] == t;
    if Shown(q.entries, c.id, c.run) && !c.action.Unknown? {
      var answer := if c.action.Accept? then AnswerTo(q.entries[c.id].request, c.response, c.codec) else None;
      TakeShownLink(t, q, log, c.id, c.action, Human, answer, run);
    }
  }

  lemma StepLink(h: History, c: Command, run: Run)
    requires Tidy(h) && Legal(h.queue, h.log.Keys, c)
    ensures Linked(Only(Do(h, c).trace, run), Do(h, c).queue.entries, Do(h, c).log, run)
  {
    var q, log := h.queue, h.log;
    var t := Only(h.trace, run);
    OnlyConcat(h.trace, Step(q, c).1, run);
    assert Linked(t, q.entries, log, run);
    match c
    case OpenAsk(id, unit, request) => OpenLink(t, q, log, id, unit, request, run);
    case CloseAsk(id, reason) => CloseLink(t, q, log, id, reason, run);
    case CloseUnit(r, ord, attempt, order) => CloseAttemptLink(t, q, log, r, ord, attempt, order, run);
    case EndRun(r, order) => TearLink(t, q, log, OfRun(q.entries, r), order, run);
    case ResolveAsk(_, _, _, _, _) => ResolveLink(t, q, log, c, run);
    case Shutdown(order) =>
      TearLink(t, q, log, q.entries.Keys, order, run);
      assert q.entries - q.entries.Keys == map[];
  }

  /** Over any legal sequence of commands: a run with a question shows exactly one, the first of its run to have
      arrived; each run's events alternate shown/resolved over the same question, in order of arrival; the last
      event shows the question that is still shown. */
  lemma {:induction false} AlwaysTidy(cs: seq<Command>)
    requires LegalRun(cs)
    ensures Tidy(After(cs))
  {
    if cs != [] {
      var before := cs[..|cs| - 1];
      var h, c := After(before), cs[|cs| - 1];
      AlwaysTidy(before);
      StepValid(h.queue, h.log.Keys, c);
      LoggedStep(h, c);
      forall run ensures Linked(Only(After(cs).trace, run), After(cs).queue.entries, After(cs).log, run) {
        StepLink(h, c, run);
      }
    }
  }

  /** The question event `i` is about was shown at the even position at or before it. */
  lemma AboutShown(t: seq<Event>, log: map<Id, Ticket>, run: Run, i: nat) returns (a: nat)
    requires Alternates(t, log, run) && i < |t|
    ensures Showing(t, a, log, run) && t[a].id == t[i].id && a == i - i % 2
    ensures if i % 2 == 0 then t[i].Created? else t[i].Resolved?
  {
    if i % 2 == 0 {
      assert Showing(t, i, log, run);
      a := i;
    } else {
      assert Resolving(t, i) && Showing(t, i - 1, log, run);
      a := i - 1;
    }
  }

  /** An operator sees each question shown at most once and resolved at most once, right after it was shown. */
  lemma SeenOnce(cs: seq<Command>, run: Run, i: nat, j: nat)
    requires LegalRun(cs)
    requires var t := Only(After(cs).trace, run); i < j < |t| && t[i].id == t[j].id
    ensures var t := Only(After(cs).trace, run); t[i].Created? && t[j].Resolved? && j == i + 1
  {
    AlwaysTidy(cs);
    var h := After(cs);
    var t := Only(h.trace, run);
    assert Linked(t, h.queue.entries, h.log, run);
    var a := AboutShown(t, h.log, run, i);
    var b := AboutShown(t, h.log, run, j);
    assert a == b;
  }

  ghost predicate Mentions(trace: seq<Event>, id: Id) {
    exists i :: 0 <= i < |trace| && trace[i].id == id
  }

  /** A question that left the table without being shown is never seen, whatever comes after. */
  lemma {:induction false} DroppedUnseen(cs: seq<Command>, more: seq<Command>, id: Id)
    requires LegalRun(cs + more)
    requires var h := After(cs); id in h.log && id !in h.queue.entries && !Mentions(h.trace, id)
    ensures var h := After(cs + more); id in h.log && id !in h.queue.entries && !Mentions(h.trace, id)
  {
    if more == [] {
      assert cs + more == cs;
    } else {
      var k := |more| - 1;
      assert (cs + more)[..|cs + more| - 1] == cs + more[..k];
      DroppedUnseen(cs, more[..k], id);
      AlwaysTidy(cs + more[..k]);
      StepMentions(After(cs + more[..k]).queue, more[k], id);
    }
  }

  lemma {:induction false} TeardownsMention(entries: Entries, order: seq<Id>, id: Id)
    requires id !in entries
    ensures !Mentions(Teardowns(entries, order), id)
  {
    if order != [] {
      TeardownsMention(entries, order[1..], id);
    }
  }

  /** A step speaks only of questions in the table, and the one it opens. */
  lemma StepMentions(q: Queue, c: Command, id: Id)
    requires id !in q.entries && !(c.OpenAsk? && c.id == id)
    ensures id !in Step(q, c).0.entries && !Mentions(Step(q, c).1, id)
  {
    match c
    case CloseUnit(_, _, _, order) => TeardownsMention(q.entries, order, id);
    case EndRun(_, order) => TeardownsMention(q.entries, order, id);
    case Shutdown(order) => TeardownsMention(q.entries, order, id);
    case _ =>
  }

  // ── what a resolution says ──────────────────────────────────────────────────

  /** What a human's acceptance records: of a question for one answer, the response's text; of a multi-select
      question, its picks in the order of its choices, each once and as many as it allows. */
  ghost predicate AcceptedAs(r: AskAnswer.Request, response: Option<AskAnswer.Json>, codec: AskAnswer.Codec, answer: Option<AskAnswer.Text>) {
    answer.Some? && response.Some? &&
    if r.multi.None? then response.value == AskAnswer.JText(answer.value)
    else
      var choices := if r.choices.Some? then r.choices.value else [];
      var p := AskAnswer.Picks(response, codec);
      AskAnswer.Distinct(choices) ==>
        p.Some? && AskAnswer.Distinct(p.value) && (forall x :: x in p.value ==> x in choices) &&
        AskAnswer.LowBound(r.multi.value) <= |p.value| <= AskAnswer.HighBound(r.multi.value, 0xFFFF_FFFF) &&
        answer.value == codec.show(AskAnswer.Matching(choices, p.value))
  }

  /** A resolution and the command that brought it: a human's own action, with an answer exactly when it
      accepts; a timeout or a teardown of one question under its own reason; else a teardown. */
  ghost predicate BroughtBy(e: Event, c: Command, r: AskAnswer.Request)
    requires e.Resolved?
  {
    match c
    case ResolveAsk(run, id, action, response, codec) =>
      e.run == run && e.id == id && e.reason.Human? && e.action == action && !action.Unknown? &&
      if action.Accept? then AcceptedAs(r, response, codec, e.answer) else e.answer.None?
    case CloseAsk(id, reason) =>
      e.id == id && (reason.Timeout? || reason.Teardown?) && e.reason == reason && e.action == Action.Cancel && e.answer.None?
    case CloseUnit(run, _, _, _) => e.run == run && e.reason.Teardown? && e.action == Action.Cancel && e.answer.None?
    case EndRun(run, _) => e.run == run && e.reason.Teardown? && e.action == Action.Cancel && e.answer.None?
    case Shutdown(_) => e.reason.Teardown? && e.action == Action.Cancel && e.answer.None?
    case OpenAsk(_, _, _) => false
  }

  lemma {:induction false} TeardownsSay(entries: Entries, order: seq<Id>, e: Event)
    requires e in Teardowns(entries, order)
    ensures e.Resolved? && e.id in order && e.id in entries && e.run == entries[e.id].unit.run &&
            e.reason.Teardown? && e.action == Action.Cancel && e.answer.None?
  {
    if e in Teardowns(entries, order[1..]) {
      TeardownsSay(entries, order[1..], e);
    }
  }

  lemma AnswerSays(r: AskAnswer.Request, response: Option<AskAnswer.Json>, codec: AskAnswer.Codec)
    ensures AnswerTo(r, response, codec).Some? ==> AcceptedAs(r, response, codec, AnswerTo(r, response, codec))
  {
    if r.multi.Some? {
      var choices := if r.choices.Some? then r.choices.value else [];
      if AskAnswer.Distinct(choices) {
        AskAnswer.RecordedIff(choices, r.multi.value, response, codec);
      }
    }
  }

  /** One step: each resolution is of a question in the table, and says what its command means. */
  lemma StepSays(q: Queue, issued: set<Id>, c: Command, e: Event)
    requires Legal(q, issued, c) && e in Step(q, c).1 && e.Resolved?
    ensures e.id in q.entries && e.run == q.entries[e.id].unit.run && BroughtBy(e, c, q.entries[e.id].request)
  {
    hide AcceptedAs, AnswerTo;
    match c
    case ResolveAsk(run, id, action, response, codec) => ResolveSays(q, run, id, action, response, codec, e);
    case CloseUnit(run, ord, attempt, order) => TeardownsOnly(q, c, order, e);
    case EndRun(run, order) => TeardownsOnly(q, c, order, e);
    case Shutdown(order) => TeardownsOnly(q, c, order, e);
    case _ =>
  }

  lemma TeardownsOnly(q: Queue, c: Command, order: seq<Id>, e: Event)
    requires e in Step(q, c).1 && e.Resolved? && (c.CloseUnit? || c.EndRun? || c.Shutdown?) && order == c.order
    ensures e in Teardowns(q.entries, order)
    ensures e.id in order && e.id in q.entries && e.run == q.entries[e.id].unit.run && e.reason.Teardown? && e.action == Action.Cancel && e.answer.None?
  {
    assert e in Teardowns(q.entries, order);
    TeardownsSay(q.entries, order, e);
  }

  lemma ResolveSays(q: Queue, run: Run, id: Id, action: Action, response: Option<AskAnswer.Json>, codec: AskAnswer.Codec, e: Event)
    requires e in Resolve(q, run, id, action, response, codec).1 && e.Resolved?
    ensures e.id in q.entries && e.run == q.entries[e.id].unit.run
    ensures BroughtBy(e, ResolveAsk(run, id, action, response, codec), q.entries[e.id].request)
  {
    hide AcceptedAs, AnswerTo;
    AnswerSays(q.entries[id].request, response, codec);
  }

  /** Over any legal sequence of commands: every resolution an operator sees was brought by one of the commands,
      and says what that command means for the question as it was admitted. */
  lemma {:induction false} ResolvedSays(cs: seq<Command>, e: Event) returns (k: nat)
    requires LegalRun(cs) && e in After(cs).trace && e.Resolved?
    ensures k < |cs| && e.id in After(cs).log && After(cs).log[e.id].run == e.run
    ensures BroughtBy(e, cs[k], After(cs).log[e.id].request)
  {
    var n := |cs| - 1;
    var h := After(cs[..n]);
    if e in h.trace {
      k := ResolvedSays(cs[..n], e);
      assert cs[..n][k] == cs[k];
    } else {
      k := n;
      AlwaysTidy(cs[..n]);
      StepSays(h.queue, h.log.Keys, cs[n], e);
    }
  }

  /** A decline, a cancel, a timeout and a teardown of the question shown are seen too, and end it. */
  lemma EndSeen(q: Queue, run: Run, id: Id, action: Action, response: Option<AskAnswer.Json>, codec: AskAnswer.Codec, reason: Reason)
    requires Shown(q.entries, id, run) && (action.Decline? || action.Cancel?) && (reason.Timeout? || reason.Teardown?)
    ensures var (u, events, reply) := Resolve(q, run, id, action, response, codec);
            reply.Done? && events != [] && events[0] == Resolved(run, id, action, Human, None) && id !in u.entries
    ensures var (u, events) := Close(q, id, reason);
            events.Some? && events.value != [] && events.value[0] == Resolved(run, id, Action.Cancel, reason, None) && id !in u.entries
  {
  }

  /** And an answer that is taken is seen: it is the next event of its question. */
  lemma AcceptSeen(q: Queue, run: Run, id: Id, response: Option<AskAnswer.Json>, codec: AskAnswer.Codec)
    requires Shown(q.entries, id, run) && q.entries[id].request.multi.None?
    ensures var (u, events, reply) := Resolve(q, run, id, Accept, response, codec);
            (reply.Done? <==> response.Some? && response.value.JText?) &&
            (reply.Done? ==> events != [] && events[0] == Resolved(run, id, Accept, Human, Some(response.value.text)) && id !in u.entries) &&
            (!reply.Done? ==> u == q && events == [])
  {
  }
}
