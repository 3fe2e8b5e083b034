/** Operator questions: one per run is shown at a time, the others queue in order of arrival. */
module AskQueue {
  import opened Names
  import AskAnswer

  type Id = string
  type Run = string

  /** The unit attempt that asks. */
  datatype Unit = Unit(run: Run, ord: nat, attempt: nat, seat: string)

  datatype Question = Question(unit: Unit, request: AskAnswer.Request, shown: bool, arrival: nat)

  type Entries = map<Id, Question>

  datatype Queue = Queue(entries: Entries, nextSeq: nat)

  datatype Action = Accept | Decline | Cancel | Unknown

  datatype Reason = Human | Timeout | Teardown | Other

  datatype Event =
    | Created(run: Run, id: Id, request: AskAnswer.Request)
    | Resolved(run: Run, id: Id, action: Action, reason: Reason, answer: Option<AskAnswer.Text>)

  // ── the queue's steps ───────────────────────────────────────────────────────

  predicate Of(entries: Entries, id: Id, run: Run) {
    id in entries && entries[id].unit.run == run
  }

  predicate Shown(entries: Entries, id: Id, run: Run) {
    Of(entries, id, run) && entries[id].shown
  }

  predicate Waiting(entries: Entries, id: Id, run: Run) {
    Of(entries, id, run) && !entries[id].shown
  }

  ghost predicate AnyShown(entries: Entries, run: Run) {
    exists id :: Shown(entries, id, run)
  }

  /** The waiting question of `run` that arrived first. */
  ghost predicate IsNext(entries: Entries, id: Id, run: Run) {
    Waiting(entries, id, run) && forall x :: Waiting(entries, x, run) ==> entries[id].arrival <= entries[x].arrival
  }

  function Created1(id: Id, q: Question): Event {
    Created(q.unit.run, id, q.request)
  }

  ghost predicate HasNext(entries: Entries, run: Run) {
    exists id :: IsNext(entries, id, run)
  }

  ghost function Next(entries: Entries, run: Run): (id: Id)
    requires HasNext(entries, run)
    ensures IsNext(entries, id, run)
  {
    var id :| IsNext(entries, id, run);
    id
  }

  /** Show the next waiting question of `run`, if there is one. */
  ghost function Promote(entries: Entries, run: Run): (Entries, seq<Event>) {
    if !HasNext(entries, run) then (entries, [])
    else
      var id := Next(entries, run);
      (entries[id := entries[id].(shown := true)], [Created1(id, entries[id])])
  }

  ghost function Open(q: Queue, id: Id, unit: Unit, request: AskAnswer.Request): (Queue, seq<Event>) {
    var x := Question(unit, request, !AnyShown(q.entries, unit.run), q.nextSeq);
    (Queue(q.entries[id := x], q.nextSeq + 1), if x.shown then [Created1(id, x)] else [])
  }

  function End(id: Id, x: Question, action: Action, reason: Reason, answer: Option<AskAnswer.Text>): Event {
    Resolved(x.unit.run, id, action, reason, answer)
  }

  /** Take out a shown question: it is resolved, and the run's next one is shown. */
  ghost function TakeShown(q: Queue, id: Id, action: Action, reason: Reason, answer: Option<AskAnswer.Text>): (Queue, seq<Event>)
    requires id in q.entries
  {
    var x := q.entries[id];
    var (rest, events) := Promote(q.entries - {id}, x.unit.run);
    (q.(entries := rest), [End(id, x, action, reason, answer)] + events)
  }

  /** A timeout or a teardown of one question; a waiting one goes unseen. `None`: there was nothing to close. */
  ghost function Close(q: Queue, id: Id, reason: Reason): (Queue, Option<seq<Event>>) {
    if !(reason.Timeout? || reason.Teardown?) || id !in q.entries then (q, None)
    else if q.entries[id].shown then
      var (u, events) := TakeShown(q, id, Action.Cancel, reason, None);
      (u, Some(events))
    else (q.(entries := q.entries - {id}), Some([]))
  }

  ghost function OfAttempt(entries: Entries, run: Run, ord: nat, attempt: nat): set<Id> {
    set id | id in entries && entries[id].unit.run == run && entries[id].unit.ord == ord && entries[id].unit.attempt == attempt
  }

  ghost function OfRun(entries: Entries, run: Run): set<Id> {
    set id | id in entries && entries[id].unit.run == run
  }

  /** The resolutions of the shown questions among `ids`, in some order of the table. */
  function Teardowns(entries: Entries, ids: seq<Id>): seq<Event> {
    if ids == [] then []
    else (if ids[0] in entries && entries[ids[0]].shown then [End(ids[0], entries[ids[0]], Action.Cancel, Teardown, None)] else [])
         + Teardowns(entries, ids[1..])
  }

  /** `order`: the order in which the table lists the removed entries. */
  ghost function CloseAttempt(q: Queue, run: Run, ord: nat, attempt: nat, order: seq<Id>): (Queue, seq<Event>) {
    var ended := Teardowns(q.entries, order);
    var rest := q.entries - OfAttempt(q.entries, run, ord, attempt);
    if ended == [] then (q.(entries := rest), [])
    else
      var (promoted, events) := Promote(rest, run);
      (q.(entries := promoted), ended + events)
  }

  ghost function CloseRun(q: Queue, run: Run, order: seq<Id>): (Queue, seq<Event>) {
    (q.(entries := q.entries - OfRun(q.entries, run)), Teardowns(q.entries, order))
  }

  function Drain(q: Queue, order: seq<Id>): (Queue, seq<Event>) {
    (q.(entries := map[]), Teardowns(q.entries, order))
  }

  /** The answer of an accepted question: a list of its choices, or any text. */
  function AnswerTo(request: AskAnswer.Request, response: Option<AskAnswer.Json>, codec: AskAnswer.Codec): Option<AskAnswer.Text> {
    if request.multi.Some? then
      var choices := if request.choices.Some? then request.choices.value else [];
      match AskAnswer.MultiAnswer(choices, request.multi.value, response, codec)
      case Recorded(t) => Some(t)
      case _ => None
    else
      match response
      case Some(JText(t)) => Some(t)
      case _ => None
  }

  datatype Reply = Done | NotShown | Refused

  /** A human's answer to the question shown under `id`; a refused one changes nothing. */
  ghost function Resolve(q: Queue, run: Run, id: Id, action: Action, response: Option<AskAnswer.Json>, codec: AskAnswer.Codec): (Queue, seq<Event>, Reply) {
    if !Shown(q.entries, id, run) then (q, [], NotShown)
    else if action.Unknown? then (q, [], Refused)
    else if !action.Accept? then
      var (u, events) := TakeShown(q, id, action, Human, None);
      (u, events, Done)
    else
      var answer := AnswerTo(q.entries[id].request, response, codec);
      if answer.None? then (q, [], Refused)
      else
        var (u, events) := TakeShown(q, id, action, Human, answer);
        (u, events, Done)
  }

  // ── what every step keeps ───────────────────────────────────────────────────

  ghost predicate ArrivalsPast(entries: Entries, nextSeq: nat) {
    forall id :: id in entries ==> entries[id].arrival < nextSeq
  }

  ghost predicate ArrivalsDistinct(entries: Entries) {
    forall id, x :: id in entries && x in entries && id != x ==> entries[id].arrival != entries[x].arrival
  }

  /** A shown question is its run's only shown one, and the first of its run to have arrived. */
  ghost predicate ShownFirst(entries: Entries) {
    forall id, x :: id in entries && entries[id].shown && Of(entries, x, entries[id].unit.run) && x != id ==>
      !entries[x].shown && entries[id].arrival < entries[x].arrival
  }

  /** A run with a question shows one. */
  ghost predicate RunsShow(entries: Entries) {
    forall id :: id in entries ==> AnyShown(entries, entries[id].unit.run)
  }

  /** Arrivals are distinct and past; a run with a question shows exactly one, the first to arrive. */
  ghost predicate Valid(q: Queue) {
    ArrivalsPast(q.entries, q.nextSeq) && ArrivalsDistinct(q.entries) && ShownFirst(q.entries) && RunsShow(q.entries)
  }

  datatype Command =
    | OpenAsk(id: Id, unit: Unit, request: AskAnswer.Request)
    | CloseAsk(id: Id, reason: Reason)
    | CloseUnit(run: Run, ord: nat, attempt: nat, order: seq<Id>)
    | EndRun(run: Run, order: seq<Id>)
    | ResolveAsk(run: Run, id: Id, action: Action, response: Option<AskAnswer.Json>, codec: AskAnswer.Codec)
    | Shutdown(order: seq<Id>)

  ghost function Step(q: Queue, c: Command): (Queue, seq<Event>) {
    match c
    case OpenAsk(id, unit, request) => Open(q, id, unit, request)
    case CloseAsk(id, reason) =>
      var (u, events) := Close(q, id, reason);
      (u, if events.Some? then events.value else [])
    case CloseUnit(run, ord, attempt, order) => CloseAttempt(q, run, ord, attempt, order)
    case EndRun(run, order) => CloseRun(q, run, order)
    case ResolveAsk(run, id, action, response, codec) => var (u, events, _) := Resolve(q, run, id, action, response, codec); (u, events)
    case Shutdown(order) => Drain(q, order)
  }

  /** `ids` lists `s` once each. */
  ghost predicate Lists(ids: seq<Id>, s: set<Id>) {
    (forall id :: id in ids <==> id in s) && forall i, j :: 0 <= i < j < |ids| ==> ids[i] != ids[j]
  }

  /** A new question has a new id, and a table is listed entry by entry. */
  ghost predicate Legal(q: Queue, issued: set<Id>, c: Command) {
    (c.OpenAsk? ==> c.id !in issued) &&
    (c.CloseUnit? ==> Lists(c.order, OfAttempt(q.entries, c.run, c.ord, c.attempt))) &&
    (c.EndRun? ==> Lists(c.order, OfRun(q.entries, c.run))) &&
    (c.Shutdown? ==> Lists(c.order, q.entries.Keys))
  }

  /** A nonempty set of questions has a first. */
  lemma {:induction false} FirstExists(entries: Entries, s: set<Id>) returns (id: Id)
    requires s != {} && s <= entries.Keys
    ensures id in s && forall x :: x in s ==> entries[id].arrival <= entries[x].arrival
    decreases s
  {
    var y :| y in s;
    var rest := s - {y};
    assert s == rest + {y};
    if rest == {} {
      id := y;
    } else {
      var z := FirstExists(entries, rest);
      id := if entries[y].arrival <= entries[z].arrival then y else z;
    }
  }

  lemma NextExists(entries: Entries, id: Id, run: Run)
    requires Waiting(entries, id, run)
    ensures HasNext(entries, run)
  {
    var s := set x | x in entries && Waiting(entries, x, run);
    assert id in s;
    var f := FirstExists(entries, s);
    assert IsNext(entries, f, run);
  }

  /** All clauses but that `run` shows a question. */
  ghost predicate ValidBut(entries: Entries, nextSeq: nat, run: Run) {
    ArrivalsPast(entries, nextSeq) && ArrivalsDistinct(entries) && ShownFirst(entries) &&
    forall id :: id in entries && entries[id].unit.run != run ==> AnyShown(entries, entries[id].unit.run)
  }

  /** Promotion restores the run that lost its shown question. */
  lemma PromoteValid(entries: Entries, nextSeq: nat, run: Run)
    requires ValidBut(entries, nextSeq, run) && !AnyShown(entries, run)
    ensures Valid(Queue(Promote(entries, run).0, nextSeq))
  {
    var after := Promote(entries, run).0;
    if HasNext(entries, run) {
      var n := Next(entries, run);
      assert Shown(after, n, run);
      forall id | id in after ensures AnyShown(after, after[id].unit.run) {
        if after[id].unit.run != run {
          var x :| Shown(entries, x, entries[id].unit.run);
          assert Shown(after, x, after[id].unit.run);
        }
      }
      forall id, x | id in after && after[id].shown && Of(after, x, after[id].unit.run) && x != id
        ensures !after[x].shown && after[id].arrival < after[x].arrival
      {
        if id == n {
          assert !Shown(entries, x, run);
          assert Waiting(entries, x, run);
        } else if x == n {
          assert Shown(entries, id, run);
        } else {
          assert Of(entries, x, entries[id].unit.run);
        }
      }
    } else {
      forall id | id in after ensures AnyShown(after, after[id].unit.run) {
        if after[id].unit.run == run {
          assert !Shown(entries, id, run);
          NextExists(entries, id, run);
        }
      }
    }
  }

  /** Taking entries away, where each run that keeps one keeps its shown one or is `run`. */
  lemma RemoveValid(q: Queue, gone: set<Id>, run: Run)
    requires Valid(q)
    requires forall id :: id in gone && id in q.entries ==> q.entries[id].unit.run == run
    ensures ValidBut(q.entries - gone, q.nextSeq, run)
    ensures !AnyShown(q.entries - gone, run) || Valid(q.(entries := q.entries - gone))
  {
    var rest := q.entries - gone;
    forall id | id in rest && rest[id].unit.run != run ensures AnyShown(rest, rest[id].unit.run) {
      var x :| Shown(q.entries, x, q.entries[id].unit.run);
      assert Shown(rest, x, rest[id].unit.run);
    }
    forall id, x | id in rest && rest[id].shown && Of(rest, x, rest[id].unit.run) && x != id
      ensures !rest[x].shown && rest[id].arrival < rest[x].arrival
    {
      assert Of(q.entries, x, q.entries[id].unit.run);
    }
  }

  /** Opening, closing, resolving and draining keep the queue valid. */
  lemma TakeShownValid(q: Queue, id: Id, action: Action, reason: Reason, answer: Option<AskAnswer.Text>)
    requires Valid(q) && id in q.entries && q.entries[id].shown
    ensures Valid(TakeShown(q, id, action, reason, answer).0)
  {
    var run := q.entries[id].unit.run;
    RemoveValid(q, {id}, run);
    assert !AnyShown(q.entries - {id}, run);
    PromoteValid(q.entries - {id}, q.nextSeq, run);
  }

  lemma OpenShows(q: Queue, id: Id, unit: Unit, request: AskAnswer.Request, x: Id)
    requires Valid(q) && id !in q.entries && x in Open(q, id, unit, request).0.entries
    ensures var after := Open(q, id, unit, request).0.entries; AnyShown(after, after[x].unit.run)
  {
    var after := Open(q, id, unit, request).0.entries;
    if after[id].shown && after[x].unit.run == unit.run {
      assert Shown(after, id, unit.run);
    } else {
      var s :| Shown(q.entries, s, after[x].unit.run);
      assert Shown(after, s, after[x].unit.run);
    }
  }

  lemma OpenOrders(q: Queue, id: Id, unit: Unit, request: AskAnswer.Request, x: Id, y: Id)
    requires Valid(q) && id !in q.entries && x != y
    requires var after := Open(q, id, unit, request).0.entries;
             x in after && after[x].shown && Of(after, y, after[x].unit.run)
    ensures var after := Open(q, id, unit, request).0.entries; !after[y].shown && after[x].arrival < after[y].arrival
  {
    assert Of(q.entries, y, unit.run) ==> AnyShown(q.entries, unit.run);
    if y == id {
      assert Shown(q.entries, x, unit.run);
    } else if x != id {
      assert Of(q.entries, y, q.entries[x].unit.run);
    }
  }

  lemma OpenValid(q: Queue, id: Id, unit: Unit, request: AskAnswer.Request)
    requires Valid(q) && id !in q.entries
    ensures Valid(Open(q, id, unit, request).0)
  {
    var u := Open(q, id, unit, request).0;
    assert RunsShow(u.entries) by {
      forall x | x in u.entries ensures AnyShown(u.entries, u.entries[x].unit.run) {
        OpenShows(q, id, unit, request, x);
      }
    }
    assert ShownFirst(u.entries) by {
      forall x, y | x in u.entries && u.entries[x].shown && Of(u.entries, y, u.entries[x].unit.run) && x != y
        ensures !u.entries[y].shown && u.entries[x].arrival < u.entries[y].arrival
      {
        OpenOrders(q, id, unit, request, x, y);
      }
    }
    assert ArrivalsPast(u.entries, u.nextSeq) && ArrivalsDistinct(u.entries);
  }

  /** The events of one run. */
  function Only(events: seq<Event>, run: Run): seq<Event> {
    if events == [] then []
    else (if events[0].run == run then [events[0]] else []) + Only(events[1..], run)
  }

  lemma {:induction false} OnlyConcat(a: seq<Event>, b: seq<Event>, run: Run)
    ensures Only(a + b, run) == Only(a, run) + Only(b, run)
  {
    if a == [] {
      assert a + b == b;
    } else {
      OnlyConcat(a[1..], b, run);
      assert (a + b)[1..] == a[1..] + b;
    }
  }

  function Torn(entries: Entries, id: Id): Event
    requires id in entries
  {
    End(id, entries[id], Action.Cancel, Teardown, None)
  }

  lemma {:induction false} TeardownsNone(entries: Entries, order: seq<Id>, run: Run)
    requires forall id :: id in order ==> !Shown(entries, id, run)
    ensures Only(Teardowns(entries, order), run) == []
  {
    if order != [] {
      assert order[0] in order;
      var head := if order[0] in entries && entries[order[0]].shown then [Torn(entries, order[0])] else [];
      TeardownsNone(entries, order[1..], run);
      OnlyConcat(head, Teardowns(entries, order[1..]), run);
      assert Only(head, run) == [];
    }
  }

  lemma {:induction false} TeardownsOne(entries: Entries, order: seq<Id>, run: Run, s: Id)
    requires s in order && Shown(entries, s, run) && forall i, j :: 0 <= i < j < |order| ==> order[i] != order[j]
    requires forall id :: id in order && id != s ==> !Shown(entries, id, run)
    ensures Only(Teardowns(entries, order), run) == [Torn(entries, s)]
  {
    var rest := order[1..];
    var head := if order[0] in entries && entries[order[0]].shown then [Torn(entries, order[0])] else [];
    OnlyConcat(head, Teardowns(entries, rest), run);
    if order[0] == s {
      assert s !in rest;
      TeardownsNone(entries, rest, run);
      assert Only(head, run) == [Torn(entries, s)];
    } else {
      TeardownsOne(entries, rest, run, s);
      assert order[0] in order;
      assert Only(head, run) == [];
    }
  }

  lemma {:induction false} TeardownsShown(entries: Entries, order: seq<Id>) returns (s: Id)
    requires Teardowns(entries, order) != []
    ensures s in order && s in entries && entries[s].shown
  {
    if order[0] in entries && entries[order[0]].shown {
      s := order[0];
    } else {
      s := TeardownsShown(entries, order[1..]);
    }
  }

  lemma CloseAttemptValid(q: Queue, run: Run, ord: nat, attempt: nat, order: seq<Id>)
    requires Valid(q) && Lists(order, OfAttempt(q.entries, run, ord, attempt))
    ensures Valid(CloseAttempt(q, run, ord, attempt, order).0)
  {
    var gone := OfAttempt(q.entries, run, ord, attempt);
    var rest := q.entries - gone;
    RemoveValid(q, gone, run);
    if Teardowns(q.entries, order) == [] {
      if AnyShown(q.entries, run) {
        var s :| Shown(q.entries, s, run);
        if s in gone {
          TeardownsOne(q.entries, order, run, s);
        }
        assert Shown(rest, s, run);
      }
    } else {
      var s := TeardownsShown(q.entries, order);
      assert Shown(q.entries, s, run);
      assert forall x :: Of(q.entries, x, run) && x != s ==> !q.entries[x].shown;
      assert !AnyShown(rest, run);
      PromoteValid(rest, q.nextSeq, run);
    }
  }

  lemma CloseRunValid(q: Queue, run: Run, order: seq<Id>)
    requires Valid(q)
    ensures Valid(CloseRun(q, run, order).0)
  {
    RemoveValid(q, OfRun(q.entries, run), run);
  }

  /** Every legal command keeps the queue valid. */
  lemma StepValid(q: Queue, issued: set<Id>, c: Command)
    requires Valid(q) && q.entries.Keys <= issued && Legal(q, issued, c)
    ensures Valid(Step(q, c).0)
  {
    match c
    case OpenAsk(id, unit, request) => OpenValid(q, id, unit, request);
    case CloseAsk(id, reason) =>
      if (reason.Timeout? || reason.Teardown?) && id in q.entries {
        if q.entries[id].shown {
          TakeShownValid(q, id, Action.Cancel, reason, None);
        } else {
          DropValid(q, id);
        }
      }
    case CloseUnit(run, ord, attempt, order) => CloseAttemptValid(q, run, ord, attempt, order);
    case EndRun(run, order) => CloseRunValid(q, run, order);
    case ResolveAsk(run, id, action, response, codec) =>
      if Shown(q.entries, id, run) && !action.Unknown? {
        TakeShownValid(q, id, action, Human, if action.Accept? then AnswerTo(q.entries[id].request, response, codec) else None);
      }
    case Shutdown(order) =>
  }

  lemma DropValid(q: Queue, id: Id)
    requires Valid(q) && id in q.entries && !q.entries[id].shown
    ensures Valid(q.(entries := q.entries - {id}))
  {
    var run := q.entries[id].unit.run;
    RemoveValid(q, {id}, run);
    var s :| Shown(q.entries, s, run);
    assert Shown(q.entries - {id}, s, run);
  }
}
