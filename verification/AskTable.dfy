/** The table of open questions, entry by entry: which commands put a question in, and which take it out. */
module AskTable {
  import opened Names
  import AskAnswer
  import opened AskQueue

  /** The command takes `id` out: a timeout or a teardown of it, the end of its attempt or of its run, an answer that is
      taken while it is shown, or a shutdown. */
  ghost predicate TakesOut(q: Queue, c: Command, id: Id)
    requires id in q.entries
  {
    var x := q.entries[id];
    match c
    case OpenAsk(_, _, _) => false
    case CloseAsk(i, reason) => i == id && (reason == Timeout || reason == Teardown)
    case CloseUnit(run, ord, attempt, _) => x.unit.run == run && x.unit.ord == ord && x.unit.attempt == attempt
    case EndRun(run, _) => x.unit.run == run
    case ResolveAsk(run, i, action, response, codec) =>
      i == id && x.unit.run == run && x.shown &&
      (action == Decline || action == Action.Cancel || (action == Accept && Accepts(x.request, response, codec)))
    case Shutdown(_) => true
  }

  /** Free text: any text. A multi-select: what its own rule records. */
  predicate Accepts(request: AskAnswer.Request, response: Option<AskAnswer.Json>, codec: AskAnswer.Codec) {
    match request.multi
    case None => response.Some? && response.value.JText?
    case Some(m) => AskAnswer.MultiAnswer(if request.choices.Some? then request.choices.value else [], m, response, codec).Recorded?
  }

  /** Only whether a question is shown may change, and only from waiting to shown. */
  ghost predicate SameQuestion(x: Question, y: Question) {
    y.unit == x.unit && y.request == x.request && y.arrival == x.arrival && (x.shown ==> y.shown)
  }

  lemma PromoteKeeps(entries: Entries, run: Run)
    ensures var u := Promote(entries, run).0;
            u.Keys == entries.Keys && forall id :: id in entries ==> SameQuestion(entries[id], u[id])
  {
  }

  /** Every question that the command does not take out stays as it was asked, and in its place; a new one enters with its
      unit, its request and the next arrival number; nothing else enters. */
  lemma TakenIff(q: Queue, c: Command, id: Id)
    requires c.OpenAsk? ==> c.id !in q.entries
    ensures var u := Step(q, c).0;
            if id in q.entries then (id in u.entries <==> !TakesOut(q, c, id)) && (id in u.entries ==> SameQuestion(q.entries[id], u.entries[id]))
            else if c.OpenAsk? && c.id == id then
              id in u.entries && u.entries[id].unit == c.unit && u.entries[id].request == c.request && u.entries[id].arrival == q.nextSeq
            else id !in u.entries
    ensures Step(q, c).0.nextSeq == q.nextSeq + if c.OpenAsk? then 1 else 0
  {
    hide Promote, Teardowns;
    match c
    case OpenAsk(_, _, _) =>
    case CloseAsk(i, _) =>
      if i in q.entries {
        PromoteKeeps(q.entries - {i}, q.entries[i].unit.run);
      }
    case CloseUnit(run, ord, attempt, _) => PromoteKeeps(q.entries - OfAttempt(q.entries, run, ord, attempt), run);
    case ResolveAsk(run, i, _, _, _) =>
      if i in q.entries {
        PromoteKeeps(q.entries - {i}, q.entries[i].unit.run);
      }
    case _ =>
  }

  /** What a whole attempt leaves: its own questions are gone, no other attempt's. */
  lemma AttemptGone(q: Queue, run: Run, ord: nat, attempt: nat, order: seq<Id>, id: Id)
    requires id in q.entries
    ensures id in Step(q, CloseUnit(run, ord, attempt, order)).0.entries <==>
              q.entries[id].unit.run != run || q.entries[id].unit.ord != ord || q.entries[id].unit.attempt != attempt
  {
    TakenIff(q, CloseUnit(run, ord, attempt, order), id);
    hide Step;
  }

  // ── over any command sequence ───────────────────────────────────────────────

  ghost function After(q: Queue, cs: seq<Command>): Queue
    decreases |cs|
  {
    if cs == [] then q else After(Step(q, cs[0]).0, cs[1..])
  }

  /** No command of the sequence takes `id` out. */
  ghost predicate Spared(q: Queue, cs: seq<Command>, id: Id)
    decreases |cs|
  {
    cs == [] || (id in q.entries && !TakesOut(q, cs[0], id) && (cs[0].OpenAsk? ==> cs[0].id !in q.entries) && Spared(Step(q, cs[0]).0, cs[1..], id))
  }

  /** A question stays in the table, as it was asked, through any commands that do not take it out. */
  lemma {:induction false} StaysThroughout(q: Queue, cs: seq<Command>, id: Id)
    requires id in q.entries && Spared(q, cs, id)
    ensures id in After(q, cs).entries && SameQuestion(q.entries[id], After(q, cs).entries[id])
    decreases |cs|
  {
    hide Step, TakesOut;
    if cs != [] {
      TakenIff(q, cs[0], id);
      StaysThroughout(Step(q, cs[0]).0, cs[1..], id);
    }
  }
}
