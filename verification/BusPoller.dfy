/** The log as one object, and the poller that turns launch requests into runs. */
module BusPoller {
  import opened Names
  import opened Bus
  import opened BusFilter

  const RUN_REQUESTED := "wicked.crew.run.requested"
  const BATCH := 100

  // ── polling ─────────────────────────────────────────────────────────────────

  predicate Polls(row: Row, filter: string, after: nat, now: int) {
    row.id > after && row.expires > now && MatchesFilter(row.etype, row.domain, filter)
  }

  function Polled(rows: seq<Row>, filter: string, after: nat, now: int): (r: seq<Row>)
    ensures forall x :: x in r <==> x in rows && Polls(x, filter, after, now)
  {
    if rows == [] then [] else (if Polls(rows[0], filter, after, now) then [rows[0]] else []) + Polled(rows[1..], filter, after, now)
  }

  function Poll(log: Log, filter: string, after: nat, batch: nat, now: int): seq<Row> {
    AtMost(Polled(log.rows, filter, after, now), batch)
  }

  lemma ConsRise(row: Row, rest: seq<Row>)
    requires IdsRise(rest) && forall r :: r in rest ==> r.id > row.id
    ensures IdsRise([row] + rest)
  {
    var all := [row] + rest;
    forall i, j | 0 <= i < j < |all| ensures all[i].id < all[j].id {
      assert all[j] == rest[j - 1] && rest[j - 1] in rest;
    }
  }

  lemma TailRise(rows: seq<Row>)
    requires IdsRise(rows) && rows != []
    ensures IdsRise(rows[1..]) && forall r :: r in rows[1..] ==> r.id > rows[0].id
  {
  }

  lemma {:induction false} PolledRise(rows: seq<Row>, filter: string, after: nat, now: int)
    requires IdsRise(rows)
    ensures IdsRise(Polled(rows, filter, after, now))
  {
    if rows != [] {
      TailRise(rows);
      PolledRise(rows[1..], filter, after, now);
      var rest := Polled(rows[1..], filter, after, now);
      hide IdsRise, Polls;
      ConsRise(rows[0], rest);
      assert [] + rest == rest;
    } else {
      assert Polled(rows, filter, after, now) == [];
    }
  }

  lemma PolledStep(rows: seq<Row>, i: nat, filter: string, after: nat, now: int)
    requires i < |rows|
    ensures Polled(rows[i..], filter, after, now)
         == (if Polls(rows[i], filter, after, now) then [rows[i]] else []) + Polled(rows[i + 1..], filter, after, now)
  {
    hide Polls;
    assert rows[i..][1..] == rows[i + 1..];
  }

  lemma PolledNone(rows: seq<Row>, filter: string, after: nat, now: int)
    ensures Polled(rows[|rows|..], filter, after, now) == [] && rows[0..] == rows
  {
  }

  // ── the poller ──────────────────────────────────────────────────────────────

  /** What became of one request: launched, or a duplicate of a live run; dropped for good; to be retried; or the
      poller ends. */
  datatype Outcome = Handled | Dropped | Retry | Exit

  /** `settled`: the requests that were launched, deduplicated or dropped; `seen`: the time of the last poll. */
  datatype Poller = Poller(floor: nat, settled: set<nat>, seen: int, running: bool)

  predicate Settles(o: Outcome) {
    o.Handled? || o.Dropped?
  }

  /** One batch, in order, up to the first request that is not settled. */
  function Work(p: Poller, events: seq<Row>, outcome: nat -> Outcome): Poller
    decreases |events|
  {
    if events == [] then p
    else
      var id := events[0].id;
      if Settles(outcome(id)) then Work(p.(floor := id, settled := p.settled + {id}), events[1..], outcome)
      else if outcome(id).Exit? then p.(running := false)
      else p
  }

  /** One turn of the loop: a poll (empty when it fails), then its batch. */
  function Turn(p: Poller, log: Log, now: int, answered: bool, outcome: nat -> Outcome): Poller {
    if !p.running then p
    else if !answered then p
    else Work(p.(seen := now), Poll(log, RUN_REQUESTED, p.floor, BATCH, now), outcome)
  }

  predicate IsRequest(row: Row) {
    row.etype == RUN_REQUESTED
  }

  /** Every request after `start` and up to the floor was settled, or had expired by the last poll; and nothing
      beyond the floor was. */
  ghost predicate Covers(p: Poller, log: Log, start: nat) {
    start <= p.floor <= log.lastId && (forall id :: id in p.settled ==> id <= p.floor) &&
    forall row :: row in log.rows && IsRequest(row) && start < row.id <= p.floor ==> row.id in p.settled || row.expires <= p.seen
  }

  /** A request still to be settled. */
  predicate Due(p: Poller, row: Row) {
    IsRequest(row) && row.id > p.floor && row.expires > p.seen
  }

  /** `events` are all the requests that are due, up to the last of them. */
  ghost predicate AllDue(p: Poller, log: Log, events: seq<Row>) {
    IdsRise(events) && (forall e :: e in events ==> e in log.rows && e.id > p.floor) &&
    forall row :: row in log.rows && Due(p, row) && events != [] && row.id <= events[|events| - 1].id ==> row in events
  }

  lemma {:induction false} WorkCovers(p: Poller, log: Log, events: seq<Row>, outcome: nat -> Outcome, start: nat)
    requires Valid(log) && Covers(p, log, start) && AllDue(p, log, events)
    ensures Covers(Work(p, events, outcome), log, start)
    decreases |events|
  {
    if events != [] && Settles(outcome(events[0].id)) {
      var u := p.(floor := events[0].id, settled := p.settled + {events[0].id});
      OneMore(p, log, events, start);
      RestDue(p, u, log, events);
      WorkCovers(u, log, events[1..], outcome, start);
    }
  }

  lemma OneMore(p: Poller, log: Log, events: seq<Row>, start: nat)
    requires Valid(log) && Covers(p, log, start) && AllDue(p, log, events) && events != []
    ensures Covers(p.(floor := events[0].id, settled := p.settled + {events[0].id}), log, start)
  {
    var e := events[0];
    assert e in log.rows && e.id > p.floor;
    forall row | row in log.rows && IsRequest(row) && start < row.id <= e.id ensures row.id in p.settled + {e.id} || row.expires <= p.seen {
      assert row.id > p.floor && row.expires > p.seen ==> row in events;
    }
  }

  lemma RestDue(p: Poller, u: Poller, log: Log, events: seq<Row>)
    requires AllDue(p, log, events) && events != []
    requires u.seen == p.seen && u.floor == events[0].id
    ensures AllDue(u, log, events[1..])
  {
    var rest := events[1..];
    assert forall e :: e in events <==> e == events[0] || e in rest;
    assert forall e :: e in rest ==> e.id > events[0].id;
    assert events[0].id > p.floor;
    forall row | row in log.rows && Due(u, row) && rest != [] && row.id <= rest[|rest| - 1].id ensures row in rest {
      assert Due(p, row);
    }
  }

  lemma DuePolled(p: Poller, row: Row)
    ensures Due(p, row) <==> Polls(row, RUN_REQUESTED, p.floor, p.seen)
  {
    ExactFilter(row.etype, row.domain, RUN_REQUESTED);
  }

  /** What a poll returns is all that is due up to its last event. */
  lemma PollDue(p: Poller, log: Log)
    requires Valid(log)
    ensures AllDue(p, log, Poll(log, RUN_REQUESTED, p.floor, BATCH, p.seen))
  {
    var all := Polled(log.rows, RUN_REQUESTED, p.floor, p.seen);
    PolledRise(log.rows, RUN_REQUESTED, p.floor, p.seen);
    hide Polls, Due, Polled;
    forall row ensures Due(p, row) <==> Polls(row, RUN_REQUESTED, p.floor, p.seen) {
      DuePolled(p, row);
    }
    assert forall row :: row in all ==> row.id > p.floor by {
      DueAfter(p);
    }
    FirstDue(p, log, all, BATCH);
  }

  lemma DueAfter(p: Poller)
    ensures forall row :: Due(p, row) ==> row.id > p.floor
  {
  }

  lemma FirstDue(p: Poller, log: Log, all: seq<Row>, batch: nat)
    requires IdsRise(all) && forall row :: row in all ==> row in log.rows && row.id > p.floor
    requires forall row :: row in log.rows && Due(p, row) ==> row in all
    ensures AllDue(p, log, AtMost(all, batch))
  {
    hide Due;
    var events := AtMost(all, batch);
    assert events == all[..|events|];
    assert forall e :: e in events ==> e in all;
    forall row | row in log.rows && Due(p, row) && events != [] && row.id <= events[|events| - 1].id ensures row in events {
      InFront(all, |events|, row);
    }
  }

  /** In a rising list, what is no greater than the `n`-th row is among the first `n`. */
  lemma InFront(all: seq<Row>, n: nat, row: Row)
    requires IdsRise(all) && 0 < n <= |all| && row in all && row.id <= all[n - 1].id
    ensures row in all[..n]
  {
    var k :| 0 <= k < |all| && all[k] == row;
    assert k <= n - 1;
    assert all[..n][k] == row;
  }

  /** A later poll sees at least as much expired, and new rows are beyond the floor. */
  lemma CoversOn(p: Poller, was: Log, log: Log, start: nat, now: int)
    requires Covers(p, was, start) && Extends(was, log) && now >= p.seen
    ensures Covers(p.(seen := now), log, start) && Covers(p, log, start)
  {
    forall row | row in log.rows && IsRequest(row) && start < row.id <= p.floor ensures row.id in p.settled || row.expires <= p.seen {
      var i :| 0 <= i < |log.rows| && log.rows[i] == row;
      assert i < |was.rows| && was.rows[i] == row;
    }
  }

  lemma TurnCovers(p: Poller, was: Log, log: Log, start: nat, now: int, answered: bool, outcome: nat -> Outcome)
    requires Covers(p, was, start) && Valid(log) && Extends(was, log) && now >= p.seen
    ensures Covers(Turn(p, log, now, answered, outcome), log, start)
  {
    CoversOn(p, was, log, start, now);
    var q := p.(seen := now);
    PollDue(q, log);
    WorkCovers(q, log, Poll(log, RUN_REQUESTED, p.floor, BATCH, now), outcome, start);
  }

  // ── over any run of the loop ────────────────────────────────────────────────

  datatype Tick = Tick(log: Log, now: int, answered: bool, outcome: nat -> Outcome)

  function LastLog(ts: seq<Tick>, begin: Log): Log {
    if ts == [] then begin else ts[|ts| - 1].log
  }

  function LastNow(ts: seq<Tick>, since: int): int {
    if ts == [] then since else ts[|ts| - 1].now
  }

  /** Others append meanwhile, and the clock does not step back. */
  ghost predicate Ticks(ts: seq<Tick>, begin: Log, since: int) {
    ts == [] ||
    (var before, t := ts[..|ts| - 1], ts[|ts| - 1];
     Ticks(before, begin, since) && Valid(t.log) && Extends(LastLog(before, begin), t.log) && t.now >= LastNow(before, since))
  }

  function After(ts: seq<Tick>, start: nat, since: int): Poller {
    if ts == [] then Poller(start, {}, since, true)
    else
      var t := ts[|ts| - 1];
      Turn(After(ts[..|ts| - 1], start, since), t.log, t.now, t.answered, t.outcome)
  }

  lemma {:induction false} WorkSeen(p: Poller, events: seq<Row>, outcome: nat -> Outcome)
    ensures Work(p, events, outcome).seen == p.seen && Work(p, events, outcome).floor >= 0
    decreases |events|
  {
    if events != [] && Settles(outcome(events[0].id)) {
      WorkSeen(p.(floor := events[0].id, settled := p.settled + {events[0].id}), events[1..], outcome);
    }
  }

  /** At every turn of the loop, whatever failed on the way: every request committed after the start and up to the
      floor was launched, deduplicated or dropped for good, unless it had expired when it was polled; no request
      beyond the floor was. */
  lemma {:induction false} NeverSkips(ts: seq<Tick>, begin: Log, start: nat, since: int)
    requires Valid(begin) && start <= begin.lastId && Ticks(ts, begin, since)
    ensures Covers(After(ts, start, since), LastLog(ts, begin), start) && After(ts, start, since).seen <= LastNow(ts, since)
  {
    if ts != [] {
      var k := |ts| - 1;
      var before, t := ts[..k], ts[k];
      NeverSkips(before, begin, start, since);
      var p := After(before, start, since);
      TurnCovers(p, LastLog(before, begin), t.log, start, t.now, t.answered, t.outcome);
      WorkSeen(p.(seen := t.now), Poll(t.log, RUN_REQUESTED, p.floor, BATCH, t.now), t.outcome);
    }
  }

  /** A request that failed for a passing reason is the first of the next poll, unless it expires first. */
  lemma {:induction false} RetriedFirst(p: Poller, events: seq<Row>, outcome: nat -> Outcome, i: nat)
    requires IdsRise(events) && (forall e :: e in events ==> e.id > p.floor)
    requires i < |events| && !Settles(outcome(events[i].id)) && forall k :: 0 <= k < i ==> Settles(outcome(events[k].id))
    ensures var u := Work(p, events, outcome);
            u.floor < events[i].id && events[i].id !in u.settled - p.settled && u.running == (p.running && !outcome(events[i].id).Exit?) &&
            u.floor == if i == 0 then p.floor else events[i - 1].id
    decreases |events|
  {
    if i > 0 {
      var u := p.(floor := events[0].id, settled := p.settled + {events[0].id});
      var rest := events[1..];
      assert forall e :: e in rest ==> e in events && e.id > events[0].id;
      RetriedFirst(u, rest, outcome, i - 1);
    }
  }

  // ── as it is kept ───────────────────────────────────────────────────────────

  class BusDb {
    var rows: seq<Row>
    var lastId: nat

    ghost function L(): Log reads this {
      Log(rows, lastId)
    }

    constructor ()
      ensures L() == Bus.EMPTY
    {
      rows, lastId := [], 0;
    }

    method EmitOn(e: Event, now: int) returns (id: Option<nat>)
      modifies this
      ensures (L(), id) == Emit(old(L()), e, now)
    {
      if !Fits(e) {
        return None;
      }
      var holder := Holder(rows, e.key);
      if holder.Some? {
        return holder;
      }
      lastId := lastId + 1;
      rows := rows + [Row(lastId, e.etype, e.domain, e.subdomain, e.payload, e.key, now + e.ttl)];
      return Some(lastId);
    }

    method TailEventId() returns (tail: nat)
      ensures tail == Tail(L())
    {
      tail := if rows == [] then 0 else rows[|rows| - 1].id;
    }

    /** Row by row, until the batch is full. */
    method PollRows(filter: string, after: nat, batch: nat, now: int) returns (events: seq<Row>)
      requires batch > 0
      ensures events == Poll(L(), filter, after, batch, now)
    {
      hide Polls, Polled;
      events := [];
      PolledNone(rows, filter, after, now);
      for i := 0 to |rows|
        invariant |events| < batch
        invariant events + Polled(rows[i..], filter, after, now) == Polled(rows, filter, after, now)
      {
        PolledStep(rows, i, filter, after, now);
        if Polls(rows[i], filter, after, now) {
          events := events + [rows[i]];
          if |events| == batch {
            return;
          }
        }
      }
    }

    /** The scan for one launch's completion, past those of others. */
    method FindCompletedRow(floor: nat, now: int, run: string, launch: nat, read: string -> Option<Completion>) returns (found: Found)
      ensures found == FindCompleted(rows, floor, now, run, launch, read)
    {
      for i := 0 to |rows|
        invariant FindCompleted(rows[i..], floor, now, run, launch, read) == FindCompleted(rows, floor, now, run, launch, read)
      {
        assert rows[i..][1..] == rows[i + 1..];
        if Completes(rows[i], floor, now) {
          var c := read(rows[i].payload);
          if c.None? {
            return Corrupt(rows[i].id);
          }
          if c.value == Completion(Some(run), Some(launch)) {
            return FoundRow(rows[i]);
          }
        }
      }
      return Nothing;
    }

    /** One read: the tail, then the rows up to it. */
    method ReadPage(after: nat, limit: nat, want: Want) returns (page: Page)
      ensures page == ReadAfter(L(), L(), after, limit, want)
    {
      var lim := if limit > READ_LIMIT_MAX then READ_LIMIT_MAX else limit;
      var tail := TailEventId();
      if after > tail {
        return Page(0, []);
      }
      if lim == 0 {
        return Page(tail, []);
      }
      var found := [];
      for i := 0 to |rows|
        invariant found == Between(rows[..i], after, tail, want)
      {
        assert rows[..i + 1][..i] == rows[..i];
        if after < rows[i].id <= tail && Wanted(rows[i], want) {
          found := found + [rows[i]];
        }
      }
      assert rows[..|rows|] == rows;
      found := AtMost(found, lim);
      return Page(if |found| == lim then found[|found| - 1].id else tail, found);
    }
  }

  class LaunchPoller {
    var floor: nat
    var running: bool
    ghost var settled: set<nat>

    ghost function P(seen: int): Poller reads this {
      Poller(floor, settled, seen, running)
    }

    constructor (start: nat)
      ensures P(0) == Poller(start, {}, 0, true)
    {
      floor, running, settled := start, true, {};
    }

    /** One batch: the floor moves past what is settled and stops before what is not. */
    method RunBatch(events: seq<Row>, outcome: nat -> Outcome, ghost seen: int)
      modifies this
      ensures P(seen) == Work(old(P(seen)), events, outcome)
    {
      ghost var p := P(seen);
      for i := 0 to |events|
        invariant Work(P(seen), events[i..], outcome) == Work(p, events, outcome)
      {
        assert events[i..][1..] == events[i + 1..];
        var id := events[i].id;
        match outcome(id) {
          case Handled =>
            floor, settled := id, settled + {id};
          case Dropped =>
            floor, settled := id, settled + {id};
          case Retry =>
            return;
          case Exit =>
            running := false;
            return;
        }
      }
    }
  }
}
