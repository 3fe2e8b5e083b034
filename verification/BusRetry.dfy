/** No launch request is lost: what lets the floor of a bridge pass an event, over any history. */
module BusRetry {
  import opened Names
  import opened Bus
  import opened BusPoller
  import opened BusLaunch

  // ── one event ───────────────────────────────────────────────────────────────

  /** The request can go to the actor. */
  predicate Fit(c: Codec, payload: string) {
    var r := c.read(payload);
    r.Some? && r.value.confirm && (r.value.skip.None? || !r.value.force)
  }

  /** The actor's answer stands for the request for good: a run of it lives, or it is refused. */
  predicate Final(answer: Answer) {
    answer.Started? || answer.Busy? || answer.Exists? || answer.Refused?
  }

  predicate Handling(s: Sys, m: Move) {
    m.Handles? && m.i < |s.bridges| && s.bridges[m.i].batch != []
  }

  /** The run that lives after the answer: the one it names, or that of the session the request names, which is
      `run-` and the event's number when it names none. */
  function RunNamed(r: Request, id: nat, answer: Answer): string {
    if answer.Started? then answer.run else if r.session.Some? then r.session.value else "run-" + Decimal(id)
  }

  /** Past the event, which is settled. */
  ghost predicate MovedOn(b: Bridge, v: Bridge) {
    b.batch != [] && v.poller.floor == b.batch[0].id && v.poller.settled == b.poller.settled + {b.batch[0].id} &&
    v.poller.seen == b.poller.seen && v.poller.running == b.poller.running && v.batch == b.batch[1..]
  }

  /** One event of a bridge, case by case: what never launches moves the floor and leaves the log; so does an
      answer that stands; a fault leaves floor, settled events and log as they were; when the actor is gone, or
      the bridge is told to stop, it stops there. Other bridges are as they were. */
  lemma HandleSays(s: Sys, m: Move, c: Codec)
    requires Handling(s, m)
    ensures var u := Step(s, m, c);
            |u.bridges| == |s.bridges| && forall j :: 0 <= j < |s.bridges| && j != m.i ==> u.bridges[j] == s.bridges[j]
    ensures var b, v := s.bridges[m.i], Step(s, m, c).bridges[m.i];
            !Fit(c, b.batch[0].payload) || Final(m.answer) ==> MovedOn(b, v)
    ensures var b, v := s.bridges[m.i], Step(s, m, c).bridges[m.i];
            Fit(c, b.batch[0].payload) && m.answer.Fault? ==> v.poller == b.poller && v.batch == []
    ensures var b, v := s.bridges[m.i], Step(s, m, c).bridges[m.i];
            Fit(c, b.batch[0].payload) && (m.answer.Gone? || m.answer.Stopped?) ==> v == Bridge(b.poller.(running := false), [])
    ensures !Fit(c, s.bridges[m.i].batch[0].payload) || m.answer.Fault? || m.answer.Gone? || m.answer.Stopped? || m.answer.Refused? || !m.published
        ==> Step(s, m, c).log == s.log
  {
  }

  /** A fit request whose run lives is announced once: by the row that holds the run's key already, or by a new
      row with the next id, of the announcement's type and domain, that names the run, the workflow and the problem
      and lives as long as its publisher says. */
  lemma AnnouncedAs(s: Sys, m: Move, c: Codec)
    requires Handling(s, m) && Fit(c, s.bridges[m.i].batch[0].payload) && m.published
    requires m.answer.Started? || m.answer.Busy? || m.answer.Exists?
    ensures var e := s.bridges[m.i].batch[0];
            var r := c.read(e.payload).value;
            var run := RunNamed(r, e.id, m.answer);
            var row := Row(s.log.lastId + 1, "wicked.crew.run.launched", "wicked-core", "core.run",
                           c.announce(run, r.workflow, r.problem), c.key(run), m.now + m.ttl);
            Step(s, m, c).log == if exists k :: 0 <= k < |s.log.rows| && s.log.rows[k].key == c.key(run) then s.log
                                 else Log(s.log.rows + [row], s.log.lastId + 1)
  {
  }

  // ── what a bridge keeps ─────────────────────────────────────────────────────

  /** The batch: requests beyond the floor, in order, and up to the last of them every request that the last poll
      saw unexpired. */
  ghost predicate Waits(b: Bridge, log: Log) {
    IdsRise(b.batch) && b.poller.floor <= log.lastId &&
    (forall e :: e in b.batch ==> IsRequest(e) && b.poller.floor < e.id <= log.lastId) &&
    forall row :: row in log.rows && Due(b.poller, row) && b.batch != [] && row.id <= b.batch[|b.batch| - 1].id ==> row in b.batch
  }

  ghost predicate AllWait(s: Sys) {
    Valid(s.log) && forall i :: 0 <= i < |s.bridges| ==> Waits(s.bridges[i], s.log)
  }

  /** What is new on the log is numbered above all that was. */
  ghost predicate Grows(was: Log, log: Log) {
    was.lastId <= log.lastId && forall row :: row in log.rows ==> row in was.rows || row.id > was.lastId
  }

  lemma EmitGrows(log: Log, e: Event, now: int)
    ensures Grows(log, Emit(log, e, now).0)
  {
  }

  lemma StepGrows(s: Sys, m: Move, c: Codec)
    ensures Grows(s.log, Step(s, m, c).log)
  {
    hide Grows, Emit, Swept;
    match m
    case Arms => assert Grows(s.log, s.log) by { SameGrows(s.log); }
    case Polls(i, now, answered) => SameGrows(s.log);
    case Handles(i, answer, ttl, now, published) =>
      SameGrows(s.log);
      if i < |s.bridges| && s.bridges[i].batch != [] {
        var event := s.bridges[i].batch[0];
        var req := BusLaunch.Readable(c, event.payload);
        if req.Some? && LiveRun(req.value, event.id, answer).Some? {
          EmitGrows(s.log, Announcement(c, LiveRun(req.value, event.id, answer).value, req.value, ttl), now);
        }
      }
    case Writes(e, now) => EmitGrows(s.log, e, now);
    case Sweeps(now) => SweptGrows(s.log, now);
  }

  lemma SameGrows(log: Log)
    ensures Grows(log, log)
  {
  }

  lemma SweptGrows(log: Log, now: int)
    ensures Grows(log, log.(rows := Swept(log.rows, now)))
  {
  }

  lemma StepLogValid(s: Sys, m: Move, c: Codec)
    requires Valid(s.log)
    ensures Valid(Step(s, m, c).log)
  {
    hide Valid, Emit, Swept;
    match m
    case Arms =>
    case Polls(i, now, answered) =>
    case Handles(i, answer, ttl, now, published) =>
      if i < |s.bridges| && s.bridges[i].batch != [] {
        var event := s.bridges[i].batch[0];
        var req := BusLaunch.Readable(c, event.payload);
        if req.Some? && LiveRun(req.value, event.id, answer).Some? {
          EmitValid(s.log, Announcement(c, LiveRun(req.value, event.id, answer).value, req.value, ttl), now);
        }
      }
    case Writes(e, now) => EmitValid(s.log, e, now);
    case Sweeps(now) => SweptValid(s.log, now);
  }

  lemma SweptValid(log: Log, now: int)
    requires Valid(log)
    ensures Valid(log.(rows := Swept(log.rows, now)))
  {
    SweptRise(log.rows, now);
    var u := Swept(log.rows, now);
    forall i | 0 <= i < |u| ensures 1 <= u[i].id <= log.lastId {
      assert u[i] in log.rows;
    }
  }

  lemma TailBound(log: Log)
    requires Valid(log)
    ensures Tail(log) <= log.lastId
  {
  }

  /** A batch keeps what it waits for while others write and sweep. */
  lemma WaitsOn(b: Bridge, was: Log, log: Log)
    requires Waits(b, was) && Grows(was, log)
    ensures Waits(b, log)
  {
    forall row | row in log.rows && Due(b.poller, row) && b.batch != [] && row.id <= b.batch[|b.batch| - 1].id ensures row in b.batch {
      assert b.batch[|b.batch| - 1] in b.batch;
    }
  }

  /** A poll fetches a batch that waits. */
  lemma PollWaits(p: Poller, log: Log)
    requires Valid(log) && p.floor <= log.lastId
    ensures Waits(Bridge(p, Poll(log, RUN_REQUESTED, p.floor, BATCH, p.seen)), log)
  {
    PollDue(p, log);
    var events := Poll(log, RUN_REQUESTED, p.floor, BATCH, p.seen);
    forall e | e in events ensures IsRequest(e) && p.floor < e.id <= log.lastId {
      assert e in Polled(log.rows, RUN_REQUESTED, p.floor, p.seen);
      DuePolled(p, e);
      var k :| 0 <= k < |log.rows| && log.rows[k] == e;
    }
  }

  lemma HandledWaits(b: Bridge, v: Bridge, log: Log)
    requires Waits(b, log) && MovedOn(b, v)
    ensures Waits(v, log)
  {
    TailRise(b.batch);
    var rest := b.batch[1..];
    assert forall e :: e in b.batch <==> e == b.batch[0] || e in rest;
    assert rest != [] ==> rest[|rest| - 1] == b.batch[|b.batch| - 1];
    forall row | row in log.rows && Due(v.poller, row) && rest != [] && row.id <= rest[|rest| - 1].id ensures row in rest {
      assert b.batch[0] in b.batch && Due(b.poller, row);
    }
  }

  lemma EmptyWaits(b: Bridge, v: Bridge, log: Log)
    requires Waits(b, log) && v.poller.floor == b.poller.floor && v.batch == []
    ensures Waits(v, log)
  {
  }

  /** The bridge a handling leaves waits as it should. */
  lemma HandleWaits(s: Sys, m: Move, c: Codec)
    requires Handling(s, m) && Waits(s.bridges[m.i], s.log)
    ensures Waits(Step(s, m, c).bridges[m.i], s.log)
  {
    hide Waits, Step, Fit;
    HandleSays(s, m, c);
    var b, v := s.bridges[m.i], Step(s, m, c).bridges[m.i];
    if !Fit(c, b.batch[0].payload) || Final(m.answer) {
      HandledWaits(b, v, s.log);
    } else {
      EmptyWaits(b, v, s.log);
    }
  }

  lemma StepWaits(s: Sys, m: Move, c: Codec, i: nat)
    requires Valid(s.log) && i < |s.bridges| && Waits(s.bridges[i], s.log)
    ensures i < |Step(s, m, c).bridges| && Waits(Step(s, m, c).bridges[i], Step(s, m, c).log)
  {
    hide Waits, Valid, Grows;
    StepGrows(s, m, c);
    var u := Step(s, m, c);
    if Handling(s, m) && m.i == i {
      hide Step;
      HandleSays(s, m, c);
      HandleWaits(s, m, c);
      WaitsOn(u.bridges[i], s.log, u.log);
    } else if m.Polls? && m.i == i && u.bridges[i] != s.bridges[i] {
      hide Poll;
      var p := s.bridges[i].poller.(seen := m.now);
      WaitsFloor(s.bridges[i], s.log);
      PollWaits(p, s.log);
    } else {
      hide Emit, Swept, Poll, Launch;
      assert u.bridges[i] == s.bridges[i];
      WaitsOn(s.bridges[i], s.log, u.log);
    }
  }

  lemma WaitsFloor(b: Bridge, log: Log)
    requires Waits(b, log)
    ensures b.poller.floor <= log.lastId
  {
  }

  lemma StepAllWait(s: Sys, m: Move, c: Codec)
    requires AllWait(s)
    ensures AllWait(Step(s, m, c))
  {
    hide Valid, Step, Waits;
    StepLogValid(s, m, c);
    var u := Step(s, m, c);
    forall i | 0 <= i < |u.bridges| ensures Waits(u.bridges[i], u.log) {
      if i < |s.bridges| {
        StepWaits(s, m, c, i);
      } else {
        ArmedWaits(s, m, c, i);
      }
    }
  }

  /** Only arming adds a bridge: it starts at the tail of the log. */
  lemma ArmedWaits(s: Sys, m: Move, c: Codec, i: nat)
    requires Valid(s.log) && |s.bridges| <= i < |Step(s, m, c).bridges|
    ensures m.Arms? && i == |s.bridges| && Step(s, m, c) == Sys(s.log, s.bridges + [Bridge(Poller(Tail(s.log), {}, 0, true), [])])
    ensures Waits(Step(s, m, c).bridges[i], s.log)
  {
    hide Emit, Swept, Poll, Launch, Valid;
    TailBound(s.log);
  }

  lemma {:induction false} RunAllWait(s: Sys, ms: seq<Move>, c: Codec)
    requires AllWait(s)
    ensures AllWait(Run(s, ms, c))
    decreases |ms|
  {
    hide AllWait, Step;
    if ms != [] {
      StepAllWait(s, ms[0], c);
      RunAllWait(Step(s, ms[0], c), ms[1..], c);
    }
  }

  lemma StartWaits()
    ensures AllWait(START)
  {
  }

  // ── a fault ─────────────────────────────────────────────────────────────────

  /** `event` is beyond the floor, and of the requests between, the last poll saw none unexpired. */
  ghost predicate Next(p: Poller, log: Log, event: Row) {
    IsRequest(event) && p.floor < event.id <= log.lastId &&
    forall row :: row in log.rows && IsRequest(row) && p.floor < row.id < event.id ==> row.expires <= p.seen
  }

  lemma HeadNext(b: Bridge, log: Log)
    requires Waits(b, log) && b.batch != []
    ensures Next(b.poller, log, b.batch[0])
  {
    var event := b.batch[0];
    assert event in b.batch;
    forall row | row in log.rows && IsRequest(row) && b.poller.floor < row.id < event.id ensures row.expires <= b.poller.seen {
      assert event.id <= b.batch[|b.batch| - 1].id;
      assert row !in b.batch;
    }
  }

  lemma NextOn(p: Poller, was: Log, log: Log, event: Row)
    requires Next(p, was, event) && Grows(was, log)
    ensures Next(p, log, event)
  {
  }

  /** The moves in which bridge `i`, its batch empty, fetches no other. */
  predicate Idle(ms: seq<Move>, i: nat) {
    forall m :: m in ms && m.Polls? && m.i == i ==> !m.answered
  }

  lemma IdleStep(s: Sys, m: Move, c: Codec, i: nat)
    requires i < |s.bridges| && s.bridges[i].batch == [] && (m.Polls? && m.i == i ==> !m.answered)
    ensures i < |Step(s, m, c).bridges| && Step(s, m, c).bridges[i] == s.bridges[i]
  {
    hide Emit, Swept, Poll, Launch;
  }

  lemma {:induction false} IdleKeeps(s: Sys, ms: seq<Move>, c: Codec, i: nat, event: Row)
    requires Valid(s.log) && i < |s.bridges| && s.bridges[i].batch == [] && Idle(ms, i) && Next(s.bridges[i].poller, s.log, event)
    ensures var u := Run(s, ms, c);
            Valid(u.log) && i < |u.bridges| && u.bridges[i] == s.bridges[i] && Next(s.bridges[i].poller, u.log, event)
    decreases |ms|
  {
    hide Valid, Step, Next, Grows;
    if ms != [] {
      var u := Step(s, ms[0], c);
      IdleStep(s, ms[0], c, i);
      StepGrows(s, ms[0], c);
      StepLogValid(s, ms[0], c);
      NextOn(s.bridges[i].poller, s.log, u.log, event);
      IdleKeeps(u, ms[1..], c, i, event);
    }
  }

  /** A poll not before the last one finds the next request first, if it is still there. */
  lemma NextPolled(p: Poller, log: Log, event: Row, now: int)
    requires Valid(log) && Next(p, log, event) && now >= p.seen && event in log.rows && event.expires > now
    ensures var events := Poll(log, RUN_REQUESTED, p.floor, BATCH, now);
            events != [] && events[0] == event
  {
    hide BusPoller.Polls, Polled, IdsRise, KeysDistinct;
    var q := p.(seen := now);
    var all := Polled(log.rows, RUN_REQUESTED, p.floor, now);
    DuePolled(q, event);
    assert event in all;
    PolledRise(log.rows, RUN_REQUESTED, p.floor, now);
    var first := all[0];
    assert first in all;
    DuePolled(q, first);
    assert first.id >= event.id;
    LeastFirst(all, event);
  }

  lemma LeastFirst(all: seq<Row>, event: Row)
    requires IdsRise(all) && event in all && all[0].id >= event.id
    ensures all[0] == event
  {
  }

  /** A passing fault loses nothing, over any history of any number of bridges: a fit request that the actor answers
      with a fault leaves the bridge's floor, its settled events and the log as they were; and whatever the others do
      meanwhile, the next poll that is answered brings the same request first, unless it expired or was swept. */
  lemma FaultRetried(ms: seq<Move>, m: Move, between: seq<Move>, now: int, c: Codec)
    requires var s := Run(START, ms, c);
             Handling(s, m) && m.answer.Fault? && Fit(c, s.bridges[m.i].batch[0].payload) && s.bridges[m.i].poller.running
    requires Idle(between, m.i)
    ensures var s := Run(START, ms, c);
            var b, u := s.bridges[m.i], Step(s, m, c);
            u.log == s.log && u.bridges[m.i].poller == b.poller && u.bridges[m.i].batch == []
    ensures var s := Run(START, ms, c);
            var event, v := s.bridges[m.i].batch[0], Run(Step(s, m, c), between, c);
            m.i < |v.bridges| && (now >= s.bridges[m.i].poller.seen && event in v.log.rows && event.expires > now ==>
              var w := Step(v, Polls(m.i, now, true), c).bridges[m.i];
              w.batch != [] && w.batch[0] == event && w.poller.floor == s.bridges[m.i].poller.floor)
  {
    hide Run, AllWait, Waits, Valid, Next, Poll;
    StartWaits();
    RunAllWait(START, ms, c);
    var s := Run(START, ms, c);
    var b := s.bridges[m.i];
    WaitOf(s, m.i);
    HeadNext(b, s.log);
    HandleSays(s, m, c);
    var u := Step(s, m, c);
    IdleKeeps(u, between, c, m.i, b.batch[0]);
    var v := Run(u, between, c);
    if now >= b.poller.seen && b.batch[0] in v.log.rows && b.batch[0].expires > now {
      NextPolled(b.poller, v.log, b.batch[0], now);
    }
  }

  lemma WaitOf(s: Sys, i: nat)
    requires AllWait(s) && i < |s.bridges|
    ensures Valid(s.log) && Waits(s.bridges[i], s.log)
  {
  }

  // ── a whole history ─────────────────────────────────────────────────────────

  /** The state before the `k`-th move. */
  function At(ms: seq<Move>, k: nat, c: Codec): Sys
    requires k <= |ms|
  {
    Run(START, ms[..k], c)
  }

  lemma {:induction false} RunSnoc(s: Sys, ms: seq<Move>, c: Codec)
    requires ms != []
    ensures Run(s, ms, c) == Step(Run(s, ms[..|ms| - 1], c), ms[|ms| - 1], c)
    decreases |ms|
  {
    hide Step;
    if |ms| > 1 {
      RunSnoc(Step(s, ms[0], c), ms[1..], c);
      assert ms[1..][..|ms[1..]| - 1] == ms[..|ms| - 1][1..];
      assert ms[..|ms| - 1][0] == ms[0];
      assert ms[1..][|ms[1..]| - 1] == ms[|ms| - 1];
    } else {
      assert ms[..0] == [] && ms[1..] == [];
      assert Run(Step(s, ms[0], c), ms[1..], c) == Step(s, ms[0], c);
    }
  }

  /** Move `k` arms bridge `i`. */
  predicate ArmedAt(ms: seq<Move>, i: nat, k: nat, c: Codec) {
    k < |ms| && ms[k].Arms? && |At(ms, k, c).bridges| == i
  }

  /** At move `k` bridge `i` comes to the event `id`, and it is done with for good: a run of it lives, the actor
      refuses it, or it can never be launched. */
  predicate DoneAt(ms: seq<Move>, i: nat, id: nat, k: nat, c: Codec) {
    k < |ms| && Handling(At(ms, k, c), ms[k]) && ms[k].i == i &&
    At(ms, k, c).bridges[i].batch[0].id == id && (!Fit(c, At(ms, k, c).bridges[i].batch[0].payload) || Final(ms[k].answer))
  }

  /** At move `k` bridge `i` polls at the time `seen`. */
  predicate PolledAt(ms: seq<Move>, i: nat, seen: int, k: nat) {
    k < |ms| && ms[k] == Polls(i, seen, true)
  }

  /** Bridge `i` polled at the time `seen`. */
  ghost predicate PolledOnce(ms: seq<Move>, i: nat, seen: int) {
    exists k: nat :: PolledAt(ms, i, seen, k)
  }

  ghost predicate Done(ms: seq<Move>, i: nat, id: nat, c: Codec) {
    exists k: nat :: DoneAt(ms, i, id, k, c)
  }

  ghost predicate Expired(ms: seq<Move>, i: nat, row: Row) {
    exists seen: int :: PolledOnce(ms, i, seen) && row.expires <= seen
  }

  ghost predicate Tracked(ms: seq<Move>, i: nat, start: nat, b: Bridge, log: Log, c: Codec) {
    start <= b.poller.floor &&
    (forall id :: id in b.poller.settled ==> start < id <= b.poller.floor && Done(ms, i, id, c)) &&
    (b.batch != [] ==> PolledOnce(ms, i, b.poller.seen)) &&
    forall row :: row in log.rows && IsRequest(row) && start < row.id <= b.poller.floor ==> row.id in b.poller.settled || Expired(ms, i, row)
  }

  lemma AtPrefix(ms: seq<Move>, k: nat, c: Codec)
    requires ms != [] && k < |ms|
    ensures At(ms[..|ms| - 1], k, c) == At(ms, k, c)
  {
    assert ms[..|ms| - 1][..k] == ms[..k];
  }

  lemma DoneOn(ms: seq<Move>, i: nat, id: nat, c: Codec)
    requires ms != [] && Done(ms[..|ms| - 1], i, id, c)
    ensures Done(ms, i, id, c)
  {
    hide At, Fit;
    var k: nat :| DoneAt(ms[..|ms| - 1], i, id, k, c);
    AtPrefix(ms, k, c);
    assert DoneAt(ms, i, id, k, c);
  }

  lemma PolledOn(ms: seq<Move>, i: nat, seen: int)
    requires ms != [] && PolledOnce(ms[..|ms| - 1], i, seen)
    ensures PolledOnce(ms, i, seen)
  {
    var k: nat :| PolledAt(ms[..|ms| - 1], i, seen, k);
    assert PolledAt(ms, i, seen, k);
  }

  lemma ExpiredOn(ms: seq<Move>, i: nat, row: Row)
    requires ms != [] && Expired(ms[..|ms| - 1], i, row)
    ensures Expired(ms, i, row)
  {
    var seen: int :| PolledOnce(ms[..|ms| - 1], i, seen) && row.expires <= seen;
    PolledOn(ms, i, seen);
  }

  /** One more move, which leaves the bridge as it was. */
  lemma TrackedOn(ms: seq<Move>, i: nat, start: nat, b: Bridge, was: Log, log: Log, c: Codec)
    requires ms != [] && Tracked(ms[..|ms| - 1], i, start, b, was, c) && Grows(was, log) && b.poller.floor <= was.lastId
    ensures Tracked(ms, i, start, b, log, c)
  {
    hide Done, Expired, PolledOnce;
    forall id | id in b.poller.settled ensures Done(ms, i, id, c) {
      DoneOn(ms, i, id, c);
    }
    if b.batch != [] {
      PolledOn(ms, i, b.poller.seen);
    }
    forall row | row in log.rows && IsRequest(row) && start < row.id <= b.poller.floor ensures row.id in b.poller.settled || Expired(ms, i, row) {
      if row.id !in b.poller.settled {
        ExpiredOn(ms, i, row);
      }
    }
  }

  /** The bridge is done with the head of its batch. */
  lemma TrackedDone(ms: seq<Move>, i: nat, start: nat, b: Bridge, v: Bridge, log: Log, c: Codec)
    requires Tracked(ms, i, start, b, log, c) && Waits(b, log) && MovedOn(b, v) && Done(ms, i, b.batch[0].id, c)
    ensures Tracked(ms, i, start, v, log, c)
  {
    hide Done, PolledOnce, Waits;
    HeadNext(b, log);
    var event := b.batch[0];
    forall row | row in log.rows && IsRequest(row) && start < row.id <= event.id ensures row.id in v.poller.settled || Expired(ms, i, row) {
      if b.poller.floor < row.id < event.id {
        assert row.expires <= b.poller.seen;
      }
    }
  }

  lemma TrackedEmpty(ms: seq<Move>, i: nat, start: nat, b: Bridge, v: Bridge, log: Log, c: Codec)
    requires Tracked(ms, i, start, b, log, c) && v.poller.floor == b.poller.floor && v.poller.settled == b.poller.settled
    requires v.batch != [] ==> PolledOnce(ms, i, v.poller.seen)
    ensures Tracked(ms, i, start, v, log, c)
  {
    hide Done, Expired, PolledOnce;
  }

  lemma StepTracked(ms: seq<Move>, i: nat, start: nat, c: Codec)
    requires ms != []
    requires var s := Run(START, ms[..|ms| - 1], c);
             AllWait(s) && i < |s.bridges| && Tracked(ms[..|ms| - 1], i, start, s.bridges[i], s.log, c)
    ensures var u := Run(START, ms, c);
            i < |u.bridges| && Tracked(ms, i, start, u.bridges[i], u.log, c)
  {
    hide Run, Tracked, AllWait, Waits, Done, Grows, Valid, MovedOn;
    var n := |ms| - 1;
    var s, m := Run(START, ms[..n], c), ms[n];
    assert At(ms, n, c) == s;
    RunSnoc(START, ms, c);
    var u := Step(s, m, c);
    WaitOf(s, i);
    var b := s.bridges[i];
    WaitsFloor(b, s.log);
    SameGrows(s.log);
    TrackedOn(ms, i, start, b, s.log, s.log, c);
    StepGrows(s, m, c);
    if Handling(s, m) && m.i == i {
      hide Step;
      HandleStep(ms, i, start, s, m, c);
    } else if m.Polls? && m.i == i && u.bridges[i] != b {
      hide Poll;
      assert PolledAt(ms, i, m.now, n);
      assert PolledOnce(ms, i, m.now);
      TrackedEmpty(ms, i, start, b, u.bridges[i], s.log, c);
    } else {
      hide Emit, Swept, Poll, Launch;
      assert u.bridges[i] == b;
      TrackedOn(ms, i, start, b, s.log, u.log, c);
    }
  }

  lemma HandleStep(ms: seq<Move>, i: nat, start: nat, s: Sys, m: Move, c: Codec)
    requires ms != [] && m == ms[|ms| - 1] && s == At(ms, |ms| - 1, c) && Handling(s, m) && m.i == i && AllWait(s)
    requires Tracked(ms[..|ms| - 1], i, start, s.bridges[i], s.log, c) && Tracked(ms, i, start, s.bridges[i], s.log, c)
    ensures var u := Step(s, m, c);
            i < |u.bridges| && Tracked(ms, i, start, u.bridges[i], u.log, c)
  {
    hide Run, Tracked, AllWait, Waits, Step, Grows, Valid, Fit, MovedOn, At;
    WaitOf(s, i);
    var b := s.bridges[i];
    HandleSays(s, m, c);
    var u := Step(s, m, c);
    var v := u.bridges[i];
    HandleWaits(s, m, c);
    StepGrows(s, m, c);
    if !Fit(c, b.batch[0].payload) || Final(m.answer) {
      assert DoneAt(ms, i, b.batch[0].id, |ms| - 1, c);
      TrackedDone(ms, i, start, b, v, s.log, c);
    } else {
      TrackedEmpty(ms, i, start, b, v, s.log, c);
    }
    WaitsFloor(v, s.log);
    TrackedGrows(ms, i, start, v, s.log, u.log, c);
  }

  lemma TrackedGrows(ms: seq<Move>, i: nat, start: nat, b: Bridge, was: Log, log: Log, c: Codec)
    requires Tracked(ms, i, start, b, was, c) && Grows(was, log) && b.poller.floor <= was.lastId
    ensures Tracked(ms, i, start, b, log, c)
  {
    hide Done, Expired, PolledOnce;
  }

  lemma {:induction false} RunTracked(ms: seq<Move>, i: nat, a: nat, c: Codec)
    requires ArmedAt(ms, i, a, c)
    ensures var u := Run(START, ms, c);
            i < |u.bridges| && Tracked(ms, i, Tail(At(ms, a, c).log), u.bridges[i], u.log, c)
    decreases |ms|
  {
    hide Run, Tracked, AllWait, Step;
    var n := |ms| - 1;
    var before := ms[..n];
    StartWaits();
    RunAllWait(START, before, c);
    AtPrefix(ms, a, c);
    if a < n {
      RunTracked(before, i, a, c);
      StepTracked(ms, i, Tail(At(ms, a, c).log), c);
    } else {
      RunSnoc(START, ms, c);
      ArmTracked(ms, i, At(ms, a, c), c);
    }
  }

  lemma ArmTracked(ms: seq<Move>, i: nat, s: Sys, c: Codec)
    requires |s.bridges| == i
    ensures var u := Step(s, Arms, c);
            i < |u.bridges| && Tracked(ms, i, Tail(s.log), u.bridges[i], u.log, c)
  {
  }

  /** The floor passes nothing: over any history of any number of bridges, whatever polls fail, the actor answers, is
      written or swept, every request on the log that came after a bridge was armed and is not beyond its floor was
      done with for good by that bridge (a run of it started or was live already, the actor refused it, or it can
      never be launched), or had expired when the bridge polled. */
  lemma FloorPassesNothing(ms: seq<Move>, i: nat, a: nat, row: Row, c: Codec)
    requires ArmedAt(ms, i, a, c)
    ensures var u := Run(START, ms, c);
            i < |u.bridges| && Tail(At(ms, a, c).log) <= u.bridges[i].poller.floor &&
            (row in u.log.rows && row.etype == "wicked.crew.run.requested" &&
             Tail(At(ms, a, c).log) < row.id <= u.bridges[i].poller.floor ==>
               Done(ms, i, row.id, c) || Expired(ms, i, row))
  {
    RunTracked(ms, i, a, c);
    hide Run, Done, Expired, PolledOnce, At;
  }

  /** An event a bridge counts as settled is one it was done with for good. */
  lemma SettledDone(ms: seq<Move>, i: nat, a: nat, id: nat, c: Codec)
    requires ArmedAt(ms, i, a, c)
    ensures var u := Run(START, ms, c);
            i < |u.bridges| && (id in u.bridges[i].poller.settled ==>
              Tail(At(ms, a, c).log) < id <= u.bridges[i].poller.floor && Done(ms, i, id, c))
  {
    RunTracked(ms, i, a, c);
    hide Run, Done, Expired, PolledOnce, At;
  }
}
