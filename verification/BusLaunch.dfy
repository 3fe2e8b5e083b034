/** A launch request turned into a run, and the announcement it leaves on the log. */
module BusLaunch {
  import opened Names
  import opened Bus
  import opened BusPoller

  const RUN_LAUNCHED := "wicked.crew.run.launched"
  const CORE_DOMAIN := "wicked-core"

  // ── one request ─────────────────────────────────────────────────────────────

  /** A request as its payload reads. `confirm`: the human-confirm token parses. `skip`, `force`: the
      request's own words on acceptance. */
  datatype Request = Request(problem: string, workflow: Option<string>, session: Option<string>, confirm: bool,
                             skip: Option<string>, force: bool)

  /** What the actor answers, or why no answer comes: its channel is gone, or the poller is told to stop. */
  datatype Answer = Started(run: string) | Busy | Exists | Refused | Fault | Gone | Stopped

  /** The encodings the bus uses: of request payloads, of announcement payloads, and of keys. */
  datatype Codec = Codec(read: string -> Option<Request>,
                         announce: (string, Option<string>, string) -> string,
                         runOf: string -> Option<string>,
                         key: string -> string)

  /** An announcement names its run. */
  ghost predicate Reads(c: Codec) {
    forall run, workflow, problem :: c.runOf(c.announce(run, workflow, problem)) == Some(run)
  }

  function SessionOf(req: Request, id: nat): string {
    if req.session.Some? then req.session.value else "run-" + Decimal(id)
  }

  function Announcement(c: Codec, run: string, req: Request, ttl: int): Event {
    Event(RUN_LAUNCHED, CORE_DOMAIN, "core.run", c.announce(run, req.workflow, req.problem), c.key(run), ttl)
  }

  /** Best effort: a publish that fails leaves the log alone. */
  function EmitLaunched(log: Log, c: Codec, run: string, req: Request, ttl: int, now: int, published: bool): Log {
    if published then Emit(log, Announcement(c, run, req, ttl), now).0 else log
  }

  /** The request as it may go to the actor: it parses, its confirm token parses, and it does not both
      skip and force. */
  function Readable(c: Codec, payload: string): Option<Request> {
    match c.read(payload)
    case None => None
    case Some(req) => if !req.confirm || (req.skip.Some? && req.force) then None else Some(req)
  }

  /** The run an answer means: the one started, or the live one a duplicate request names. */
  function LiveRun(req: Request, id: nat, answer: Answer): Option<string> {
    match answer
    case Started(run) => Some(run)
    case Busy => Some(SessionOf(req, id))
    case Exists => Some(SessionOf(req, id))
    case _ => None
  }

  function OutcomeFor(req: Option<Request>, answer: Answer): Outcome {
    if req.None? then Dropped
    else
      match answer
      case Started(_) => Handled
      case Busy => Handled
      case Exists => Handled
      case Refused => Dropped
      case Fault => Retry
      case Gone => Exit
      case Stopped => Exit
  }

  function Launch(log: Log, c: Codec, event: Row, answer: Answer, ttl: int, now: int, published: bool): (Log, Outcome) {
    var req := Readable(c, event.payload);
    var run := if req.None? then None else LiveRun(req.value, event.id, answer);
    (if run.None? then log else EmitLaunched(log, c, run.value, req.value, ttl, now, published), OutcomeFor(req, answer))
  }

  /** As it runs: the checks in order, then the actor's answer. */
  method LaunchFromEvent(db: BusDb, c: Codec, event: Row, answer: Answer, ttl: int, now: int, published: bool) returns (outcome: Outcome)
    modifies db
    ensures (db.L(), outcome) == Launch(old(db.L()), c, event, answer, ttl, now, published)
  {
    var req := c.read(event.payload);
    if req.None? { return Dropped; }
    var session := SessionOf(req.value, event.id);
    if !req.value.confirm { return Dropped; }
    if req.value.skip.Some? && req.value.force { return Dropped; }
    match answer {
      case Gone => return Exit;
      case Stopped => return Exit;
      case Started(run) =>
        EmitRunLaunched(db, c, run, req.value, ttl, now, published);
        return Handled;
      case Busy =>
        EmitRunLaunched(db, c, session, req.value, ttl, now, published);
        return Handled;
      case Exists =>
        EmitRunLaunched(db, c, session, req.value, ttl, now, published);
        return Handled;
      case Refused => return Dropped;
      case Fault => return Retry;
    }
  }

  method EmitRunLaunched(db: BusDb, c: Codec, run: string, req: Request, ttl: int, now: int, published: bool)
    modifies db
    ensures db.L() == EmitLaunched(old(db.L()), c, run, req, ttl, now, published)
  {
    if published {
      var _ := db.EmitOn(Announcement(c, run, req, ttl), now);
    }
  }

  // ── bridges over one log ────────────────────────────────────────────────────

  /** A bridge: its poller, and the events of its last poll that it has not come to. */
  datatype Bridge = Bridge(poller: Poller, batch: seq<Row>)

  datatype Sys = Sys(log: Log, bridges: seq<Bridge>)

  /** `Arms`: an engine starts, or starts again, its floor the tail of the log. `Polls`: a bridge asks for
      a batch. `Handles`: it takes the next event of it. `Writes`: any other writer emits. `Sweeps`: rows
      past their time are deleted. */
  datatype Move =
    | Arms
    | Polls(i: nat, now: int, answered: bool)
    | Handles(i: nat, answer: Answer, ttl: int, now: int, published: bool)
    | Writes(event: Event, now: int)
    | Sweeps(now: int)

  /** The bridge after one event of its batch. */
  function HandledBy(b: Bridge, outcome: Outcome): Bridge
    requires b.batch != []
  {
    var id := b.batch[0].id;
    match outcome
    case Handled => Bridge(b.poller.(floor := id, settled := b.poller.settled + {id}), b.batch[1..])
    case Dropped => Bridge(b.poller.(floor := id, settled := b.poller.settled + {id}), b.batch[1..])
    case Retry => Bridge(b.poller, [])
    case Exit => Bridge(b.poller.(running := false), [])
  }

  function Swept(rows: seq<Row>, now: int): (r: seq<Row>)
    ensures forall x :: x in r <==> x in rows && x.expires > now
  {
    if rows == [] then [] else (if rows[0].expires > now then [rows[0]] else []) + Swept(rows[1..], now)
  }

  function Step(s: Sys, m: Move, c: Codec): Sys {
    match m
    case Arms => s.(bridges := s.bridges + [Bridge(Poller(Tail(s.log), {}, 0, true), [])])
    case Polls(i, now, answered) =>
      if i >= |s.bridges| || !s.bridges[i].poller.running || s.bridges[i].batch != [] || !answered then s
      else
        var p := s.bridges[i].poller;
        s.(bridges := s.bridges[i := Bridge(p.(seen := now), Poll(s.log, RUN_REQUESTED, p.floor, BATCH, now))])
    case Handles(i, answer, ttl, now, published) =>
      if i >= |s.bridges| || s.bridges[i].batch == [] then s
      else
        var (log, outcome) := Launch(s.log, c, s.bridges[i].batch[0], answer, ttl, now, published);
        Sys(log, s.bridges[i := HandledBy(s.bridges[i], outcome)])
    case Writes(e, now) => s.(log := Emit(s.log, e, now).0)
    case Sweeps(now) => s.(log := s.log.(rows := Swept(s.log.rows, now)))
  }

  function Run(s: Sys, ms: seq<Move>, c: Codec): Sys
    decreases |ms|
  {
    if ms == [] then s else Run(Step(s, ms[0], c), ms[1..], c)
  }

  /** Working off a batch event by event is the poller's turn over it: `outcome` is what the launches of
      its events come to. */
  lemma {:induction false} BatchIsWork(s: Sys, i: nat, ms: seq<Move>, c: Codec, outcome: nat -> Outcome)
    requires i < |s.bridges| && s.bridges[i].poller.running && IdsRise(s.bridges[i].batch)
    requires |ms| == |s.bridges[i].batch| && forall k :: 0 <= k < |ms| ==> ms[k].Handles? && ms[k].i == i
    requires forall k :: 0 <= k < |ms| ==> outcome(s.bridges[i].batch[k].id) == OutcomeFor(Readable(c, s.bridges[i].batch[k].payload), ms[k].answer)
    ensures var u := Run(s, ms, c);
            |u.bridges| == |s.bridges| && u.bridges[i] == Bridge(Work(s.bridges[i].poller, s.bridges[i].batch, outcome), [])
    decreases |ms|
  {
    if ms != [] {
      var b := s.bridges[i];
      var u := Step(s, ms[0], c);
      var o := outcome(b.batch[0].id);
      assert u.bridges[i] == HandledBy(b, o);
      if Settles(o) {
        forall k | 0 <= k < |ms[1..]| ensures ms[1..][k].Handles? && ms[1..][k].i == i && b.batch[1..][k] == b.batch[k + 1] && ms[1..][k] == ms[k + 1] {
        }
        TailRise(b.batch);
        BatchIsWork(u, i, ms[1..], c, outcome);
      } else {
        EmptyBatch(u, i, ms[1..], c);
      }
    }
  }

  lemma {:induction false} EmptyBatch(s: Sys, i: nat, ms: seq<Move>, c: Codec)
    requires i < |s.bridges| && s.bridges[i].batch == [] && forall k :: 0 <= k < |ms| ==> ms[k].Handles? && ms[k].i == i
    ensures Run(s, ms, c) == s
    decreases |ms|
  {
    if ms != [] {
      assert ms[0].i == i;
      assert Step(s, ms[0], c) == s;
      EmptyBatch(s, i, ms[1..], c);
    }
  }

  // ── what is on the log ──────────────────────────────────────────────────────

  /** Nobody else announces launches. */
  predicate OthersSilent(ms: seq<Move>) {
    forall m :: m in ms && m.Writes? ==> m.event.etype != RUN_LAUNCHED
  }

  /** A row that announces `run`, under its key. */
  predicate Announces(row: Row, c: Codec, run: string) {
    row.etype == RUN_LAUNCHED && c.runOf(row.payload) == Some(run) && row.key == c.key(run)
  }

  /** Every announcement names a run and is keyed by it. */
  ghost predicate Keyed(rows: seq<Row>, c: Codec) {
    forall row :: row in rows && row.etype == RUN_LAUNCHED ==> c.runOf(row.payload).Some? && Announces(row, c, c.runOf(row.payload).value)
  }

  ghost predicate Good(log: Log, c: Codec) {
    Valid(log) && Keyed(log.rows, c)
  }

  lemma EmitGood(log: Log, c: Codec, e: Event, now: int)
    requires Good(log, c)
    requires e.etype == RUN_LAUNCHED ==> c.runOf(e.payload).Some? && e.key == c.key(c.runOf(e.payload).value)
    ensures Good(Emit(log, e, now).0, c)
  {
    hide Valid;
    EmitValid(log, e, now);
  }

  lemma {:induction false} SweptRise(rows: seq<Row>, now: int)
    requires IdsRise(rows) && KeysDistinct(rows)
    ensures IdsRise(Swept(rows, now)) && KeysDistinct(Swept(rows, now))
  {
    if rows != [] {
      TailRise(rows);
      assert KeysDistinct(rows[1..]);
      SweptRise(rows[1..], now);
      var rest := Swept(rows[1..], now);
      if rows[0].expires > now {
        ConsRise(rows[0], rest);
        forall i, j | 0 <= i < j < |[rows[0]] + rest| ensures ([rows[0]] + rest)[i].key != ([rows[0]] + rest)[j].key {
          assert rest[j - 1] in rest && rest[j - 1] in rows[1..];
        }
      } else {
        assert Swept(rows, now) == rest;
      }
    }
  }

  lemma SweepGood(log: Log, c: Codec, now: int)
    requires Good(log, c)
    ensures Good(log.(rows := Swept(log.rows, now)), c)
  {
    SweptRise(log.rows, now);
    var u := Swept(log.rows, now);
    forall i | 0 <= i < |u| ensures 1 <= u[i].id <= log.lastId {
      assert u[i] in log.rows;
    }
  }

  lemma StepGood(s: Sys, m: Move, c: Codec)
    requires Good(s.log, c) && Reads(c) && (m.Writes? ==> m.event.etype != RUN_LAUNCHED)
    ensures Good(Step(s, m, c).log, c)
  {
    hide Good, Emit, Swept;
    match m
    case Arms =>
    case Polls(i, now, answered) =>
    case Handles(i, answer, ttl, now, published) =>
      if i < |s.bridges| && s.bridges[i].batch != [] {
        var event := s.bridges[i].batch[0];
        var req := Readable(c, event.payload);
        if req.Some? && LiveRun(req.value, event.id, answer).Some? {
          EmitGood(s.log, c, Announcement(c, LiveRun(req.value, event.id, answer).value, req.value, ttl), now);
        }
      }
    case Writes(e, now) => EmitGood(s.log, c, e, now);
    case Sweeps(now) => SweepGood(s.log, c, now);
  }

  lemma {:induction false} RunGood(s: Sys, ms: seq<Move>, c: Codec)
    requires Good(s.log, c) && Reads(c) && OthersSilent(ms)
    ensures Good(Run(s, ms, c).log, c)
    decreases |ms|
  {
    hide Good, Step;
    if ms != [] {
      StepGood(s, ms[0], c);
      RunGood(Step(s, ms[0], c), ms[1..], c);
    }
  }

  const START := Sys(Bus.EMPTY, [])

  /** Over any history of any number of bridges, whatever the actor answers, however often requests are
      redelivered, polls and publishes fail, engines restart and rows are swept: each run has at most one
      announcement on the log. */
  lemma LaunchedOnce(ms: seq<Move>, c: Codec, i: nat, j: nat)
    requires Reads(c) && OthersSilent(ms)
    requires var rows := Run(START, ms, c).log.rows;
             i < |rows| && j < |rows| && rows[i].etype == RUN_LAUNCHED == rows[j].etype && c.runOf(rows[i].payload) == c.runOf(rows[j].payload)
    ensures i == j
  {
    RunGood(START, ms, c);
    var rows := Run(START, ms, c).log.rows;
    assert rows[i] in rows && rows[j] in rows;
    assert rows[i].key == rows[j].key;
  }

  /** Keys are told apart by their run, and announcements are the only rows that use them. */
  ghost predicate KeysApart(rows: seq<Row>, c: Codec) {
    (forall a, b :: c.key(a) == c.key(b) ==> a == b) &&
    forall row, run :: row in rows && row.key == c.key(run) ==> row.etype == RUN_LAUNCHED
  }

  /** A request handled and published leaves its run announced, by exactly one row, whether the run was
      started just now or was live already. */
  lemma HandledAnnounced(log: Log, c: Codec, event: Row, answer: Answer, ttl: int, now: int) returns (row: Row)
    requires Good(log, c) && Reads(c) && KeysApart(log.rows, c)
    requires Readable(c, event.payload).Some? && LiveRun(Readable(c, event.payload).value, event.id, answer).Some?
    ensures var u := Launch(log, c, event, answer, ttl, now, true);
            var run := LiveRun(Readable(c, event.payload).value, event.id, answer).value;
            u.1 == Handled && row in u.0.rows && Announces(row, c, run) &&
            (forall x :: x in u.0.rows && x.etype == RUN_LAUNCHED && c.runOf(x.payload) == Some(run) ==> x == row) &&
            forall x :: x in log.rows ==> x in u.0.rows
  {
    var req := Readable(c, event.payload).value;
    var run := LiveRun(req, event.id, answer).value;
    var e := Announcement(c, run, req, ttl);
    EmitGood(log, c, e, now);
    var u := Emit(log, e, now).0;
    row := KeyHeld(log, e, now);
    forall x | x in u.rows && x.etype == RUN_LAUNCHED && c.runOf(x.payload) == Some(run) ensures x == row {
      assert Announces(x, c, run);
    }
  }

  /** After an emit the key is held by one row: an old one, or the event's own. */
  lemma KeyHeld(log: Log, e: Event, now: int) returns (row: Row)
    requires Valid(log) && Fits(e)
    ensures var u := Emit(log, e, now).0;
            row in u.rows && row.key == e.key && (row in log.rows || row == NewRow(log, e, now)) &&
            (forall x :: x in u.rows && x.key == e.key ==> x == row) && forall x :: x in log.rows ==> x in u.rows
  {
    EmitValid(log, e, now);
    var u := Emit(log, e, now).0;
    if Holder(log.rows, e.key).Some? {
      var i :| 0 <= i < |log.rows| && log.rows[i].key == e.key;
      row := log.rows[i];
    } else {
      row := NewRow(log, e, now);
      assert u.rows[|log.rows|] == row;
    }
    forall x | x in u.rows && x.key == e.key ensures x == row {
      var i :| 0 <= i < |u.rows| && u.rows[i] == x;
      var j :| 0 <= j < |u.rows| && u.rows[j] == row;
    }
  }
}
