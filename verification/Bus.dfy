/** The event log: append-only, idempotent by key, read page by page. */
module Bus {
  import opened Names

  datatype Event = Event(etype: string, domain: string, subdomain: string, payload: string, key: string, ttl: int)

  datatype Row = Row(id: nat, etype: string, domain: string, subdomain: string, payload: string, key: string, expires: int)

  /** `lastId`: the highest id ever given out; ids are not reused. */
  datatype Log = Log(rows: seq<Row>, lastId: nat)

  const EMPTY := Log([], 0)
  const READ_LIMIT_MAX := 1000

  ghost predicate IdsRise(rows: seq<Row>) {
    forall i, j :: 0 <= i < j < |rows| ==> rows[i].id < rows[j].id
  }

  ghost predicate KeysDistinct(rows: seq<Row>) {
    forall i, j :: 0 <= i < j < |rows| ==> rows[i].key != rows[j].key
  }

  ghost predicate Valid(log: Log) {
    IdsRise(log.rows) && KeysDistinct(log.rows) && forall i :: 0 <= i < |log.rows| ==> 1 <= log.rows[i].id <= log.lastId
  }

  function Tail(log: Log): nat {
    if log.rows == [] then 0 else log.rows[|log.rows| - 1].id
  }

  // ── emitting ────────────────────────────────────────────────────────────────

  /** The table's own length checks. */
  predicate Fits(e: Event) {
    |e.etype| <= 128 && |e.domain| <= 64 && |e.subdomain| <= 64
  }

  function Holder(rows: seq<Row>, key: string): (r: Option<nat>)
    ensures r.None? <==> forall i :: 0 <= i < |rows| ==> rows[i].key != key
    ensures r.Some? ==> exists i :: 0 <= i < |rows| && rows[i].key == key && rows[i].id == r.value
  {
    if rows == [] then None
    else if rows[0].key == key then Some(rows[0].id)
    else Holder(rows[1..], key)
  }

  function NewRow(log: Log, e: Event, now: int): Row {
    Row(log.lastId + 1, e.etype, e.domain, e.subdomain, e.payload, e.key, now + e.ttl)
  }

  /** The id the event has on the log, `None` when the table refuses it. */
  function Emit(log: Log, e: Event, now: int): (Log, Option<nat>) {
    if !Fits(e) then (log, None)
    else
      match Holder(log.rows, e.key)
      case Some(id) => (log, Some(id))
      case None => (Log(log.rows + [NewRow(log, e, now)], log.lastId + 1), Some(log.lastId + 1))
  }

  lemma EmitValid(log: Log, e: Event, now: int)
    requires Valid(log)
    ensures Valid(Emit(log, e, now).0)
  {
    var u := Emit(log, e, now).0;
    if u != log {
      forall i, j | 0 <= i < j < |u.rows| ensures u.rows[i].id < u.rows[j].id && u.rows[i].key != u.rows[j].key {
      }
    }
  }

  /** What is on the log stays, in place. */
  ghost predicate Extends(was: Log, log: Log) {
    was.rows <= log.rows && was.lastId <= log.lastId && forall i :: |was.rows| <= i < |log.rows| ==> log.rows[i].id > was.lastId
  }

  lemma {:induction false} EmitsExtend(log: Log, es: seq<(Event, int)>)
    requires Valid(log)
    ensures Valid(EmitAll(log, es)) && Extends(log, EmitAll(log, es))
    decreases |es|
  {
    if es != [] {
      var u := Emit(log, es[0].0, es[0].1).0;
      EmitValid(log, es[0].0, es[0].1);
      EmitsExtend(u, es[1..]);
    }
  }

  function EmitAll(log: Log, es: seq<(Event, int)>): Log
    decreases |es|
  {
    if es == [] then log else EmitAll(Emit(log, es[0].0, es[0].1).0, es[1..])
  }

  lemma {:induction false} HolderStays(rows: seq<Row>, more: seq<Row>, key: string)
    requires Holder(rows, key).Some?
    ensures Holder(rows + more, key) == Holder(rows, key)
  {
    if rows[0].key != key {
      assert (rows + more)[1..] == rows[1..] + more;
      HolderStays(rows[1..], more, key);
    }
  }

  lemma {:induction false} HolderLast(rows: seq<Row>, row: Row)
    requires Holder(rows, row.key).None?
    ensures Holder(rows + [row], row.key) == Some(row.id)
  {
    if rows != [] {
      assert (rows + [row])[1..] == rows[1..] + [row];
      assert forall i :: 0 <= i < |rows[1..]| ==> rows[1..][i] == rows[i + 1];
      HolderLast(rows[1..], row);
    }
  }

  lemma EmitHolds(log: Log, e: Event, now: int)
    requires Fits(e)
    ensures var (u, id) := Emit(log, e, now); id.Some? && Holder(u.rows, e.key) == id
  {
    if Holder(log.rows, e.key).None? {
      HolderLast(log.rows, NewRow(log, e, now));
    }
  }

  /** Emitting a key again, whatever was emitted in between and whatever the event now says, changes nothing and
      answers with the first row's id; there is never a second row of the key. */
  lemma EmitIdempotent(log: Log, e: Event, now: int, between: seq<(Event, int)>, again: Event, later: int)
    requires Valid(log) && Fits(e) && Fits(again) && again.key == e.key
    ensures var (u, id) := Emit(log, e, now);
            var v := EmitAll(u, between);
            Emit(v, again, later) == (v, id) && KeysDistinct(v.rows)
  {
    var (u, id) := Emit(log, e, now);
    EmitValid(log, e, now);
    EmitHolds(log, e, now);
    EmitsExtend(u, between);
    var v := EmitAll(u, between);
    hide EmitAll, Holder, IdsRise, KeysDistinct, Fits;
    assert v.rows == u.rows + v.rows[|u.rows|..];
    HolderStays(u.rows, v.rows[|u.rows|..], e.key);
  }

  // ── reading pages ───────────────────────────────────────────────────────────

  /** Which rows a reader asks for: a literal type prefix, and, unless expired rows are wanted too, the time. */
  datatype Want = Want(prefix: Option<string>, now: Option<int>)

  predicate Wanted(row: Row, want: Want) {
    (want.prefix.Some? ==> want.prefix.value <= row.etype) && (want.now.Some? ==> row.expires > want.now.value)
  }

  /** The wanted rows with ids in (after, upTo], in order. */
  function Between(rows: seq<Row>, after: nat, upTo: nat, want: Want): (r: seq<Row>)
  {
    if rows == [] then []
    else Between(rows[..|rows| - 1], after, upTo, want) +
         var row := rows[|rows| - 1]; if after < row.id <= upTo && Wanted(row, want) then [row] else []
  }

  datatype Page = Page(next: nat, rows: seq<Row>)

  function AtMost(rows: seq<Row>, limit: nat): seq<Row> {
    if |rows| <= limit then rows else rows[..limit]
  }

  /** A page of `log`, whose tail was read when the log was `tailed`. */
  function ReadAfter(tailed: Log, log: Log, after: nat, limit: nat, want: Want): Page {
    var lim := if limit > READ_LIMIT_MAX then READ_LIMIT_MAX else limit;
    var tail := Tail(tailed);
    if after > tail then Page(0, [])
    else if lim == 0 then Page(tail, [])
    else
      var rows := AtMost(Between(log.rows, after, tail, want), lim);
      Page(if |rows| == lim then rows[|rows| - 1].id else tail, rows)
  }

  lemma {:induction false} BetweenEmpty(rows: seq<Row>, after: nat, upTo: nat, want: Want)
    requires forall i :: 0 <= i < |rows| ==> !(after < rows[i].id <= upTo)
    ensures Between(rows, after, upTo, want) == []
  {
    if rows != [] {
      BetweenEmpty(rows[..|rows| - 1], after, upTo, want);
    }
  }

  lemma {:induction false} BetweenConcat(a: seq<Row>, b: seq<Row>, after: nat, upTo: nat, want: Want)
    ensures Between(a + b, after, upTo, want) == Between(a, after, upTo, want) + Between(b, after, upTo, want)
  {
    if b == [] {
      assert a + b == a;
    } else {
      assert (a + b)[..|a + b| - 1] == a + b[..|b| - 1];
      BetweenConcat(a, b[..|b| - 1], after, upTo, want);
    }
  }

  /** Rows that came after `upTo` was the highest id do not matter. */
  lemma BetweenExtends(was: Log, log: Log, after: nat, upTo: nat, want: Want)
    requires Extends(was, log) && upTo <= was.lastId
    ensures Between(log.rows, after, upTo, want) == Between(was.rows, after, upTo, want)
  {
    var more := log.rows[|was.rows|..];
    assert log.rows == was.rows + more;
    BetweenConcat(was.rows, more, after, upTo, want);
    BetweenEmpty(more, after, upTo, want);
  }

  /** A page is one consistent read of the log as it was when its tail was taken, whatever committed in between. */
  lemma PageConsistent(tailed: Log, log: Log, after: nat, limit: nat, want: Want)
    requires Valid(tailed) && Extends(tailed, log)
    ensures ReadAfter(tailed, log, after, limit, want) == ReadAfter(tailed, tailed, after, limit, want)
  {
    BetweenExtends(tailed, log, after, Tail(tailed), want);
  }

  /** Splitting a range of ids splits its rows. */
  lemma {:induction false} BetweenSplit(rows: seq<Row>, a: nat, b: nat, c: nat, want: Want)
    requires IdsRise(rows) && a <= b <= c
    ensures Between(rows, a, c, want) == Between(rows, a, b, want) + Between(rows, b, c, want)
  {
    if rows != [] {
      var init, row := rows[..|rows| - 1], rows[|rows| - 1];
      BetweenSplit(init, a, b, c, want);
      if row.id <= b {
        BetweenEmpty(init, b, c, want);
      }
    }
  }

  lemma {:induction false} BetweenIn(rows: seq<Row>, after: nat, upTo: nat, want: Want)
    requires IdsRise(rows)
    ensures IdsRise(Between(rows, after, upTo, want))
    ensures forall r :: r in Between(rows, after, upTo, want) <==> r in rows && after < r.id <= upTo && Wanted(r, want)
  {
    if rows != [] {
      var init, row := rows[..|rows| - 1], rows[|rows| - 1];
      BetweenIn(init, after, upTo, want);
      assert rows == init + [row];
      assert forall r :: r in init ==> r.id < row.id;
    }
  }

  lemma CutAt(low: seq<Row>, high: seq<Row>, lim: nat)
    requires 0 < lim <= |low + high| && IdsRise(low + high)
    requires forall r :: r in low ==> r.id <= (low + high)[lim - 1].id
    requires forall r :: r in high ==> r.id > (low + high)[lim - 1].id
    ensures low == (low + high)[..lim]
  {
    var all := low + high;
    assert forall k :: 0 <= k < |low| ==> all[k] in low;
    assert forall k :: |low| <= k < |all| ==> all[k] in high;
    assert low != [] ==> all[|low| - 1].id <= all[lim - 1].id;
    assert high != [] ==> all[|low|].id > all[lim - 1].id;
  }

  /** The first rows of a range are the rows up to the last of them. */
  lemma {:induction false} FirstRows(rows: seq<Row>, after: nat, upTo: nat, want: Want, lim: nat)
    requires IdsRise(rows) && 0 < lim <= |Between(rows, after, upTo, want)|
    ensures var all := Between(rows, after, upTo, want);
            after < all[lim - 1].id <= upTo && Between(rows, after, all[lim - 1].id, want) == all[..lim]
  {
    hide Between, IdsRise, Wanted;
    var all := Between(rows, after, upTo, want);
    BetweenIn(rows, after, upTo, want);
    assert all[lim - 1] in all;
    var cut := all[lim - 1].id;
    BetweenSplit(rows, after, cut, upTo, want);
    BetweenIn(rows, after, cut, want);
    BetweenIn(rows, cut, upTo, want);
    CutAt(Between(rows, after, cut, want), Between(rows, cut, upTo, want), lim);
  }

  /** One page: its rows are exactly the wanted ones between the cursors, in order, and the cursor moves on unless
      it is at the tail. */
  lemma PageExact(log: Log, after: nat, limit: nat, want: Want)
    requires Valid(log) && after <= Tail(log) && limit > 0
    ensures var p := ReadAfter(log, log, after, limit, want);
            p.rows == Between(log.rows, after, p.next, want) && after <= p.next <= Tail(log) &&
            (p.next > after || p.next == Tail(log))
  {
    var lim := if limit > READ_LIMIT_MAX then READ_LIMIT_MAX else limit;
    var all := Between(log.rows, after, Tail(log), want);
    if |all| >= lim {
      FirstRows(log.rows, after, Tail(log), want, lim);
      assert all[..|all|] == all;
    }
  }

  // ── following the cursor ────────────────────────────────────────────────────

  /** A reader's visits: the log at each, and the page size it asks for. */
  datatype Visit = Visit(log: Log, limit: nat)

  ghost predicate Visits(vs: seq<Visit>) {
    (forall i :: 0 <= i < |vs| ==> Valid(vs[i].log) && vs[i].limit > 0) &&
    forall i :: 0 < i < |vs| ==> Extends(vs[i - 1].log, vs[i].log)
  }

  /** The cursor and all rows so far, starting from 0. */
  function Followed(vs: seq<Visit>, want: Want): Page {
    if vs == [] then Page(0, [])
    else
      var before := Followed(vs[..|vs| - 1], want);
      var v := vs[|vs| - 1];
      var p := ReadAfter(v.log, v.log, before.next, v.limit, want);
      Page(p.next, before.rows + p.rows)
  }

  /** Following `next` from 0 while other writers append reads exactly the wanted rows up to the cursor, each once
      and in id order; at every visit the cursor moves on or is at the tail. */
  lemma {:induction false} FollowedExact(vs: seq<Visit>, want: Want)
    requires Visits(vs) && vs != []
    ensures var log := vs[|vs| - 1].log;
            var f := Followed(vs, want);
            f.next <= Tail(log) && f.rows == Between(log.rows, 0, f.next, want) &&
            (f.next > Followed(vs[..|vs| - 1], want).next || f.next == Tail(log))
  {
    var n := |vs| - 1;
    var v, before := vs[n], Followed(vs[..n], want);
    assert before.next <= Tail(v.log) && before.rows == Between(v.log.rows, 0, before.next, want) by {
      if n == 0 {
        BetweenEmpty(v.log.rows, 0, 0, want);
      } else {
        FollowedExact(vs[..n], want);
        var was := vs[n - 1].log;
        assert vs[..n][|vs[..n]| - 1].log == was;
        BetweenExtends(was, v.log, 0, before.next, want);
        TailRises(was, v.log);
      }
    }
    PageExact(v.log, before.next, v.limit, want);
    BetweenSplit(v.log.rows, 0, before.next, Followed(vs, want).next, want);
  }

  lemma TailRises(was: Log, log: Log)
    requires Valid(was) && Valid(log) && Extends(was, log)
    ensures Tail(was) <= Tail(log) && Tail(was) <= was.lastId
  {
    if was.rows != [] {
      assert log.rows[|was.rows| - 1] == was.rows[|was.rows| - 1];
    }
  }

  /** A page sends its reader back exactly when the cursor is past the tail, which takes a log that lost its
      newest rows: the cursor is then 0, and the rows still there are read again. */
  lemma SweptTail(log: Log, after: nat, limit: nat, want: Want)
    requires Valid(log) && limit > 0
    ensures ReadAfter(log, log, after, limit, want).next < after <==> after > Tail(log)
    ensures after > Tail(log) ==> ReadAfter(log, log, after, limit, want) == Page(0, [])
    ensures ReadAfter(log, log, 0, limit, want).rows == Between(log.rows, 0, ReadAfter(log, log, 0, limit, want).next, want)
  {
    PageExact(log, 0, limit, want);
    if after <= Tail(log) {
      PageExact(log, after, limit, want);
    }
  }

  // ── following the cursor while rows are swept ───────────────────────────────

  /** Rows go and rows come: what is on the log now was there before, or got an id given out since. */
  ghost predicate Later(was: Log, log: Log) {
    was.lastId <= log.lastId && forall r :: r in log.rows ==> r in was.rows || r.id > was.lastId
  }

  ghost predicate SweptVisits(vs: seq<Visit>) {
    (forall i :: 0 <= i < |vs| ==> Valid(vs[i].log) && vs[i].limit > 0) &&
    forall i :: 0 < i < |vs| ==> Later(vs[i - 1].log, vs[i].log)
  }

  /** The `k`-th visit finds its cursor past the tail. */
  ghost predicate Restarts(vs: seq<Visit>, want: Want, k: nat) {
    k < |vs| && Followed(vs[..k], want).next > Tail(vs[k].log)
  }

  /** What a reader has, against the log it reads: nothing wanted up to its cursor is missing. */
  ghost predicate Complete(f: Page, log: Log, want: Want) {
    forall r :: r in log.rows && r.id <= f.next && Wanted(r, want) ==> r in f.rows
  }

  ghost predicate InOrder(f: Page) {
    IdsRise(f.rows) && forall r :: r in f.rows ==> r.id <= f.next
  }

  lemma TailLast(log: Log)
    requires Valid(log)
    ensures Tail(log) <= log.lastId
  {
  }

  /** One visit of a cursor that is not past the tail. */
  lemma VisitOnward(f: Page, log: Log, limit: nat, want: Want)
    requires Valid(log) && limit > 0 && f.next <= Tail(log) && Complete(f, log, want)
    ensures var p := ReadAfter(log, log, f.next, limit, want);
            var u := Page(p.next, f.rows + p.rows);
            f.next <= u.next <= Tail(log) && (u.next > f.next || u.next == Tail(log)) && Complete(u, log, want) && (InOrder(f) ==> InOrder(u))
  {
    hide ReadAfter, Between, Wanted, Valid;
    RisingRows(log);
    var p := ReadAfter(log, log, f.next, limit, want);
    PageExact(log, f.next, limit, want);
    BetweenIn(log.rows, f.next, p.next, want);
    if InOrder(f) {
      JoinRise(f.rows, p.rows, f.next);
    }
  }

  lemma RisingRows(log: Log)
    requires Valid(log)
    ensures IdsRise(log.rows)
  {
  }

  lemma JoinRise(a: seq<Row>, b: seq<Row>, at: nat)
    requires IdsRise(a) && IdsRise(b) && (forall r :: r in a ==> r.id <= at) && forall r :: r in b ==> r.id > at
    ensures IdsRise(a + b)
  {
    forall i, j | 0 <= i < j < |a + b| ensures (a + b)[i].id < (a + b)[j].id {
      assert i < |a| ==> a[i] in a;
      assert j >= |a| ==> b[j - |a|] in b;
    }
  }

  /** What a reader had is complete against a later log too: new rows are beyond its cursor. */
  lemma CompleteLater(f: Page, was: Log, log: Log, want: Want)
    requires Complete(f, was, want) && Later(was, log) && f.next <= was.lastId
    ensures Complete(f, log, want)
  {
  }

  lemma StillRestarts(vs: seq<Visit>, want: Want, n: nat)
    requires n <= |vs|
    ensures (forall k: nat :: !Restarts(vs, want, k)) ==> forall k: nat :: !Restarts(vs[..n], want, k)
  {
    forall k: nat | k < n ensures Restarts(vs[..n], want, k) <==> Restarts(vs, want, k) {
      assert vs[..n][..k] == vs[..k] && vs[..n][k] == vs[k];
    }
  }

  /** Following `next` from 0 while others append and rows are swept: after every visit the reader has each
      wanted row that is on the log up to its cursor; and if no visit found the cursor past the tail, it read
      the rows in id order, none twice. */
  lemma {:induction false} FollowedSwept(vs: seq<Visit>, want: Want)
    requires SweptVisits(vs) && vs != []
    ensures var log := vs[|vs| - 1].log;
            var f := Followed(vs, want);
            f.next <= Tail(log) && Complete(f, log, want) && ((forall k: nat :: !Restarts(vs, want, k)) ==> InOrder(f))
  {
    hide ReadAfter, Wanted, Complete, InOrder, Later, Restarts, Tail;
    var n := |vs| - 1;
    var v, before := vs[n], Followed(vs[..n], want);
    StillRestarts(vs, want, n);
    if n == 0 {
      StartComplete(v.log, want);
    } else {
      FollowedSwept(vs[..n], want);
      var was := vs[n - 1].log;
      assert vs[..n][|vs[..n]| - 1].log == was;
      TailLast(was);
      CompleteLater(before, was, v.log, want);
    }
    FollowedVisit(vs, want, n);
    if !Restarts(vs, want, n) {
      VisitOnward(before, v.log, v.limit, want);
    } else {
      BackToStart(before, v.log, v.limit, want);
    }
  }

  lemma FollowedVisit(vs: seq<Visit>, want: Want, n: nat)
    requires n < |vs|
    ensures Restarts(vs, want, n) <==> Followed(vs[..n], want).next > Tail(vs[n].log)
  {
  }

  lemma StartComplete(log: Log, want: Want)
    requires Valid(log)
    ensures Complete(Page(0, []), log, want) && InOrder(Page(0, []))
  {
  }

  lemma BackToStart(f: Page, log: Log, limit: nat, want: Want)
    requires Valid(log) && f.next > Tail(log)
    ensures var p := ReadAfter(log, log, f.next, limit, want); p == Page(0, []) && Complete(Page(p.next, f.rows + p.rows), log, want)
  {
  }

  // ── one completion among many ───────────────────────────────────────────────

  const TASK_COMPLETED := "wicked.crew.task.completed"

  /** What a completion says, once its payload is read. */
  datatype Completion = Completion(run: Option<string>, launch: Option<nat>)

  datatype Found = FoundRow(row: Row) | Nothing | Corrupt(at: nat)

  predicate Completes(row: Row, floor: nat, now: int) {
    row.id > floor && row.expires > now && row.etype == TASK_COMPLETED
  }

  /** `read`: the payload as JSON, `None` when it is corrupt. */
  function FindCompleted(rows: seq<Row>, floor: nat, now: int, run: string, launch: nat, read: string -> Option<Completion>): Found {
    if rows == [] then Nothing
    else if !Completes(rows[0], floor, now) then FindCompleted(rows[1..], floor, now, run, launch, read)
    else
      match read(rows[0].payload)
      case None => Corrupt(rows[0].id)
      case Some(c) =>
        if c == Completion(Some(run), Some(launch)) then FoundRow(rows[0]) else FindCompleted(rows[1..], floor, now, run, launch, read)
  }

  ghost predicate IsIt(row: Row, floor: nat, now: int, run: string, launch: nat, read: string -> Option<Completion>) {
    Completes(row, floor, now) && read(row.payload) == Some(Completion(Some(run), Some(launch)))
  }

  ghost predicate Readable(row: Row, floor: nat, now: int, read: string -> Option<Completion>) {
    Completes(row, floor, now) ==> read(row.payload).Some?
  }

  /** The `i`-th row is the first completion of the launch. */
  ghost predicate IsFirst(rows: seq<Row>, i: nat, floor: nat, now: int, run: string, launch: nat, read: string -> Option<Completion>)
    requires i < |rows|
  {
    IsIt(rows[i], floor, now, run, launch, read) && forall k :: 0 <= k < i ==> !IsIt(rows[k], floor, now, run, launch, read)
  }

  /** The scan finds a completion of the launch if and only if there is one that no unreadable completion comes
      before, whatever else completed in between; and it is the first. */
  lemma {:induction false} FoundIff(rows: seq<Row>, floor: nat, now: int, run: string, launch: nat, read: string -> Option<Completion>)
    ensures FindCompleted(rows, floor, now, run, launch, read).FoundRow? <==>
              exists i :: 0 <= i < |rows| && IsIt(rows[i], floor, now, run, launch, read) && forall k :: 0 <= k < i ==> Readable(rows[k], floor, now, read)
    ensures var f := FindCompleted(rows, floor, now, run, launch, read);
            f.FoundRow? ==> exists i :: 0 <= i < |rows| && rows[i] == f.row && IsFirst(rows, i, floor, now, run, launch, read)
    ensures FindCompleted(rows, floor, now, run, launch, read).Nothing? <==>
              forall i :: 0 <= i < |rows| ==> Readable(rows[i], floor, now, read) && !IsIt(rows[i], floor, now, run, launch, read)
  {
    if rows != [] {
      FoundIff(rows[1..], floor, now, run, launch, read);
      assert forall i :: 0 < i < |rows| ==> rows[i] == rows[1..][i - 1];
      assert forall i :: 0 <= i < |rows[1..]| ==> rows[1..][i] == rows[i + 1];
      var f := FindCompleted(rows, floor, now, run, launch, read);
      if f.FoundRow? && !IsIt(rows[0], floor, now, run, launch, read) {
        var i :| 0 <= i < |rows[1..]| && rows[1..][i] == f.row && IsFirst(rows[1..], i, floor, now, run, launch, read);
        assert IsFirst(rows, i + 1, floor, now, run, launch, read);
      }
    }
  }
}
