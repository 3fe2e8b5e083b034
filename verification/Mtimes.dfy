/** The mtimes a tree copy carries: a blob keeps its mtime until its bytes change. */
module Mtimes {
  import opened Names
  import opened Bytes
  import opened TarWrite

  const MARGIN := 2
  const U64_MAX := 0xFFFF_FFFF_FFFF_FFFF

  /** A path's blob and the mtime its last copy carried. */
  datatype Record = Record(oid: Bytes, time: nat)

  type Book = map<Bytes, Record>

  function Max(a: nat, b: nat): nat {
    if a < b then b else a
  }

  function NextUp(t: nat): nat {
    if t >= U64_MAX then U64_MAX else t + 1
  }

  function TimeFor(book: Book, e: Entry, now: nat): nat {
    var stamp := now + MARGIN;
    if e.path !in book then stamp
    else if book[e.path].oid != e.oid then Max(stamp, NextUp(book[e.path].time))
    else if book[e.path].time <= stamp then book[e.path].time
    else stamp
  }

  /** What the next copy will look up: the last entry of each path. */
  function Recorded(book: Book, entries: seq<Entry>, now: nat): Book {
    if entries == [] then map[]
    else
      var e := entries[|entries| - 1];
      Recorded(book, entries[..|entries| - 1], now)[e.path := Record(e.oid, TimeFor(book, e, now))]
  }

  method Assign(book: Book, entries: seq<Entry>, now: nat) returns (times: seq<nat>, next: Book)
    ensures |times| == |entries| && forall i :: 0 <= i < |entries| ==> times[i] == TimeFor(book, entries[i], now)
    ensures next == Recorded(book, entries, now)
  {
    times, next := [], map[];
    for i := 0 to |entries|
      invariant |times| == i && forall k :: 0 <= k < i ==> times[k] == TimeFor(book, entries[k], now)
      invariant next == Recorded(book, entries[..i], now)
    {
      var e := entries[i];
      assert entries[..i + 1][..i] == entries[..i];
      var t := now + MARGIN;
      if e.path in book {
        var r := book[e.path];
        if r.oid == e.oid && r.time <= t {
          t := r.time;
        } else if r.oid != e.oid {
          t := Max(t, NextUp(r.time));
        }
      }
      next := next[e.path := Record(e.oid, t)];
      times := times + [t];
    }
    assert entries[..|entries|] == entries;
  }

  // ── one copy after another ──────────────────────────────────────────────────

  /** Against the last copy: the mtime never moves back, and moves exactly when the bytes changed. */
  ghost predicate Honest(a: Record, b: Record) {
    a.time <= b.time && (a.time == b.time <==> a.oid == b.oid)
  }

  /** That holds unless unchanged bytes carry a time ahead of the stamp, or changed ones the largest time there is. */
  lemma HonestIff(book: Book, e: Entry, now: nat)
    requires e.path in book && book[e.path].time <= U64_MAX && now + MARGIN <= U64_MAX
    ensures var r := book[e.path];
            Honest(r, Record(e.oid, TimeFor(book, e, now))) <==>
              if r.oid == e.oid then r.time <= now + MARGIN else r.time < U64_MAX
  {
  }

  datatype Copy = Copy(entries: seq<Entry>, now: nat)

  /** The clock moves on from copy to copy. */
  ghost predicate Ticking(cs: seq<Copy>) {
    forall i, j :: 0 <= i < j < |cs| ==> cs[i].now < cs[j].now
  }

  function BookAfter(cs: seq<Copy>): Book {
    if cs == [] then map[] else Recorded(BookAfter(cs[..|cs| - 1]), cs[|cs| - 1].entries, cs[|cs| - 1].now)
  }

  /** A copy's book holds its own entries. */
  lemma {:induction false} RecordedIs(book: Book, entries: seq<Entry>, now: nat, path: Bytes) returns (e: Entry)
    requires path in Recorded(book, entries, now)
    ensures e in entries && e.path == path && Recorded(book, entries, now)[path] == Record(e.oid, TimeFor(book, e, now))
  {
    var last := entries[|entries| - 1];
    if last.path == path {
      e := last;
    } else {
      e := RecordedIs(book, entries[..|entries| - 1], now, path);
    }
  }

  /** With a ticking clock, a time is either the copy's own stamp or the one the last copy carried. */
  lemma {:induction false} KeptOrStamped(cs: seq<Copy>, path: Bytes)
    requires Ticking(cs) && cs != [] && path in BookAfter(cs)
    ensures var before := BookAfter(cs[..|cs| - 1]);
            BookAfter(cs)[path].time == cs[|cs| - 1].now + MARGIN || (path in before && BookAfter(cs)[path] == before[path])
    ensures BookAfter(cs)[path].time <= cs[|cs| - 1].now + MARGIN
  {
    var before := cs[..|cs| - 1];
    var book := BookAfter(before);
    var e := RecordedIs(book, cs[|cs| - 1].entries, cs[|cs| - 1].now, path);
    if path in book {
      assert before != [];
      KeptOrStamped(before, path);
    }
  }

  /** A time no later than an earlier copy's stamp has been carried, with its bytes, since that copy. */
  lemma {:induction false} CarriedSince(cs: seq<Copy>, i: nat, path: Bytes)
    requires Ticking(cs) && 0 < i <= |cs| && path in BookAfter(cs) && BookAfter(cs)[path].time <= cs[i - 1].now + MARGIN
    ensures path in BookAfter(cs[..i]) && BookAfter(cs)[path] == BookAfter(cs[..i])[path]
  {
    if i == |cs| {
      assert cs[..i] == cs;
    } else {
      KeptOrStamped(cs, path);
      var before := cs[..|cs| - 1];
      assert before[..i] == cs[..i];
      CarriedSince(before, i, path);
    }
  }

  /** With a clock that moves on between copies, a path that carries the same mtime in two copies holds the
      same bytes in both. */
  lemma SameTimeSameBytes(cs: seq<Copy>, i: nat, j: nat, path: Bytes)
    requires Ticking(cs) && 0 < i <= j <= |cs| && path in BookAfter(cs[..i]) && path in BookAfter(cs[..j])
    requires BookAfter(cs[..i])[path].time == BookAfter(cs[..j])[path].time
    ensures BookAfter(cs[..i])[path].oid == BookAfter(cs[..j])[path].oid
  {
    KeptOrStamped(cs[..i], path);
    assert cs[..j][..i] == cs[..i];
    CarriedSince(cs[..j], i, path);
  }

  // ── any clock ───────────────────────────────────────────────────────────────

  /** What the first `k` copies left on record for a path. */
  function At(cs: seq<Copy>, k: nat, path: Bytes): Option<Record> {
    if k <= |cs| && path in BookAfter(cs[..k]) then Some(BookAfter(cs[..k])[path]) else None
  }

  /** The `k`-th copy finds the path on record, and records it again. */
  predicate Stays(cs: seq<Copy>, k: nat, path: Bytes) {
    k < |cs| && At(cs, k, path).Some? && At(cs, k + 1, path).Some?
  }

  ghost predicate HonestAt(cs: seq<Copy>, k: nat, path: Bytes) {
    Stays(cs, k, path) ==> Honest(At(cs, k, path).value, At(cs, k + 1, path).value)
  }

  predicate InTimeAt(cs: seq<Copy>, k: nat, path: Bytes) {
    Stays(cs, k, path) ==>
      var r, u := At(cs, k, path).value, At(cs, k + 1, path).value;
      if r.oid == u.oid then r.time <= cs[k].now + MARGIN else r.time < U64_MAX
  }

  /** Each copy is honest against the one before it, for every path in both. */
  ghost predicate AllHonest(cs: seq<Copy>) {
    forall k: nat, path :: HonestAt(cs, k, path)
  }

  /** No copy finds unchanged bytes ahead of its stamp, or changed ones at the largest time there is. */
  ghost predicate AllInTime(cs: seq<Copy>) {
    forall k: nat, path :: InTimeAt(cs, k, path)
  }

  predicate ClockFits(cs: seq<Copy>) {
    forall k :: 0 <= k < |cs| ==> cs[k].now + MARGIN <= U64_MAX
  }

  lemma {:induction false} TimesFit(cs: seq<Copy>, path: Bytes)
    requires ClockFits(cs) && path in BookAfter(cs)
    ensures BookAfter(cs)[path].time <= U64_MAX
  {
    var before := cs[..|cs| - 1];
    var e := RecordedIs(BookAfter(before), cs[|cs| - 1].entries, cs[|cs| - 1].now, path);
    if path in BookAfter(before) {
      TimesFit(before, path);
    }
  }

  lemma StepHonest(cs: seq<Copy>, k: nat, path: Bytes)
    requires ClockFits(cs)
    ensures HonestAt(cs, k, path) <==> InTimeAt(cs, k, path)
  {
    if Stays(cs, k, path) {
      assert cs[..k + 1][..k] == cs[..k];
      TimesFit(cs[..k], path);
      var e := RecordedIs(BookAfter(cs[..k]), cs[k].entries, cs[k].now, path);
      HonestIff(BookAfter(cs[..k]), e, cs[k].now);
    }
  }

  /** The exact condition over a whole history, whatever the clock does: the mtimes are honest from copy to
      copy if and only if no copy finds unchanged bytes ahead of its stamp or changed ones at the limit. */
  lemma HistoryHonest(cs: seq<Copy>)
    requires ClockFits(cs)
    ensures AllHonest(cs) <==> AllInTime(cs)
  {
    hide HonestAt, InTimeAt;
    forall k: nat, path: Bytes ensures HonestAt(cs, k, path) <==> InTimeAt(cs, k, path) {
      StepHonest(cs, k, path);
    }
  }

  /** The path is on record, with the same bytes, after each of the copies from `i` to `j`. */
  ghost predicate SameBytes(cs: seq<Copy>, i: nat, j: nat, path: Bytes) {
    forall k: nat :: i <= k <= j ==> At(cs, k, path).Some? && At(cs, i, path).Some? && At(cs, k, path).value.oid == At(cs, i, path).value.oid
  }

  /** Then, while a path stays in the tree, two copies carry the same mtime exactly when its bytes did not
      change from one to the other. */
  lemma {:induction false} HonestSameBytes(cs: seq<Copy>, i: nat, j: nat, path: Bytes)
    requires AllHonest(cs) && i <= j <= |cs| && forall k: nat :: i <= k <= j ==> At(cs, k, path).Some?
    ensures At(cs, i, path).value.time <= At(cs, j, path).value.time
    ensures At(cs, i, path).value.time == At(cs, j, path).value.time <==> SameBytes(cs, i, j, path)
    decreases j
  {
    hide At;
    if i < j {
      HonestSameBytes(cs, i, j - 1, path);
      assert HonestAt(cs, j - 1, path) && Stays(cs, j - 1, path);
      assert SameBytes(cs, i, j, path) <==> SameBytes(cs, i, j - 1, path) && At(cs, j, path).value.oid == At(cs, j - 1, path).value.oid;
    }
  }

  /** Three copies within one second: the changed bytes are first moved past the old mtime, then, unchanged,
      moved back onto it. */
  lemma SameSecond(path: Bytes, x: Bytes, y: Bytes, mode: nat)
    requires x != y
    ensures var a, b := [Entry(mode, x, path)], [Entry(mode, y, path)];
            var first, second, third := Recorded(map[], a, 0), Recorded(Recorded(map[], a, 0), b, 0), Recorded(Recorded(Recorded(map[], a, 0), b, 0), b, 0);
            first[path] == Record(x, 2) && second[path] == Record(y, 3) && third[path] == Record(y, 2)
  {
    var a, b := [Entry(mode, x, path)], [Entry(mode, y, path)];
    assert a[..0] == [] && b[..0] == [];
    assert Recorded(map[], a, 0) == map[path := Record(x, 2)];
    assert Recorded(map[path := Record(x, 2)], b, 0) == map[path := Record(y, 3)];
    assert Recorded(map[path := Record(y, 3)], b, 0) == map[path := Record(y, 2)];
  }
}
