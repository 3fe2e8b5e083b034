/** What a reader of the log gets, row by row: a page, a followed cursor, and the scan for a completion. */
module BusReads {
  import opened Names
  import opened Bus

  /** A row past the cursor that the reader asked for: of the type prefix, and not expired, where it says so. */
  predicate Asked(row: Row, after: nat, upTo: nat, want: Want) {
    after < row.id <= upTo && (want.prefix.Some? ==> want.prefix.value <= row.etype) && (want.now.Some? ==> row.expires > want.now.value)
  }

  /** A page holds exactly the rows asked for up to its next cursor, in order, at most a thousand. */
  lemma PageRows(log: Log, after: nat, limit: nat, want: Want, row: Row)
    requires Valid(log) && after <= Tail(log) && limit > 0
    ensures var p := ReadAfter(log, log, after, limit, want);
            (row in p.rows <==> row in log.rows && Asked(row, after, p.next, want)) && IdsRise(p.rows) &&
            |p.rows| <= limit && |p.rows| <= 1000
  {
    PageExact(log, after, limit, want);
    hide Between, IdsRise;
    BetweenIn(log.rows, after, ReadAfter(log, log, after, limit, want).next, want);
  }

  /** A reader that follows the cursor from 0 while others append has exactly the rows asked for up to it, in order. */
  lemma FollowedRows(vs: seq<Visit>, want: Want, row: Row)
    requires Visits(vs) && vs != []
    ensures var f := Followed(vs, want);
            (row in f.rows <==> row in vs[|vs| - 1].log.rows && Asked(row, 0, f.next, want)) && IdsRise(f.rows)
  {
    FollowedExact(vs, want);
    hide Between, IdsRise, Followed, Extends;
    BetweenIn(vs[|vs| - 1].log.rows, 0, Followed(vs, want).next, want);
  }

  /** A completion, past the floor and not expired. */
  predicate CompletedAfter(row: Row, floor: nat, now: int) {
    row.id > floor && row.expires > now && row.etype == "wicked.crew.task.completed"
  }

  /** ... of this launch of the run. */
  predicate CompletesIt(row: Row, floor: nat, now: int, run: string, launch: nat, read: string -> Option<Completion>) {
    CompletedAfter(row, floor, now) && read(row.payload) == Some(Completion(Some(run), Some(launch)))
  }

  /** The scan finds the first completion of the launch; it stops at one that does not read before; it finds nothing if and
      only if there is neither. */
  lemma FoundReads(rows: seq<Row>, floor: nat, now: int, run: string, launch: nat, read: string -> Option<Completion>)
    ensures var f := FindCompleted(rows, floor, now, run, launch, read);
            f.FoundRow? ==> exists i :: 0 <= i < |rows| && rows[i] == f.row && CompletesIt(rows[i], floor, now, run, launch, read) &&
                                        forall k :: 0 <= k < i ==> !CompletesIt(rows[k], floor, now, run, launch, read)
    ensures FindCompleted(rows, floor, now, run, launch, read).Nothing? <==>
              forall k :: 0 <= k < |rows| && CompletedAfter(rows[k], floor, now) ==>
                read(rows[k].payload).Some? && read(rows[k].payload) != Some(Completion(Some(run), Some(launch)))
  {
    FoundIff(rows, floor, now, run, launch, read);
    hide FindCompleted;
    assert forall k :: 0 <= k < |rows| ==> (IsIt(rows[k], floor, now, run, launch, read) <==> CompletesIt(rows[k], floor, now, run, launch, read));
    var f := FindCompleted(rows, floor, now, run, launch, read);
    if f.FoundRow? {
      var i :| 0 <= i < |rows| && rows[i] == f.row && IsFirst(rows, i, floor, now, run, launch, read);
      assert CompletesIt(rows[i], floor, now, run, launch, read);
    }
    assert forall k :: 0 <= k < |rows| ==> (Readable(rows[k], floor, now, read) <==> (CompletedAfter(rows[k], floor, now) ==> read(rows[k].payload).Some?));
  }
}
