/** A team's members: who is open, whose turns are in flight, and who was closed for good, under one lock. */
module Members {
  import opened Names
  import opened Lists

  type Key = string
  type Run = string
  type Seat = string
  type Turn = string

  datatype Book = Book(
    seats: map<Key, Seat>, runs: map<Key, Run>, inFlight: map<Key, seq<Turn>>, closed: seq<string>, closedRuns: seq<string>)

  const EMPTY := Book(map[], map[], map[], [], [])

  const CAP := 4096

  // ── tombstones ──────────────────────────────────────────────────────────────

  /** A bounded list of what was closed, newest last; what is in it already is not moved. */
  function Tombstoned(xs: seq<string>, x: string): seq<string> {
    if x in xs then xs
    else (if |xs| >= CAP then xs[1..] else xs) + [x]
  }

  predicate IsClosed(b: Book, key: Key, run: Option<Run>) {
    var r := if run.Some? then run else if key in b.runs then Some(b.runs[key]) else None;
    key in b.closed || (r.Some? && r.value in b.closedRuns)
  }

  // ── the locked sections ─────────────────────────────────────────────────────

  function OpenKey(b: Book, key: Key, seat: Seat, run: Run): (Book, bool) {
    if IsClosed(b, key, Some(run)) then (b, false)
    else (b.(seats := b.seats[key := seat], runs := b.runs[key := run]), true)
  }

  /** The seat and run the turn goes on with, or `None` when it must not start. */
  function BeginTurn(b: Book, key: Key, turn: Turn): (Book, Option<Seat>) {
    if IsClosed(b, key, None) || key !in b.seats then (b, None)
    else (b.(inFlight := b.inFlight[key := Flying(b, key) + [turn]]), Some(b.seats[key]))
  }

  function Flying(b: Book, key: Key): seq<Turn> {
    if key in b.inFlight then b.inFlight[key] else []
  }

  function EndTurn(b: Book, key: Key, turn: Turn): Book {
    if key !in b.inFlight then b
    else
      var live := Without(b.inFlight[key], turn);
      b.(inFlight := if live == [] then b.inFlight - {key} else b.inFlight[key := live])
  }

  /** Drop `keys`; their turns in flight are handed back. */
  function Take(b: Book, keys: set<Key>): Book {
    b.(seats := b.seats - keys, runs := b.runs - keys, inFlight := b.inFlight - keys)
  }

  ghost function LiveOf(b: Book, keys: set<Key>): set<Turn> {
    set k, t | k in b.inFlight && k in keys && t in b.inFlight[k] :: t
  }

  ghost function CloseKey(b: Book, key: Key): (Book, set<Turn>) {
    (Take(b.(closed := Tombstoned(b.closed, key)), {key}), LiveOf(b, {key}))
  }

  function KeysOf(b: Book, run: Run): set<Key> {
    set k | k in b.runs && b.runs[k] == run
  }

  ghost function CloseRun(b: Book, run: Run): (Book, set<Turn>) {
    (Take(b.(closedRuns := Tombstoned(b.closedRuns, run)), KeysOf(b, run)), LiveOf(b, KeysOf(b, run)))
  }

  // ── the book as it is edited ────────────────────────────────────────────────

  /** Every member in flight is open; each turn flies once, under one key. */
  ghost predicate Valid(b: Book) {
    b.seats.Keys == b.runs.Keys && b.inFlight.Keys <= b.seats.Keys &&
    (forall k :: k in b.inFlight ==> b.inFlight[k] != [] && Distinct(b.inFlight[k])) &&
    forall j, k, t :: j in b.inFlight && k in b.inFlight && t in b.inFlight[j] && t in b.inFlight[k] ==> j == k
  }

  class MemberBook {
    var seats: map<Key, Seat>
    var runs: map<Key, Run>
    var inFlight: map<Key, seq<Turn>>
    var closed: seq<string>
    var closedRuns: seq<string>

    ghost function B(): Book reads this {
      Book(seats, runs, inFlight, closed, closedRuns)
    }

    constructor ()
      ensures B() == EMPTY
    {
      seats, runs, inFlight, closed, closedRuns := map[], map[], map[], [], [];
    }

    method Open(key: Key, seat: Seat, run: Run) returns (ok: bool)
      modifies this
      ensures (B(), ok) == OpenKey(old(B()), key, seat, run)
    {
      if key in closed || run in closedRuns {
        return false;
      }
      seats := seats[key := seat];
      runs := runs[key := run];
      return true;
    }

    method Begin(key: Key, turn: Turn) returns (seat: Option<Seat>)
      modifies this
      ensures (B(), seat) == BeginTurn(old(B()), key, turn)
    {
      if key in closed || (key in runs && runs[key] in closedRuns) || key !in seats {
        return None;
      }
      inFlight := inFlight[key := (if key in inFlight then inFlight[key] else []) + [turn]];
      return Some(seats[key]);
    }

    method End(key: Key, turn: Turn)
      modifies this
      ensures B() == EndTurn(old(B()), key, turn)
    {
      if key in inFlight {
        var live := Without(inFlight[key], turn);
        if live == [] {
          inFlight := inFlight - {key};
        } else {
          inFlight := inFlight[key := live];
        }
      }
    }

    /** Key by key, in the table's order: every turn of theirs is handed back, once. */
    method TakeKeys(keys: set<Key>) returns (live: seq<Turn>)
      requires Valid(B())
      modifies this`seats, this`runs, this`inFlight
      ensures B() == Take(old(B()), keys)
      ensures Distinct(live) && forall t :: t in live <==> t in LiveOf(old(B()), keys)
    {
      ghost var b := B();
      seats := seats - keys;
      var rest := set k | k in inFlight && k in keys;
      ghost var all := rest;
      live := [];
      while rest != {}
        invariant rest <= all && inFlight == b.inFlight - (all - rest)
        invariant Distinct(live)
        invariant forall t :: t in live <==> exists k :: k in all - rest && t in b.inFlight[k]
        modifies this`inFlight
      {
        var k :| k in rest;
        var more := inFlight[k];
        JoinDistinct(live, more);
        ghost var was := live;
        live := live + more;
        inFlight := inFlight - {k};
        assert forall x :: x in all - (rest - {k}) <==> x == k || x in all - rest;
        rest := rest - {k};
      }
      runs := runs - keys;
      assert inFlight == b.inFlight - keys;
    }

    method Close(key: Key) returns (live: seq<Turn>)
      requires Valid(B())
      modifies this
      ensures B() == CloseKey(old(B()), key).0
      ensures Distinct(live) && forall t :: t in live <==> t in CloseKey(old(B()), key).1
    {
      live := TakeKeys({key});
      closed := Tombstoned(closed, key);
    }

    method CloseAll(run: Run) returns (live: seq<Turn>)
      requires Valid(B())
      modifies this
      ensures B() == CloseRun(old(B()), run).0
      ensures Distinct(live) && forall t :: t in live <==> t in CloseRun(old(B()), run).1
    {
      var keys := KeysOf(Book(seats, runs, inFlight, closed, closedRuns), run);
      live := TakeKeys(keys);
      closedRuns := Tombstoned(closedRuns, run);
    }
  }
}
