/** Turns against closes, in every order their locked sections can take. */
module MemberRuns {
  import opened Names
  import opened Lists
  import opened Members

  datatype Step =
    | Open(key: Key, seat: Seat, run: Run)
    | Begin(key: Key, turn: Turn)
    | End(key: Key, turn: Turn)
    | Close(key: Key)
    | Finish(run: Run)

  /** `owner`: the turns that started, and their keys; `ended`: those that ended before any close took them;
      `handed`: those handed out for cancellation. */
  datatype World = World(book: Book, owner: map<Turn, Key>, ended: set<Turn>, handed: set<Turn>)

  const START := World(EMPTY, map[], {}, {})

  ghost function Hands(w: World, s: Step): set<Turn> {
    match s
    case Close(key) => CloseKey(w.book, key).1
    case Finish(run) => CloseRun(w.book, run).1
    case _ => {}
  }

  ghost function Do(w: World, s: Step): World {
    match s
    case Open(key, seat, run) => w.(book := OpenKey(w.book, key, seat, run).0)
    case Begin(key, turn) =>
      var (b, seat) := BeginTurn(w.book, key, turn);
      w.(book := b, owner := if seat.Some? then w.owner[turn := key] else w.owner)
    case End(key, turn) =>
      w.(book := EndTurn(w.book, key, turn), ended := w.ended + (if turn in Flying(w.book, key) then {turn} else {}))
    case Close(key) => w.(book := CloseKey(w.book, key).0, handed := w.handed + Hands(w, s))
    case Finish(run) => w.(book := CloseRun(w.book, run).0, handed := w.handed + Hands(w, s))
  }

  ghost function After(steps: seq<Step>): World {
    if steps == [] then START else Do(After(steps[..|steps| - 1]), steps[|steps| - 1])
  }

  /** A turn has an id of its own, and ends under its own key. */
  ghost predicate Legal(w: World, s: Step) {
    (s.Begin? ==> s.turn !in w.owner) && (s.End? ==> s.turn in w.owner && w.owner[s.turn] == s.key)
  }

  ghost predicate LegalRun(steps: seq<Step>) {
    steps == [] || (LegalRun(steps[..|steps| - 1]) && Legal(After(steps[..|steps| - 1]), steps[|steps| - 1]))
  }

  /** Every turn that started is in flight under its key, or ended, or was handed out: one of the three. */
  ghost predicate Accounted(w: World) {
    Valid(w.book) &&
    (forall k, t :: k in w.book.inFlight && t in w.book.inFlight[k] ==> t in w.owner && w.owner[t] == k && t !in w.ended && t !in w.handed) &&
    (forall t :: t in w.owner ==> t in Flying(w.book, w.owner[t]) || t in w.ended || t in w.handed) &&
    w.ended !! w.handed && w.ended <= w.owner.Keys && w.handed <= w.owner.Keys
  }

  /** Who sits where: an open that is not refused seats the member anew, under its run; a close of its key, or of the run
      it was last opened for, unseats it; nothing else moves it. */
  lemma SeatIs(w: World, s: Step, key: Key)
    requires w.book.seats.Keys == w.book.runs.Keys
    ensures var b, u := w.book, Do(w, s).book;
            var closed := s.Open? && (s.key in b.closed || s.run in b.closedRuns);
            var leaves := (s.Close? && s.key == key) || (s.Finish? && key in b.runs && b.runs[key] == s.run);
            if s.Open? && s.key == key && !closed then key in u.seats && key in u.runs && u.seats[key] == s.seat && u.runs[key] == s.run
            else if leaves then key !in u.seats && key !in u.runs
            else (key in u.seats <==> key in b.seats) && (key in u.runs <==> key in b.runs) &&
                 (key in b.seats && key in u.seats && key in b.runs && key in u.runs ==> u.seats[key] == b.seats[key] && u.runs[key] == b.runs[key])
  {
    hide Without, LiveOf;
  }

  /** A turn goes on with the seat its member has, and only if neither its key nor the member's run was closed. */
  lemma BeginIff(w: World, key: Key, turn: Turn)
    requires w.book.seats.Keys == w.book.runs.Keys
    ensures var b, (u, seat) := w.book, BeginTurn(w.book, key, turn);
            (seat.Some? <==> key in b.seats && key !in b.closed && b.runs[key] !in b.closedRuns) &&
            (seat.Some? ==> seat.value == b.seats[key] && Flying(u, key) == Flying(b, key) + [turn]) && (seat.None? ==> u == b)
  {
  }

  lemma BeginAccounted(w: World, key: Key, turn: Turn)
    requires Accounted(w) && turn !in w.owner
    ensures Accounted(Do(w, Begin(key, turn)))
  {
    var u := Do(w, Begin(key, turn));
    var was := Flying(w.book, key);
    if u.book != w.book {
      var now := was + [turn];
      assert now[|was|] == turn;
      assert forall t :: t in now <==> t in was || t == turn;
      assert Distinct(now) by {
        JoinDistinct(was, [turn]);
      }
      assert Valid(u.book);
    }
  }

  lemma EndAccounted(w: World, key: Key, turn: Turn)
    requires Accounted(w) && turn in w.owner && w.owner[turn] == key
    ensures Accounted(Do(w, End(key, turn)))
  {
    EndValid(w.book, key, turn);
    hide Valid, Distinct;
  }

  lemma EndValid(b: Book, key: Key, turn: Turn)
    requires Valid(b)
    ensures Valid(EndTurn(b, key, turn))
  {
    if key in b.inFlight {
      WithoutDistinct(b.inFlight[key], turn);
      var live := Without(b.inFlight[key], turn);
      assert live != [] ==> live[0] in live;
    }
  }

  lemma TakeAccounted(w: World, keys: set<Key>, u: World)
    requires Accounted(w)
    requires u == w.(book := u.book, handed := w.handed + LiveOf(w.book, keys))
    requires u.book.seats == w.book.seats - keys && u.book.runs == w.book.runs - keys && u.book.inFlight == w.book.inFlight - keys
    ensures Accounted(u)
  {
    assert forall k, t :: k in w.book.inFlight && k in keys && t in w.book.inFlight[k] ==> t in LiveOf(w.book, keys);
  }

  lemma StepAccounted(w: World, s: Step)
    requires Accounted(w) && Legal(w, s)
    ensures Accounted(Do(w, s))
    ensures Hands(w, s) !! w.handed && Hands(w, s) !! w.ended
  {
    hide Valid;
    match s
    case Open(key, seat, run) =>
      OpenAccounted(w, key, seat, run);
    case Begin(key, turn) => BeginAccounted(w, key, turn);
    case End(key, turn) => EndAccounted(w, key, turn);
    case Close(key) => TakeAccounted(w, {key}, Do(w, s));
    case Finish(run) => TakeAccounted(w, KeysOf(w.book, run), Do(w, s));
  }

  lemma OpenAccounted(w: World, key: Key, seat: Seat, run: Run)
    requires Accounted(w)
    ensures Accounted(Do(w, Open(key, seat, run)))
  {
  }

  /** In every order of the locked sections: a turn that started is in flight, or ended, or was handed out for
      cancellation, never two of these; and what a close hands out was never handed out before. */
  lemma {:induction false} AlwaysAccounted(steps: seq<Step>)
    requires LegalRun(steps)
    ensures Accounted(After(steps))
  {
    if steps != [] {
      AlwaysAccounted(steps[..|steps| - 1]);
      StepAccounted(After(steps[..|steps| - 1]), steps[|steps| - 1]);
    }
  }

  // ── whose turns a close takes ───────────────────────────────────────────────

  /** Each key is only ever opened for one run. */
  ghost predicate OneRunEach(steps: seq<Step>, home: Key -> Run) {
    forall i :: 0 <= i < |steps| && steps[i].Open? ==> steps[i].run == home(steps[i].key)
  }

  lemma {:induction false} HomeRuns(steps: seq<Step>, home: Key -> Run)
    requires OneRunEach(steps, home)
    ensures forall k :: k in After(steps).book.runs ==> After(steps).book.runs[k] == home(k)
  {
    if steps != [] {
      HomeRuns(steps[..|steps| - 1], home);
    }
  }

  /** Closing a key takes exactly its own turns in flight. */
  lemma CloseTakesOwn(steps: seq<Step>, key: Key)
    requires LegalRun(steps)
    ensures var w := After(steps);
            Hands(w, Close(key)) == (set t | t in w.owner && w.owner[t] == key && t !in w.ended && t !in w.handed)
  {
    AlwaysAccounted(steps);
    var w := After(steps);
    forall t | t in w.owner && w.owner[t] == key && t !in w.ended && t !in w.handed ensures t in Hands(w, Close(key)) {
      assert t in Flying(w.book, w.owner[t]);
    }
  }

  /** The exact condition, whatever keys were opened for: ending a run hands out a turn in flight if and only
      if the turn's key is now recorded under that run. */
  lemma FinishTakes(steps: seq<Step>, run: Run, turn: Turn)
    requires LegalRun(steps)
    ensures var w := After(steps);
            turn in Hands(w, Finish(run)) <==>
              turn in w.owner && turn !in w.ended && turn !in w.handed && w.owner[turn] in w.book.runs && w.book.runs[w.owner[turn]] == run
  {
    AlwaysAccounted(steps);
    var w := After(steps);
    if turn in w.owner && turn !in w.ended && turn !in w.handed && w.owner[turn] in w.book.runs && w.book.runs[w.owner[turn]] == run {
      assert turn in Flying(w.book, w.owner[turn]) && w.owner[turn] in KeysOf(w.book, run);
    }
  }

  /** When each key is only opened for one run, ending a run takes exactly that run's turns in flight: no turn of
      another run, and none of its own is left. */
  lemma FinishTakesOwn(steps: seq<Step>, run: Run, home: Key -> Run)
    requires LegalRun(steps) && OneRunEach(steps, home)
    ensures var w := After(steps);
            Hands(w, Finish(run)) == (set t | t in w.owner && home(w.owner[t]) == run && t !in w.ended && t !in w.handed)
  {
    AlwaysAccounted(steps);
    HomeRuns(steps, home);
    var w := After(steps);
    forall t | t in w.owner && home(w.owner[t]) == run && t !in w.ended && t !in w.handed ensures t in Hands(w, Finish(run)) {
      assert t in Flying(w.book, w.owner[t]);
      assert w.owner[t] in KeysOf(w.book, run);
    }
    forall t | t in Hands(w, Finish(run)) ensures t in w.owner && home(w.owner[t]) == run && t !in w.ended && t !in w.handed {
      var k :| k in w.book.inFlight && k in KeysOf(w.book, run) && t in w.book.inFlight[k];
      assert w.owner[t] == k;
    }
  }

  /** A key opened for a second run takes its turns in flight along: ending the first run misses them. */
  lemma SecondRunHides(key: Key, turn: Turn, seat: Seat, first: Run, second: Run)
    requires first != second
    ensures var w := After([Open(key, seat, first), Begin(key, turn), Open(key, seat, second)]);
            turn in Flying(w.book, key) && Hands(w, Finish(first)) == {} && turn in Hands(w, Finish(second))
  {
    var a, b, c := Open(key, seat, first), Begin(key, turn), Open(key, seat, second);
    assert [a, b, c][..2] == [a, b] && [a, b][..1] == [a] && [a][..0] == [];
    var w1 := After([a]);
    assert After([]) == START;
    assert w1 == Do(START, a);
    assert w1 == World(Book(map[key := seat], map[key := first], map[], [], []), map[], {}, {});
    var w2 := After([a, b]);
    assert w2.book == Book(map[key := seat], map[key := first], map[key := [turn]], [], []) by {
      assert [] + [turn] == [turn];
    }
    var w := After([a, b, c]);
    assert w.book == Book(map[key := seat], map[key := second], map[key := [turn]], [], []);
    assert key in w.book.inFlight && turn in w.book.inFlight[key];
    assert key in KeysOf(w.book, second);
  }

  // ── how long a close is remembered ──────────────────────────────────────────

  ghost predicate Bounded(xs: seq<string>) {
    |xs| <= CAP && Distinct(xs)
  }

  /** How many were closed since `x`. */
  function Since(xs: seq<string>, x: string): (n: nat)
    requires x in xs
    ensures n < |xs| && xs[|xs| - 1 - n] == x
  {
    if xs[|xs| - 1] == x then 0
    else
      assert x in xs[..|xs| - 1];
      Since(xs[..|xs| - 1], x) + 1
  }

  lemma TombstonedBounded(xs: seq<string>, x: string)
    requires Bounded(xs)
    ensures Bounded(Tombstoned(xs, x)) && x in Tombstoned(xs, x)
  {
    var ys := Tombstoned(xs, x);
    if x !in xs {
      assert ys[|ys| - 1] == x;
    }
  }

  lemma SinceIs(xs: seq<string>, i: nat)
    requires Bounded(xs) && i < |xs|
    ensures Since(xs, xs[i]) == |xs| - 1 - i
  {
    var n := Since(xs, xs[i]);
    assert xs[|xs| - 1 - n] == xs[i];
  }

  /** Closing another key, new to the list, makes `x` one older; it is forgotten exactly when `CAP` were closed
      since. Closing one that is in the list already, `x` itself or another, changes nothing. */
  lemma Ages(xs: seq<string>, x: string, y: string)
    requires Bounded(xs) && x in xs
    ensures y in xs ==> Tombstoned(xs, y) == xs
    ensures y !in xs ==> (x in Tombstoned(xs, y) <==> Since(xs, x) + 1 < CAP)
    ensures y !in xs && Since(xs, x) + 1 < CAP ==> Since(Tombstoned(xs, y), x) == Since(xs, x) + 1
  {
    if y !in xs {
      TombstonedBounded(xs, y);
      var i := |xs| - 1 - Since(xs, x);
      var ys := Tombstoned(xs, y);
      if |xs| < CAP {
        assert ys[i] == x;
        SinceIs(ys, i);
      } else if i > 0 {
        assert ys[i - 1] == x;
        SinceIs(ys, i - 1);
      } else {
        assert forall j :: 0 < j < |xs| ==> xs[j] != x;
        assert forall j :: 0 <= j < |ys| ==> ys[j] != x;
      }
    }
  }

  /** How many of the steps close a key that is not in the list when they do. */
  ghost function Closings(w: World, steps: seq<Step>): nat
    decreases |steps|
  {
    if steps == [] then 0
    else (if steps[0].Close? && steps[0].key !in w.book.closed then 1 else 0) + Closings(Do(w, steps[0]), steps[1..])
  }

  ghost function Continue(w: World, steps: seq<Step>): World
    decreases |steps|
  {
    if steps == [] then w else Continue(Do(w, steps[0]), steps[1..])
  }

  lemma StepSince(w: World, s: Step, key: Key)
    requires Bounded(w.book.closed) && key in w.book.closed
    requires Since(w.book.closed, key) + (if s.Close? && s.key !in w.book.closed then 1 else 0) < CAP
    ensures var u := Do(w, s);
            Bounded(u.book.closed) && key in u.book.closed &&
            Since(u.book.closed, key) == Since(w.book.closed, key) + if s.Close? && s.key !in w.book.closed then 1 else 0
  {
    hide Since, Bounded, Tombstoned;
    if s.Close? {
      TombstonedBounded(w.book.closed, s.key);
      Ages(w.book.closed, key, s.key);
    }
  }

  lemma StepSinceRun(w: World, s: Step, run: Run)
    requires Bounded(w.book.closedRuns) && run in w.book.closedRuns
    requires Since(w.book.closedRuns, run) + (if s.Finish? && s.run !in w.book.closedRuns then 1 else 0) < CAP
    ensures var u := Do(w, s);
            Bounded(u.book.closedRuns) && run in u.book.closedRuns &&
            Since(u.book.closedRuns, run) == Since(w.book.closedRuns, run) + if s.Finish? && s.run !in w.book.closedRuns then 1 else 0
  {
    hide Since, Bounded, Tombstoned;
    if s.Finish? {
      TombstonedBounded(w.book.closedRuns, s.run);
      Ages(w.book.closedRuns, run, s.run);
    }
  }

  /** Nothing of a closed key opens or starts a turn until `CAP` other keys were closed since. */
  lemma {:induction false} StaysClosed(w: World, steps: seq<Step>, key: Key, seat: Seat, run: Run, turn: Turn)
    requires Bounded(w.book.closed) && key in w.book.closed && Since(w.book.closed, key) + Closings(w, steps) < CAP
    ensures var u := Continue(w, steps);
            key in u.book.closed && !OpenKey(u.book, key, seat, run).1 && BeginTurn(u.book, key, turn) == (u.book, None)
    decreases |steps|
  {
    if steps != [] {
      hide Do, Since, Bounded, OpenKey, BeginTurn;
      StepSince(w, steps[0], key);
      StaysClosed(Do(w, steps[0]), steps[1..], key, seat, run, turn);
    }
  }

  /** How many of the steps end a run that is not in the list when they do. */
  ghost function Endings(w: World, steps: seq<Step>): nat
    decreases |steps|
  {
    if steps == [] then 0
    else (if steps[0].Finish? && steps[0].run !in w.book.closedRuns then 1 else 0) + Endings(Do(w, steps[0]), steps[1..])
  }

  /** The same for runs: no member of an ended run opens, or turns, until `CAP` other runs have ended since. */
  lemma {:induction false} StaysEnded(w: World, steps: seq<Step>, run: Run, key: Key, seat: Seat, turn: Turn)
    requires Bounded(w.book.closedRuns) && run in w.book.closedRuns && Since(w.book.closedRuns, run) + Endings(w, steps) < CAP
    ensures var u := Continue(w, steps);
            run in u.book.closedRuns && !OpenKey(u.book, key, seat, run).1 &&
            (key in u.book.runs && u.book.runs[key] == run ==> BeginTurn(u.book, key, turn) == (u.book, None))
    decreases |steps|
  {
    if steps != [] {
      hide Do, Since, Bounded, OpenKey, BeginTurn;
      StepSinceRun(w, steps[0], run);
      StaysEnded(Do(w, steps[0]), steps[1..], run, key, seat, turn);
    }
  }

  /** The list is bounded in every reachable state, and a close puts its key at its end, unless it is there already. */
  lemma {:induction false} AlwaysBounded(steps: seq<Step>)
    ensures Bounded(After(steps).book.closed) && Bounded(After(steps).book.closedRuns)
  {
    if steps != [] {
      hide Bounded;
      var w, s := After(steps[..|steps| - 1]), steps[|steps| - 1];
      AlwaysBounded(steps[..|steps| - 1]);
      if s.Close? {
        TombstonedBounded(w.book.closed, s.key);
      } else if s.Finish? {
        TombstonedBounded(w.book.closedRuns, s.run);
      }
    } else {
      assert Bounded([]);
    }
  }

  lemma NewTombstone(xs: seq<string>, x: string)
    requires Bounded(xs) && x !in xs
    ensures Bounded(Tombstoned(xs, x)) && x in Tombstoned(xs, x) && Since(Tombstoned(xs, x), x) == 0
  {
    TombstonedBounded(xs, x);
  }

  lemma AfterOne(before: seq<Step>, s: Step)
    ensures After(before + [s]) == Do(After(before), s)
  {
    assert (before + [s])[..|before + [s]| - 1] == before;
  }

  /** Whatever happened before: a key closed for the first time opens no more, and starts no turn, until
      `CAP` others are closed. */
  lemma CloseHolds(before: seq<Step>, key: Key, after: seq<Step>, seat: Seat, run: Run, turn: Turn)
    requires key !in After(before).book.closed && Closings(After(before + [Close(key)]), after) < CAP
    ensures var u := Continue(After(before + [Close(key)]), after);
            !OpenKey(u.book, key, seat, run).1 && BeginTurn(u.book, key, turn) == (u.book, None)
  {
    hide Since, Bounded, Tombstoned, OpenKey, BeginTurn, Continue, Closings;
    AlwaysBounded(before);
    AfterOne(before, Close(key));
    NewTombstone(After(before).book.closed, key);
    StaysClosed(After(before + [Close(key)]), after, key, seat, run, turn);
  }

  /** The same for a run that ends for the first time: no member of it opens, or turns. */
  lemma FinishHolds(before: seq<Step>, run: Run, after: seq<Step>, key: Key, seat: Seat, turn: Turn)
    requires run !in After(before).book.closedRuns && Endings(After(before + [Finish(run)]), after) < CAP
    ensures var u := Continue(After(before + [Finish(run)]), after);
            !OpenKey(u.book, key, seat, run).1 &&
            (key in u.book.runs && u.book.runs[key] == run ==> BeginTurn(u.book, key, turn) == (u.book, None))
  {
    hide Since, Bounded, Tombstoned, OpenKey, BeginTurn, Continue, Endings;
    AlwaysBounded(before);
    AfterOne(before, Finish(run));
    NewTombstone(After(before).book.closedRuns, run);
    StaysEnded(After(before + [Finish(run)]), after, run, key, seat, turn);
  }
}
