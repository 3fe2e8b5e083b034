/** `git ls-tree -r -z --full-tree`, parsed: what may be copied into a container. */
module LsTree {
  import opened Names
  import opened Bytes
  import opened TarWrite
  import TarRead
  import TarRoundTrip

  const BLOB: Bytes := [98, 108, 111, 98] // "blob"
  const MODE_LIMIT := 0x1_0000_0000

  datatype Line = Skipped | Bad | Got(entry: Entry)

  datatype Parsed = Tree(entries: seq<Entry>) | Malformed

  /** An octal `u32`: an optional plus sign, digits, no overflow. */
  function ParseMode(s: Bytes): Option<nat> {
    var d := if s != [] && s[0] == PLUS then s[1..] else s;
    if d == [] || !AllDigits(d, 8) || Number(d, 8) >= MODE_LIMIT then None else Some(Number(d, 8))
  }

  /** A path that stays in the tree: no empty or `..` component (so no leading slash), no control character. */
  predicate SafePath(path: Bytes) {
    (forall i :: 0 <= i < |Split(path, SLASH)| ==> Split(path, SLASH)[i] != [] && Split(path, SLASH)[i] != [DOT, DOT]) &&
    !HasControl(path)
  }

  function ParseLine(rec: Bytes): Line {
    var tab := UpTo(rec, TAB);
    if tab == |rec| then Bad
    else
      var head, path := rec[..tab], rec[tab + 1..];
      var fields := Split(head, SPACE);
      if !Utf8(head) || !Utf8(path) || |fields| < 3 then Bad
      else if fields[1] != BLOB then Skipped
      else
        var mode := ParseMode(fields[0]);
        if mode.None? || (path != [] && path[0] == SLASH) || !SafePath(path) then Bad else Got(Entry(mode.value, fields[2], path))
  }

  function ParseLines(recs: seq<Bytes>): Parsed {
    if recs == [] then Tree([])
    else
      var before := ParseLines(recs[..|recs| - 1]);
      var last := recs[|recs| - 1];
      if before.Malformed? || last == [] then before
      else
        match ParseLine(last)
        case Bad => Malformed
        case Skipped => before
        case Got(e) => Tree(before.entries + [e])
  }

  lemma {:induction false} MalformedStays(recs: seq<Bytes>, k: nat)
    requires k <= |recs| && ParseLines(recs[..k]).Malformed?
    ensures ParseLines(recs).Malformed?
    decreases |recs|
  {
    if k == |recs| {
      assert recs[..k] == recs;
    } else {
      assert recs[..|recs| - 1][..k] == recs[..k];
      MalformedStays(recs[..|recs| - 1], k);
    }
  }

  lemma NoLines()
    ensures ParseLines([]) == Tree([])
  {
  }

  lemma OneMoreLine(recs: seq<Bytes>, i: nat)
    requires i < |recs| && ParseLines(recs[..i]).Tree?
    ensures ParseLines(recs[..i + 1]) ==
              if recs[i] == [] then ParseLines(recs[..i])
              else
                match ParseLine(recs[i])
                case Bad => Malformed
                case Skipped => ParseLines(recs[..i])
                case Got(e) => Tree(ParseLines(recs[..i]).entries + [e])
  {
    hide ParseLine;
    assert recs[..i + 1][..i] == recs[..i];
  }

  method ParseLsTree(raw: Bytes) returns (r: Parsed)
    ensures r == ParseLines(Split(raw, 0))
  {
    var recs := Split(raw, 0);
    var entries := [];
    NoLines();
    for i := 0 to |recs|
      invariant ParseLines(recs[..i]) == Tree(entries)
    {
      hide ParseLine, ParseLines, Split;
      OneMoreLine(recs, i);
      if recs[i] != [] {
        match ParseLine(recs[i]) {
          case Bad =>
            MalformedStays(recs, i + 1);
            return Malformed;
          case Skipped =>
          case Got(e) =>
            entries := entries + [e];
        }
      }
    }
    assert recs[..|recs|] == recs;
    return Tree(entries);
  }

  // ── what a path let through is ──────────────────────────────────────────────

  predicate EndsWith(s: Bytes, t: Bytes) {
    |t| <= |s| && s[|s| - |t|..] == t
  }

  predicate HoldsAt(s: Bytes, i: nat, t: Bytes) {
    i + |t| <= |s| && s[i..i + |t|] == t
  }

  /** Byte by byte, without taking the path apart: no slash at either end and no two in a row, no `..`
      between slashes or at an end, and no control character. */
  ghost predicate StaysInside(path: Bytes) {
    path != [] && path[0] != SLASH && path[|path| - 1] != SLASH &&
    path != [DOT, DOT] && !([DOT, DOT, SLASH] <= path) && !EndsWith(path, [SLASH, DOT, DOT]) &&
    (forall i :: 0 <= i < |path| ==> !HoldsAt(path, i, [SLASH, SLASH]) && !HoldsAt(path, i, [SLASH, DOT, DOT, SLASH])) &&
    forall i :: 0 <= i < |path| ==>
      path[i] >= 32 && path[i] != 127 && !(path[i] == 0xC2 && i + 1 < |path| && 0x80 <= path[i + 1] <= 0x9F)
  }

  /** A component starts at `i`. */
  predicate StartsAt(path: Bytes, i: nat) {
    i <= |path| && (i == 0 || path[i - 1] == SLASH)
  }

  /** The component that starts at `i` is empty, or is `..`. */
  predicate BadAt(path: Bytes, i: nat)
    requires i <= |path|
  {
    i == |path| || path[i] == SLASH ||
    (i + 2 <= |path| && path[i] == DOT && path[i + 1] == DOT && (i + 2 == |path| || path[i + 2] == SLASH))
  }

  ghost predicate NoneBad(path: Bytes) {
    forall i: nat :: StartsAt(path, i) ==> !BadAt(path, i)
  }

  predicate GoodPart(part: Bytes) {
    part != [] && part != [DOT, DOT]
  }

  /** The first component, and the rest after its slash. */
  lemma FirstPart(first: Bytes, rest: Bytes)
    requires SLASH !in first
    ensures NoneBad(first + [SLASH] + rest) <==> GoodPart(first) && NoneBad(rest)
  {
    var path, k := first + [SLASH] + rest, |first| + 1;
    assert forall i :: 0 <= i < |first| ==> path[i] == first[i] && path[i] != SLASH;
    assert path[|first|] == SLASH && forall i :: 0 <= i < |rest| ==> path[i + k] == rest[i];
    assert GoodPart(first) <==> !BadAt(path, 0);
    forall i: nat ensures StartsAt(path, i + k) <==> StartsAt(rest, i) {
    }
    forall i: nat | StartsAt(rest, i) ensures BadAt(path, i + k) <==> BadAt(rest, i) {
    }
    if NoneBad(path) {
      assert StartsAt(path, 0);
      forall i: nat | StartsAt(rest, i) ensures !BadAt(rest, i) {
        assert StartsAt(path, i + k);
      }
    }
    if GoodPart(first) && NoneBad(rest) {
      forall i: nat | StartsAt(path, i) ensures !BadAt(path, i) {
        if i >= k {
          assert StartsAt(rest, i - k) && !BadAt(rest, i - k);
        }
      }
    }
  }

  lemma LastPart(path: Bytes)
    requires SLASH !in path
    ensures NoneBad(path) <==> GoodPart(path)
  {
    assert forall i :: 0 <= i < |path| ==> path[i] != SLASH;
    assert forall i: nat :: StartsAt(path, i) <==> i == 0;
    assert BadAt(path, 0) <==> !GoodPart(path);
  }

  predicate AllGood(parts: seq<Bytes>) {
    forall i :: 0 <= i < |parts| ==> GoodPart(parts[i])
  }

  lemma GoodFirst(first: Bytes, rest: seq<Bytes>)
    ensures AllGood([first] + rest) <==> GoodPart(first) && AllGood(rest)
  {
    var parts := [first] + rest;
    assert parts[0] == first && forall i :: 0 <= i < |rest| ==> parts[i + 1] == rest[i];
  }

  lemma {:induction false} PartsGood(path: Bytes)
    ensures AllGood(Split(path, SLASH)) <==> NoneBad(path)
    decreases |path|
  {
    var n := UpTo(path, SLASH);
    hide NoneBad, GoodPart, AllGood;
    if n == |path| {
      assert path[..n] == path;
      LastPart(path);
      GoodFirst(path, []);
      NoParts();
      assert [path] + [] == [path];
    } else {
      var first, rest := path[..n], path[n + 1..];
      assert path == first + [SLASH] + rest;
      PartsGood(rest);
      FirstPart(first, rest);
      GoodFirst(first, Split(rest, SLASH));
    }
  }

  lemma NoParts()
    ensures AllGood([])
  {
  }

  /** A start of a component, and what is bad there, in terms of the bytes around it. */
  lemma BadBytes(path: Bytes, i: nat)
    requires StartsAt(path, i) && BadAt(path, i)
    ensures path == [] || path[0] == SLASH || path[|path| - 1] == SLASH || path == [DOT, DOT] || [DOT, DOT, SLASH] <= path ||
            EndsWith(path, [SLASH, DOT, DOT]) || (i > 0 && (HoldsAt(path, i - 1, [SLASH, SLASH]) || HoldsAt(path, i - 1, [SLASH, DOT, DOT, SLASH])))
  {
    if i > 0 && i < |path| {
      if path[i] == SLASH {
        assert path[i - 1..i + 1] == [SLASH, SLASH];
      } else if i + 2 == |path| {
        assert path[|path| - 3..] == [SLASH, DOT, DOT];
      } else {
        assert path[i - 1..i + 3] == [SLASH, DOT, DOT, SLASH];
      }
    } else if i == 0 && path != [] && path[0] != SLASH {
      if |path| == 2 {
        assert path == [DOT, DOT];
      } else {
        assert path[..3] == [DOT, DOT, SLASH];
      }
    }
  }

  lemma BytesBad(path: Bytes, i: nat)
    requires HoldsAt(path, i, [SLASH, SLASH]) || HoldsAt(path, i, [SLASH, DOT, DOT, SLASH])
    ensures StartsAt(path, i + 1) && BadAt(path, i + 1)
  {
    if HoldsAt(path, i, [SLASH, SLASH]) {
      assert path[i..i + 2][0] == path[i] && path[i..i + 2][1] == path[i + 1];
    } else {
      var t := path[i..i + 4];
      assert t[0] == path[i] && t[1] == path[i + 1] && t[2] == path[i + 2] && t[3] == path[i + 3];
    }
  }

  lemma EndsBad(path: Bytes)
    requires path == [] || path[0] == SLASH || path[|path| - 1] == SLASH || path == [DOT, DOT] || [DOT, DOT, SLASH] <= path || EndsWith(path, [SLASH, DOT, DOT])
    ensures !NoneBad(path)
  {
    if path != [] && path[|path| - 1] == SLASH {
      assert StartsAt(path, |path|) && BadAt(path, |path|);
    } else if EndsWith(path, [SLASH, DOT, DOT]) {
      var k := |path| - 3;
      assert path[k..][0] == path[k] && path[k..][1] == path[k + 1] && path[k..][2] == path[k + 2];
      assert StartsAt(path, k + 1) && BadAt(path, k + 1);
    } else {
      assert StartsAt(path, 0) && BadAt(path, 0);
    }
  }

  /** The test by components is the test byte by byte. */
  lemma SafeIff(path: Bytes)
    ensures SafePath(path) <==> StaysInside(path)
  {
    PartsGood(path);
    assert HasControl(path) <==> exists i :: 0 <= i < |path| && (path[i] < 32 || path[i] == 127 || (path[i] == 0xC2 && i + 1 < |path| && 0x80 <= path[i + 1] <= 0x9F)) by {
      if HasControl(path) {
        var i :| 0 <= i < |path| && ControlAt(path, i);
      } else {
        forall i | 0 <= i < |path| ensures !(path[i] < 32 || path[i] == 127 || (path[i] == 0xC2 && i + 1 < |path| && 0x80 <= path[i + 1] <= 0x9F)) {
          assert !ControlAt(path, i);
        }
      }
    }
    NoneBadIff(path);
    hide Split, NoneBad, HasControl, EndsWith, HoldsAt;
  }

  lemma NoneBadIff(path: Bytes)
    ensures NoneBad(path) <==>
              path != [] && path[0] != SLASH && path[|path| - 1] != SLASH &&
              path != [DOT, DOT] && !([DOT, DOT, SLASH] <= path) && !EndsWith(path, [SLASH, DOT, DOT]) &&
              forall i :: 0 <= i < |path| ==> !HoldsAt(path, i, [SLASH, SLASH]) && !HoldsAt(path, i, [SLASH, DOT, DOT, SLASH])
  {
    hide EndsWith, HoldsAt, BadAt, StartsAt;
    if NoneBad(path) {
      forall i: nat | i < |path| ensures !HoldsAt(path, i, [SLASH, SLASH]) && !HoldsAt(path, i, [SLASH, DOT, DOT, SLASH]) {
        if HoldsAt(path, i, [SLASH, SLASH]) || HoldsAt(path, i, [SLASH, DOT, DOT, SLASH]) {
          BytesBad(path, i);
        }
      }
      if path == [] || path[0] == SLASH || path[|path| - 1] == SLASH || path == [DOT, DOT] || [DOT, DOT, SLASH] <= path || EndsWith(path, [SLASH, DOT, DOT]) {
        EndsBad(path);
      }
    } else {
      var i := SomeBad(path);
      BadBytes(path, i);
      if i > 0 {
        StartsWithin(path, i);
      }
    }
  }

  lemma SomeBad(path: Bytes) returns (i: nat)
    requires !NoneBad(path)
    ensures StartsAt(path, i) && i <= |path| && BadAt(path, i)
  {
    i :| StartsAt(path, i) && !(StartsAt(path, i) ==> !BadAt(path, i));
  }

  lemma StartsWithin(path: Bytes, i: nat)
    requires StartsAt(path, i) && i > 0
    ensures i - 1 < |path|
  {
  }

  /** Every entry that comes through stays inside the tree, and its path is text without control characters. */
  lemma {:induction false} ParsedSafe(recs: seq<Bytes>)
    requires ParseLines(recs).Tree?
    ensures forall e :: e in ParseLines(recs).entries ==> StaysInside(e.path) && Utf8(e.path) && e.mode < MODE_LIMIT
  {
    if recs != [] {
      hide Utf8, SafePath, StaysInside, Number, AllDigits, Split;
      ParsedSafe(recs[..|recs| - 1]);
      var line := ParseLine(recs[|recs| - 1]);
      if line.Got? {
        SafeIff(line.entry.path);
      }
    }
  }

  // ── the listing git prints ──────────────────────────────────────────────────

  /** One line of a listing. */
  datatype Listed = Listed(mode: nat, kind: Bytes, oid: Bytes, path: Bytes)

  /** Fields as git prints them: a `u32` mode, a type and an id without blanks, a path in UTF-8 without NUL. */
  predicate Printable(l: Listed) {
    l.mode < MODE_LIMIT && Ascii(l.kind) && Ascii(l.oid) && Utf8(l.path) &&
    (forall b :: b in l.kind + l.oid ==> b != SPACE && b != TAB && b != 0) && 0 !in l.path
  }

  function HeadText(l: Listed): Bytes {
    PadLeft(l.mode, 8, 6) + [SPACE] + (l.kind + [SPACE] + l.oid)
  }

  function LineText(l: Listed): Bytes {
    HeadText(l) + [TAB] + l.path
  }

  function Print(ls: seq<Listed>): Bytes {
    if ls == [] then [] else LineText(ls[0]) + [0] + Print(ls[1..])
  }

  /** Bytes of a printed head other than its two spaces. */
  lemma FieldsClean(l: Listed)
    requires Printable(l)
    ensures var m := PadLeft(l.mode, 8, 6);
            Ascii(m) && SPACE !in m && SPACE !in l.kind && SPACE !in l.oid &&
            forall b :: b in m || b in l.kind || b in l.oid ==> b != TAB && b != 0
  {
    hide PadLeft, Utf8;
    var m := PadLeft(l.mode, 8, 6);
    assert forall b :: b in m ==> IsDigit(b, 8);
    assert forall b :: b in l.kind ==> b in l.kind + l.oid;
    assert forall b :: b in l.oid ==> b in l.kind + l.oid;
  }

  lemma HeadSplits(m: Bytes, kind: Bytes, oid: Bytes)
    requires SPACE !in m && SPACE !in kind && SPACE !in oid
    ensures Split(m + [SPACE] + (kind + [SPACE] + oid), SPACE) == [m, kind, oid]
  {
    hide Split;
    SplitFirst(m, SPACE, kind + [SPACE] + oid);
    SplitFirst(kind, SPACE, oid);
    SplitLast(oid, SPACE);
  }

  lemma HeadBack(l: Listed)
    requires Printable(l)
    ensures Split(HeadText(l), SPACE) == [PadLeft(l.mode, 8, 6), l.kind, l.oid]
    ensures Utf8(HeadText(l)) && TAB !in HeadText(l) && 0 !in HeadText(l)
  {
    hide Split, PadLeft, Utf8;
    FieldsClean(l);
    HeadSplits(PadLeft(l.mode, 8, 6), l.kind, l.oid);
    AsciiUtf8(HeadText(l));
  }

  /** A printed line parses to its own fields, if it is a blob with a safe path. */
  lemma LineBack(l: Listed)
    requires Printable(l)
    ensures ParseLine(LineText(l)) == if l.kind != BLOB then Skipped else if StaysInside(l.path) then Got(Entry(l.mode, l.oid, l.path)) else Bad
    ensures LineText(l) != [] && 0 !in LineText(l)
  {
    hide Utf8, HasControl, Number, Split, SafePath, StaysInside;
    SafeIff(l.path);
    HeadBack(l);
    UpToBack(HeadText(l), TAB, l.path);
    var rec := LineText(l);
    assert rec[..|HeadText(l)|] == HeadText(l) && rec[|HeadText(l)| + 1..] == l.path;
    ModeBack(l.mode);
    if l.path != [] && l.path[0] == SLASH {
      LeadingSlash(l.path);
    }
  }

  lemma ModeBack(mode: nat)
    requires mode < MODE_LIMIT
    ensures ParseMode(PadLeft(mode, 8, 6)) == Some(mode)
  {
    PadLeftNumber(mode, 8, 6);
    assert IsDigit(PadLeft(mode, 8, 6)[0], 8);
  }

  /** A leading slash leaves an empty first component. */
  lemma LeadingSlash(path: Bytes)
    requires path != [] && path[0] == SLASH
    ensures !SafePath(path)
  {
    assert path == [] + [SLASH] + path[1..];
    SplitFirst([], SLASH, path[1..]);
    assert Split(path, SLASH)[0] == [];
  }

  ghost predicate Listable(ls: seq<Listed>) {
    forall i :: 0 <= i < |ls| ==> Printable(ls[i])
  }

  /** The records of a printed listing, and an empty one after the last NUL. */
  lemma {:induction false} PrintBack(ls: seq<Listed>)
    requires Listable(ls)
    ensures Split(Print(ls), 0) == seq(|ls|, i requires 0 <= i < |ls| => LineText(ls[i])) + [[]]
  {
    hide LineText, Printable;
    if ls == [] {
      SplitLast([], 0);
    } else {
      LineBack(ls[0]);
      PrintBack(ls[1..]);
      SplitFirst(LineText(ls[0]), 0, Print(ls[1..]));
    }
  }

  /** The blobs of a listing, in order. */
  function Blobs(ls: seq<Listed>): seq<Entry> {
    if ls == [] then []
    else
      var l := ls[|ls| - 1];
      Blobs(ls[..|ls| - 1]) + if l.kind == BLOB then [Entry(l.mode, l.oid, l.path)] else []
  }

  ghost predicate AllSafe(ls: seq<Listed>) {
    forall i :: 0 <= i < |ls| && ls[i].kind == BLOB ==> StaysInside(ls[i].path)
  }

  lemma {:induction false} LinesBack(ls: seq<Listed>)
    requires Listable(ls)
    ensures ParseLines(seq(|ls|, i requires 0 <= i < |ls| => LineText(ls[i]))) == if AllSafe(ls) then Tree(Blobs(ls)) else Malformed
  {
    hide LineText, Printable, ParseLine, StaysInside;
    if ls != [] {
      var k := |ls| - 1;
      var recs := seq(|ls|, i requires 0 <= i < |ls| => LineText(ls[i]));
      assert recs[..k] == seq(k, i requires 0 <= i < k => LineText(ls[..k][i]));
      LinesBack(ls[..k]);
      LineBack(ls[k]);
      assert AllSafe(ls) <==> AllSafe(ls[..k]) && (ls[k].kind == BLOB ==> StaysInside(ls[k].path));
    }
  }

  /** A listing parses to exactly its blobs when every blob's path stays inside the tree, and is refused otherwise. */
  lemma ListingBack(ls: seq<Listed>)
    requires Listable(ls)
    ensures ParseLines(Split(Print(ls), 0)) == if AllSafe(ls) then Tree(Blobs(ls)) else Malformed
  {
    var lines := seq(|ls|, i requires 0 <= i < |ls| => LineText(ls[i]));
    PrintBack(ls);
    LinesBack(ls);
    assert (lines + [[]])[..|ls|] == lines;
  }

  /** A listed tree whose links are clean and whose sizes fit a header is read back from its own stream. */
  lemma ListedTreeBack(raw: Bytes, items: seq<Item>)
    requires ParseLines(Split(raw, 0)).Tree?
    requires forall i :: 0 <= i < |items| ==> items[i].entry in ParseLines(Split(raw, 0)).entries && Writable(items[i])
    requires forall i :: 0 <= i < |items| ==> SizesFit(items[i])
    ensures TarRead.ReadArchive(Archive(items), TarRead.NOTHING) == Some(TarRoundTrip.Copies(items))
  {
    hide ParseLines, TarRead.ReadArchive;
    ParsedSafe(Split(raw, 0));
    forall i | 0 <= i < |items| ensures TarRoundTrip.Safe(items[i]) {
      TarRoundTrip.NoControlNoNul(items[i].entry.path);
      if items[i].entry.IsLink() {
        TarRoundTrip.NoControlNoNul(items[i].body);
      }
    }
    TarRoundTrip.ArchiveBack(items);
  }

  ghost predicate SizesFit(item: Item) {
    var target := Target(item.entry, item.body);
    (item.entry.IsLink() || |item.body| < TarRead.FIELD_LIMIT) &&
    (NeedsPax(item.entry.path, target) ==> |PaxRecords(item.entry.path, target)| < TarRead.FIELD_LIMIT)
  }
}
