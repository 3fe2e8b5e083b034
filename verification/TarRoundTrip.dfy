/** Reading back what the floor writes gives the same tree. */
module TarRoundTrip {
  import opened Names
  import opened Bytes
  import opened TarWrite
  import opened TarRead

  // ── pax records ─────────────────────────────────────────────────────────────

  /** The pieces of a record at the front of `b`. */
  lemma RecordPieces(key: Bytes, value: Bytes, rest: Bytes)
    ensures var body := PaxBody(key, value);
            var b, d, len := PaxRecordOf(key, value) + rest, Digits(PaxLength(body), 10), PaxLength(body);
            |d| + 2 <= len <= |b| && b[|d|] == SPACE && b[len - 1] == NEWLINE &&
            b[|d| + 1..len - 1] == key + [EQUALS] + value && b[len..] == rest && b == d + (body + rest)
  {
    var body := PaxBody(key, value);
    var d, len := Digits(PaxLength(body), 10), PaxLength(body);
    var b := d + body + rest;
    assert |body| == |key| + |value| + 3;
    assert b[|d|..len] == body;
    assert b[|d|] == body[0] && b[len - 1] == body[|body| - 1];
    assert body[1..|body| - 1] == key + [EQUALS] + value;
    assert b[|d| + 1..len - 1] == body[1..|body| - 1];
  }

  lemma OneRecord(b: Bytes, d: Bytes, len: nat, key: Bytes, value: Bytes)
    requires d != [] && LeadDigits(b, 10) == d && AllDigits(d, 10) && Number(d, 10) == len
    requires |d| + 2 <= len <= |b| && b[|d|] == SPACE && b[len - 1] == NEWLINE
    requires b[|d| + 1..len - 1] == key + [EQUALS] + value && EQUALS !in key
    ensures NextRecord(b) == Some(Record(key, value, len))
  {
    hide LeadDigits, Number, AllDigits, UpTo;
    KeyAndValue(key, value);
  }

  lemma KeyAndValue(key: Bytes, value: Bytes)
    requires EQUALS !in key
    ensures var content := key + [EQUALS] + value;
            UpTo(content, EQUALS) == |key| < |content| && content[..|key|] == key && content[|key| + 1..] == value
  {
    UpToBack(key, EQUALS, value);
  }

  /** A record is read whatever its value holds: its length says where it ends. */
  lemma RecordBack(key: Bytes, value: Bytes, rest: Bytes, o: Override)
    requires EQUALS !in key
    ensures ReadRecords(PaxRecordOf(key, value) + rest, o) == ReadRecords(rest, Apply(o, key, value))
  {
    hide Digits, CountsItself, Below, LeadDigits, UpTo, Number, NextRecord, Apply;
    var body := PaxBody(key, value);
    var d := Digits(PaxLength(body), 10);
    RecordPieces(key, value, rest);
    LeadDigitsBack(d, body + rest, 10);
    DigitsNumber(PaxLength(body), 10);
    OneRecord(PaxRecordOf(key, value) + rest, d, PaxLength(body), key, value);
  }

  lemma RecordsBack(path: Bytes, target: Bytes)
    ensures ReadRecords(PaxRecords(path, target), NOTHING)
         == Some(Override(Some(path), if |target| > 100 then Some(target) else None))
  {
    var last := if |target| > 100 then PaxRecordOf(LINKPATH, target) else [];
    RecordBack(PATH, path, last, NOTHING);
    var o := Override(Some(path), None);
    if |target| > 100 {
      RecordBack(LINKPATH, target, [], o);
      assert last + [] == last;
    }
  }

  // ── members ─────────────────────────────────────────────────────────────────

  /** One header with its data, at the front of a stream. */
  lemma BlockPieces(h: Bytes, data: Bytes, rest: Bytes)
    requires |h| == BLOCK
    ensures var b := h + data + Padding(|data|) + rest;
            |b| >= BLOCK + Rounded(|data|) && b[..BLOCK] == h && b[BLOCK..BLOCK + |data|] == data && b[BLOCK + Rounded(|data|)..] == rest
  {
    var p := Padding(|data|);
    var b := h + data + p + rest;
    assert b == h + (data + (p + rest));
    assert b == (h + data + p) + rest;
  }

  ghost predicate Clean(f: Fields, data: Bytes) {
    NulFree(Cut(f.name)) && NulFree(Cut(f.link)) && f.size == |data| < FIELD_LIMIT
  }

  function Exact(f: Fields): Head {
    Head(Cut(f.name), f.kind, f.mode % 0x1000, f.size, f.mtime % FIELD_LIMIT, Cut(f.link))
  }

  lemma ExactSize(f: Fields)
    requires f.size < FIELD_LIMIT
    ensures HeadOf(f) == Exact(f)
  {
  }

  /** What reading does with a header and its data. */
  lemma BlockBack(f: Fields, data: Bytes, rest: Bytes, o: Override)
    requires Clean(f, data)
    ensures var b := Header(f) + data + Padding(|data|) + rest;
            ReadArchive(b, o) ==
              if f.kind == EXTENDED then
                var records := ReadRecords(data, o);
                if records.None? then None else ReadArchive(rest, records.value)
              else
                var one := Copy(Exact(f), o, data);
                var more := ReadArchive(rest, NOTHING);
                if one.None? || more.None? then None else Some([one.value] + more.value)
  {
    HeaderBack(f);
    ExactSize(f);
    BlockPieces(Header(f), data, rest);
  }

  // ── the tree ────────────────────────────────────────────────────────────────

  /** No NUL in the path or the link target, and long ones fit their extended header's own size field. */
  ghost predicate NamesFit(item: Item) {
    var target := Target(item.entry, item.body);
    NulFree(item.entry.path) && NulFree(target) &&
    (NeedsPax(item.entry.path, target) ==> |PaxRecords(item.entry.path, target)| < FIELD_LIMIT)
  }

  /** The size field holds a file's size. */
  predicate Fits(item: Item) {
    item.entry.IsLink() || |item.body| < FIELD_LIMIT
  }

  ghost predicate Safe(item: Item) {
    NamesFit(item) && Fits(item)
  }

  /** What a reader makes of an item: everything but the digits of the mtime that do not fit. */
  function CopyOf(item: Item): Copied {
    if item.entry.IsLink() then Link(item.entry.path, item.body, item.mtime % FIELD_LIMIT)
    else File(item.entry.path, item.entry.IsExecutable(), item.mtime % FIELD_LIMIT, item.body)
  }

  function Before(one: Copied, more: Option<seq<Copied>>): Option<seq<Copied>> {
    if more.None? then None else Some([one] + more.value)
  }

  /** The overrides in force when the plain member is read. */
  function OverrideOf(item: Item): Override {
    var target := Target(item.entry, item.body);
    if NeedsPax(item.entry.path, target)
    then Override(Some(item.entry.path), if |target| > 100 then Some(target) else None)
    else NOTHING
  }

  lemma FrontBack(item: Item, rest: Bytes)
    requires NamesFit(item)
    ensures ReadArchive(Front(item.entry, item.mtime, item.body) + rest, NOTHING) == ReadArchive(rest, OverrideOf(item))
  {
    hide Header, PaxRecords, ReadArchive, ReadRecords, Padding, Digits;
    var target := Target(item.entry, item.body);
    if NeedsPax(item.entry.path, target) {
      var rec := PaxRecords(item.entry.path, target);
      RecordsBack(item.entry.path, target);
      BlockBack(Fields(PAX_NAME, EXTENDED, 0x1A4, |rec|, item.mtime, []), rec, rest, NOTHING);
    } else {
      assert Front(item.entry, item.mtime, item.body) + rest == rest;
    }
  }

  lemma PlainLinkBack(item: Item, rest: Bytes)
    requires Safe(item) && item.entry.IsLink()
    ensures ReadArchive(PlainMember(item.entry, item.mtime, item.body) + rest, OverrideOf(item))
         == Before(CopyOf(item), ReadArchive(rest, NOTHING))
  {
    hide Header, PaxRecords, ReadArchive, ReadRecords, Padding;
    var f := Fields(item.entry.path, TarWrite.LINK, 0x1FF, 0, item.mtime, item.body);
    NoPadding(Header(f), rest);
    BlockBack(f, [], rest, OverrideOf(item));
  }

  lemma NoPadding(h: Bytes, rest: Bytes)
    ensures h + [] + Padding(0) + rest == h + rest
  {
  }

  lemma PlainFileBack(item: Item, rest: Bytes)
    requires Safe(item) && !item.entry.IsLink()
    ensures ReadArchive(PlainMember(item.entry, item.mtime, item.body) + rest, OverrideOf(item))
         == Before(CopyOf(item), ReadArchive(rest, NOTHING))
  {
    hide Header, PaxRecords, ReadArchive, ReadRecords, Padding;
    var f := Fields(item.entry.path, REGULAR, FileMode(item.entry), |item.body|, item.mtime, []);
    BlockBack(f, item.body, rest, OverrideOf(item));
  }

  lemma MemberBack(item: Item, rest: Bytes)
    requires Safe(item)
    ensures ReadArchive(Member(item.entry, item.mtime, item.body) + rest, NOTHING) == Before(CopyOf(item), ReadArchive(rest, NOTHING))
  {
    var front, plain := Front(item.entry, item.mtime, item.body), PlainMember(item.entry, item.mtime, item.body);
    Regroup2(front, plain, rest);
    FrontBack(item, plain + rest);
    if item.entry.IsLink() {
      PlainLinkBack(item, rest);
    } else {
      PlainFileBack(item, rest);
    }
  }

  function Copies(items: seq<Item>): seq<Copied> {
    seq(|items|, i requires 0 <= i < |items| => CopyOf(items[i]))
  }

  lemma {:induction false} MembersBack(items: seq<Item>, rest: Bytes)
    requires forall i :: 0 <= i < |items| ==> Safe(items[i])
    ensures var more := ReadArchive(rest, NOTHING);
            ReadArchive(Members(items) + rest, NOTHING) == if more.None? then None else Some(Copies(items) + more.value)
  {
    hide ReadArchive, Member, Safe;
    var more := ReadArchive(rest, NOTHING);
    if items == [] {
      assert Members(items) + rest == rest;
      assert more.Some? ==> Copies(items) + more.value == more.value;
    } else {
      var k := |items| - 1;
      var member := Member(items[k].entry, items[k].mtime, items[k].body);
      Regroup2(Members(items[..k]), member, rest);
      MembersBack(items[..k], member + rest);
      MemberBack(items[k], rest);
      if more.Some? {
        assert Copies(items[..k]) + ([CopyOf(items[k])] + more.value) == Copies(items) + more.value;
      }
    }
  }

  /** Reading back the stream written for any safe tree gives the same paths, targets, executable bits and
      bytes, in order, and the same mtimes below 8^11. */
  lemma ArchiveBack(items: seq<Item>)
    requires forall i :: 0 <= i < |items| ==> Safe(items[i])
    ensures ReadArchive(Archive(items), NOTHING) == Some(Copies(items))
  {
    var rest := Zeros(2 * BLOCK);
    assert rest[..BLOCK] == Zeros(BLOCK);
    MembersBack(items, rest);
    assert Copies(items) + [] == Copies(items);
  }

  /** An mtime is kept exactly when it is below 8^11. */
  lemma MtimeKept(item: Item)
    ensures CopyOf(item).mtime == item.mtime <==> item.mtime < FIELD_LIMIT
  {
  }

  /** Text without control characters has no NUL, so it is safe in a header. */
  lemma NoControlNoNul(s: Bytes)
    requires !HasControl(s)
    ensures NulFree(s)
  {
    forall i | 0 <= i < |s| ensures s[i] != 0 {
      assert !ControlAt(s, i);
    }
  }

  /** A file of 8^11 bytes or more is misread: what comes back for it is shorter. */
  lemma BigFileMisread(e: Entry, mtime: nat, body: Bytes, rest: Bytes, o: Override)
    requires !e.IsLink() && NulFree(e.path) && |body| >= FIELD_LIMIT
    ensures var r := ReadArchive(PlainMember(e, mtime, body) + rest, o);
            r.None? || (r.value != [] && r.value[0].File? && |r.value[0].body| < |body|)
  {
    hide Header, ReadHeader, Padding;
    var f := Fields(e.path, REGULAR, FileMode(e), |body|, mtime, []);
    HeaderBack(f);
    var b := PlainMember(e, mtime, body) + rest;
    assert b[..BLOCK] == Header(f);
  }

  /** So is the archive from its first such file on, and with it the whole archive. */
  lemma BigMemberMisread(items: seq<Item>, k: nat, rest: Bytes)
    requires k < |items| && NamesFit(items[k]) && !Fits(items[k])
    requires forall i :: 0 <= i < k ==> Safe(items[i])
    ensures var r := ReadArchive(Members(items[..k + 1]) + rest, NOTHING);
            r.None? || (|r.value| > k && r.value[..k] == Copies(items[..k]) && r.value[k].File? && |r.value[k].body| < |items[k].body|)
  {
    hide ReadArchive, Member, Front, PlainMember, Safe, NamesFit, OverrideOf;
    var item := items[k];
    var front, plain := Front(item.entry, item.mtime, item.body), PlainMember(item.entry, item.mtime, item.body);
    MemberParts(item);
    OneMoreMember(items, k);
    Regroup2(Members(items[..k]), front + plain, rest);
    Regroup2(front, plain, rest);
    MembersBack(items[..k], front + (plain + rest));
    FrontBack(item, plain + rest);
    NamedPath(item);
    BigFileMisread(item.entry, item.mtime, item.body, rest, OverrideOf(item));
  }

  lemma MemberParts(item: Item)
    ensures Member(item.entry, item.mtime, item.body) == Front(item.entry, item.mtime, item.body) + PlainMember(item.entry, item.mtime, item.body)
  {
  }

  lemma NamedPath(item: Item)
    requires NamesFit(item)
    ensures NulFree(item.entry.path)
  {
  }

  /** The first item of a list that does not fit. */
  lemma FirstBig(items: seq<Item>) returns (k: nat)
    requires exists i :: 0 <= i < |items| && !Fits(items[i])
    ensures k < |items| && !Fits(items[k]) && forall i :: 0 <= i < k ==> Fits(items[i])
  {
    k := 0;
    while Fits(items[k])
      invariant k < |items| && forall i :: 0 <= i < k ==> Fits(items[i])
      invariant exists i :: k <= i < |items| && !Fits(items[i])
      decreases |items| - k
    {
      k := k + 1;
    }
  }

  lemma {:induction false} MembersSplit(items: seq<Item>, k: nat) returns (after: Bytes)
    requires k <= |items|
    ensures Members(items) == Members(items[..k]) + after
    decreases |items|
  {
    hide Member;
    if k == |items| {
      assert items[..k] == items;
      return [];
    }
    var n := |items| - 1;
    var more := MembersSplit(items[..n], k);
    assert items[..n][..k] == items[..k];
    var member := Member(items[n].entry, items[n].mtime, items[n].body);
    Regroup2(Members(items[..k]), more, member);
    return more + member;
  }

  /** The exact condition over whole archives: a tree is read back if and only if every file is smaller than
      8^11 bytes. */
  lemma ArchiveBackIff(items: seq<Item>)
    requires forall i :: 0 <= i < |items| ==> NamesFit(items[i])
    ensures ReadArchive(Archive(items), NOTHING) == Some(Copies(items)) <==> forall i :: 0 <= i < |items| ==> Fits(items[i])
  {
    hide ReadArchive, NamesFit, Fits, Members, Zeros, CopyOf;
    if forall i :: 0 <= i < |items| ==> Fits(items[i]) {
      ArchiveBack(items);
    } else {
      var k := FirstBig(items);
      var after := MembersSplit(items, k + 1);
      Regroup2(Members(items[..k + 1]), after, Zeros(2 * BLOCK));
      BigMemberMisread(items, k, after + Zeros(2 * BLOCK));
      BigCopy(items[k]);
    }
  }

  lemma BigCopy(item: Item)
    requires !Fits(item)
    ensures CopyOf(item).File? && CopyOf(item).body == item.body
  {
  }

  /** Every member, and the whole archive, is a whole number of blocks. */
  lemma MemberBlocks(e: Entry, mtime: nat, body: Bytes)
    ensures |Member(e, mtime, body)| % BLOCK == 0
  {
    hide Header, PaxRecords;
    assert |PlainMember(e, mtime, body)| % BLOCK == 0;
    assert |Front(e, mtime, body)| % BLOCK == 0 by {
      if NeedsPax(e.path, Target(e, body)) {
        var rec := PaxRecords(e.path, Target(e, body));
        assert |Front(e, mtime, body)| == BLOCK + |rec| + |Padding(|rec|)|;
      }
    }
  }

  lemma {:induction false} ArchiveBlocks(items: seq<Item>)
    ensures |Members(items)| % BLOCK == 0 && |Archive(items)| % BLOCK == 0
  {
    hide Member;
    if items != [] {
      var k := |items| - 1;
      ArchiveBlocks(items[..k]);
      MemberBlocks(items[k].entry, items[k].mtime, items[k].body);
    }
  }
}
