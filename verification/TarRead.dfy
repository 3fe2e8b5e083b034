/** A reader of tar streams in the ustar and pax formats, and what it reads back from the floor's own stream. */
module TarRead {
  import opened Names
  import opened Bytes
  import opened TarWrite

  // ── the reader ──────────────────────────────────────────────────────────────

  datatype Head = Head(name: Bytes, kind: Byte, mode: nat, size: nat, mtime: nat, link: Bytes)

  datatype Copied =
    | File(path: Bytes, executable: bool, mtime: nat, body: Bytes)
    | Link(path: Bytes, target: Bytes, mtime: nat)

  /** A text field ends at its first NUL, or fills the field. */
  function UpToNul(s: Bytes): Bytes {
    if s == [] || s[0] == 0 then [] else [s[0]] + UpToNul(s[1..])
  }

  /** The digits in front. */
  function LeadDigits(s: Bytes, base: nat): (r: Bytes)
    ensures AllDigits(r, base) && |r| <= |s|
  {
    if s == [] || !IsDigit(s[0], base) then [] else [s[0]] + LeadDigits(s[1..], base)
  }

  /** An octal field: digits, ended by a NUL or a space. */
  function ReadOctal(s: Bytes): Option<nat> {
    var d := LeadDigits(s, 8);
    if d != [] && |d| < |s| && (s[|d|] == 0 || s[|d|] == SPACE) then Some(Number(d, 8)) else None
  }

  function FullName(h: Bytes): Bytes
    requires |h| == BLOCK
  {
    var prefix := UpToNul(h[345..500]);
    if prefix == [] then UpToNul(h[0..100]) else prefix + [SLASH] + UpToNul(h[0..100])
  }

  predicate ChecksumOk(h: Bytes)
    requires |h| == BLOCK
  {
    ReadOctal(h[148..156]) == Some(Sum(Put(h, 148, BLANKS)))
  }

  function ReadHeader(h: Bytes): Option<Head>
    requires |h| == BLOCK
  {
    if h[257..265] != MAGIC || !ChecksumOk(h) then None
    else
      match (ReadOctal(h[100..108]), ReadOctal(h[124..136]), ReadOctal(h[136..148]))
      case (Some(mode), Some(size), Some(mtime)) => Some(Head(FullName(h), h[156], mode, size, mtime, UpToNul(h[157..257])))
      case _ => None
  }

  datatype Override = Override(path: Option<Bytes>, link: Option<Bytes>)

  const NOTHING := Override(None, None)

  /** The keyword and value of a record of `len` bytes, after its digits. */
  function Apply(o: Override, key: Bytes, value: Bytes): Override {
    if key == PATH then o.(path := Some(value))
    else if key == LINKPATH then o.(link := Some(value))
    else o
  }

  datatype Record = Record(key: Bytes, value: Bytes, len: nat)

  /** The record at the front: its own length says where it ends. */
  function NextRecord(b: Bytes): (r: Option<Record>)
    ensures r.Some? ==> 0 < r.value.len <= |b|
  {
    var d := LeadDigits(b, 10);
    var len := Number(d, 10);
    if d == [] || !(|d| + 2 <= len <= |b|) || b[|d|] != SPACE || b[len - 1] != NEWLINE then None
    else
      var content := b[|d| + 1..len - 1];
      var k := UpTo(content, EQUALS);
      if k == |content| then None else Some(Record(content[..k], content[k + 1..], len))
  }

  function ReadRecords(b: Bytes, o: Override): Option<Override>
    decreases |b|
  {
    if b == [] then Some(o)
    else
      var r := NextRecord(b);
      if r.None? then None else ReadRecords(b[r.value.len..], Apply(o, r.value.key, r.value.value))
  }

  function Rounded(len: nat): (r: nat)
    ensures r == len + |Padding(len)|
  {
    len + |Padding(len)|
  }

  function Copy(head: Head, o: Override, body: Bytes): Option<Copied> {
    var path := if o.path.Some? then o.path.value else head.name;
    if head.kind == REGULAR then Some(File(path, head.mode / 64 % 2 == 1, head.mtime, body))
    else if head.kind == TarWrite.LINK then Some(Link(path, if o.link.Some? then o.link.value else head.link, head.mtime))
    else None
  }

  /** Read members until a block of zeros; `o` holds what pax records said of the next one. */
  function ReadArchive(b: Bytes, o: Override): Option<seq<Copied>>
    decreases |b|
  {
    if |b| < BLOCK then None
    else if b[..BLOCK] == Zeros(BLOCK) then Some([])
    else
      var head := ReadHeader(b[..BLOCK]);
      if head.None? || |b| < BLOCK + Rounded(head.value.size) then None
      else
        var h := head.value;
        var data, rest := b[BLOCK..BLOCK + h.size], b[BLOCK + Rounded(h.size)..];
        if h.kind == EXTENDED then
          var records := ReadRecords(data, o);
          if records.None? then None else ReadArchive(rest, records.value)
        else
          var one := Copy(h, o, data);
          var more := ReadArchive(rest, NOTHING);
          if one.None? || more.None? then None else Some([one.value] + more.value)
  }

  // ── reading a header back ───────────────────────────────────────────────────

  predicate NulFree(s: Bytes) {
    forall i :: 0 <= i < |s| ==> s[i] != 0
  }

  lemma {:induction false} UpToNulBack(s: Bytes, rest: Bytes)
    requires NulFree(s) && (rest == [] || rest[0] == 0)
    ensures UpToNul(s + rest) == s
  {
    if s == [] {
      assert s + rest == rest;
    } else {
      assert (s + rest)[1..] == s[1..] + rest;
      UpToNulBack(s[1..], rest);
    }
  }

  lemma {:induction false} LeadDigitsBack(s: Bytes, rest: Bytes, base: nat)
    requires AllDigits(s, base) && (rest == [] || !IsDigit(rest[0], base))
    ensures LeadDigits(s + rest, base) == s
  {
    if s == [] {
      assert s + rest == rest;
    } else {
      assert (s + rest)[1..] == s[1..] + rest;
      LeadDigitsBack(s[1..], rest, base);
    }
  }

  /** A field of `width` bytes holds `v` reduced to its last `width - 1` octal digits. */
  lemma OctalBack(width: nat, v: nat)
    requires width > 1
    ensures ReadOctal(OctalField(width, v)) == Some(v % Power(8, width - 1))
  {
    hide Number, PadLeft, LeadDigits;
    var s := PadLeft(v, 8, width - 1);
    var d := s[|s| - (width - 1)..];
    LeadDigitsBack(d, [0], 8);
    PadLeftNumber(v, 8, width - 1);
    LastDigits(s, width - 1, 8);
    Remainder(v, Number(s[..|s| - (width - 1)], 8), Power(8, width - 1), Number(d, 8));
  }

  lemma Remainder(v: nat, q: nat, p: nat, r: nat)
    requires r < p && v == q * p + r
    ensures v % p == r
  {
    DivMod(v, p);
    MulOrder(q, v / p, p);
    MulOrder(v / p, q, p);
  }

  lemma MulOrder(a: nat, b: nat, p: nat)
    ensures a < b ==> a * p + p <= b * p
  {
    if a < b {
      assert (a + 1) * p <= b * p;
    }
  }

  /** What eleven octal digits hold. */
  const FIELD_LIMIT := 0x2_0000_0000

  lemma ElevenDigits()
    ensures Power(8, 11) == FIELD_LIMIT && Power(8, 7) == 0x20_0000
  {
    assert Power(8, 1) == 8;
    assert Power(8, 3) == 512;
    assert Power(8, 5) == 0x8000;
    assert Power(8, 7) == 0x20_0000;
    assert Power(8, 9) == 0x800_0000;
  }

  lemma PutSame(h: Bytes, at: nat, b: Bytes)
    requires at + |b| <= |h|
    ensures Put(h, at, b)[at..at + |b|] == b
  {
  }

  lemma PutOther(h: Bytes, at: nat, b: Bytes, i: nat, j: nat)
    requires at + |b| <= |h| && i <= j <= |h| && (j <= at || at + |b| <= i)
    ensures Put(h, at, b)[i..j] == h[i..j]
  {
    PutAt(h, at, b);
  }

  function Named(f: Fields): (r: Bytes)
    ensures |r| == BLOCK
  {
    Put(Zeros(BLOCK), 0, Cut(f.name))
  }

  /** Outside the checksum a header is what was filled in before it. */
  lemma OutsideSum(f: Fields, i: nat, j: nat)
    requires i <= j <= BLOCK && (j <= 148 || 156 <= i)
    ensures Header(f)[i..j] == WithLink(WithNumbers(Named(f), f), f)[i..j]
  {
    var h := WithLink(WithNumbers(Named(f), f), f);
    SumFits(Unsummed(f));
    PutOther(h, 148, BLANKS, i, j);
    PutOther(Unsummed(f), 148, PadLeft(Sum(Unsummed(f)), 8, 6) + [0, SPACE], i, j);
  }

  lemma OutsideLink(h: Bytes, f: Fields, i: nat, j: nat)
    requires |h| == BLOCK && i <= j <= BLOCK && (j <= 156 || 265 <= i)
    ensures WithLink(h, f)[i..j] == h[i..j]
  {
    var h1 := Put(h, 156, [f.kind]);
    var h2 := Put(h1, 157, Cut(f.link));
    PutOther(h, 156, [f.kind], i, j);
    PutOther(h1, 157, Cut(f.link), i, j);
    PutOther(h2, 257, MAGIC, i, j);
  }

  lemma OutsideNumbers(h: Bytes, f: Fields, i: nat, j: nat)
    requires |h| == BLOCK && i <= j <= BLOCK && (j <= 100 || 148 <= i)
    ensures WithNumbers(h, f)[i..j] == h[i..j]
  {
    var h1 := Put(h, 100, OctalField(8, f.mode % 0x1000));
    var h2 := Put(h1, 108, OctalField(8, 1000));
    var h3 := Put(h2, 116, OctalField(8, 1000));
    var h4 := Put(h3, 124, OctalField(12, f.size));
    PutOther(h, 100, OctalField(8, f.mode % 0x1000), i, j);
    PutOther(h1, 108, OctalField(8, 1000), i, j);
    PutOther(h2, 116, OctalField(8, 1000), i, j);
    PutOther(h3, 124, OctalField(12, f.size), i, j);
    PutOther(h4, 136, OctalField(12, f.mtime), i, j);
  }

  lemma NumberFields(h: Bytes, f: Fields)
    requires |h| == BLOCK
    ensures var r := WithNumbers(h, f);
            r[100..108] == OctalField(8, f.mode % 0x1000) && r[124..136] == OctalField(12, f.size) && r[136..148] == OctalField(12, f.mtime)
  {
    var h1 := Put(h, 100, OctalField(8, f.mode % 0x1000));
    var h2 := Put(h1, 108, OctalField(8, 1000));
    var h3 := Put(h2, 116, OctalField(8, 1000));
    var h4 := Put(h3, 124, OctalField(12, f.size));
    PutSame(h, 100, OctalField(8, f.mode % 0x1000));
    PutOther(h1, 108, OctalField(8, 1000), 100, 108);
    PutOther(h2, 116, OctalField(8, 1000), 100, 108);
    PutOther(h3, 124, OctalField(12, f.size), 100, 108);
    PutOther(h4, 136, OctalField(12, f.mtime), 100, 108);
    PutSame(h3, 124, OctalField(12, f.size));
    PutOther(h4, 136, OctalField(12, f.mtime), 124, 136);
    PutSame(h4, 136, OctalField(12, f.mtime));
  }

  lemma LinkFields(h: Bytes, f: Fields)
    requires |h| == BLOCK && h[157..257] == Zeros(100)
    ensures var r := WithLink(h, f);
            r[156] == f.kind && r[157..257] == Cut(f.link) + Zeros(100 - |Cut(f.link)|) && r[257..265] == MAGIC
  {
    var h1 := Put(h, 156, [f.kind]);
    var h2 := Put(h1, 157, Cut(f.link));
    PutSame(h, 156, [f.kind]);
    PutOther(h1, 157, Cut(f.link), 156, 157);
    PutOther(h2, 257, MAGIC, 156, 157);
    assert WithLink(h, f)[156..157][0] == h1[156..157][0];
    PutOther(h, 156, [f.kind], 157, 257);
    PutOther(h2, 257, MAGIC, 157, 257);
    FillField(h1, 157, Cut(f.link), 100);
    PutSame(h2, 257, MAGIC);
  }

  /** A text put into a field of zeros. */
  lemma FillField(h: Bytes, at: nat, b: Bytes, width: nat)
    requires |b| <= width && at + width <= |h| && h[at..at + width] == Zeros(width)
    ensures Put(h, at, b)[at..at + width] == b + Zeros(width - |b|)
  {
    PutAt(h, at, b);
    var z, e := Put(h, at, b)[at..at + width], b + Zeros(width - |b|);
    forall k | 0 <= k < width ensures z[k] == e[k] {
      if k >= |b| {
        assert h[at + k] == h[at..at + width][k];
      }
    }
  }

  lemma ChecksumBack(f: Fields)
    ensures ChecksumOk(Header(f))
  {
    var u := Unsummed(f);
    var d := PadLeft(Sum(u), 8, 6);
    SumFits(u);
    var c := d + [0, SPACE];
    PutSame(u, 148, c);
    LeadDigitsBack(d, [0, SPACE], 8);
    PadLeftNumber(Sum(u), 8, 6);
    var h := WithLink(WithNumbers(Named(f), f), f);
    assert Put(Header(f), 148, BLANKS) == u by {
      PutAt(h, 148, BLANKS);
      PutAt(u, 148, c);
      PutAt(Header(f), 148, BLANKS);
    }
  }

  lemma NameBack(f: Fields)
    requires NulFree(Cut(f.name))
    ensures FullName(Header(f)) == Cut(f.name)
  {
    var n := Cut(f.name);
    OutsideSum(f, 0, 100);
    OutsideLink(WithNumbers(Named(f), f), f, 0, 100);
    OutsideNumbers(Named(f), f, 0, 100);
    assert Zeros(BLOCK)[0..100] == Zeros(100);
    FillField(Zeros(BLOCK), 0, n, 100);
    UpToNulBack(n, Zeros(100 - |n|));
    OutsideSum(f, 345, 500);
    OutsideLink(WithNumbers(Named(f), f), f, 345, 500);
    OutsideNumbers(Named(f), f, 345, 500);
    PutOther(Zeros(BLOCK), 0, n, 345, 500);
    assert Zeros(BLOCK)[345..500][0] == 0;
  }

  lemma NumbersBack(f: Fields)
    ensures var h := Header(f);
            ReadOctal(h[100..108]) == Some(f.mode % 0x1000) &&
            ReadOctal(h[124..136]) == Some(f.size % FIELD_LIMIT) &&
            ReadOctal(h[136..148]) == Some(f.mtime % FIELD_LIMIT)
  {
    NumberSlice(f, 100, 108);
    NumberSlice(f, 124, 136);
    NumberSlice(f, 136, 148);
    NumberFields(Named(f), f);
    ModeBack(f.mode % 0x1000);
    LongBack(f.size);
    LongBack(f.mtime);
  }

  lemma LongBack(v: nat)
    ensures ReadOctal(OctalField(12, v)) == Some(v % FIELD_LIMIT)
  {
    ElevenDigits();
    OctalBack(12, v);
  }

  lemma ModeBack(v: nat)
    requires v < 0x1000
    ensures ReadOctal(OctalField(8, v)) == Some(v)
  {
    ElevenDigits();
    OctalBack(8, v);
  }

  lemma NumberSlice(f: Fields, i: nat, j: nat)
    requires i <= j <= 148
    ensures Header(f)[i..j] == WithNumbers(Named(f), f)[i..j]
  {
    OutsideSum(f, i, j);
    OutsideLink(WithNumbers(Named(f), f), f, i, j);
  }

  lemma LinkBack(f: Fields)
    requires NulFree(Cut(f.link))
    ensures var h := Header(f); h[156] == f.kind && UpToNul(h[157..257]) == Cut(f.link) && h[257..265] == MAGIC
  {
    var h := WithNumbers(Named(f), f);
    OutsideNumbers(Named(f), f, 157, 257);
    PutOther(Zeros(BLOCK), 0, Cut(f.name), 157, 257);
    assert h[157..257] == Zeros(100);
    LinkFields(h, f);
    OutsideSum(f, 156, 157);
    assert Header(f)[156] == Header(f)[156..157][0];
    assert WithLink(h, f)[156] == WithLink(h, f)[156..157][0];
    OutsideSum(f, 157, 257);
    OutsideSum(f, 257, 265);
    UpToNulBack(Cut(f.link), Zeros(100 - |Cut(f.link)|));
  }

  function HeadOf(f: Fields): Head {
    Head(Cut(f.name), f.kind, f.mode % 0x1000, f.size % FIELD_LIMIT, f.mtime % FIELD_LIMIT, Cut(f.link))
  }

  /** A header reads back as its fields, names cut at 100 bytes and numbers at eleven octal digits. */
  lemma HeaderBack(f: Fields)
    requires NulFree(Cut(f.name)) && NulFree(Cut(f.link))
    ensures ReadHeader(Header(f)) == Some(HeadOf(f))
    ensures Header(f) != Zeros(BLOCK)
  {
    ChecksumBack(f);
    NameBack(f);
    NumbersBack(f);
    LinkBack(f);
    assert Header(f)[257..265][0] == Header(f)[257];
  }
}
