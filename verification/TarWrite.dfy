/** The tar stream the floor writes: ustar headers, with a pax header in front when a name or link is too long. */
module TarWrite {
  import opened Bytes

  /** One blob or link of a tree. */
  datatype Entry = Entry(mode: nat, oid: Bytes, path: Bytes) {
    predicate IsLink() {
      mode / 0x1000 % 16 == 10
    }

    predicate IsExecutable() {
      mode % 2 == 1 || mode / 8 % 2 == 1 || mode / 64 % 2 == 1
    }
  }

  const BLOCK := 512
  const REGULAR: Byte := 48 // '0'
  const LINK: Byte := 50 // '2'
  const EXTENDED: Byte := 120 // 'x'
  const MAGIC: Bytes := [117, 115, 116, 97, 114, 0, 48, 48] // "ustar\0" "00"
  const PAX_NAME: Bytes := [46, 47, 46, 47, 64, 80, 97, 120, 72, 101, 97, 100, 101, 114] // "././@PaxHeader"
  const PATH: Bytes := [112, 97, 116, 104] // "path"
  const LINKPATH: Bytes := [108, 105, 110, 107, 112, 97, 116, 104] // "linkpath"

  // ── pax records ─────────────────────────────────────────────────────────────

  function PaxBody(key: Bytes, value: Bytes): Bytes {
    [SPACE] + key + [EQUALS] + value + [NEWLINE]
  }

  function Written(len: nat, body: Bytes): Bytes {
    Digits(len, 10) + body
  }

  /** `len` counts itself: its digits and `body` take `len` bytes together. */
  predicate CountsItself(len: nat, body: Bytes) {
    |Written(len, body)| == len
  }

  lemma {:induction false} DigitsMonotone(a: nat, b: nat)
    requires a <= b
    ensures |Digits(a, 10)| <= |Digits(b, 10)|
    decreases b
  {
    if a >= 10 {
      DigitsMonotone(a / 10, b / 10);
    }
  }

  lemma {:induction false} DigitsShort(n: nat)
    ensures |Digits(n, 10)| <= n / 2 + 1
    decreases n
  {
    if n >= 10 {
      DigitsShort(n / 10);
    }
  }

  /** No length that counts itself lies below what the loop has reached. */
  ghost predicate Below(len: nat, body: Bytes) {
    forall m: nat :: CountsItself(m, body) ==> len <= m
  }

  /** One turn of the loop: the next length is no smaller, within the bound, and skips no solution. */
  lemma NextLength(len: nat, body: Bytes)
    requires Below(len, body) && len <= |Written(len, body)| && len <= 2 * |body| + 2
    ensures var next := |Written(len, body)|;
            Below(next, body) && next <= |Written(next, body)| && next <= 2 * |body| + 2
  {
    var next := |Written(len, body)|;
    DigitsMonotone(len, next);
    DigitsMonotone(len, 2 * |body| + 2);
    DigitsShort(2 * |body| + 2);
    forall m: nat | CountsItself(m, body) ensures next <= m {
      DigitsMonotone(len, m);
    }
  }

  lemma {:induction false} LeastLength(len: nat, body: Bytes) returns (r: nat)
    requires Below(len, body) && len <= |Written(len, body)| && len <= 2 * |body| + 2
    ensures CountsItself(r, body) && Below(r, body)
    decreases 2 * |body| + 2 - len
  {
    if CountsItself(len, body) {
      r := len;
    } else {
      NextLength(len, body);
      r := LeastLength(|Written(len, body)|, body);
    }
  }

  lemma FirstLength(body: Bytes)
    requires body != []
    ensures var len := |body| + 1; Below(len, body) && len <= |Written(len, body)| && len <= 2 * |body| + 2
  {
  }

  /** The least length that counts itself. */
  ghost function PaxLength(body: Bytes): (r: nat)
    requires body != []
    ensures CountsItself(r, body) && Below(r, body)
  {
    assert exists r: nat :: CountsItself(r, body) && Below(r, body) by {
      FirstLength(body);
      var r := LeastLength(|body| + 1, body);
    }
    var r: nat :| CountsItself(r, body) && Below(r, body);
    r
  }

  ghost function PaxRecordOf(key: Bytes, value: Bytes): Bytes {
    Written(PaxLength(PaxBody(key, value)), PaxBody(key, value))
  }

  /** Terminates for every key and value, at the least length that counts itself. */
  method PaxRecord(key: Bytes, value: Bytes) returns (rec: Bytes)
    ensures rec == PaxRecordOf(key, value)
    ensures CountsItself(|rec|, PaxBody(key, value)) && forall m: nat :: CountsItself(m, PaxBody(key, value)) ==> |rec| <= m
  {
    var body := PaxBody(key, value);
    var len := |body| + 1;
    FirstLength(body);
    while true
      invariant Below(len, body) && len <= |Written(len, body)| && len <= 2 * |body| + 2
      decreases 2 * |body| + 2 - len
    {
      var candidate := Written(len, body);
      if |candidate| == len {
        assert CountsItself(len, body) && CountsItself(PaxLength(body), body);
        return candidate;
      }
      NextLength(len, body);
      len := |candidate|;
    }
  }

  /** The length need not be unique: a body of eight bytes counts itself as 9 and as 10. */
  lemma TwoLengths(body: Bytes)
    requires |body| == 8
    ensures CountsItself(9, body) && CountsItself(10, body)
  {
    assert |Digits(9, 10)| == 1;
    assert Digits(10, 10) == Digits(1, 10) + [ZERO];
  }

  // ── headers ─────────────────────────────────────────────────────────────────

  /** `h` with `b` written at `at`. */
  function Put(h: Bytes, at: nat, b: Bytes): (r: Bytes)
    requires at + |b| <= |h|
    ensures |r| == |h|
  {
    h[..at] + b + h[at + |b|..]
  }

  lemma PutAt(h: Bytes, at: nat, b: Bytes)
    requires at + |b| <= |h|
    ensures var r := Put(h, at, b); forall k :: 0 <= k < |h| ==> r[k] == if at <= k < at + |b| then b[k - at] else h[k]
  {
  }

  function Cut(s: Bytes): (r: Bytes)
    ensures |r| <= 100
  {
    if |s| <= 100 then s else s[..100]
  }

  /** The last `width - 1` octal digits of `v`, and a NUL. */
  function OctalField(width: nat, v: nat): (r: Bytes)
    requires width > 0
    ensures |r| == width
  {
    var s := PadLeft(v, 8, width - 1);
    s[|s| - (width - 1)..] + [0]
  }

  datatype Fields = Fields(name: Bytes, kind: Byte, mode: nat, size: nat, mtime: nat, link: Bytes)

  const BLANKS: Bytes := [SPACE, SPACE, SPACE, SPACE, SPACE, SPACE, SPACE, SPACE]

  function WithNumbers(h: Bytes, f: Fields): (r: Bytes)
    requires |h| == BLOCK
    ensures |r| == BLOCK
  {
    var h1 := Put(h, 100, OctalField(8, f.mode % 0x1000));
    var h2 := Put(h1, 108, OctalField(8, 1000));
    var h3 := Put(h2, 116, OctalField(8, 1000));
    var h4 := Put(h3, 124, OctalField(12, f.size));
    Put(h4, 136, OctalField(12, f.mtime))
  }

  function WithLink(h: Bytes, f: Fields): (r: Bytes)
    requires |h| == BLOCK
    ensures |r| == BLOCK
  {
    var h1 := Put(h, 156, [f.kind]);
    var h2 := Put(h1, 157, Cut(f.link));
    Put(h2, 257, MAGIC)
  }

  /** The header with blanks for its checksum. */
  function Unsummed(f: Fields): (r: Bytes)
    ensures |r| == BLOCK
  {
    Put(WithLink(WithNumbers(Put(Zeros(BLOCK), 0, Cut(f.name)), f), f), 148, BLANKS)
  }

  function Sum(s: Bytes): nat {
    if s == [] then 0 else Sum(s[..|s| - 1]) + s[|s| - 1]
  }

  lemma {:induction false} SumBound(s: Bytes)
    ensures Sum(s) <= 255 * |s|
  {
    if s != [] {
      SumBound(s[..|s| - 1]);
    }
  }

  lemma {:induction false} DigitsFit(v: nat, base: nat, width: nat)
    requires 2 <= base <= 10 && v < Power(base, width) && width > 0
    ensures |Digits(v, base)| <= width
    decreases width
  {
    assert Power(base, width) == base * Power(base, width - 1);
    if width == 1 {
      assert Power(base, 0) == 1;
    } else if v >= base {
      Smaller(v, base);
      Quotient(v, base, Power(base, width - 1));
      DigitsFit(v / base, base, width - 1);
    }
  }

  lemma Quotient(v: nat, base: nat, p: nat)
    requires base > 0 && v < base * p
    ensures v / base < p
  {
    DivMod(v, base);
    assert base * (p - v / base) == base * p - v / base * base > 0;
  }

  /** The sum of a block fits its six octal digits. */
  lemma SumFits(h: Bytes)
    requires |h| == BLOCK
    ensures |PadLeft(Sum(h), 8, 6)| == 6
  {
    SumBound(h);
    assert Power(8, 6) == 262144 by {
      assert Power(8, 1) == 8;
      assert Power(8, 2) == 64;
      assert Power(8, 3) == 512;
      assert Power(8, 4) == 4096;
      assert Power(8, 5) == 32768;
    }
    DigitsFit(Sum(h), 8, 6);
  }

  function Header(f: Fields): (r: Bytes)
    ensures |r| == BLOCK
  {
    var h := Unsummed(f);
    SumFits(h);
    Put(h, 148, PadLeft(Sum(h), 8, 6) + [0, SPACE])
  }

  method CopyAt(h: array<Byte>, at: nat, b: Bytes)
    requires at + |b| <= h.Length
    modifies h
    ensures h[..] == Put(old(h[..]), at, b)
  {
    forall k | 0 <= k < |b| {
      h[at + k] := b[k];
    }
    PutAt(old(h[..]), at, b);
  }

  method Octal(h: array<Byte>, lo: nat, hi: nat, v: nat)
    requires lo < hi <= h.Length
    modifies h
    ensures h[..] == Put(old(h[..]), lo, OctalField(hi - lo, v))
  {
    var s := PadLeft(v, 8, hi - lo - 1);
    var b := s[|s| - (hi - lo - 1)..];
    CopyAt(h, lo, b);
    h[hi - 1] := 0;
    PutAt(old(h[..]), lo, b);
    PutAt(old(h[..]), lo, b + [0]);
    assert h[..] == Put(old(h[..]), lo, b + [0]);
  }

  method Total(h: array<Byte>) returns (sum: nat)
    ensures sum == Sum(h[..])
  {
    sum := 0;
    for i := 0 to h.Length
      invariant sum == Sum(h[..i])
    {
      assert h[..i + 1][..i] == h[..i];
      sum := sum + h[i];
    }
    assert h[..h.Length] == h[..];
  }

  method WriteNumbers(h: array<Byte>, f: Fields)
    requires h.Length == BLOCK
    modifies h
    ensures h[..] == WithNumbers(old(h[..]), f)
  {
    Octal(h, 100, 108, f.mode % 0x1000);
    Octal(h, 108, 116, 1000);
    Octal(h, 116, 124, 1000);
    Octal(h, 124, 136, f.size);
    Octal(h, 136, 148, f.mtime);
  }

  method WriteLink(h: array<Byte>, f: Fields)
    requires h.Length == BLOCK
    modifies h
    ensures h[..] == WithLink(old(h[..]), f)
  {
    CopyAt(h, 156, [f.kind]);
    CopyAt(h, 157, Cut(f.link));
    CopyAt(h, 257, MAGIC);
  }

  /** One ustar header block. */
  method Ustar(f: Fields) returns (h: array<Byte>)
    ensures fresh(h) && h[..] == Header(f)
  {
    h := new Byte[BLOCK](_ => 0);
    assert h[..] == Zeros(BLOCK);
    CopyAt(h, 0, Cut(f.name));
    WriteNumbers(h, f);
    WriteLink(h, f);
    CopyAt(h, 148, BLANKS);
    var sum := Total(h);
    SumFits(h[..]);
    CopyAt(h, 148, PadLeft(sum, 8, 6) + [0, SPACE]);
  }

  // ── members ─────────────────────────────────────────────────────────────────

  /** The zeros that fill `len` bytes up to whole blocks. */
  function Padding(len: nat): (r: Bytes)
    ensures (len + |r|) % BLOCK == 0 && |r| < BLOCK
  {
    if len % BLOCK == 0 then [] else Zeros(BLOCK - len % BLOCK)
  }

  predicate LinkTargetOk(target: Bytes) {
    Utf8(target) && !HasControl(target)
  }

  predicate NeedsPax(path: Bytes, target: Bytes) {
    |path| > 100 || |target| > 100
  }

  ghost function PaxRecords(path: Bytes, target: Bytes): Bytes {
    PaxRecordOf(PATH, path) + if |target| > 100 then PaxRecordOf(LINKPATH, target) else []
  }

  ghost function PaxMember(path: Bytes, target: Bytes, mtime: nat): Bytes {
    var rec := PaxRecords(path, target);
    Header(Fields(PAX_NAME, EXTENDED, 0x1A4, |rec|, mtime, [])) + rec + Padding(|rec|)
  }

  function FileMode(e: Entry): nat {
    if e.IsExecutable() then 0x1ED else 0x1A4
  }

  /** The member's own header and bytes. */
  function PlainMember(e: Entry, mtime: nat, body: Bytes): Bytes {
    if e.IsLink() then Header(Fields(e.path, LINK, 0x1FF, 0, mtime, body))
    else Header(Fields(e.path, REGULAR, FileMode(e), |body|, mtime, [])) + body + Padding(|body|)
  }

  function Target(e: Entry, body: Bytes): Bytes {
    if e.IsLink() then body else []
  }

  ghost function Front(e: Entry, mtime: nat, body: Bytes): Bytes {
    if NeedsPax(e.path, Target(e, body)) then PaxMember(e.path, Target(e, body), mtime) else []
  }

  ghost function Member(e: Entry, mtime: nat, body: Bytes): Bytes {
    Front(e, mtime, body) + PlainMember(e, mtime, body)
  }

  /** An entry with its mtime and the bytes git holds for it. */
  datatype Item = Item(entry: Entry, mtime: nat, body: Bytes)

  predicate Writable(item: Item) {
    item.entry.IsLink() ==> LinkTargetOk(item.body)
  }

  ghost function Members(items: seq<Item>): Bytes {
    if items == [] then [] else Members(items[..|items| - 1]) + Member(items[|items| - 1].entry, items[|items| - 1].mtime, items[|items| - 1].body)
  }

  lemma NoMembers()
    ensures Members([]) == []
  {
  }

  lemma OneMoreMember(items: seq<Item>, i: nat)
    requires i < |items|
    ensures Members(items[..i + 1]) == Members(items[..i]) + Member(items[i].entry, items[i].mtime, items[i].body)
  {
    assert items[..i + 1][..i] == items[..i];
  }

  /** The members, and two blocks of zeros. */
  ghost function Archive(items: seq<Item>): Bytes {
    Members(items) + Zeros(2 * BLOCK)
  }

  /** Where the stream is written. */
  class Sink {
    var written: Bytes

    constructor ()
      ensures written == []
    {
      written := [];
    }

    method WriteAll(b: Bytes)
      modifies this
      ensures written == old(written) + b
    {
      written := written + b;
    }

    method WriteHeader(f: Fields)
      modifies this
      ensures written == old(written) + Header(f)
    {
      var h := Ustar(f);
      WriteAll(h[..]);
    }

    method Pad(len: nat)
      modifies this
      ensures written == old(written) + Padding(len)
    {
      var rem := len % BLOCK;
      if rem != 0 {
        WriteAll(Zeros(BLOCK - rem));
      }
    }

    method WritePax(path: Bytes, target: Bytes, mtime: nat)
      modifies this
      ensures written == old(written) + PaxMember(path, target, mtime)
    {
      var rec := PaxRecord(PATH, path);
      if |target| > 100 {
        var more := PaxRecord(LINKPATH, target);
        rec := rec + more;
      }
      assert rec == PaxRecords(path, target);
      WriteHeader(Fields(PAX_NAME, EXTENDED, 0x1A4, |rec|, mtime, []));
      WriteAll(rec);
      Pad(|rec|);
      Regroup3(old(written), Header(Fields(PAX_NAME, EXTENDED, 0x1A4, |rec|, mtime, [])), rec, Padding(|rec|));
    }

    method WritePlain(e: Entry, mtime: nat, body: Bytes)
      modifies this
      ensures written == old(written) + PlainMember(e, mtime, body)
    {
      if e.IsLink() {
        WriteHeader(Fields(e.path, LINK, 0x1FF, 0, mtime, body));
      } else {
        WriteHeader(Fields(e.path, REGULAR, FileMode(e), |body|, mtime, []));
        WriteAll(body);
        Pad(|body|);
        Regroup3(old(written), Header(Fields(e.path, REGULAR, FileMode(e), |body|, mtime, [])), body, Padding(|body|));
      }
    }

    method WriteFront(e: Entry, mtime: nat, body: Bytes)
      modifies this
      ensures written == old(written) + Front(e, mtime, body)
    {
      var target := Target(e, body);
      if NeedsPax(e.path, target) {
        WritePax(e.path, target, mtime);
      }
    }

    /** A link whose target is not clean UTF-8 is refused before anything is written. */
    method TarMember(e: Entry, mtime: nat, body: Bytes) returns (ok: bool)
      modifies this
      ensures ok <==> (e.IsLink() ==> LinkTargetOk(body))
      ensures written == if ok then old(written) + Member(e, mtime, body) else old(written)
    {
      ok := e.IsLink() ==> LinkTargetOk(body);
      if ok {
        WriteFront(e, mtime, body);
        WritePlain(e, mtime, body);
        Regroup2(old(written), Front(e, mtime, body), PlainMember(e, mtime, body));
      }
    }

    /** Every item in turn, up to the first link that is refused; then the end of the archive. */
    method WriteTree(items: seq<Item>) returns (ok: bool)
      modifies this
      ensures ok <==> forall i :: 0 <= i < |items| ==> Writable(items[i])
      ensures ok ==> written == old(written) + Archive(items)
    {
      hide Member, LinkTargetOk, Zeros, Members;
      NoMembers();
      for i := 0 to |items|
        invariant forall k :: 0 <= k < i ==> Writable(items[k])
        invariant written == old(written) + Members(items[..i])
      {
        OneMoreMember(items, i);
        ghost var before := Members(items[..i]);
        ghost var member := Member(items[i].entry, items[i].mtime, items[i].body);
        var fine := TarMember(items[i].entry, items[i].mtime, items[i].body);
        if !fine {
          return false;
        }
        Regroup2(old(written), before, member);
      }
      assert items[..|items|] == items;
      WriteAll(Zeros(2 * BLOCK));
      Regroup2(old(written), Members(items), Zeros(2 * BLOCK));
      return true;
    }
  }

  lemma Regroup2(a: Bytes, b: Bytes, c: Bytes)
    ensures (a + b) + c == a + (b + c) && a + [] == a
  {
  }

  lemma Regroup3(a: Bytes, b: Bytes, c: Bytes, d: Bytes)
    ensures ((a + b) + c) + d == a + (b + c + d)
  {
  }
}
