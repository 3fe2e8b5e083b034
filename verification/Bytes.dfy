/** Byte strings: digits, padding, UTF-8. */
module Bytes {
  type Byte = b: int | 0 <= b < 256
  type Bytes = seq<Byte>

  const ZERO: Byte := 48 // '0'
  const SPACE: Byte := 32
  const TAB: Byte := 9
  const NEWLINE: Byte := 10
  const SLASH: Byte := 47
  const DOT: Byte := 46
  const EQUALS: Byte := 61
  const PLUS: Byte := 43

  // ── numbers ─────────────────────────────────────────────────────────────────

  predicate IsDigit(b: Byte, base: nat) {
    ZERO <= b < ZERO + base
  }

  predicate AllDigits(s: Bytes, base: nat) {
    forall i :: 0 <= i < |s| ==> IsDigit(s[i], base)
  }

  /** `v` written in `base`, without leading zeros. */
  function Digits(v: nat, base: nat): (s: Bytes)
    requires 2 <= base <= 10
    ensures s != [] && AllDigits(s, base)
    decreases v
  {
    if v < base then [ZERO + v] else
      Smaller(v, base);
      Digits(v / base, base) + [ZERO + v % base]
  }

  lemma Smaller(v: nat, base: nat)
    requires 2 <= base <= v
    ensures 0 < v / base < v
  {
  }

  /** The number a string of digits writes. */
  function Number(s: Bytes, base: nat): nat
    requires 2 <= base <= 10 && AllDigits(s, base)
  {
    if s == [] then 0 else Number(s[..|s| - 1], base) * base + (s[|s| - 1] - ZERO)
  }

  lemma AppendNumber(s: Bytes, d: nat, base: nat)
    requires 2 <= base <= 10 && AllDigits(s, base) && d < base
    ensures AllDigits(s + [ZERO + d], base) && Number(s + [ZERO + d], base) == Number(s, base) * base + d
  {
    assert (s + [ZERO + d])[..|s|] == s;
  }

  lemma DivMod(v: nat, base: nat)
    requires base > 0
    ensures v == v / base * base + v % base
  {
  }

  lemma {:induction false} DigitsNumber(v: nat, base: nat)
    requires 2 <= base <= 10
    ensures Number(Digits(v, base), base) == v
    decreases v
  {
    if v < base {
      assert Digits(v, base)[..0] == [];
    } else {
      Smaller(v, base);
      DivMod(v, base);
      var q, d := v / base, v % base;
      DigitsNumber(q, base);
      AppendNumber(Digits(q, base), d, base);
    }
  }

  function Zeros(n: nat): (s: Bytes)
    ensures |s| == n && forall i :: 0 <= i < n ==> s[i] == 0
  {
    seq(n, _ => 0)
  }

  /** `v` in `base`, with zeros in front up to `width`; longer when it does not fit. */
  function PadLeft(v: nat, base: nat, width: nat): (s: Bytes)
    requires 2 <= base <= 10
    ensures |s| >= width && AllDigits(s, base)
  {
    var d := Digits(v, base);
    if |d| >= width then d else seq(width - |d|, _ => ZERO) + d
  }

  function Power(base: nat, n: nat): (r: nat)
    requires base > 0
    ensures r > 0
  {
    if n == 0 then 1 else base * Power(base, n - 1)
  }

  lemma {:induction false} LeadingZeros(n: nat, d: Bytes, base: nat)
    requires 2 <= base <= 10 && AllDigits(d, base)
    ensures Number(seq(n, _ => ZERO) + d, base) == Number(d, base)
    decreases n + |d|
  {
    var z := seq(n, _ => ZERO);
    var s := z + d;
    if d != [] {
      assert s[..|s| - 1] == z + d[..|d| - 1];
      LeadingZeros(n, d[..|d| - 1], base);
    } else if n > 0 {
      assert s[..|s| - 1] == seq(n - 1, _ => ZERO) + [];
      LeadingZeros(n - 1, [], base);
    }
  }

  lemma PadLeftNumber(v: nat, base: nat, width: nat)
    requires 2 <= base <= 10
    ensures Number(PadLeft(v, base, width), base) == v
  {
    DigitsNumber(v, base);
    var d := Digits(v, base);
    if |d| < width {
      LeadingZeros(width - |d|, d, base);
    }
  }

  /** Dropping all but the last `k` digits is taking the remainder by `base`^k. */
  lemma {:induction false} LastDigits(s: Bytes, k: nat, base: nat)
    requires 2 <= base <= 10 && k <= |s| && AllDigits(s, base)
    ensures Number(s[|s| - k..], base) < Power(base, k)
    ensures Number(s, base) == Number(s[..|s| - k], base) * Power(base, k) + Number(s[|s| - k..], base)
    decreases k
  {
    if k == 0 {
      assert s[..|s|] == s;
    } else {
      var t := s[..|s| - 1];
      LastDigits(t, k - 1, base);
      var tail := s[|s| - k..];
      assert tail[..k - 1] == t[|t| - (k - 1)..];
      assert t[..|t| - (k - 1)] == s[..|s| - k];
      var high, low, p, d := Number(s[..|s| - k], base), Number(tail[..k - 1], base), Power(base, k - 1), s[|s| - 1] - ZERO;
      assert Number(s, base) == (high * p + low) * base + d;
      assert Number(tail, base) == low * base + d;
      Regroup(high, p, low, base, d);
    }
  }

  lemma Regroup(high: nat, p: nat, low: nat, base: nat, d: nat)
    requires low < p && d < base
    ensures (high * p + low) * base + d == high * (base * p) + (low * base + d)
    ensures low * base + d < base * p
  {
    assert (low + 1) * base <= p * base;
    assert (high * p) * base == high * (base * p);
  }

  // ── splitting ───────────────────────────────────────────────────────────────

  /** Where `b` first occurs, or the length. */
  function UpTo(s: Bytes, b: Byte): (n: nat)
    ensures n <= |s| && (n < |s| ==> s[n] == b) && b !in s[..n]
  {
    if s == [] || s[0] == b then 0
    else
      var n := UpTo(s[1..], b) + 1;
      assert s[..n] == [s[0]] + s[1..][..n - 1];
      n
  }

  lemma {:induction false} UpToBack(key: Bytes, b: Byte, rest: Bytes)
    requires b !in key
    ensures UpTo(key + [b] + rest, b) == |key|
  {
    if key == [] {
      assert key + [b] + rest == [b] + rest;
    } else {
      assert (key + [b] + rest)[1..] == key[1..] + [b] + rest;
      assert key == [key[0]] + key[1..];
      UpToBack(key[1..], b, rest);
    }
  }

  /** The stretches between the `b`s: always one more than there are `b`s. */
  function Split(s: Bytes, b: Byte): (r: seq<Bytes>)
    ensures r != []
    decreases |s|
  {
    var n := UpTo(s, b);
    if n == |s| then [s] else [s[..n]] + Split(s[n + 1..], b)
  }

  lemma SplitFirst(first: Bytes, b: Byte, rest: Bytes)
    requires b !in first
    ensures Split(first + [b] + rest, b) == [first] + Split(rest, b)
  {
    var s := first + [b] + rest;
    UpToBack(first, b, rest);
    assert s[..|first|] == first && s[|first| + 1..] == rest;
  }

  lemma SplitLast(s: Bytes, b: Byte)
    requires b !in s
    ensures Split(s, b) == [s]
  {
    assert forall i :: 0 <= i < |s| ==> s[i] != b;
  }

  /** No stretch holds the separator, and together with it they hold every byte. */
  lemma {:induction false} SplitFree(s: Bytes, b: Byte)
    ensures forall i :: 0 <= i < |Split(s, b)| ==> b !in Split(s, b)[i]
    decreases |s|
  {
    var n := UpTo(s, b);
    if n == |s| {
      assert s[..n] == s;
    } else {
      SplitFree(s[n + 1..], b);
    }
  }

  // ── text ────────────────────────────────────────────────────────────────────

  predicate Continuation(b: Byte) {
    0x80 <= b <= 0xBF
  }

  /** The length of the well-formed UTF-8 sequence at the front of `s`, 0 if there is none. */
  function CharLength(s: Bytes): (n: nat)
    ensures n <= |s|
  {
    if s == [] then 0
    else if s[0] < 0x80 then 1
    else if 0xC2 <= s[0] <= 0xDF then
      if |s| >= 2 && Continuation(s[1]) then 2 else 0
    else if 0xE0 <= s[0] <= 0xEF then
      if |s| >= 3 && Continuation(s[1]) && Continuation(s[2]) && (s[0] == 0xE0 ==> s[1] >= 0xA0) && (s[0] == 0xED ==> s[1] <= 0x9F)
      then 3 else 0
    else if 0xF0 <= s[0] <= 0xF4 then
      if |s| >= 4 && Continuation(s[1]) && Continuation(s[2]) && Continuation(s[3]) &&
         (s[0] == 0xF0 ==> s[1] >= 0x90) && (s[0] == 0xF4 ==> s[1] <= 0x8F)
      then 4 else 0
    else 0
  }

  predicate Utf8(s: Bytes) {
    s == [] || (CharLength(s) > 0 && Utf8(s[CharLength(s)..]))
  }

  /** A control character at `i`: U+0000..U+001F, U+007F, or U+0080..U+009F (two bytes). */
  predicate ControlAt(s: Bytes, i: nat)
    requires i < |s|
  {
    s[i] < 32 || s[i] == 127 || (s[i] == 0xC2 && i + 1 < |s| && 0x80 <= s[i + 1] <= 0x9F)
  }

  predicate HasControl(s: Bytes) {
    exists i :: 0 <= i < |s| && ControlAt(s, i)
  }

  predicate Ascii(s: Bytes) {
    forall i :: 0 <= i < |s| ==> s[i] < 0x80
  }

  lemma {:induction false} AsciiUtf8(s: Bytes)
    requires Ascii(s)
    ensures Utf8(s)
  {
    if s != [] {
      AsciiUtf8(s[1..]);
    }
  }
}
