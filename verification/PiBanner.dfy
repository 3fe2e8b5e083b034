/** Stripping a worker's startup banner from captured text. */
module PiBanner {
  import opened Names

  const NOTICE := "New version available"

  /** Unicode white space. */
  predicate IsSpace(c: char) {
    var n := c as int;
    9 <= n <= 13 || n == 0x20 || n == 0x85 || n == 0xA0 || n == 0x1680 || 0x2000 <= n <= 0x200A ||
    n == 0x2028 || n == 0x2029 || n == 0x202F || n == 0x205F || n == 0x3000
  }

  predicate IsNewline(c: char) {
    c == '\n' || c == '\r'
  }

  /** `r` is a back part of `s`. */
  predicate IsBack(r: string, s: string) {
    |r| <= |s| && r == s[|s| - |r|..]
  }

  lemma BackOfBack(s: string, t: string, r: string)
    requires IsBack(t, s) && IsBack(r, t)
    ensures IsBack(r, s)
  {
  }

  /** Without the line breaks in front. */
  function Trim(s: string): (r: string)
    ensures |r| <= |s| && IsBack(r, s)
  {
    if s != [] && IsNewline(s[0]) then Trim(s[1..]) else s
  }

  function TrimEnd(s: string): string {
    if s != [] && IsSpace(s[|s| - 1]) then TrimEnd(s[..|s| - 1]) else s
  }

  /** Up to the first line feed, which belongs to the line. */
  function FirstLine(s: string): (l: string)
    ensures |l| <= |s| && l == s[..|l|] && (s != [] ==> l != [])
  {
    if s == [] then []
    else if s[0] == '\n' then [s[0]]
    else [s[0]] + FirstLine(s[1..])
  }

  predicate IsHead(line: string) {
    "pi v" <= line && |line| > 4 && '0' <= line[4] <= '9'
  }

  predicate IsRule(line: string) {
    TrimEnd(line) == "---"
  }

  /** Where the first line that is a bare rule ends. */
  function RuleEnd(s: string): (n: Option<nat>)
    ensures n.Some? ==> 0 < n.value <= |s|
    decreases |s|
  {
    if s == [] then None
    else
      var l := FirstLine(s);
      if IsRule(l) then Some(|l|)
      else
        match RuleEnd(s[|l|..])
        case Some(n) => Some(|l| + n)
        case None => None
  }

  /** Where a banner at the front ends: a head, a rule, and the next rule. */
  function BannerEnd(s: string): (n: Option<nat>)
    ensures n.Some? ==> 0 < n.value <= |s|
  {
    var head := FirstLine(s);
    if !IsHead(head) || s[|head|..] == [] then None
    else
      var rest := s[|head|..];
      var open_ := FirstLine(rest);
      if !IsRule(open_) then None
      else
        match RuleEnd(rest[|open_|..])
        case Some(n) => Some(|head| + |open_| + n)
        case None => None
  }

  /** Past the update notice, if it comes next. */
  function PastNotice(s: string): (r: string)
    ensures |r| <= |s| && IsBack(r, s)
  {
    var t := Trim(s);
    if NOTICE <= t then
      var l := FirstLine(t);
      assert IsBack(t[|l|..], t);
      BackOfBack(s, t, t[|l|..]);
      t[|l|..]
    else s
  }

  function Strip(s: string): string
    decreases |s|
  {
    var t := Trim(s);
    match BannerEnd(t)
    case None => s
    case Some(n) =>
      var rest := PastNotice(t[n..]);
      assert |rest| <= |t| - n < |s|;
      Strip(rest)
  }

  /** Line by line to the next bare rule. */
  method FindRule(s: string) returns (n: Option<nat>)
    ensures n == RuleEnd(s)
  {
    hide FirstLine, IsRule;
    var consumed := 0;
    while consumed < |s|
      invariant consumed <= |s|
      invariant RuleEnd(s) == match RuleEnd(s[consumed..]) case None => None case Some(n) => Some(consumed + n)
    {
      var line := FirstLine(s[consumed..]);
      assert s[consumed..][|line|..] == s[consumed + |line|..];
      consumed := consumed + |line|;
      if IsRule(line) {
        return Some(consumed);
      }
    }
    return None;
  }

  method FindBanner(s: string) returns (n: Option<nat>)
    ensures n == BannerEnd(s)
  {
    hide FirstLine, IsHead, IsRule, RuleEnd;
    var head := FirstLine(s);
    if !IsHead(head) {
      return None;
    }
    var rest := s[|head|..];
    if rest == [] {
      return None;
    }
    var rule := FirstLine(rest);
    if !IsRule(rule) {
      return None;
    }
    n := FindRule(rest[|rule|..]);
    if n.Some? {
      n := Some(|head| + |rule| + n.value);
    }
  }

  method StripBanner(text: string) returns (rest: string)
    ensures rest == Strip(text)
  {
    hide BannerEnd, Trim, PastNotice;
    rest := text;
    while true
      invariant Strip(rest) == Strip(text)
      decreases |rest|
    {
      var t := Trim(rest);
      var n := FindBanner(t);
      if n.None? {
        return;
      }
      rest := PastNotice(t[n.value..]);
    }
  }

  // ── what is removed, and what is not ────────────────────────────────────────

  predicate HasBanner(s: string) {
    BannerEnd(Trim(s)).Some?
  }

  /** Only a front part is ever removed; what is left starts with no banner. */
  lemma {:induction false} StripsFront(s: string)
    ensures IsBack(Strip(s), s) && !HasBanner(Strip(s))
    decreases |s|
  {
    hide BannerEnd, Trim, PastNotice, IsBack;
    var t := Trim(s);
    match BannerEnd(t)
    case None => BackOfAll(s);
    case Some(n) =>
      var r := PastNotice(t[n..]);
      StripsFront(r);
      BackFrom(t, n);
      BackOfBack(s, t, t[n..]);
      BackOfBack(s, t[n..], r);
      BackOfBack(s, r, Strip(s));
  }

  lemma BackOfAll(s: string)
    ensures IsBack(s, s)
  {
  }

  lemma BackFrom(s: string, n: nat)
    requires n <= |s|
    ensures IsBack(s[n..], s)
  {
  }

  /** Text is left as it is exactly when it does not start with a banner. */
  lemma StripsNothing(s: string)
    ensures Strip(s) == s <==> !HasBanner(s)
  {
    StripsFront(s);
  }

  /** Stripping again removes nothing. */
  lemma StripTwice(s: string)
    ensures Strip(Strip(s)) == Strip(s)
  {
    StripsFront(s);
  }

  /** One line, with its line feed. */
  predicate IsLine(l: string) {
    l != [] && l[|l| - 1] == '\n' && '\n' !in l[..|l| - 1]
  }

  lemma {:induction false} LineFirst(l: string, rest: string)
    requires IsLine(l)
    ensures FirstLine(l + rest) == l && (l + rest)[|l|..] == rest
    decreases |l|
  {
    if |l| > 1 {
      assert l[..|l| - 1][0] == l[0];
      assert (l + rest)[1..] == l[1..] + rest;
      assert l[1..][..|l[1..]| - 1] == l[..|l| - 1][1..];
      LineFirst(l[1..], rest);
    }
  }

  predicate AreLines(ls: seq<string>) {
    forall i :: 0 <= i < |ls| ==> IsLine(ls[i])
  }

  function Join(ls: seq<string>): string {
    if ls == [] then [] else ls[0] + Join(ls[1..])
  }

  lemma {:induction false} RuleAfter(body: seq<string>, close: string, rest: string)
    requires AreLines(body) && (forall i :: 0 <= i < |body| ==> !IsRule(body[i])) && IsLine(close) && IsRule(close)
    ensures RuleEnd(Join(body) + (close + rest)) == Some(|Join(body)| + |close|)
    decreases |body|
  {
    hide FirstLine, IsRule;
    if body == [] {
      assert Join(body) + (close + rest) == close + rest;
      LineFirst(close, rest);
    } else {
      var more := Join(body[1..]) + (close + rest);
      assert Join(body) + (close + rest) == body[0] + more;
      LineFirst(body[0], more);
      RuleAfter(body[1..], close, rest);
    }
  }

  /** A banner as it is printed: head, rule, lines that are no rule, rule; perhaps followed by the update notice. */
  datatype Banner = Banner(head: string, rule: string, body: seq<string>, close: string, notice: string)

  predicate Printed(b: Banner) {
    IsLine(b.head) && IsHead(b.head) && IsLine(b.rule) && IsRule(b.rule) && AreLines(b.body) &&
    (forall i :: 0 <= i < |b.body| ==> !IsRule(b.body[i])) && IsLine(b.close) && IsRule(b.close) &&
    (b.notice != [] ==> IsLine(b.notice) && NOTICE <= b.notice)
  }

  function Text(b: Banner): string {
    b.head + (b.rule + (Join(b.body) + (b.close + b.notice)))
  }

  lemma BannerEnds(b: Banner, rest: string)
    requires Printed(b)
    ensures var s := b.head + (b.rule + (Join(b.body) + (b.close + rest)));
            BannerEnd(s) == Some(|s| - |rest|) && Trim(s) == s
  {
    hide Join, RuleEnd, IsRule, FirstLine, IsLine;
    var tail := Join(b.body) + (b.close + rest);
    LineFirst(b.head, b.rule + tail);
    LineFirst(b.rule, tail);
    RuleAfter(b.body, b.close, rest);
    assert (b.head + (b.rule + tail))[0] == "pi v"[0];
  }

  lemma TrimNone(s: string)
    requires s != [] && !IsNewline(s[0])
    ensures Trim(s) == s
  {
  }

  lemma PrefixStays(p: string, a: string, b: string)
    requires p <= a && p != []
    ensures p <= a + b && (a + b)[0] == p[0]
  {
  }

  /** What comes after the closing rule: the notice goes, if there is one. */
  lemma NoticeGoes(notice: string, rest: string)
    requires if notice == [] then !(NOTICE <= Trim(rest)) else IsLine(notice) && NOTICE <= notice
    ensures PastNotice(notice + rest) == rest
  {
    hide FirstLine, Trim, IsLine, IsBack;
    if notice == [] {
      assert notice + rest == rest;
    } else {
      LineFirst(notice, rest);
      PrefixStays(NOTICE, notice, rest);
      TrimNone(notice + rest);
    }
  }

  lemma Regroup(b: Banner, rest: string)
    ensures Text(b) + rest == b.head + (b.rule + (Join(b.body) + (b.close + (b.notice + rest))))
  {
    hide Join;
  }

  lemma StripStep(s: string, rest: string)
    requires BannerEnd(s) == Some(|s| - |rest|) && Trim(s) == s && |rest| <= |s| && s[|s| - |rest|..] == rest
    ensures Strip(s) == Strip(PastNotice(rest))
  {
    hide BannerEnd, Trim, PastNotice;
  }

  /** A printed banner goes, whole, and the text after it is treated as if it had never been there. */
  lemma BannerGoes(b: Banner, rest: string)
    requires Printed(b) && (b.notice == [] ==> !(NOTICE <= Trim(rest)))
    ensures Strip(Text(b) + rest) == Strip(rest)
  {
    hide BannerEnd, FirstLine, Join, IsHead, IsRule, IsLine, AreLines, Trim, TrimEnd, PastNotice, Strip, Text, IsBack;
    NoticeGoes(b.notice, rest);
    Regroup(b, rest);
    BannerEnds(b, b.notice + rest);
    AfterFront(b, b.notice + rest);
    StripStep(Text(b) + rest, b.notice + rest);
  }

  lemma AfterFront(b: Banner, rest: string)
    ensures var s := b.head + (b.rule + (Join(b.body) + (b.close + rest))); s[|s| - |rest|..] == rest
  {
    hide Join;
    var front := b.head + b.rule + Join(b.body) + b.close;
    assert b.head + (b.rule + (Join(b.body) + (b.close + rest))) == front + rest;
  }
}
