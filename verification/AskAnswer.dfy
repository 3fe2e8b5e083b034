/** A question's own shape, checked before it is admitted, and the answer of a multi-select question. */
module AskAnswer {
  import opened Names
  import Bytes

  /** Text is its UTF-8 bytes: every limit below counts bytes. */
  type Text = Bytes.Bytes

  /** How many choices a multi-select answer picks; an absent bound is 1, or every choice. */
  datatype Multi = Multi(min: Option<nat>, max: Option<nat>)

  datatype Request = Request(question: Text, choices: Option<seq<Text>>, recommended: Option<nat>, multi: Option<Multi>)

  datatype Checked = Accepted(request: Request) | BadRequest

  // ── deduplication ───────────────────────────────────────────────────────────

  ghost predicate Distinct(xs: seq<Text>) {
    forall i, j :: 0 <= i < j < |xs| ==> xs[i] != xs[j]
  }

  /** The first occurrence of each entry, in order. */
  function Dedup(xs: seq<Text>): (r: seq<Text>)
    ensures forall x :: x in r <==> x in xs
  {
    if xs == [] then []
    else
      var r := Dedup(xs[..|xs| - 1]);
      assert xs == xs[..|xs| - 1] + [xs[|xs| - 1]];
      if xs[|xs| - 1] in r then r else r + [xs[|xs| - 1]]
  }

  lemma {:induction false} DedupDistinct(xs: seq<Text>)
    ensures Distinct(Dedup(xs)) && |Dedup(xs)| <= |xs|
  {
    if xs != [] {
      DedupDistinct(xs[..|xs| - 1]);
    }
  }

  /** Deduplicating again changes nothing. */
  lemma {:induction false} DedupOfDistinct(xs: seq<Text>)
    requires Distinct(xs)
    ensures Dedup(xs) == xs
  {
    if xs != [] {
      var p := xs[..|xs| - 1];
      DedupOfDistinct(p);
      assert xs == p + [xs[|xs| - 1]];
    }
  }

  /** `retain` with a set of what was seen. */
  method Retain(xs: seq<Text>) returns (r: seq<Text>)
    ensures r == Dedup(xs)
  {
    r := [];
    var seen: set<Text> := {};
    for i := 0 to |xs|
      invariant r == Dedup(xs[..i])
      invariant forall x :: x in seen <==> x in r
    {
      assert xs[..i + 1][..i] == xs[..i];
      if xs[i] !in seen {
        seen := seen + {xs[i]};
        r := r + [xs[i]];
      }
    }
    assert xs[..|xs|] == xs;
  }

  /** The position of the first entry equal to `x`. */
  method Position(xs: seq<Text>, x: Text) returns (k: nat)
    requires x in xs
    ensures k < |xs| && xs[k] == x && x !in xs[..k]
  {
    k := 0;
    while xs[k] != x
      invariant k < |xs| && x !in xs[..k]
      decreases |xs| - k
    {
      k := k + 1;
    }
  }

  // ── validate ────────────────────────────────────────────────────────────────

  function LowBound(m: Multi): nat {
    if m.min.Some? then m.min.value else 1
  }

  function HighBound(m: Multi, n: nat): nat {
    if m.max.Some? then m.max.value else n
  }

  predicate BoundsFit(m: Multi, n: nat) {
    1 <= LowBound(m) <= HighBound(m, n) <= n
  }

  ghost predicate ChoicesFit(choices: seq<Text>) {
    2 <= |choices| <= 100 && (forall x :: x in choices ==> 1 <= |x| <= 512) && 2 <= |Dedup(choices)|
  }

  /** What a question must be, in terms of the question as sent. */
  ghost predicate Acceptable(r: Request) {
    1 <= |r.question| <= 8192 &&
    match r.choices
    case None => r.recommended.None? && r.multi.None?
    case Some(choices) =>
      ChoicesFit(choices) &&
      (r.recommended.Some? ==> r.recommended.value < |choices|) &&
      (r.multi.Some? ==> BoundsFit(r.multi.value, |Dedup(choices)|))
  }

  /** The question as admitted: its choices once each, the recommendation still on the same choice, the
      multi-select bounds spelled out. */
  ghost predicate Admits(r: Request, a: Request) {
    a.question == r.question &&
    match r.choices
    case None => a == r
    case Some(choices) =>
      var d := Dedup(choices);
      a.choices == Some(d) &&
      (a.recommended.Some? <==> r.recommended.Some?) &&
      (r.recommended.Some? && r.recommended.value < |choices| ==>
         a.recommended.value < |d| && d[a.recommended.value] == choices[r.recommended.value]) &&
      a.multi == if r.multi.Some? then Some(Multi(Some(LowBound(r.multi.value)), Some(HighBound(r.multi.value, |d|)))) else None
  }

  method Validate(r: Request) returns (v: Checked)
    ensures v.Accepted? <==> Acceptable(r)
    ensures v.Accepted? ==> Admits(r, v.request)
  {
    if r.question == [] || |r.question| > 8192 {
      return BadRequest;
    }
    match r.choices
    case Some(choices) =>
      if |choices| < 2 || |choices| > 100 {
        return BadRequest;
      }
      if exists x | x in choices :: x == [] || |x| > 512 {
        return BadRequest;
      }
      if r.recommended.Some? && r.recommended.value >= |choices| {
        return BadRequest;
      }
      var kept := Retain(choices);
      if |kept| < 2 {
        return BadRequest;
      }
      var recommended := None;
      if r.recommended.Some? {
        var k := Position(kept, choices[r.recommended.value]);
        recommended := Some(k);
      }
      var multi := None;
      if r.multi.Some? {
        var n := |kept|;
        var min, max := LowBound(r.multi.value), HighBound(r.multi.value, n);
        if min < 1 || min > max || max > n {
          return BadRequest;
        }
        multi := Some(Multi(Some(min), Some(max)));
      }
      return Accepted(r.(choices := Some(kept), recommended := recommended, multi := multi));
    case None =>
      if r.recommended.Some? || r.multi.Some? {
        return BadRequest;
      }
      return Accepted(r);
  }

  /** An admitted question is acceptable as it stands, and admitting it again changes nothing. */
  lemma AdmittedStays(r: Request, a: Request, b: Request)
    requires Acceptable(r) && Admits(r, a)
    ensures Acceptable(a)
    ensures Admits(a, b) ==> b == a
  {
    match r.choices
    case None =>
    case Some(choices) =>
      DedupDistinct(choices);
      DedupOfDistinct(Dedup(choices));
      if Admits(a, b) && a.recommended.Some? {
        var d := Dedup(choices);
        assert d[b.recommended.value] == d[a.recommended.value];
        assert b.recommended.value == a.recommended.value;
      }
  }

  // ── multi-select answers ────────────────────────────────────────────────────

  datatype Json = JText(text: Text) | JList(items: seq<Json>) | JOther

  /** JSON text: how it is read, and how a list of texts is written. */
  datatype Codec = Codec(parse: Text -> Option<Json>, show: seq<Text> -> Text)

  /** Reading back what was written gives the same texts. */
  ghost predicate Faithful(codec: Codec) {
    forall xs :: codec.parse(codec.show(xs)) == Some(AsList(xs))
  }

  function AsList(xs: seq<Text>): Json {
    JList(seq(|xs|, i requires 0 <= i < |xs| => JText(xs[i])))
  }

  datatype Answer =
    | Recorded(text: Text)
    | NoResponse | NotAList | NotTexts | NotAChoice(pick: Text) | NamedTwice | WrongCount

  /** The texts of a list of JSON texts. */
  function Texts(items: seq<Json>): (r: Option<seq<Text>>)
    ensures r.Some? <==> forall i :: 0 <= i < |items| ==> items[i].JText?
    ensures r.Some? ==> |r.value| == |items| && forall i :: 0 <= i < |items| ==> items[i] == JText(r.value[i])
  {
    if items == [] then Some([])
    else
      match (items[0], Texts(items[1..]))
      case (JText(t), Some(rest)) => Some([t] + rest)
      case _ => None
  }

  /** The response's value: JSON text is read first. */
  function Value(response: Json, codec: Codec): Option<Json> {
    if response.JText? then codec.parse(response.text) else Some(response)
  }

  /** The picks a response decodes to. */
  function Picks(response: Option<Json>, codec: Codec): Option<seq<Text>> {
    if response.None? then None
    else
      match Value(response.value, codec)
      case Some(JList(items)) => Texts(items)
      case _ => None
  }

  function FirstBad(choices: seq<Text>, picked: seq<Text>): (r: Option<Text>)
    ensures r.None? <==> forall p :: p in picked ==> p in choices
    ensures r.Some? ==> r.value in picked && r.value !in choices
  {
    if picked == [] then None
    else if picked[0] !in choices then Some(picked[0])
    else
      assert picked == [picked[0]] + picked[1..];
      FirstBad(choices, picked[1..])
  }

  /** The choices that were picked, in the order the question listed them. */
  function Matching(choices: seq<Text>, picked: seq<Text>): (r: seq<Text>)
    ensures forall x :: x in r <==> x in choices && x in picked
  {
    if choices == [] then []
    else (if choices[0] in picked then [choices[0]] else []) + Matching(choices[1..], picked)
  }

  /** `Vec::dedup`: drop an entry equal to the one before it. */
  function DropRepeats(xs: seq<Text>): seq<Text> {
    if |xs| < 2 then xs
    else if xs[0] == xs[1] then DropRepeats(xs[1..])
    else [xs[0]] + DropRepeats(xs[1..])
  }

  function MultiAnswer(choices: seq<Text>, multi: Multi, response: Option<Json>, codec: Codec): Answer {
    if response.None? then NoResponse
    else
      match Value(response.value, codec)
      case Some(JList(items)) => AnswerPicks(choices, multi, Texts(items), codec)
      case _ => NotAList
  }

  function AnswerPicks(choices: seq<Text>, multi: Multi, texts: Option<seq<Text>>, codec: Codec): Answer {
    if texts.None? then NotTexts
    else
      var picked := texts.value;
      var bad := FirstBad(choices, picked);
      if bad.Some? then NotAChoice(bad.value)
      else
        var ordered := DropRepeats(Matching(choices, picked));
        if |ordered| != |picked| then NamedTwice
        else if |ordered| < LowBound(multi) || |ordered| > HighBound(multi, 0xFFFF_FFFF) then WrongCount
        else Recorded(codec.show(ordered))
  }

  // ── what an accepted answer is ──────────────────────────────────────────────

  ghost function SetOf(xs: seq<Text>): set<Text> {
    set x | x in xs
  }

  /** A list is as long as the set of its entries exactly when none repeats. */
  lemma {:induction false} LengthCounts(xs: seq<Text>)
    ensures |SetOf(xs)| <= |xs| && (|SetOf(xs)| == |xs| <==> Distinct(xs))
  {
    if xs != [] {
      var p, x := xs[..|xs| - 1], xs[|xs| - 1];
      assert xs == p + [x];
      LengthCounts(p);
      assert SetOf(xs) == SetOf(p) + {x};
      if x in p {
        var k :| 0 <= k < |p| && p[k] == x;
        assert xs[k] == xs[|xs| - 1];
      }
    }
  }

  lemma {:induction false} MatchingDistinct(choices: seq<Text>, picked: seq<Text>)
    requires Distinct(choices)
    ensures Distinct(Matching(choices, picked))
  {
    if choices != [] {
      MatchingDistinct(choices[1..], picked);
      assert choices[0] !in choices[1..];
    }
  }

  lemma {:induction false} DropRepeatsDistinct(xs: seq<Text>)
    requires Distinct(xs)
    ensures DropRepeats(xs) == xs
  {
    if |xs| >= 2 {
      DropRepeatsDistinct(xs[1..]);
    }
  }

  /** Picks that are choices: as many choices match as there are picks exactly when no pick repeats. */
  lemma MatchingCounts(choices: seq<Text>, picked: seq<Text>)
    requires Distinct(choices) && forall p :: p in picked ==> p in choices
    ensures DropRepeats(Matching(choices, picked)) == Matching(choices, picked)
    ensures |Matching(choices, picked)| == |picked| <==> Distinct(picked)
  {
    var m := Matching(choices, picked);
    MatchingDistinct(choices, picked);
    DropRepeatsDistinct(m);
    LengthCounts(m);
    LengthCounts(picked);
    assert SetOf(m) == SetOf(picked);
  }

  /** For the deduplicated choices of an admitted question: an answer is recorded exactly when the
      response decodes to distinct choices within the bounds, and it records those choices in the order
      the question listed them. */
  lemma RecordedIff(choices: seq<Text>, multi: Multi, response: Option<Json>, codec: Codec)
    requires Distinct(choices)
    ensures var a := MultiAnswer(choices, multi, response, codec);
            var p := Picks(response, codec);
            a.Recorded? <==>
              p.Some? && Distinct(p.value) && (forall x :: x in p.value ==> x in choices) &&
              LowBound(multi) <= |p.value| <= HighBound(multi, 0xFFFF_FFFF)
    ensures var a := MultiAnswer(choices, multi, response, codec);
            a.Recorded? ==> a.text == codec.show(Matching(choices, Picks(response, codec).value))
  {
    var p := Picks(response, codec);
    if p.Some? && forall x :: x in p.value ==> x in choices {
      MatchingCounts(choices, p.value);
    }
  }

  /** For an admitted multi-select question: exactly the responses that decode to distinct choices of the question
      as it was sent, as many as its own bounds allow, are recorded. */
  lemma AdmittedAnswers(r: Request, a: Request, response: Option<Json>, codec: Codec)
    requires Acceptable(r) && Admits(r, a) && r.multi.Some?
    ensures var n := |Dedup(r.choices.value)|;
            var p := Picks(response, codec);
            a.choices.Some? && a.multi.Some? &&
            (MultiAnswer(a.choices.value, a.multi.value, response, codec).Recorded? <==>
               p.Some? && Distinct(p.value) && (forall x :: x in p.value ==> x in r.choices.value) &&
               LowBound(r.multi.value) <= |p.value| <= HighBound(r.multi.value, n))
  {
    DedupDistinct(r.choices.value);
    RecordedIff(a.choices.value, a.multi.value, response, codec);
  }

  /** An order-preserving selection of `choices`. */
  ghost predicate Selects(choices: seq<Text>, picks: seq<Text>, at: seq<nat>) {
    |at| == |picks| && (forall i :: 0 <= i < |at| ==> at[i] < |choices| && choices[at[i]] == picks[i]) &&
    forall i, j :: 0 <= i < j < |at| ==> at[i] < at[j]
  }

  lemma ShiftSelects(choices: seq<Text>, picks: seq<Text>, at: seq<nat>, shifted: seq<nat>)
    requires choices != [] && Selects(choices[1..], picks, at)
    requires |shifted| == |at| && forall i :: 0 <= i < |at| ==> shifted[i] == at[i] + 1
    ensures Selects(choices, picks, shifted) && Selects(choices, [choices[0]] + picks, [0] + shifted)
  {
    assert forall i :: 0 <= i < |at| ==> choices[shifted[i]] == choices[1..][at[i]];
    var q, s := [choices[0]] + picks, [0] + shifted;
    assert forall i :: 0 < i < |s| ==> s[i] == shifted[i - 1] && q[i] == picks[i - 1];
  }

  lemma {:induction false} MatchingSelects(choices: seq<Text>, picked: seq<Text>) returns (at: seq<nat>)
    ensures Selects(choices, Matching(choices, picked), at)
  {
    if choices == [] {
      at := [];
    } else {
      var rest := MatchingSelects(choices[1..], picked);
      var shifted := seq(|rest|, i requires 0 <= i < |rest| => rest[i] + 1);
      ShiftSelects(choices, Matching(choices[1..], picked), rest, shifted);
      at := if choices[0] in picked then [0] + shifted else shifted;
    }
  }

  lemma {:induction false} MatchingAgain(choices: seq<Text>, picked: seq<Text>, again: seq<Text>)
    requires forall x :: x in choices ==> (x in again <==> x in picked)
    ensures Matching(choices, again) == Matching(choices, picked)
    decreases |choices|
  {
    if choices != [] {
      MatchingAgain(choices[1..], picked, again);
    }
  }

  /** A recorded answer, sent back as it is recorded, is recorded unchanged. */
  lemma RecordedStays(choices: seq<Text>, multi: Multi, response: Option<Json>, codec: Codec)
    requires Distinct(choices) && Faithful(codec) && MultiAnswer(choices, multi, response, codec).Recorded?
    ensures var t := MultiAnswer(choices, multi, response, codec).text;
            MultiAnswer(choices, multi, Some(JText(t)), codec) == Recorded(t)
  {
    RecordedIff(choices, multi, response, codec);
    var picked := Picks(response, codec).value;
    var m := Matching(choices, picked);
    var t := codec.show(m);
    assert codec.parse(t) == Some(AsList(m));
    assert Texts(AsList(m).items).value == m;
    MatchingAgain(choices, picked, m);
    MatchingDistinct(choices, picked);
    MatchingCounts(choices, picked);
    RecordedIff(choices, multi, Some(JText(t)), codec);
  }
}
