/** Filter strings: which events a consumer polls for. */
module BusFilter {
  import opened Names

  function Find(s: string, c: char): (n: nat)
    ensures n <= |s| && (n < |s| ==> s[n] == c) && c !in s[..n]
  {
    if s == [] || s[0] == c then 0
    else
      var n := Find(s[1..], c) + 1;
      assert s[..n] == [s[0]] + s[1..][..n - 1];
      n
  }

  function StripSuffix(s: string, suffix: string): (r: Option<string>)
    ensures r.Some? <==> |s| >= |suffix| && s[|s| - |suffix|..] == suffix
    ensures r.Some? ==> s == r.value + suffix
  {
    if |s| >= |suffix| && s[|s| - |suffix|..] == suffix then Some(s[..|s| - |suffix|]) else None
  }

  function StripPrefix(s: string, prefix: string): (r: Option<string>)
    ensures r.Some? ==> s == prefix + r.value
    ensures r.Some? <==> prefix <= s
  {
    if prefix <= s then Some(s[|prefix|..]) else None
  }

  predicate TypeMatches(etype: string, pattern: string) {
    pattern == "*" || pattern == etype ||
    match StripSuffix(pattern, ".**")
    case Some(prefix) => (match StripPrefix(etype, prefix + ".") case Some(rem) => rem != [] case None => false)
    case None =>
      match StripSuffix(pattern, ".*")
      case Some(prefix) => (match StripPrefix(etype, prefix + ".") case Some(rem) => rem != [] && '.' !in rem case None => false)
      case None => false
  }

  predicate MatchesFilter(etype: string, domain: string, filter: string) {
    var at := Find(filter, '@');
    (at < |filter| ==> filter[at + 1..] == [] || domain == filter[at + 1..]) && TypeMatches(etype, filter[..at])
  }

  /** `rest` is one trailing segment; with `many`, one or more. */
  predicate Trails(rest: string, many: bool) {
    rest != [] && (many || '.' !in rest)
  }

  lemma {:induction false} FindBack(a: string, c: char, b: string)
    requires c !in a
    ensures Find(a + [c] + b, c) == |a| && Find(a, c) == |a|
  {
    if a == [] {
      assert a + [c] + b == [c] + b;
    } else {
      assert (a + [c] + b)[1..] == a[1..] + [c] + b;
      FindBack(a[1..], c, b);
    }
  }

  /** A string that differs from a suffix in the `k`-th last character does not end in it. */
  lemma NoSuffix(s: string, suffix: string, k: nat)
    requires 0 < k <= |suffix| && k <= |s| && s[|s| - k] != suffix[|suffix| - k]
    ensures StripSuffix(s, suffix).None?
  {
    if |s| >= |suffix| {
      assert s[|s| - |suffix|..][|suffix| - k] == s[|s| - k];
    }
  }

  lemma WildUnique(etype: string, prefix: string, rest: string)
    requires etype == prefix + "." + rest
    ensures StripPrefix(etype, prefix + ".") == Some(rest)
  {
  }

  /** `prefix.*` is every type with exactly one more segment, `prefix.**` every type with at least one more, and the
      pattern itself taken literally. */
  lemma WildMatches(etype: string, prefix: string, many: bool)
    ensures TypeMatches(etype, prefix + if many then ".**" else ".*") <==>
              etype == prefix + (if many then ".**" else ".*") || exists rest :: Trails(rest, many) && etype == prefix + "." + rest
  {
    var suffix := if many then ".**" else ".*";
    var pattern := prefix + suffix;
    assert pattern[|pattern| - |suffix|..] == suffix && pattern[..|pattern| - |suffix|] == prefix;
    assert pattern[|pattern| - 2] == if many then '*' else '.';
    if many {
      assert StripSuffix(pattern, ".**") == Some(prefix);
    } else {
      NoSuffix(pattern, ".**", 2);
      assert StripSuffix(pattern, ".*") == Some(prefix);
    }
    if rest :| Trails(rest, many) && etype == prefix + "." + rest {
      WildUnique(etype, prefix, rest);
    }
  }

  /** A filter without `@` or a wildcard at its end is that type, from any domain. */
  lemma ExactFilter(etype: string, domain: string, filter: string)
    requires '@' !in filter && filter != [] && filter[|filter| - 1] != '*'
    ensures MatchesFilter(etype, domain, filter) <==> etype == filter
  {
    assert Find(filter, '@') == |filter| by {
      FindBack(filter, '@', []);
    }
    assert filter[..|filter|] == filter;
    NoSuffix(filter, ".**", 1);
    NoSuffix(filter, ".*", 1);
  }

  /** `pattern@domain` is `pattern` from that domain alone; an empty domain does not constrain. */
  lemma DomainFilter(etype: string, domain: string, pattern: string, wanted: string)
    requires '@' !in pattern
    ensures MatchesFilter(etype, domain, pattern + "@" + wanted) <==> TypeMatches(etype, pattern) && (wanted == [] || domain == wanted)
  {
    FindBack(pattern, '@', wanted);
    var filter := pattern + "@" + wanted;
    assert filter[..|pattern|] == pattern && filter[|pattern| + 1..] == wanted;
  }
}
