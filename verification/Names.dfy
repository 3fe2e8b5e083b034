/** Node ids, run ids and the order the scheduler's sorted maps iterate in. */
module Names {

  type NodeId = string

  datatype Option<+T> = None | Some(value: T)

  // ── lexicographic order (BTreeMap / BTreeSet iteration order) ────────────────

  predicate Less(a: string, b: string)
    decreases |a|
  {
    b != [] && (a == [] || a[0] < b[0] || (a[0] == b[0] && Less(a[1..], b[1..])))
  }

  lemma {:induction false} LessTotal(a: string, b: string)
    ensures a == b || Less(a, b) || Less(b, a)
    decreases |a|
  {
    if a != [] && b != [] && a[0] == b[0] {
      LessTotal(a[1..], b[1..]);
      if a[1..] == b[1..] {
        assert a == [a[0]] + a[1..] && b == [b[0]] + b[1..];
      }
    }
  }

  lemma {:induction false} LessTransitive(a: string, b: string, c: string)
    requires Less(a, b) && Less(b, c)
    ensures Less(a, c)
    decreases |a|
  {
    if a != [] && a[0] == b[0] && b[0] == c[0] {
      LessTransitive(a[1..], b[1..], c[1..]);
    }
  }

  lemma {:induction false} LessIrreflexive(a: string)
    ensures !Less(a, a)
    decreases |a|
  {
    if a != [] {
      LessIrreflexive(a[1..]);
    }
  }

  predicate IsLeast(m: string, s: set<string>) {
    m in s && forall x :: x in s ==> x == m || Less(m, x)
  }

  /** A nonempty set of ids has exactly one least element. */
  lemma {:induction false} LeastExists(s: set<string>) returns (m: string)
    requires s != {}
    ensures IsLeast(m, s)
    decreases s
  {
    var x :| x in s;
    if s == {x} {
      m := x;
    } else {
      var rest := s - {x};
      assert rest != {} by {
        assert s == rest + {x};
      }
      var r := LeastExists(rest);
      LessTotal(x, r);
      if Less(x, r) {
        m := x;
        forall y | y in s ensures y == m || Less(m, y) {
          if y != x && y != r {
            LessTransitive(x, r, y);
          }
        }
      } else {
        m := r;
      }
    }
  }

  lemma LeastUnique(m: string, n: string, s: set<string>)
    requires IsLeast(m, s) && IsLeast(n, s)
    ensures m == n
  {
    if m != n {
      LessTransitive(m, n, m);
      LessIrreflexive(m);
    }
  }

  ghost function Least(s: set<string>): (m: string)
    requires s != {}
    ensures IsLeast(m, s)
  {
    assert exists m :: IsLeast(m, s) by {
      var m := LeastExists(s);
    }
    var m :| IsLeast(m, s);
    m
  }

  /** The ids of `s` in increasing order. */
  ghost function Ordered(s: set<string>): (q: seq<string>)
    ensures forall x :: x in q <==> x in s
    decreases s
  {
    if s == {} then [] else var m := Least(s); [m] + Ordered(s - {m})
  }

  // ── run ids ─────────────────────────────────────────────────────────────────

  function Digit(d: nat): char
    requires d < 10
  {
    '0' + d as char
  }

  /** Decimal digits of `k`, no leading zero. */
  function Decimal(k: nat): (s: string)
    ensures s != []
    ensures ':' !in s
  {
    if k < 10 then [Digit(k)] else Decimal(k / 10) + [Digit(k % 10)]
  }

  lemma {:induction false} DecimalInjective(j: nat, k: nat)
    requires Decimal(j) == Decimal(k)
    ensures j == k
  {
    var a, b := Decimal(j), Decimal(k);
    assert a[|a| - 1] == Digit(j % 10) && b[|b| - 1] == Digit(k % 10);
    if j >= 10 || k >= 10 {
      assert |Decimal(j)| > 1 && |Decimal(k)| > 1;
      assert a[..|a| - 1] == Decimal(j / 10) && b[..|b| - 1] == Decimal(k / 10);
      DecimalInjective(j / 10, k / 10);
    }
  }

  /** The run of attempt `attempt` of `node` in `campaign`. */
  datatype RunId = RunId(campaign: string, node: NodeId, attempt: nat) {
    predicate ColonFree() {
      ':' !in campaign && ':' !in node
    }

    /** The id on the wire: `campaign:node:a<attempt>`. */
    function Text(): string {
      campaign + ":" + node + ":a" + Decimal(attempt)
    }
  }

  lemma SplitUnique(a: string, b: string, x: string, y: string)
    requires ':' !in a && ':' !in x
    requires a + ":" + b == x + ":" + y
    ensures a == x && b == y
  {
    var s := a + ":" + b;
    var t := x + ":" + y;
    assert s[|a|] == ':' && t[|x|] == ':';
    assert forall i :: 0 <= i < |a| ==> s[i] == a[i] && s[i] != ':';
    assert forall i :: 0 <= i < |x| ==> t[i] == x[i] && t[i] != ':';
    assert |a| == |x|;
    assert a == s[..|a|] && x == t[..|x|];
    assert b == s[|a| + 1..] && y == t[|x| + 1..];
  }

  /** Without `:` in campaign and node ids, the text of a run id determines the run. */
  lemma TextInjective(r: RunId, q: RunId)
    requires r.ColonFree() && q.ColonFree()
    requires r.Text() == q.Text()
    ensures r == q
  {
    var tr, tq := "a" + Decimal(r.attempt), "a" + Decimal(q.attempt);
    assert r.Text() == r.campaign + ":" + (r.node + ":" + tr);
    assert q.Text() == q.campaign + ":" + (q.node + ":" + tq);
    SplitUnique(r.campaign, r.node + ":" + tr, q.campaign, q.node + ":" + tq);
    SplitUnique(r.node, tr, q.node, tq);
    assert tr[1..] == Decimal(r.attempt) && tq[1..] == Decimal(q.attempt);
    DecimalInjective(r.attempt, q.attempt);
  }
}
