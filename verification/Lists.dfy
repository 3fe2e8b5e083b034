/** Lists that hold each entry once. */
module Lists {

  predicate Distinct<T(==)>(xs: seq<T>) {
    forall i, j :: 0 <= i < j < |xs| ==> xs[i] != xs[j]
  }

  /** `retain`: every entry but `x`, in order. */
  function Without<T(==, !new)>(xs: seq<T>, x: T): (r: seq<T>)
    ensures forall y :: y in r <==> y in xs && y != x
  {
    if xs == [] then [] else (if xs[0] != x then [xs[0]] else []) + Without(xs[1..], x)
  }

  lemma JoinDistinct<T(!new)>(a: seq<T>, b: seq<T>)
    requires Distinct(a) && Distinct(b) && forall x :: x in a ==> x !in b
    ensures Distinct(a + b)
  {
    forall i, j | 0 <= i < j < |a + b| ensures (a + b)[i] != (a + b)[j] {
      if i < |a| <= j {
        assert a[i] in a && b[j - |a|] in b;
      }
    }
  }

  lemma TailDistinct<T(!new)>(xs: seq<T>)
    requires xs != [] && Distinct(xs)
    ensures Distinct(xs[1..]) && Distinct(xs[..1]) && xs[0] !in xs[1..]
  {
  }

  lemma {:induction false} WithoutDistinct<T(!new)>(xs: seq<T>, x: T)
    requires Distinct(xs)
    ensures Distinct(Without(xs, x))
  {
    if xs != [] {
      TailDistinct(xs);
      WithoutDistinct(xs[1..], x);
      var rest := Without(xs[1..], x);
      hide Distinct;
      if xs[0] != x {
        assert [xs[0]] == xs[..1];
        JoinDistinct([xs[0]], rest);
      } else {
        assert [] + rest == rest;
      }
    }
  }
}
