/** Token tallies in the four categories, and sums of them over finite sets taken in any order. */
module Tokens {
  datatype Tok = Tok(input: int, output: int, cacheRead: int, cacheWrite: int) {
    predicate IsZero() {
      input == 0 && output == 0 && cacheRead == 0 && cacheWrite == 0
    }

    function Plus(o: Tok): Tok {
      Tok(input + o.input, output + o.output, cacheRead + o.cacheRead, cacheWrite + o.cacheWrite)
    }

    /** Each category raised to at least the other's. */
    function MaxWith(o: Tok): Tok {
      Tok(Max(input, o.input), Max(output, o.output), Max(cacheRead, o.cacheRead), Max(cacheWrite, o.cacheWrite))
    }
  }

  const ZERO := Tok(0, 0, 0, 0)

  function Max(a: int, b: int): int {
    if a < b then b else a
  }

  lemma PlusZero(t: Tok)
    ensures t.Plus(ZERO) == t == ZERO.Plus(t)
  {
  }

  ghost function SumOver<K(!new)>(s: set<K>, f: K -> Tok): Tok
    decreases |s|
  {
    if s == {} then ZERO
    else
      var x :| x in s;
      f(x).Plus(SumOver(s - {x}, f))
  }

  /** Which element is taken first does not matter. */
  lemma {:induction false} SumTakes<K(!new)>(s: set<K>, f: K -> Tok, x: K)
    requires x in s
    ensures SumOver(s, f) == f(x).Plus(SumOver(s - {x}, f))
    decreases |s|
  {
    var y :| y in s && SumOver(s, f) == f(y).Plus(SumOver(s - {y}, f));
    if y != x {
      SumTakes(s - {y}, f, x);
      SumTakes(s - {x}, f, y);
      assert s - {x} - {y} == s - {y} - {x};
      var rest := SumOver(s - {y} - {x}, f);
      assert f(y).Plus(f(x).Plus(rest)) == f(x).Plus(f(y).Plus(rest));
    }
  }

  lemma SumAdds<K(!new)>(s: set<K>, f: K -> Tok, x: K)
    requires x !in s
    ensures SumOver(s + {x}, f) == f(x).Plus(SumOver(s, f))
  {
    SumTakes(s + {x}, f, x);
    assert s + {x} - {x} == s;
  }

  lemma {:induction false} SumsAgree<K(!new)>(s: set<K>, f: K -> Tok, g: K -> Tok)
    requires forall x :: x in s ==> f(x) == g(x)
    ensures SumOver(s, f) == SumOver(s, g)
    decreases |s|
  {
    if s != {} {
      var x :| x in s;
      SumTakes(s, f, x);
      SumTakes(s, g, x);
      SumsAgree(s - {x}, f, g);
    }
  }

  /** The sum of pointwise sums. */
  lemma {:induction false} SumOfSums<K(!new)>(s: set<K>, f: K -> Tok, g: K -> Tok, h: K -> Tok)
    requires forall x :: x in s ==> h(x) == f(x).Plus(g(x))
    ensures SumOver(s, h) == SumOver(s, f).Plus(SumOver(s, g))
    decreases |s|
  {
    if s != {} {
      var x :| x in s;
      SumTakes(s, f, x);
      SumTakes(s, g, x);
      SumTakes(s, h, x);
      SumOfSums(s - {x}, f, g, h);
      PlusInterchange(f(x), g(x), SumOver(s - {x}, f), SumOver(s - {x}, g));
    }
  }

  lemma PlusInterchange(a: Tok, b: Tok, c: Tok, d: Tok)
    ensures a.Plus(b).Plus(c.Plus(d)) == a.Plus(c).Plus(b.Plus(d))
  {
  }

  lemma {:induction false} SumOfZeros<K(!new)>(s: set<K>, f: K -> Tok)
    requires forall x :: x in s ==> f(x) == ZERO
    ensures SumOver(s, f) == ZERO
    decreases |s|
  {
    if s != {} {
      var x :| x in s;
      SumTakes(s, f, x);
      SumOfZeros(s - {x}, f);
    }
  }

  /** A sum whose terms are zero but at one element. */
  lemma SumOfOne<K(!new)>(s: set<K>, f: K -> Tok, x: K)
    requires x in s && forall y :: y in s && y != x ==> f(y) == ZERO
    ensures SumOver(s, f) == f(x)
  {
    SumTakes(s, f, x);
    SumOfZeros(s - {x}, f);
  }
}
