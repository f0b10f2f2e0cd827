/** Go's sort.Slice and the string order it is used with. A caller learns only what sort.Slice promises: the same
    elements, in an order the comparison accepts. Equal elements come in no particular order. */
module SliceSort {
  /** `less` is the strict part of a total preorder, as sort.Slice demands. */
  ghost predicate StrictOrder<T(!new)>(less: (T, T) -> bool) {
    && (forall x, y :: less(x, y) ==> !less(y, x))
    && (forall x, y, z :: !less(y, x) && !less(z, y) ==> !less(z, x))
  }

  predicate Sorted<T>(s: seq<T>, less: (T, T) -> bool) {
    forall i, j :: 0 <= i < j < |s| ==> !less(s[j], s[i])
  }

  function Insert<T>(x: T, s: seq<T>, less: (T, T) -> bool): seq<T> {
    if s == [] || !less(s[0], x) then [x] + s else [s[0]] + Insert(x, s[1..], less)
  }

  lemma {:induction false} InsertAdds<T>(x: T, s: seq<T>, less: (T, T) -> bool)
    ensures multiset(Insert(x, s, less)) == multiset(s) + multiset{x}
  {
    if s == [] || !less(s[0], x) {
    } else {
      InsertAdds(x, s[1..], less);
      assert s == [s[0]] + s[1..];
    }
  }

  lemma {:induction false} InsertKeepsSorted<T(!new)>(x: T, s: seq<T>, less: (T, T) -> bool)
    requires StrictOrder(less) && Sorted(s, less)
    ensures Sorted(Insert(x, s, less), less)
    ensures multiset(Insert(x, s, less)) == multiset(s) + multiset{x}
  {
    InsertAdds(x, s, less);
    if s == [] || !less(s[0], x) {
    } else {
      InsertKeepsSorted(x, s[1..], less);
      InsertAdds(x, s[1..], less);
      var r := Insert(x, s[1..], less);
      forall j | 0 <= j < |r| ensures !less(r[j], s[0]) {
        assert r[j] in multiset(r);
        assert r[j] == x || r[j] in multiset(s[1..]);
      }
    }
  }

  /** sort.Slice(s, less), returning the reordered slice. */
  method Sort<T(!new)>(s: seq<T>, less: (T, T) -> bool) returns (r: seq<T>)
    requires StrictOrder(less)
    ensures Sorted(r, less) && multiset(r) == multiset(s)
  {
    r := [];
    for k := 0 to |s|
      invariant Sorted(r, less) && multiset(r) == multiset(s[..k])
    {
      InsertKeepsSorted(s[k], r, less);
      r := Insert(s[k], r, less);
      assert s[..k + 1] == s[..k] + [s[k]];
    }
    assert s[..|s|] == s;
  }

  lemma SameElements<T>(a: seq<T>, b: seq<T>)
    requires multiset(a) == multiset(b)
    ensures |a| == |b| && forall x :: x in a <==> x in b
  {
    assert |multiset(a)| == |a| && |multiset(b)| == |b|;
    forall x ensures x in a <==> x in b {
      assert x in multiset(a) <==> x in multiset(b);
    }
  }

  /** No two places hold the same by `same`. */
  predicate AllApart<T>(s: seq<T>, same: (T, T) -> bool) {
    forall i, j :: 0 <= i < j < |s| ==> !same(s[i], s[j])
  }

  lemma TwoOf<T>(s: seq<T>, i: nat, j: nat)
    requires i < j < |s| && s[i] == s[j]
    ensures multiset(s)[s[i]] >= 2
  {
    assert s == s[..j] + [s[j]] + s[j + 1..];
    assert s[i] in s[..j];
    assert s[i] in multiset(s[..j]);
  }

  lemma OneOf<T>(s: seq<T>, k: nat)
    requires k < |s| && forall i :: 0 <= i < |s| && i != k ==> s[i] != s[k]
    ensures multiset(s)[s[k]] == 1
  {
    assert s == s[..k] + [s[k]] + s[k + 1..];
    assert s[k] !in s[..k] && s[k] !in s[k + 1..];
    assert s[k] !in multiset(s[..k]) && s[k] !in multiset(s[k + 1..]);
  }

  /** Reordering keeps what is distinct distinct. */
  lemma ApartIsKept<T(!new)>(a: seq<T>, b: seq<T>, same: (T, T) -> bool)
    requires multiset(a) == multiset(b) && AllApart(a, same)
    requires forall x :: same(x, x)
    requires forall x, y :: same(x, y) ==> same(y, x)
    ensures AllApart(b, same)
  {
    SameElements(a, b);
    forall i, j | 0 <= i < j < |b| ensures !same(b[i], b[j]) {
      assert b[i] in a && b[j] in a;
      var p :| 0 <= p < |a| && a[p] == b[i];
      var q :| 0 <= q < |a| && a[q] == b[j];
      if same(b[i], b[j]) {
        assert p == q;
        TwoOf(b, i, j);
        OneOf(a, p);
        assert false;
      }
    }
  }

  lemma {:induction false} SubsetIsSmaller<T>(a: set<T>, b: set<T>)
    requires a <= b
    ensures |a| <= |b| && (|a| == |b| ==> a == b)
    decreases |a|
  {
    if a != {} {
      var x :| x in a;
      SubsetIsSmaller(a - {x}, b - {x});
      assert a == a - {x} + {x} && b == b - {x} + {x};
    }
  }

  lemma FirstIsIn<T>(s: seq<T>)
    ensures s != [] ==> s[0] in s
  {
  }

  lemma HeadIsLeast<T>(a: seq<T>, x: T, less: (T, T) -> bool)
    requires Sorted(a, less) && x in a
    ensures x == a[0] || !less(x, a[0])
  {
  }

  /** An order that tells any two different elements apart leaves sort.Slice no choice. */
  lemma {:induction false} SortedIsUnique<T(!new)>(a: seq<T>, b: seq<T>, less: (T, T) -> bool)
    requires Sorted(a, less) && Sorted(b, less) && multiset(a) == multiset(b)
    requires forall x, y :: x in a && y in a && x != y ==> less(x, y) || less(y, x)
    ensures a == b
  {
    SameElements(a, b);
    if a == [] {
    } else {
      assert b[0] in a && a[0] in b;
      HeadIsLeast(a, b[0], less);
      HeadIsLeast(b, a[0], less);
      SameTails(a, b);
      SortedIsUnique(a[1..], b[1..], less);
      assert a == [a[0]] + a[1..] && b == [b[0]] + b[1..];
    }
  }

  lemma SameTails<T>(a: seq<T>, b: seq<T>)
    requires a != [] && b != [] && a[0] == b[0] && multiset(a) == multiset(b)
    ensures multiset(a[1..]) == multiset(b[1..])
  {
    assert a == [a[0]] + a[1..] && b == [b[0]] + b[1..];
    assert multiset(a[1..]) == multiset(a) - multiset{a[0]} == multiset(b[1..]);
  }

  /** Go's < on strings (by code point, which orders UTF-8 as its bytes do). */
  predicate Less(a: string, b: string) {
    if b == [] then false
    else if a == [] then true
    else if a[0] != b[0] then a[0] < b[0]
    else Less(a[1..], b[1..])
  }

  /** `a` ends where `b` goes on, or has the smaller character where they first differ. */
  predicate ComesFirst(a: string, b: string, k: nat) {
    && k <= |a| && k < |b| && a[..k] == b[..k]
    && (k < |a| ==> a[k] < b[k])
  }

  lemma {:induction false} LessIs(a: string, b: string)
    ensures Less(a, b) <==> exists k: nat :: ComesFirst(a, b, k)
  {
    if b == [] {
    } else if a == [] {
      assert ComesFirst(a, b, 0);
    } else if a[0] != b[0] {
      assert a[0] < b[0] ==> ComesFirst(a, b, 0);
      forall k: nat | ComesFirst(a, b, k) ensures a[0] < b[0] { assert k > 0 ==> a[..k][0] == b[..k][0]; }
    } else {
      LessIs(a[1..], b[1..]);
      if k: nat :| ComesFirst(a[1..], b[1..], k) {
        assert a[..k + 1] == [a[0]] + a[1..][..k] && b[..k + 1] == [b[0]] + b[1..][..k];
        assert ComesFirst(a, b, k + 1);
      }
      if k: nat :| ComesFirst(a, b, k) {
        assert a[1..][..k - 1] == a[..k][1..] && b[1..][..k - 1] == b[..k][1..];
        assert ComesFirst(a[1..], b[1..], k - 1);
      }
    }
  }

  lemma {:induction false} LessIsTotal(a: string, b: string)
    ensures Less(a, b) ==> !Less(b, a)
    ensures a != b ==> Less(a, b) || Less(b, a)
    ensures !Less(a, a)
  {
    if a != [] { LessIsTotal(a[1..], a[1..]); }
    if a != [] && b != [] && a[0] == b[0] {
      LessIsTotal(a[1..], b[1..]);
      assert a == [a[0]] + a[1..] && b == [b[0]] + b[1..];
    }
  }

  lemma {:induction false} LessIsTransitive(a: string, b: string, c: string)
    requires Less(a, b) && Less(b, c)
    ensures Less(a, c)
  {
    if a != [] && a[0] == b[0] && b[0] == c[0] {
      LessIsTransitive(a[1..], b[1..], c[1..]);
    }
  }

  lemma LessIsAStrictOrder()
    ensures StrictOrder(Less)
  {
    forall x, y ensures Less(x, y) ==> !Less(y, x) { LessIsTotal(x, y); }
    forall x, y, z | !Less(y, x) && !Less(z, y) ensures !Less(z, x) {
      LessIsTotal(x, y);
      LessIsTotal(y, z);
      LessIsTotal(z, x);
      if Less(z, x) && x != y && y != z { LessIsTransitive(x, y, z); }
    }
  }
}
