/**
 Byte-wise string order and sorting by a string key, standing for Go's
 slices.Sort and slices.SortFunc over strings.Compare.
 */
module Ordering {

  predicate Le(a: string, b: string)
  {
    a == [] || (b != [] && (a[0] < b[0] || (a[0] == b[0] && Le(a[1..], b[1..]))))
  }

  lemma {:induction false} LeReflexive(a: string)
    ensures Le(a, a)
  {
    if a != [] { LeReflexive(a[1..]); }
  }

  lemma {:induction false} LeTotal(a: string, b: string)
    ensures Le(a, b) || Le(b, a)
  {
    if a != [] && b != [] { LeTotal(a[1..], b[1..]); }
  }

  lemma {:induction false} LeAntisymmetric(a: string, b: string)
    requires Le(a, b) && Le(b, a)
    ensures a == b
  {
    if a != [] && b != [] {
      LeAntisymmetric(a[1..], b[1..]);
      assert a == [a[0]] + a[1..] && b == [b[0]] + b[1..];
    }
  }

  lemma {:induction false} LeTransitive(a: string, b: string, c: string)
    requires Le(a, b) && Le(b, c)
    ensures Le(a, c)
  {
    if a != [] && b != [] && c != [] && a[0] == b[0] == c[0] {
      LeTransitive(a[1..], b[1..], c[1..]);
    }
  }

  ghost predicate SortedBy<T(!new)>(xs: seq<T>, key: T -> string)
  {
    forall i, j :: 0 <= i < j < |xs| ==> Le(key(xs[i]), key(xs[j]))
  }

  /** Equal keys only on equal elements: the condition under which a sort has one possible result. */
  ghost predicate KeyDetermines<T(!new)>(xs: seq<T>, key: T -> string)
  {
    forall x, y :: x in xs && y in xs && key(x) == key(y) ==> x == y
  }

  function InsertBy<T>(x: T, xs: seq<T>, key: T -> string): (r: seq<T>)
    ensures multiset(r) == multiset(xs) + multiset{x}
  {
    if xs == [] || Le(key(x), key(xs[0])) then [x] + xs
    else
      assert xs == [xs[0]] + xs[1..];
      [xs[0]] + InsertBy(x, xs[1..], key)
  }

  function SortBy<T>(xs: seq<T>, key: T -> string): (r: seq<T>)
    ensures multiset(r) == multiset(xs)
  {
    if xs == [] then []
    else
      assert xs == [xs[0]] + xs[1..];
      InsertBy(xs[0], SortBy(xs[1..], key), key)
  }

  lemma SameMembers<T>(xs: seq<T>, ys: seq<T>)
    requires multiset(xs) == multiset(ys)
    ensures |xs| == |ys|
    ensures forall x :: x in xs <==> x in ys
  {
    assert |xs| == |multiset(xs)| == |multiset(ys)| == |ys|;
    forall x ensures x in xs <==> x in ys {
      assert x in xs <==> x in multiset(xs);
      assert x in ys <==> x in multiset(ys);
    }
  }

  lemma {:induction false} InsertBySorts<T(!new)>(x: T, xs: seq<T>, key: T -> string)
    requires SortedBy(xs, key)
    ensures SortedBy(InsertBy(x, xs, key), key)
  {
    if xs == [] {
    } else if Le(key(x), key(xs[0])) {
      forall j | 0 <= j < |xs| ensures Le(key(x), key(xs[j])) {
        if j > 0 { LeTransitive(key(x), key(xs[0]), key(xs[j])); }
      }
    } else {
      var rest := InsertBy(x, xs[1..], key);
      InsertBySorts(x, xs[1..], key);
      LeTotal(key(x), key(xs[0]));
      SameMembers(rest, xs[1..] + [x]);
      forall j | 0 <= j < |rest| ensures Le(key(xs[0]), key(rest[j])) {
        assert rest[j] in xs[1..] + [x];
      }
    }
  }

  lemma {:induction false} SortBySorts<T(!new)>(xs: seq<T>, key: T -> string)
    ensures SortedBy(SortBy(xs, key), key)
  {
    if xs != [] {
      SortBySorts(xs[1..], key);
      InsertBySorts(xs[0], SortBy(xs[1..], key), key);
    }
  }

  lemma RemoveHead<T>(xs: seq<T>)
    requires xs != []
    ensures multiset(xs[1..]) == multiset(xs) - multiset{xs[0]}
  {
    assert xs == [xs[0]] + xs[1..];
  }

  lemma SameHead<T(!new)>(xs: seq<T>, ys: seq<T>, key: T -> string)
    requires xs != [] && multiset(xs) == multiset(ys)
    requires SortedBy(xs, key) && SortedBy(ys, key)
    requires KeyDetermines(xs, key)
    ensures ys != [] && xs[0] == ys[0]
  {
    SameMembers(xs, ys);
    HeadIsLeast(xs, ys[0], key);
    HeadIsLeast(ys, xs[0], key);
    LeAntisymmetric(key(xs[0]), key(ys[0]));
  }

  lemma TailIsSorted<T(!new)>(xs: seq<T>, key: T -> string)
    requires xs != [] && SortedBy(xs, key)
    ensures SortedBy(xs[1..], key)
    ensures KeyDetermines(xs, key) ==> KeyDetermines(xs[1..], key)
  {
    forall x ensures x in xs[1..] ==> x in xs {}
  }

  lemma TailsAgree<T>(xs: seq<T>, ys: seq<T>)
    requires xs != [] && ys != [] && xs[0] == ys[0] && multiset(xs) == multiset(ys)
    ensures multiset(xs[1..]) == multiset(ys[1..])
  {
    RemoveHead(xs);
    RemoveHead(ys);
  }

  lemma HeadAndTail<T>(xs: seq<T>, ys: seq<T>)
    requires xs != [] && ys != [] && xs[0] == ys[0] && xs[1..] == ys[1..]
    ensures xs == ys
  {
    assert xs == [xs[0]] + xs[1..] && ys == [ys[0]] + ys[1..];
  }

  /** Two sorted arrangements of the same elements are the same sequence. */
  lemma {:induction false} SortedArrangementIsUnique<T(!new)>(xs: seq<T>, ys: seq<T>, key: T -> string)
    requires multiset(xs) == multiset(ys)
    requires SortedBy(xs, key) && SortedBy(ys, key)
    requires KeyDetermines(xs, key)
    ensures xs == ys
  {
    if xs == [] {
      SameMembers(xs, ys);
    } else {
      SameHead(xs, ys, key);
      TailsAgree(xs, ys);
      TailIsSorted(xs, key);
      TailIsSorted(ys, key);
      SortedArrangementIsUnique(xs[1..], ys[1..], key);
      HeadAndTail(xs, ys);
    }
  }

  lemma HeadIsLeast<T(!new)>(xs: seq<T>, y: T, key: T -> string)
    requires SortedBy(xs, key) && y in xs
    ensures Le(key(xs[0]), key(y))
  {
    LeReflexive(key(y));
  }

  lemma SortIgnoresOrder<T(!new)>(xs: seq<T>, ys: seq<T>, key: T -> string)
    requires multiset(xs) == multiset(ys)
    requires KeyDetermines(xs, key)
    ensures SortBy(xs, key) == SortBy(ys, key)
  {
    SortBySorts(xs, key);
    SortBySorts(ys, key);
    SameMembers(xs, SortBy(xs, key));
    SortedArrangementIsUnique(SortBy(xs, key), SortBy(ys, key), key);
  }
}
