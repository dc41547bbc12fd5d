/** Small shared vocabulary, and the one fact about sorting that the rest of
    the project leans on: a list sorted by a strict order is determined by its
    set of elements. */
module Prelude {
  datatype Option<+T> = None | Some(value: T)

  datatype Result<+T, +E> = Ok(value: T) | Err(error: E)

  function Min(a: nat, b: nat): nat {
    if a <= b then a else b
  }

  /** The first `n` elements, or all of them (`LIMIT n`, `Iterator::take`). */
  function Take<T>(xs: seq<T>, n: nat): seq<T> {
    xs[..Min(n, |xs|)]
  }

  function Select<T(!new)>(xs: seq<T>, p: T -> bool): seq<T> {
    if xs == [] then []
    else
      var rest := Select(xs[1..], p);
      if p(xs[0]) then [xs[0]] + rest else rest
  }

  lemma {:induction false} SelectMember<T(!new)>(xs: seq<T>, p: T -> bool, x: T)
    ensures x in Select(xs, p) <==> x in xs && p(x)
  {
    if xs != [] {
      SelectMember(xs[1..], p, x);
      assert x in xs <==> x == xs[0] || x in xs[1..];
    }
  }

  lemma {:induction false} SelectSnoc<T(!new)>(xs: seq<T>, p: T -> bool, x: T)
    ensures Select(xs + [x], p) == Select(xs, p) + if p(x) then [x] else []
  {
    if xs == [] {
      assert [x][1..] == [] && xs + [x] == [x];
    } else {
      SelectSnoc(xs[1..], p, x);
      assert (xs + [x])[1..] == xs[1..] + [x];
    }
  }

  function Map<S, T>(f: S -> T, xs: seq<S>): (r: seq<T>)
    ensures |r| == |xs|
    ensures forall i :: 0 <= i < |xs| ==> r[i] == f(xs[i])
  {
    seq(|xs|, i requires 0 <= i < |xs| => f(xs[i]))
  }

  function Flatten<T>(xss: seq<seq<T>>): seq<T> {
    if xss == [] then [] else xss[0] + Flatten(xss[1..])
  }

  lemma {:induction false} FlattenSnoc<T>(xss: seq<seq<T>>, xs: seq<T>)
    ensures Flatten(xss + [xs]) == Flatten(xss) + xs
  {
    if xss == [] {
      assert xss + [xs] == [xs];
      assert Flatten([xs]) == xs + Flatten([]);
    } else {
      assert (xss + [xs])[1..] == xss[1..] + [xs];
      FlattenSnoc(xss[1..], xs);
      assert xss[0] + (Flatten(xss[1..]) + xs) == xss[0] + Flatten(xss[1..]) + xs;
    }
  }

  /** Concatenation regroups to the right. */
  lemma Regroup<T>(a: seq<T>, b: seq<T>, c: seq<T>)
    ensures (a + b) + c == a + (b + c)
  {
  }

  ghost predicate Distinct<T>(xs: seq<T>) {
    forall i, j :: 0 <= i < j < |xs| ==> xs[i] != xs[j]
  }

  /** Some element, as iterating over a table yields one. */
  method Pick<T(==)>(s: set<T>) returns (x: T)
    requires s != {}
    ensures x in s
  {
    x :| x in s;
  }

  // ------------------------------------------------------------------ order

  /** Irreflexive and transitive. */
  ghost predicate StrictOrder<T(!new)>(less: (T, T) -> bool) {
    && (forall a :: !less(a, a))
    && (forall a, b, c :: less(a, b) && less(b, c) ==> less(a, c))
  }

  /** Any two positions of `xs` hold comparable elements. */
  ghost predicate Comparable<T>(less: (T, T) -> bool, xs: seq<T>) {
    forall i, j :: 0 <= i < j < |xs| ==> less(xs[i], xs[j]) || less(xs[j], xs[i])
  }

  ghost predicate Sorted<T>(less: (T, T) -> bool, xs: seq<T>) {
    forall i, j :: 0 <= i < j < |xs| ==> less(xs[i], xs[j])
  }

  function Insert<T(!new)>(less: (T, T) -> bool, x: T, xs: seq<T>): seq<T> {
    if xs == [] then [x]
    else if less(xs[0], x) then [xs[0]] + Insert(less, x, xs[1..])
    else [x] + xs
  }

  /** `ORDER BY`: the rows of `xs` by `less`, as a sort leaves them. */
  function Sort<T(!new)>(less: (T, T) -> bool, xs: seq<T>): seq<T> {
    if xs == [] then [] else Insert(less, xs[0], Sort(less, xs[1..]))
  }

  lemma {:induction false} InsertMember<T(!new)>(less: (T, T) -> bool, x: T, xs: seq<T>, y: T)
    ensures y in Insert(less, x, xs) <==> y == x || y in xs
  {
    if xs != [] {
      InsertMember(less, x, xs[1..], y);
      assert y in xs <==> y == xs[0] || y in xs[1..];
    }
  }

  lemma {:induction false} SortMember<T(!new)>(less: (T, T) -> bool, xs: seq<T>, y: T)
    ensures y in Sort(less, xs) <==> y in xs
  {
    if xs != [] {
      SortMember(less, xs[1..], y);
      InsertMember(less, xs[0], Sort(less, xs[1..]), y);
      assert y in xs <==> y == xs[0] || y in xs[1..];
    }
  }

  lemma {:induction false} InsertSorted<T(!new)>(less: (T, T) -> bool, x: T, xs: seq<T>)
    requires StrictOrder(less) && Sorted(less, xs)
    requires forall y :: y in xs ==> less(x, y) || less(y, x)
    ensures Sorted(less, Insert(less, x, xs))
  {
    if xs != [] && less(xs[0], x) {
      InsertSorted(less, x, xs[1..]);
      var r := Insert(less, x, xs[1..]);
      forall j | 0 <= j < |r| ensures less(xs[0], r[j]) {
        InsertMember(less, x, xs[1..], r[j]);
      }
    } else if xs != [] {
      assert xs[0] in xs;
      assert less(x, xs[0]);
    }
  }

  lemma {:induction false} SortSorted<T(!new)>(less: (T, T) -> bool, xs: seq<T>)
    requires StrictOrder(less) && Comparable(less, xs)
    ensures Sorted(less, Sort(less, xs))
  {
    if xs != [] {
      SortSorted(less, xs[1..]);
      forall y | y in Sort(less, xs[1..]) ensures less(xs[0], y) || less(y, xs[0]) {
        SortMember(less, xs[1..], y);
        var k :| 0 <= k < |xs[1..]| && xs[1..][k] == y;
        assert y == xs[k + 1];
      }
      InsertSorted(less, xs[0], Sort(less, xs[1..]));
    }
  }

  lemma HeadFirst<T(!new)>(less: (T, T) -> bool, xs: seq<T>)
    requires Sorted(less, xs)
    ensures xs == [] || xs[0] in xs
    ensures forall x :: x in xs ==> x == xs[0] || less(xs[0], x)
  {
  }

  /** A sorted list is determined by its set of elements. */
  lemma {:induction false} SortedUnique<T(!new)>(less: (T, T) -> bool, xs: seq<T>, ys: seq<T>)
    requires StrictOrder(less) && Sorted(less, xs) && Sorted(less, ys)
    requires forall x :: x in xs <==> x in ys
    ensures xs == ys
  {
    HeadFirst(less, xs);
    HeadFirst(less, ys);
    if xs != [] {
      forall x ensures x in xs[1..] <==> x in ys[1..] {
        if x in xs[1..] { assert x in ys && less(xs[0], x); }
        if x in ys[1..] { assert x in xs && less(ys[0], x); }
      }
      SortedUnique(less, xs[1..], ys[1..]);
      assert xs == [xs[0]] + xs[1..] && ys == [ys[0]] + ys[1..];
    }
  }

  /** Selecting from a comparable list leaves a comparable list. */
  lemma {:induction false} SelectComparable<T(!new)>(less: (T, T) -> bool, xs: seq<T>, p: T -> bool)
    requires Comparable(less, xs)
    ensures Comparable(less, Select(xs, p))
  {
    if xs != [] {
      SelectComparable(less, xs[1..], p);
      var rest := Select(xs[1..], p);
      forall y | y in rest ensures less(xs[0], y) || less(y, xs[0]) {
        SelectMember(xs[1..], p, y);
        var k :| 0 <= k < |xs[1..]| && xs[1..][k] == y;
        assert y == xs[k + 1];
      }
    }
  }
}
