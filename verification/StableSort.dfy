/** The standard library's stable sort, as insertion sort over values. */
module StableSort {

  ghost predicate TotalPreorder<T(!new)>(le: (T, T) -> bool) {
    && (forall a, b :: le(a, b) || le(b, a))
    && (forall a, b, c :: le(a, b) && le(b, c) ==> le(a, c))
  }

  ghost predicate SortedBy<T>(xs: seq<T>, le: (T, T) -> bool) {
    forall i, j :: 0 <= i < j < |xs| ==> le(xs[i], xs[j])
  }

  /** Put `x` in front of the first element it may precede, so equal elements keep their order. */
  function Insert<T>(x: T, xs: seq<T>, le: (T, T) -> bool): seq<T> {
    if xs == [] then [x]
    else if le(x, xs[0]) then [x] + xs
    else [xs[0]] + Insert(x, xs[1..], le)
  }

  function Sort<T>(xs: seq<T>, le: (T, T) -> bool): seq<T> {
    if xs == [] then [] else Insert(xs[0], Sort(xs[1..], le), le)
  }

  lemma {:induction false} InsertPermutes<T>(x: T, xs: seq<T>, le: (T, T) -> bool)
    ensures multiset(Insert(x, xs, le)) == multiset(xs) + multiset{x}
  {
    if xs != [] && !le(x, xs[0]) {
      InsertPermutes(x, xs[1..], le);
      assert xs == [xs[0]] + xs[1..];
    }
  }

  lemma {:induction false} SortPermutes<T>(xs: seq<T>, le: (T, T) -> bool)
    ensures multiset(Sort(xs, le)) == multiset(xs)
  {
    if xs != [] {
      SortPermutes(xs[1..], le);
      InsertPermutes(xs[0], Sort(xs[1..], le), le);
      assert xs == [xs[0]] + xs[1..];
    }
  }

  lemma PermutationFacts<T>(xs: seq<T>, ys: seq<T>)
    requires multiset(xs) == multiset(ys)
    ensures |xs| == |ys|
    ensures forall x :: x in xs <==> x in ys
  {
    assert |multiset(xs)| == |xs| && |multiset(ys)| == |ys|;
    forall x
      ensures x in xs <==> x in ys
    {
      assert x in xs <==> x in multiset(xs);
      assert x in ys <==> x in multiset(ys);
    }
  }

  lemma {:induction false} InsertSorts<T(!new)>(x: T, xs: seq<T>, le: (T, T) -> bool)
    requires TotalPreorder(le) && SortedBy(xs, le)
    ensures SortedBy(Insert(x, xs, le), le)
  {
    if xs != [] {
      if le(x, xs[0]) {
        forall j | 0 <= j < |xs|
          ensures le(x, xs[j])
        {
          assert j == 0 || le(xs[0], xs[j]);
        }
      } else {
        var rest := Insert(x, xs[1..], le);
        InsertSorts(x, xs[1..], le);
        InsertPermutes(x, xs[1..], le);
        forall j | 0 <= j < |rest|
          ensures le(xs[0], rest[j])
        {
          assert rest[j] in multiset(rest);
          assert rest[j] in multiset(xs[1..]) || rest[j] == x;
          assert rest[j] in xs[1..] || rest[j] == x;
        }
      }
    }
  }

  lemma {:induction false} SortSorts<T(!new)>(xs: seq<T>, le: (T, T) -> bool)
    requires TotalPreorder(le)
    ensures SortedBy(Sort(xs, le), le)
  {
    if xs != [] {
      SortSorts(xs[1..], le);
      InsertSorts(xs[0], Sort(xs[1..], le), le);
    }
  }

  function Filter<T>(xs: seq<T>, keep: T -> bool): seq<T> {
    if xs == [] then []
    else if keep(xs[0]) then [xs[0]] + Filter(xs[1..], keep)
    else Filter(xs[1..], keep)
  }

  lemma {:induction false} FilterHas<T>(xs: seq<T>, keep: T -> bool)
    ensures forall x :: x in Filter(xs, keep) <==> x in xs && keep(x)
  {
    if xs != [] {
      FilterHas(xs[1..], keep);
      assert xs == [xs[0]] + xs[1..];
    }
  }

  ghost predicate AllEqual<T(!new)>(keep: T -> bool, le: (T, T) -> bool) {
    forall a, b :: keep(a) && keep(b) ==> le(a, b)
  }

  lemma {:induction false} InsertIsStable<T(!new)>(x: T, xs: seq<T>, le: (T, T) -> bool, keep: T -> bool)
    requires AllEqual(keep, le)
    ensures Filter(Insert(x, xs, le), keep) == if keep(x) then [x] + Filter(xs, keep) else Filter(xs, keep)
  {
    if xs != [] {
      if le(x, xs[0]) {
        assert ([x] + xs)[1..] == xs;
      } else {
        InsertIsStable(x, xs[1..], le, keep);
        var rest := Insert(x, xs[1..], le);
        assert ([xs[0]] + rest)[1..] == rest;
      }
    }
  }

  /** Elements that compare equal to each other keep their order. */
  lemma {:induction false} SortIsStable<T(!new)>(xs: seq<T>, le: (T, T) -> bool, keep: T -> bool)
    requires AllEqual(keep, le)
    ensures Filter(Sort(xs, le), keep) == Filter(xs, keep)
  {
    if xs != [] {
      SortIsStable(xs[1..], le, keep);
      InsertIsStable(xs[0], Sort(xs[1..], le), le, keep);
    }
  }

  ghost predicate Distinct<T>(xs: seq<T>) {
    forall i, j :: 0 <= i < j < |xs| ==> xs[i] != xs[j]
  }

  lemma {:induction false} DistinctCounts<T>(xs: seq<T>)
    ensures Distinct(xs) <==> forall x :: multiset(xs)[x] <= 1
  {
    if xs != [] {
      DistinctCounts(xs[1..]);
      assert xs == [xs[0]] + xs[1..];
      assert multiset(xs) == multiset{xs[0]} + multiset(xs[1..]);
      if Distinct(xs) {
        assert Distinct(xs[1..]) && xs[0] !in xs[1..];
        assert xs[0] !in multiset(xs[1..]);
      }
      if forall x :: multiset(xs)[x] <= 1 {
        forall x
          ensures multiset(xs[1..])[x] <= 1
        {
          assert multiset(xs)[x] <= 1;
        }
        assert multiset(xs)[xs[0]] <= 1;
        assert xs[0] !in multiset(xs[1..]);
        forall i, j | 0 <= i < j < |xs|
          ensures xs[i] != xs[j]
        {
          if i == 0 {
            assert xs[1..][j - 1] in multiset(xs[1..]);
          } else {
            assert xs[1..][i - 1] != xs[1..][j - 1];
          }
        }
      }
    }
  }

  lemma PermutationKeepsDistinct<T>(xs: seq<T>, ys: seq<T>)
    requires multiset(xs) == multiset(ys) && Distinct(xs)
    ensures Distinct(ys)
  {
    DistinctCounts(xs);
    DistinctCounts(ys);
  }

  lemma {:induction false} DistinctSize<T>(xs: seq<T>, s: set<T>)
    requires Distinct(xs) && forall x :: x in xs <==> x in s
    ensures |xs| == |s|
  {
    if xs == [] {
      assert s == {};
    } else {
      var last, rest := xs[|xs| - 1], xs[..|xs| - 1];
      assert xs == rest + [last];
      forall x
        ensures x in rest <==> x in s - {last}
      {
        assert x in xs <==> x in rest || x == last;
      }
      DistinctSize(rest, s - {last});
    }
  }
}
