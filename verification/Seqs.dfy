/** Sequence facts shared by the models. */
module Seqs {

  predicate NoDup<T(==)>(xs: seq<T>) {
    xs == [] || (xs[0] !in xs[1..] && NoDup(xs[1..]))
  }

  lemma {:induction false} NoDupAt<T>(xs: seq<T>, i: nat, j: nat)
    requires NoDup(xs) && i < j < |xs|
    ensures xs[i] != xs[j]
  {
    if i == 0 {
      assert xs[j] == xs[1..][j - 1];
    } else {
      NoDupAt(xs[1..], i - 1, j - 1);
    }
  }

  lemma {:induction false} NoDupAppend<T>(xs: seq<T>, x: T)
    ensures NoDup(xs + [x]) <==> NoDup(xs) && x !in xs
  {
    if xs == [] {
      assert xs + [x] == [x] && [x][1..] == [];
    } else {
      NoDupAppend(xs[1..], x);
      assert (xs + [x])[1..] == xs[1..] + [x];
      assert x in xs <==> x == xs[0] || x in xs[1..];
      assert xs[0] in xs[1..] + [x] <==> xs[0] in xs[1..] || xs[0] == x;
    }
  }

  /** Dropping one element of a duplicate-free sequence. */
  lemma {:induction false} NoDupDrop<T(!new)>(a: seq<T>, x: T, b: seq<T>)
    requires NoDup(a + [x] + b)
    ensures NoDup(a + b)
    ensures x !in a && x !in b
  {
    if a == [] {
      assert a + [x] + b == [x] + b && ([x] + b)[1..] == b && a + b == b;
    } else {
      assert (a + [x] + b)[1..] == a[1..] + [x] + b;
      assert (a + b)[1..] == a[1..] + b;
      NoDupDrop(a[1..], x, b);
      assert a[0] != x && a[0] !in a[1..] + b;
    }
  }

  /** Dropping the head of the middle part. */
  lemma NoDupAdvance<T(!new)>(a: seq<T>, xs: seq<T>, k: nat, b: seq<T>)
    requires k < |xs| && NoDup(a + xs[k..] + b)
    ensures NoDup(a + xs[k + 1..] + b)
    ensures forall y :: y in a + xs[k + 1..] + b <==> y in a + xs[k..] + b && y != xs[k]
  {
    assert xs[k..] == [xs[k]] + xs[k + 1..];
    assert a + xs[k..] + b == a + [xs[k]] + (xs[k + 1..] + b);
    NoDupDrop(a, xs[k], xs[k + 1..] + b);
    assert a + xs[k + 1..] + b == a + (xs[k + 1..] + b);
  }

  /** xs without the first occurrence of x. */
  function Without<T(==)>(xs: seq<T>, x: T): seq<T> {
    if xs == [] then []
    else if xs[0] == x then xs[1..]
    else [xs[0]] + Without(xs[1..], x)
  }

  lemma {:induction false} WithoutMembers<T(!new)>(xs: seq<T>, x: T)
    requires NoDup(xs)
    ensures NoDup(Without(xs, x))
    ensures forall y :: y in Without(xs, x) <==> y in xs && y != x
  {
    if xs != [] {
      assert forall y :: y in xs <==> y == xs[0] || y in xs[1..];
      if xs[0] != x {
        WithoutMembers(xs[1..], x);
        var r := Without(xs[1..], x);
        assert Without(xs, x) == [xs[0]] + r && Without(xs, x)[1..] == r;
        assert forall y :: y in Without(xs, x) <==> y == xs[0] || y in r;
      }
    }
  }

  function Count<T>(xs: seq<T>, p: T -> bool): nat {
    if xs == [] then 0 else (if p(xs[0]) then 1 else 0) + Count(xs[1..], p)
  }

  lemma {:induction false} CountUpdate<T>(xs: seq<T>, i: nat, x: T, p: T -> bool)
    requires i < |xs|
    ensures Count(xs[i := x], p) ==
            Count(xs, p) - (if p(xs[i]) then 1 else 0) + (if p(x) then 1 else 0)
  {
    if i == 0 {
      assert xs[0 := x][1..] == xs[1..];
    } else {
      assert xs[i := x][1..] == xs[1..][i - 1 := x];
      CountUpdate(xs[1..], i - 1, x, p);
    }
  }

  function Sum<T>(xs: seq<T>, f: T -> nat): nat {
    if xs == [] then 0 else f(xs[0]) + Sum(xs[1..], f)
  }

  lemma {:induction false} SumUpdate<T>(xs: seq<T>, i: nat, x: T, f: T -> nat)
    requires i < |xs|
    ensures Sum(xs[i := x], f) + f(xs[i]) == Sum(xs, f) + f(x)
  {
    if i == 0 {
      assert xs[0 := x][1..] == xs[1..];
    } else {
      assert xs[i := x][1..] == xs[1..][i - 1 := x];
      SumUpdate(xs[1..], i - 1, x, f);
    }
  }

  /** Distinct numbers below n are at most n. */
  lemma {:induction false} Pigeonhole(xs: seq<nat>, n: nat)
    requires NoDup(xs) && forall x :: x in xs ==> x < n
    ensures |xs| <= n
    decreases n
  {
    assert forall i :: 0 <= i < |xs| ==> xs[i] in xs;
    if n > 0 {
      var last: nat := n - 1;
      WithoutMembers<nat>(xs, last);
      WithoutLength<nat>(xs, last);
      Pigeonhole(Without<nat>(xs, last), last);
    }
  }

  lemma {:induction false} WithoutLength<T>(xs: seq<T>, x: T)
    ensures |xs| - 1 <= |Without(xs, x)| <= |xs|
    ensures x in xs ==> |Without(xs, x)| == |xs| - 1
  {
    if xs != [] && xs[0] != x { WithoutLength(xs[1..], x); }
  }

  lemma {:induction false} WithoutKeeps<T>(xs: seq<T>, x: T, y: T)
    requires y in xs && y != x
    ensures y in Without(xs, x)
  {
    if xs[0] != x && xs[0] != y { WithoutKeeps(xs[1..], x, y); }
  }

  /** Distinct members of ws are at most as many as ws has places. */
  lemma {:induction false} DistinctWithin<T>(xs: seq<T>, ws: seq<T>)
    requires NoDup(xs) && forall x :: x in xs ==> x in ws
    ensures |xs| <= |ws|
  {
    if xs != [] {
      var x := xs[0];
      WithoutLength(ws, x);
      forall y | y in xs[1..] ensures y in Without(ws, x) { WithoutKeeps(ws, x, y); }
      DistinctWithin(xs[1..], Without(ws, x));
    }
  }

  lemma Associate<T>(a: seq<T>, b: seq<T>, c: seq<T>)
    ensures a + (b + c) == a + b + c
  {
  }
}
