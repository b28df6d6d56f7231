/** Sums over the goroutines of a pool, and how one goroutine's step changes them. */
module Sums {

  function Total<T>(xs: seq<T>, f: T -> nat): nat {
    if xs == [] then 0 else f(xs[0]) + Total(xs[1..], f)
  }

  function Bag<T, U(==)>(xs: seq<T>, f: T -> multiset<U>): multiset<U> {
    if xs == [] then multiset{} else f(xs[0]) + Bag(xs[1..], f)
  }

  lemma {:induction false} TotalUpdate<T>(xs: seq<T>, i: nat, x: T, f: T -> nat)
    requires i < |xs|
    ensures Total(xs[i := x], f) + f(xs[i]) == Total(xs, f) + f(x)
  {
    if i == 0 {
      assert xs[0 := x][1..] == xs[1..];
    } else {
      assert xs[i := x][1..] == xs[1..][i - 1 := x];
      TotalUpdate(xs[1..], i - 1, x, f);
    }
  }

  lemma {:induction false} TotalAppend<T>(xs: seq<T>, x: T, f: T -> nat)
    ensures Total(xs + [x], f) == Total(xs, f) + f(x)
  {
    if xs == [] {
      assert [x][1..] == [];
    } else {
      assert (xs + [x])[1..] == xs[1..] + [x];
      TotalAppend(xs[1..], x, f);
    }
  }

  /** A sum bounds each of its terms. */
  lemma {:induction false} TotalAtLeast<T>(xs: seq<T>, i: nat, f: T -> nat)
    requires i < |xs|
    ensures f(xs[i]) <= Total(xs, f)
  {
    if i == 0 {
    } else {
      TotalAtLeast(xs[1..], i - 1, f);
    }
  }

  lemma {:induction false} TotalAtMost<T>(xs: seq<T>, f: T -> nat, bound: nat)
    requires forall x :: x in xs ==> f(x) <= bound
    ensures Total(xs, f) <= bound * |xs|
  {
    if xs == [] {
    } else {
      TotalAtMost(xs[1..], f, bound);
    }
  }

  /** A sum of terms at most one that reaches the number of terms has only ones. */
  lemma {:induction false} TotalFull<T>(xs: seq<T>, f: T -> nat)
    requires forall x :: x in xs ==> f(x) <= 1
    requires Total(xs, f) == |xs|
    ensures forall x :: x in xs ==> f(x) == 1
  {
    if xs == [] {
    } else {
      TotalAtMost(xs[1..], f, 1);
      TotalFull(xs[1..], f);
      forall x | x in xs ensures f(x) == 1 {
        assert x == xs[0] || x in xs[1..];
      }
    }
  }

  lemma {:induction false} BagUpdate<T, U>(xs: seq<T>, i: nat, x: T, f: T -> multiset<U>)
    requires i < |xs|
    ensures Bag(xs[i := x], f) + f(xs[i]) == Bag(xs, f) + f(x)
  {
    if i == 0 {
      assert xs[0 := x][1..] == xs[1..];
    } else {
      assert xs[i := x][1..] == xs[1..][i - 1 := x];
      BagUpdate(xs[1..], i - 1, x, f);
      var h, rest, changed := f(xs[0]), Bag(xs[1..], f), Bag(xs[1..][i - 1 := x], f);
      assert (h + changed) + f(xs[i]) == h + (changed + f(xs[i])) == h + (rest + f(x)) == (h + rest) + f(x);
    }
  }

  lemma {:induction false} BagAppend<T, U>(xs: seq<T>, x: T, f: T -> multiset<U>)
    ensures Bag(xs + [x], f) == Bag(xs, f) + f(x)
  {
    if xs == [] {
      assert xs + [x] == [x] && [x][1..] == [];
    } else {
      assert (xs + [x])[1..] == xs[1..] + [x];
      BagAppend(xs[1..], x, f);
      assert f(xs[0]) + (Bag(xs[1..], f) + f(x)) == (f(xs[0]) + Bag(xs[1..], f)) + f(x);
    }
  }

  lemma {:induction false} BagSize<T, U>(xs: seq<T>, f: T -> multiset<U>, n: T -> nat)
    requires forall x :: x in xs ==> |f(x)| == n(x)
    ensures |Bag(xs, f)| == Total(xs, n)
  {
    if xs == [] {
    } else {
      BagSize(xs[1..], f, n);
    }
  }

  /** What goes in must come out: if the books balanced before and the changes balance,
      they balance after. */
  lemma Balance<U>(source: multiset<U>, added: multiset<U>, bag: multiset<U>, bag': multiset<U>,
                   leaving: multiset<U>, entering: multiset<U>, sink: multiset<U>, sunk: multiset<U>)
    requires source == bag + sink
    requires bag' + leaving == bag + entering
    requires added + leaving == entering + sunk
    ensures source + added == bag' + (sink + sunk)
  {
    forall u ensures (source + added)[u] == (bag' + (sink + sunk))[u] {
      assert (bag' + leaving)[u] == (bag + entering)[u];
      assert (added + leaving)[u] == (entering + sunk)[u];
    }
  }
}
