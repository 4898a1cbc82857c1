/**
 Sums and pools over the threads of a program: how much the threads hold between them,
 and how that changes when one of them moves.
 */
module Folds {

  /** The sum of `f` over the elements of `xs`. */
  function Total<A>(xs: seq<A>, f: A -> int): int {
    if xs == [] then 0 else Total(xs[..|xs| - 1], f) + f(xs[|xs| - 1])
  }

  /** The union, with multiplicities, of `f` over the elements of `xs`. */
  function Pool<A, T>(xs: seq<A>, f: A -> multiset<T>): multiset<T> {
    if xs == [] then multiset{} else Pool(xs[..|xs| - 1], f) + f(xs[|xs| - 1])
  }

  lemma {:induction false} TotalUpdate<A>(xs: seq<A>, f: A -> int, i: nat, x: A)
    requires i < |xs|
    ensures Total(xs[i := x], f) == Total(xs, f) - f(xs[i]) + f(x)
  {
    var ys := xs[i := x];
    if i == |xs| - 1 {
      assert ys[..|ys| - 1] == xs[..|xs| - 1];
    } else {
      assert ys[..|ys| - 1] == xs[..|xs| - 1][i := x];
      TotalUpdate(xs[..|xs| - 1], f, i, x);
    }
  }

  lemma {:induction false} PoolUpdate<A, T>(xs: seq<A>, f: A -> multiset<T>, i: nat, x: A)
    requires i < |xs|
    ensures f(xs[i]) <= Pool(xs, f)
    ensures Pool(xs[i := x], f) == Pool(xs, f) - f(xs[i]) + f(x)
  {
    var ys := xs[i := x];
    if i == |xs| - 1 {
      assert ys[..|ys| - 1] == xs[..|xs| - 1];
    } else {
      assert ys[..|ys| - 1] == xs[..|xs| - 1][i := x];
      PoolUpdate(xs[..|xs| - 1], f, i, x);
    }
  }

  lemma {:induction false} TotalSame<A>(xs: seq<A>, ys: seq<A>, f: A -> int)
    requires |xs| == |ys|
    requires forall k :: 0 <= k < |xs| ==> f(xs[k]) == f(ys[k])
    ensures Total(xs, f) == Total(ys, f)
  {
    if xs != [] {
      TotalSame(xs[..|xs| - 1], ys[..|ys| - 1], f);
    }
  }

  lemma {:induction false} PoolSame<A, T>(xs: seq<A>, ys: seq<A>, f: A -> multiset<T>)
    requires |xs| == |ys|
    requires forall k :: 0 <= k < |xs| ==> f(xs[k]) == f(ys[k])
    ensures Pool(xs, f) == Pool(ys, f)
  {
    if xs != [] {
      PoolSame(xs[..|xs| - 1], ys[..|ys| - 1], f);
    }
  }

  /** A sum of zeros and ones is at most the number of elements, and reaches it only when all are one. */
  lemma {:induction false} TotalOfBits<A>(xs: seq<A>, f: A -> int)
    requires forall k :: 0 <= k < |xs| ==> 0 <= f(xs[k]) <= 1
    ensures 0 <= Total(xs, f) <= |xs|
    ensures Total(xs, f) == |xs| <==> forall k :: 0 <= k < |xs| ==> f(xs[k]) == 1
    ensures Total(xs, f) == 0 <==> forall k :: 0 <= k < |xs| ==> f(xs[k]) == 0
  {
    if xs != [] {
      var ys := xs[..|xs| - 1];
      TotalOfBits(ys, f);
      assert forall k :: 0 <= k < |ys| ==> ys[k] == xs[k];
    }
  }

  lemma {:induction false} PoolEmpty<A, T>(xs: seq<A>, f: A -> multiset<T>)
    requires forall k :: 0 <= k < |xs| ==> f(xs[k]) == multiset{}
    ensures Pool(xs, f) == multiset{}
  {
    if xs != [] {
      PoolEmpty(xs[..|xs| - 1], f);
    }
  }

  lemma {:induction false} TotalZero<A>(xs: seq<A>, f: A -> int)
    requires forall k :: 0 <= k < |xs| ==> f(xs[k]) == 0
    ensures Total(xs, f) == 0
  {
    if xs != [] {
      TotalZero(xs[..|xs| - 1], f);
    }
  }

  // ---- Selecting ------------------------------------------------------------------------------

  /** The elements of `xs` that satisfy `want`. */
  function Select<A>(xs: seq<A>, want: A -> bool): seq<A> {
    if xs == [] then []
    else Select(xs[..|xs| - 1], want) + (if want(xs[|xs| - 1]) then [xs[|xs| - 1]] else [])
  }

  /** `chosen` is what `xs` has at the rising indices `at`, which are all where `want` holds. */
  ghost predicate Picks<A>(at: seq<nat>, xs: seq<A>, chosen: seq<A>, want: A -> bool) {
    && |at| == |chosen|
    && (forall j, k :: 0 <= j < k < |at| ==> at[j] < at[k])
    && (forall k :: 0 <= k < |at| ==> at[k] < |xs| && chosen[k] == xs[at[k]])
    && (forall i :: 0 <= i < |xs| ==> (i in at <==> want(xs[i])))
  }

  lemma PicksMore<A>(at: seq<nat>, xs: seq<A>, chosen: seq<A>, want: A -> bool)
    requires xs != [] && Picks(at, xs[..|xs| - 1], chosen, want)
    ensures var k := |xs| - 1;
            if want(xs[k]) then Picks(at + [k], xs, chosen + [xs[k]], want) else Picks(at, xs, chosen, want)
  {
    var k := |xs| - 1;
    var most := xs[..k];
    var more := at + [k];
    assert forall i :: 0 <= i < k ==> xs[i] == most[i];
    assert k !in at;
    assert more[|at|] == k;
    forall i | 0 <= i < k ensures i in more <==> want(xs[i]) {
      assert i in more <==> i in at;
      assert want(most[i]) == want(xs[i]);
    }
  }

  /** What is selected, in order and with multiplicities. */
  lemma {:induction false} SelectPicks<A>(xs: seq<A>, want: A -> bool) returns (at: seq<nat>)
    ensures Picks(at, xs, Select(xs, want), want)
  {
    at := [];
    if xs != [] {
      var k := |xs| - 1;
      at := SelectPicks(xs[..k], want);
      PicksMore(at, xs, Select(xs[..k], want), want);
      hide Picks;
      if want(xs[k]) {
        at := at + [k];
      } else {
        assert Select(xs, want) == Select(xs[..k], want);
      }
    }
  }

  /** An element is among those picked if and only if it is there and wanted. */
  lemma PickedIsWanted<A>(at: seq<nat>, xs: seq<A>, chosen: seq<A>, want: A -> bool, x: A)
    requires Picks(at, xs, chosen, want)
    ensures x in chosen <==> x in xs && want(x)
  {
    if x in xs && want(x) {
      var i :| 0 <= i < |xs| && xs[i] == x;
      assert i in at;
    }
    if k :| 0 <= k < |chosen| && chosen[k] == x { assert at[k] in at; }
  }

  lemma {:induction false} SelectAll<A>(xs: seq<A>, want: A -> bool)
    requires forall x :: x in xs ==> want(x)
    ensures Select(xs, want) == xs
  {
    if xs != [] {
      var k := |xs| - 1;
      assert xs[k] in xs && forall x :: x in xs[..k] ==> x in xs;
      SelectAll(xs[..k], want);
      assert xs == xs[..k] + [xs[k]];
    }
  }

  lemma SelectOne<A>(x: A, want: A -> bool)
    ensures Select([x], want) == if want(x) then [x] else []
  {
    assert [x][..0] == [];
  }

  lemma {:induction false} SelectSum<A>(a: seq<A>, b: seq<A>, want: A -> bool)
    ensures Select(a + b, want) == Select(a, want) + Select(b, want)
  {
    if b == [] {
      assert a + b == a;
    } else {
      assert (a + b)[..|a + b| - 1] == a + b[..|b| - 1];
      SelectSum(a, b[..|b| - 1], want);
    }
  }

  /** The sum of a sequence of numbers. */
  function Sum(xs: seq<int>): int {
    Total(xs, (x: int) => x)
  }

  lemma SumSnoc(xs: seq<int>, x: int)
    ensures Sum(xs + [x]) == Sum(xs) + x
  {
    assert (xs + [x])[..|xs|] == xs;
  }

  /** A sum does not depend on the order of its elements. */
  lemma {:induction false} TotalPermutation<A>(xs: seq<A>, ys: seq<A>, f: A -> int)
    requires multiset(xs) == multiset(ys)
    ensures Total(xs, f) == Total(ys, f)
  {
    if xs == [] {
      assert |multiset(ys)| == 0;
    } else {
      var k := |xs| - 1;
      var x := xs[k];
      assert xs == xs[..k] + [x];
      assert x in multiset(ys);
      var i :| 0 <= i < |ys| && ys[i] == x;
      var rest := ys[..i] + ys[i + 1..];
      assert ys == ys[..i] + ([x] + ys[i + 1..]);
      assert multiset(xs[..k]) == multiset(xs) - multiset{x};
      assert multiset(rest) == multiset(ys) - multiset{x};
      TotalPermutation(xs[..k], rest, f);
      TotalWithout(ys, f, i);
    }
  }

  lemma {:induction false} TotalWithout<A>(ys: seq<A>, f: A -> int, i: nat)
    requires i < |ys|
    ensures Total(ys[..i] + ys[i + 1..], f) == Total(ys, f) - f(ys[i])
  {
    var k := |ys| - 1;
    if i == k {
      assert ys[..i] + ys[i + 1..] == ys[..k];
    } else {
      var rest := ys[..i] + ys[i + 1..];
      assert rest[..|rest| - 1] == ys[..k][..i] + ys[..k][i + 1..];
      TotalWithout(ys[..k], f, i);
    }
  }
}
