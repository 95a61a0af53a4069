/** Folds whose steps commute do not depend on the order of their input. */
module Folds {
  import opened Basics

  function Fold<V, T>(op: (V, T) -> V, zero: V, xs: seq<T>): V {
    if xs == [] then zero else op(Fold(op, zero, xs[..|xs| - 1]), xs[|xs| - 1])
  }

  ghost predicate Commutes<V(!new), T(!new)>(op: (V, T) -> V) {
    forall v: V, x: T, y: T :: op(op(v, x), y) == op(op(v, y), x)
  }

  function Drop<T>(xs: seq<T>, i: nat): seq<T>
    requires i < |xs|
  {
    xs[..i] + xs[i + 1..]
  }

  lemma {:induction false} MoveToEnd<V(!new), T(!new)>(op: (V, T) -> V, zero: V, xs: seq<T>, i: nat)
    requires Commutes(op) && i < |xs|
    ensures Fold(op, zero, xs) == op(Fold(op, zero, Drop(xs, i)), xs[i])
  {
    var front, last := xs[..|xs| - 1], xs[|xs| - 1];
    if i == |xs| - 1 {
      assert Drop(xs, i) == front;
    } else {
      MoveToEnd(op, zero, front, i);
      assert Drop(xs, i) == Drop(front, i) + [last];
      assert Drop(xs, i)[..|xs| - 2] == Drop(front, i);
      var v := Fold(op, zero, Drop(front, i));
      assert op(op(v, xs[i]), last) == op(op(v, last), xs[i]);
    }
  }

  lemma DropBag<T>(xs: seq<T>, i: nat)
    requires i < |xs|
    ensures multiset(xs) == multiset(Drop(xs, i)) + multiset{xs[i]}
  {
    assert xs == xs[..i] + [xs[i]] + xs[i + 1..];
  }

  lemma {:induction false} FoldPermutation<V(!new), T(!new)>(op: (V, T) -> V, zero: V, xs: seq<T>, ys: seq<T>)
    requires Commutes(op) && multiset(xs) == multiset(ys)
    ensures Fold(op, zero, xs) == Fold(op, zero, ys)
    decreases |xs|
  {
    if xs == [] {
      assert |multiset(ys)| == 0;
    } else {
      var front, last := xs[..|xs| - 1], xs[|xs| - 1];
      assert xs == front + [last];
      assert last in multiset(ys);
      var i :| 0 <= i < |ys| && ys[i] == last;
      DropBag(ys, i);
      assert multiset(xs) == multiset(front) + multiset{last};
      assert multiset(front) == multiset(xs) - multiset{last} == multiset(Drop(ys, i));
      FoldPermutation(op, zero, front, Drop(ys, i));
      MoveToEnd(op, zero, ys, i);
    }
  }

  /** Sums of a weight over the input. */
  function SumInt<T>(f: T -> int, xs: seq<T>): int {
    if xs == [] then 0 else SumInt(f, xs[..|xs| - 1]) + f(xs[|xs| - 1])
  }

  function SumReal<T>(f: T -> real, xs: seq<T>): real {
    if xs == [] then 0.0 else SumReal(f, xs[..|xs| - 1]) + f(xs[|xs| - 1])
  }

  /** The parts that `f` yields, one after the other. */
  function Flat<T, U>(f: T -> seq<U>, xs: seq<T>): seq<U> {
    if xs == [] then [] else Flat(f, xs[..|xs| - 1]) + f(xs[|xs| - 1])
  }

  lemma {:induction false} SumIntConcat<T>(f: T -> int, xs: seq<T>, ys: seq<T>)
    ensures SumInt(f, xs + ys) == SumInt(f, xs) + SumInt(f, ys)
  {
    if ys == [] {
      assert xs + ys == xs;
    } else {
      SumIntConcat(f, xs, ys[..|ys| - 1]);
      assert (xs + ys)[..|xs + ys| - 1] == xs + ys[..|ys| - 1];
    }
  }

  lemma {:induction false} SumRealConcat<T>(f: T -> real, xs: seq<T>, ys: seq<T>)
    ensures SumReal(f, xs + ys) == SumReal(f, xs) + SumReal(f, ys)
  {
    if ys == [] {
      assert xs + ys == xs;
    } else {
      SumRealConcat(f, xs, ys[..|ys| - 1]);
      assert (xs + ys)[..|xs + ys| - 1] == xs + ys[..|ys| - 1];
    }
  }

  lemma {:induction false} FlatConcat<T, U>(f: T -> seq<U>, xs: seq<T>, ys: seq<T>)
    ensures Flat(f, xs + ys) == Flat(f, xs) + Flat(f, ys)
  {
    if ys == [] {
      assert xs + ys == xs;
      assert Flat(f, xs) + [] == Flat(f, xs);
    } else {
      FlatConcat(f, xs, ys[..|ys| - 1]);
      assert (xs + ys)[..|xs + ys| - 1] == xs + ys[..|ys| - 1];
    }
  }

  lemma {:induction false} SumIntIsFold<T>(f: T -> int, op: (int, T) -> int, xs: seq<T>)
    requires forall n, x :: op(n, x) == n + f(x)
    ensures SumInt(f, xs) == Fold(op, 0, xs)
  {
    if xs != [] {
      SumIntIsFold(f, op, xs[..|xs| - 1]);
    }
  }

  lemma {:induction false} SumRealIsFold<T>(f: T -> real, op: (real, T) -> real, xs: seq<T>)
    requires forall n, x :: op(n, x) == n + f(x)
    ensures SumReal(f, xs) == Fold(op, 0.0, xs)
  {
    if xs != [] {
      SumRealIsFold(f, op, xs[..|xs| - 1]);
    }
  }

  lemma SumIntPermutation<T(!new)>(f: T -> int, xs: seq<T>, ys: seq<T>)
    requires multiset(xs) == multiset(ys)
    ensures SumInt(f, xs) == SumInt(f, ys)
  {
    var op := (n: int, x: T) => n + f(x);
    SumIntIsFold(f, op, xs);
    SumIntIsFold(f, op, ys);
    FoldPermutation(op, 0, xs, ys);
  }

  lemma SumRealPermutation<T(!new)>(f: T -> real, xs: seq<T>, ys: seq<T>)
    requires multiset(xs) == multiset(ys)
    ensures SumReal(f, xs) == SumReal(f, ys)
  {
    var op := (n: real, x: T) => n + f(x);
    SumRealIsFold(f, op, xs);
    SumRealIsFold(f, op, ys);
    FoldPermutation(op, 0.0, xs, ys);
  }

  // ------------------------------------------------------------- the last one wins

  /** The last value that `f` yields. */
  function Last<T, V>(f: T -> Option<V>, xs: seq<T>): Option<V> {
    if xs == [] then None
    else if f(xs[|xs| - 1]).Some? then f(xs[|xs| - 1])
    else Last(f, xs[..|xs| - 1])
  }

  /** All values that `f` yields are equal. */
  ghost predicate Agree<T, V>(f: T -> Option<V>, xs: seq<T>) {
    forall i, j | 0 <= i < |xs| && 0 <= j < |xs| :: f(xs[i]).Some? && f(xs[j]).Some? ==> f(xs[i]) == f(xs[j])
  }

  lemma {:induction false} LastIsSome<T, V>(f: T -> Option<V>, xs: seq<T>)
    ensures Last(f, xs).Some? ==> exists i :: 0 <= i < |xs| && f(xs[i]) == Last(f, xs)
    ensures forall i :: 0 <= i < |xs| && f(xs[i]).Some? ==> Last(f, xs).Some?
  {
    if xs != [] && f(xs[|xs| - 1]).None? {
      var front := xs[..|xs| - 1];
      LastIsSome(f, front);
      assert forall i :: 0 <= i < |front| ==> front[i] == xs[i];
    }
  }

  lemma LastOfAgreeing<T, V>(f: T -> Option<V>, xs: seq<T>, ys: seq<T>)
    requires Agree(f, xs) && multiset(xs) == multiset(ys)
    ensures Last(f, xs) == Last(f, ys)
  {
    LastIsSome(f, xs);
    LastIsSome(f, ys);
    assert forall x :: x in xs <==> x in multiset(xs);
    assert forall y :: y in ys <==> y in multiset(ys);
    if i :| 0 <= i < |ys| && f(ys[i]).Some? && f(ys[i]) == Last(f, ys) {
      assert ys[i] in xs;
    }
    if i :| 0 <= i < |xs| && f(xs[i]).Some? && f(xs[i]) == Last(f, xs) {
      assert xs[i] in ys;
    }
  }

  lemma LastOfMoved<T, V>(f: T -> Option<V>, xs: seq<T>, i: nat)
    requires i < |xs| && f(xs[i]).Some?
    ensures multiset(Drop(xs, i) + [xs[i]]) == multiset(xs) && Last(f, Drop(xs, i) + [xs[i]]) == f(xs[i])
  {
    DropBag(xs, i);
  }

  /** Whether the last value is the same in every order. */
  ghost predicate OrderFree<T(!new), V>(f: T -> Option<V>, xs: seq<T>) {
    forall ys :: multiset(ys) == multiset(xs) ==> Last(f, ys) == Last(f, xs)
  }

  /** It is exactly when there is but one value. */
  lemma OrderFreeIffAgree<T(!new), V>(f: T -> Option<V>, xs: seq<T>)
    ensures OrderFree(f, xs) <==> Agree(f, xs)
  {
    if Agree(f, xs) {
      forall ys | multiset(ys) == multiset(xs) ensures Last(f, ys) == Last(f, xs) {
        LastOfAgreeing(f, xs, ys);
      }
    }
    if OrderFree(f, xs) {
      forall i | 0 <= i < |xs| && f(xs[i]).Some? ensures f(xs[i]) == Last(f, xs) {
        LastOfMoved(f, xs, i);
      }
    }
  }

  lemma {:induction false} LastOfConcat<T, V>(f: T -> Option<V>, xs: seq<T>, ys: seq<T>)
    ensures Last(f, xs + ys) == if Last(f, ys).Some? then Last(f, ys) else Last(f, xs)
  {
    if ys == [] {
      assert xs + ys == xs;
    } else {
      LastOfConcat(f, xs, ys[..|ys| - 1]);
      assert (xs + ys)[..|xs + ys| - 1] == xs + ys[..|ys| - 1];
    }
  }

  // ------------------------------------------------------------ the first one wins

  /** The first value that `f` yields. */
  function First<T, V>(f: T -> Option<V>, xs: seq<T>): Option<V> {
    if xs == [] then None
    else if First(f, xs[..|xs| - 1]).Some? then First(f, xs[..|xs| - 1])
    else f(xs[|xs| - 1])
  }

  lemma {:induction false} FirstIsSome<T, V>(f: T -> Option<V>, xs: seq<T>)
    ensures First(f, xs).Some? ==> exists i :: 0 <= i < |xs| && f(xs[i]) == First(f, xs)
    ensures forall i :: 0 <= i < |xs| && f(xs[i]).Some? ==> First(f, xs).Some?
    ensures xs != [] && f(xs[0]).Some? ==> First(f, xs) == f(xs[0])
  {
    if xs != [] {
      var front := xs[..|xs| - 1];
      FirstIsSome(f, front);
      assert forall i :: 0 <= i < |front| ==> front[i] == xs[i];
    }
  }

  lemma FirstOfAgreeing<T, V>(f: T -> Option<V>, xs: seq<T>, ys: seq<T>)
    requires Agree(f, xs) && multiset(xs) == multiset(ys)
    ensures First(f, xs) == First(f, ys)
  {
    FirstIsSome(f, xs);
    FirstIsSome(f, ys);
    assert forall x :: x in xs <==> x in multiset(xs);
    assert forall y :: y in ys <==> y in multiset(ys);
    if i :| 0 <= i < |ys| && f(ys[i]).Some? && f(ys[i]) == First(f, ys) {
      assert ys[i] in xs;
    }
    if i :| 0 <= i < |xs| && f(xs[i]).Some? && f(xs[i]) == First(f, xs) {
      assert xs[i] in ys;
    }
  }

  lemma FirstOfMoved<T, V>(f: T -> Option<V>, xs: seq<T>, i: nat)
    requires i < |xs| && f(xs[i]).Some?
    ensures multiset([xs[i]] + Drop(xs, i)) == multiset(xs) && First(f, [xs[i]] + Drop(xs, i)) == f(xs[i])
  {
    DropBag(xs, i);
    FirstIsSome(f, [xs[i]] + Drop(xs, i));
  }
}
