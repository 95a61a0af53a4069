/** What several modules share: optional values, and measures that sum a weight over
    the goroutines of a system. */
module Basics {

  datatype Option<+T> = None | Some(value: T)

  function One(b: bool): nat { if b then 1 else 0 }

  function Sum<T>(f: T -> nat, xs: seq<T>): nat {
    if xs == [] then 0 else f(xs[0]) + Sum(f, xs[1..])
  }

  lemma {:induction false} SumUpdate<T>(f: T -> nat, xs: seq<T>, i: nat, x: T)
    requires i < |xs|
    ensures Sum(f, xs[i := x]) + f(xs[i]) == Sum(f, xs) + f(x)
  {
    if i > 0 {
      SumUpdate(f, xs[1..], i - 1, x);
      assert xs[i := x][1..] == xs[1..][i - 1 := x];
    } else {
      assert xs[i := x][1..] == xs[1..];
    }
  }
}
