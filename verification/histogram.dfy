/** Aggregation of histograms: the buckets of a group are merged by upper bound with a
    tolerance, in unsigned 64-bit arithmetic, and emitted as a map. */
module Histogram {
  import opened Basics
  import opened Folds
  import opened LabelKeys
  import opened Uint64

  datatype Bound = Fin(x: real) | PosInf

  datatype Bucket = Bucket(bound: Bound, count: u64)

  /** Count and sum are optional in the exposition's message type. */
  datatype Hist = Hist(count: Option<u64>, sum: Option<real>, buckets: seq<Bucket>)

  datatype Metric = Metric(labels: seq<Label>, hist: Option<Hist>)

  /** The accumulator of one group. */
  datatype Acc = Acc(count: u64, sum: real, buckets: seq<Bucket>)

  const Empty: Acc := Acc(0, 0.0, [])

  // ------------------------------------------------------------- merging buckets

  function Abs(x: real): real { if x < 0.0 then -x else x }

  /** The difference of two infinities is not a number, so `+Inf` matches nothing. */
  predicate Close(a: Bound, b: Bound) {
    a.Fin? && b.Fin? && Abs(a.x - b.x) < 0.0000000001
  }

  /** The tolerance is 1e-10, for finite bounds only. */
  lemma CloseIff(x: real, y: real, b: Bound)
    ensures Close(Fin(x), Fin(y)) <==> -0.0000000001 < x - y < 0.0000000001
    ensures !Close(PosInf, b) && !Close(b, PosInf)
  {
  }

  /** Finite bounds less than 1e-10 apart. */
  predicate Near(a: Bound, b: Bound) { a.Fin? && b.Fin? && -0.0000000001 < a.x - b.x < 0.0000000001 }

  predicate NoneNear(acc: seq<Bucket>, bound: Bound) {
    forall j :: 0 <= j < |acc| ==> !Near(acc[j].bound, bound)
  }

  predicate FirstNear(acc: seq<Bucket>, bound: Bound, k: nat)
    requires k < |acc|
  {
    Near(acc[k].bound, bound) && NoneNear(acc[..k], bound)
  }

  function FirstClose(acc: seq<Bucket>, bound: Bound): (i: nat)
    ensures i <= |acc| && (i < |acc| ==> Close(acc[i].bound, bound))
    ensures forall j :: 0 <= j < i ==> !Close(acc[j].bound, bound)
  {
    if acc == [] || Close(acc[0].bound, bound) then 0 else 1 + FirstClose(acc[1..], bound)
  }

  function Bump(acc: seq<Bucket>, b: Bucket): seq<Bucket> {
    var i := FirstClose(acc, b.bound);
    if i < |acc| then acc[i := Bucket(acc[i].bound, Wrap(acc[i].count + b.count))] else acc + [b]
  }

  function BumpAll(acc: seq<Bucket>, bs: seq<Bucket>): seq<Bucket> {
    if bs == [] then acc else Bump(BumpAll(acc, bs[..|bs| - 1]), bs[|bs| - 1])
  }

  function ToMap(acc: seq<Bucket>): map<Bound, u64> {
    if acc == [] then map[] else ToMap(acc[..|acc| - 1])[acc[|acc| - 1].bound := acc[|acc| - 1].count]
  }

  /** The buckets that are emitted for a group whose histograms hold `bs`. */
  function EmittedBuckets(bs: seq<Bucket>): map<Bound, u64> { ToMap(BumpAll([], bs)) }

  predicate Occurs(bs: seq<Bucket>, bound: Bound) {
    exists i :: 0 <= i < |bs| && bs[i].bound == bound
  }

  /** The sum of the counts recorded for a bound. */
  function TotalAt(bs: seq<Bucket>, bound: Bound): nat {
    if bs == [] then 0
    else TotalAt(bs[..|bs| - 1], bound) + if bs[|bs| - 1].bound == bound then bs[|bs| - 1].count else 0
  }

  /** Finite bounds are equal or at least the tolerance apart. */
  ghost predicate Separated(bs: seq<Bucket>) {
    forall i, j | 0 <= i < |bs| && 0 <= j < |bs| ::
      Close(bs[i].bound, bs[j].bound) ==> bs[i].bound == bs[j].bound
  }

  /** No two merged buckets are within the tolerance. */
  ghost predicate Apart(acc: seq<Bucket>) {
    forall i, j | 0 <= i < |acc| && 0 <= j < |acc| :: Close(acc[i].bound, acc[j].bound) ==> i == j
  }

  lemma {:induction false} MergedAreApart(bs: seq<Bucket>)
    ensures Apart(BumpAll([], bs))
  {
    if bs != [] {
      MergedAreApart(bs[..|bs| - 1]);
    }
  }

  /** Every merged bucket has a bound that occurs, and holds the total of its bound. */
  ghost predicate Exact(acc: seq<Bucket>, bs: seq<Bucket>) {
    && (forall k :: 0 <= k < |acc| ==> Occurs(bs, acc[k].bound))
    && (forall k :: 0 <= k < |acc| && acc[k].bound.Fin? ==> acc[k].count == Wrap(TotalAt(bs, acc[k].bound)))
    && (forall i :: 0 <= i < |bs| ==> Occurs(acc, bs[i].bound))
  }

  lemma {:induction false} TotalOfAbsent(bs: seq<Bucket>, bound: Bound)
    requires !Occurs(bs, bound)
    ensures TotalAt(bs, bound) == 0
  {
    if bs != [] {
      var front, last := bs[..|bs| - 1], bs[|bs| - 1];
      assert forall i :: 0 <= i < |front| ==> front[i] == bs[i];
      assert bs[|bs| - 1].bound != bound;
      TotalOfAbsent(front, bound);
    }
  }

  lemma OccursStep(bs: seq<Bucket>, b: Bucket, bound: Bound)
    ensures Occurs(bs + [b], bound) <==> Occurs(bs, bound) || b.bound == bound
    ensures TotalAt(bs + [b], bound) == TotalAt(bs, bound) + if b.bound == bound then b.count else 0
  {
    var all := bs + [b];
    assert all[..|bs|] == bs && all[|bs|] == b;
    assert forall i :: 0 <= i < |bs| ==> all[i] == bs[i];
  }

  lemma BumpKeepsExact(acc: seq<Bucket>, bs: seq<Bucket>, b: Bucket)
    requires Exact(acc, bs) && Apart(acc) && Separated(bs + [b])
    ensures Exact(Bump(acc, b), bs + [b])
  {
    var i, out, all := FirstClose(acc, b.bound), Bump(acc, b), bs + [b];
    assert all[|bs|] == b;
    assert forall j :: 0 <= j < |bs| ==> all[j] == bs[j];
    forall k | 0 <= k < |acc| ensures Close(acc[k].bound, b.bound) ==> acc[k].bound == b.bound {
      var j :| 0 <= j < |bs| && bs[j].bound == acc[k].bound;
      assert all[j].bound == acc[k].bound;
    }
    if i == |acc| {
      AppendKeepsExact(acc, bs, b);
    } else {
      UpdateKeepsExact(acc, bs, b, i);
    }
  }

  lemma AppendKeepsExact(acc: seq<Bucket>, bs: seq<Bucket>, b: Bucket)
    requires Exact(acc, bs)
    requires forall k :: 0 <= k < |acc| ==> !Close(acc[k].bound, b.bound)
    ensures Exact(acc + [b], bs + [b])
  {
    var out, all := acc + [b], bs + [b];
    forall k | 0 <= k < |out|
      ensures Occurs(all, out[k].bound) && (out[k].bound.Fin? ==> out[k].count == Wrap(TotalAt(all, out[k].bound)))
    {
      OccursStep(bs, b, out[k].bound);
      if k == |acc| && b.bound.Fin? {
        assert forall j :: 0 <= j < |bs| ==> bs[j].bound != b.bound;
        TotalOfAbsent(bs, b.bound);
      }
    }
    forall j | 0 <= j < |all| ensures Occurs(out, all[j].bound) {
      OccursStep(acc, b, all[j].bound);
    }
  }

  lemma UpdateKeepsExact(acc: seq<Bucket>, bs: seq<Bucket>, b: Bucket, i: nat)
    requires Exact(acc, bs) && Apart(acc) && i < |acc| && acc[i].bound == b.bound && b.bound.Fin?
    ensures Exact(acc[i := Bucket(b.bound, Wrap(acc[i].count + b.count))], bs + [b])
  {
    var out, all := acc[i := Bucket(b.bound, Wrap(acc[i].count + b.count))], bs + [b];
    assert forall k :: 0 <= k < |acc| ==> out[k].bound == acc[k].bound;
    forall k | 0 <= k < |out|
      ensures Occurs(all, out[k].bound) && (out[k].bound.Fin? ==> out[k].count == Wrap(TotalAt(all, out[k].bound)))
    {
      OccursStep(bs, b, out[k].bound);
      WrapAdd(TotalAt(bs, b.bound), b.count);
    }
    forall j | 0 <= j < |all| ensures Occurs(out, all[j].bound) {
      var bound := all[j].bound;
      if j < |bs| {
        assert Occurs(acc, bs[j].bound);
        var k :| 0 <= k < |acc| && acc[k].bound == bound;
        assert out[k].bound == bound;
      } else {
        assert out[i].bound == bound;
      }
    }
  }

  lemma {:induction false} MergedAreExact(bs: seq<Bucket>)
    requires Separated(bs)
    ensures Exact(BumpAll([], bs), bs)
  {
    if bs != [] {
      var front, last := bs[..|bs| - 1], bs[|bs| - 1];
      assert bs == front + [last];
      assert forall i :: 0 <= i < |front| ==> front[i] == bs[i];
      MergedAreExact(front);
      MergedAreApart(front);
      BumpKeepsExact(BumpAll([], front), front, last);
    }
  }

  // ---------------------------------------------------------------- emitted buckets

  lemma {:induction false} MapHasBounds(acc: seq<Bucket>, bound: Bound)
    ensures bound in ToMap(acc) <==> Occurs(acc, bound)
  {
    if acc != [] {
      var front, last := acc[..|acc| - 1], acc[|acc| - 1];
      MapHasBounds(front, bound);
      OccursStep(front, last, bound);
      assert acc == front + [last];
    }
  }

  lemma {:induction false} MapKeepsFinite(acc: seq<Bucket>, k: nat)
    requires Apart(acc) && k < |acc| && acc[k].bound.Fin?
    ensures acc[k].bound in ToMap(acc) && ToMap(acc)[acc[k].bound] == acc[k].count
  {
    var front, last := acc[..|acc| - 1], acc[|acc| - 1];
    if k < |front| {
      assert forall i :: 0 <= i < |front| ==> front[i] == acc[i];
      MapKeepsFinite(front, k);
      assert Close(acc[k].bound, acc[k].bound);
    }
  }

  /** The emitted map holds, for every finite bound that occurs, the sum of its counts. */
  ghost predicate Faithful(bs: seq<Bucket>) {
    forall i :: 0 <= i < |bs| && bs[i].bound.Fin? ==>
      bs[i].bound in EmittedBuckets(bs) &&
      EmittedBuckets(bs)[bs[i].bound] == Wrap(TotalAt(bs, bs[i].bound))
  }

  lemma SeparatedIsFaithful(bs: seq<Bucket>)
    requires Separated(bs)
    ensures Faithful(bs)
  {
    var acc := BumpAll([], bs);
    MergedAreExact(bs);
    MergedAreApart(bs);
    forall i | 0 <= i < |bs| && bs[i].bound.Fin?
      ensures bs[i].bound in ToMap(acc) && ToMap(acc)[bs[i].bound] == Wrap(TotalAt(bs, bs[i].bound))
    {
      assert Occurs(acc, bs[i].bound);
      var k :| 0 <= k < |acc| && acc[k].bound == bs[i].bound;
      MapKeepsFinite(acc, k);
    }
  }

  /** Finite buckets are emitted faithfully exactly when the finite bounds of the group
      are equal or at least the tolerance apart. */
  lemma FaithfulIffSeparated(bs: seq<Bucket>)
    ensures Faithful(bs) <==> Separated(bs)
  {
    if Separated(bs) {
      SeparatedIsFaithful(bs);
    }
    if Faithful(bs) {
      var acc := BumpAll([], bs);
      MergedAreApart(bs);
      forall i, j | 0 <= i < |bs| && 0 <= j < |bs| && Close(bs[i].bound, bs[j].bound)
        ensures bs[i].bound == bs[j].bound
      {
        MapHasBounds(acc, bs[i].bound);
        MapHasBounds(acc, bs[j].bound);
        var k :| 0 <= k < |acc| && acc[k].bound == bs[i].bound;
        var l :| 0 <= l < |acc| && acc[l].bound == bs[j].bound;
        assert Close(acc[k].bound, acc[l].bound);
      }
    }
  }

  /** Any two finite bounds are equal or at least 1e-10 apart. */
  ghost predicate Spaced(bs: seq<Bucket>) {
    forall i, j | 0 <= i < |bs| && 0 <= j < |bs| && bs[i].bound.Fin? && bs[j].bound.Fin? ::
      bs[i].bound.x == bs[j].bound.x || bs[i].bound.x - bs[j].bound.x >= 0.0000000001 ||
      bs[j].bound.x - bs[i].bound.x >= 0.0000000001
  }

  lemma SpacedIsSeparated(bs: seq<Bucket>)
    ensures Spaced(bs) <==> Separated(bs)
  {
    forall i, j | 0 <= i < |bs| && 0 <= j < |bs| && bs[i].bound.Fin? && bs[j].bound.Fin?
      ensures Close(bs[i].bound, bs[j].bound) <==>
              -0.0000000001 < bs[i].bound.x - bs[j].bound.x < 0.0000000001
    {
      CloseIff(bs[i].bound.x, bs[j].bound.x, PosInf);
    }
  }

  /** On the real bounds themselves: each finite bound is emitted with its own total
      exactly when finite bounds are equal or at least 1e-10 apart. */
  lemma FaithfulIffSpaced(bs: seq<Bucket>)
    ensures (forall x: real :: Occurs(bs, Fin(x)) ==>
               Fin(x) in EmittedBuckets(bs) && EmittedBuckets(bs)[Fin(x)] == Wrap(TotalAt(bs, Fin(x)))) <==>
            Spaced(bs)
  {
    SpacedIsSeparated(bs);
    FaithfulIffSeparated(bs);
    if Faithful(bs) {
      forall x: real | Occurs(bs, Fin(x))
        ensures Fin(x) in EmittedBuckets(bs) && EmittedBuckets(bs)[Fin(x)] == Wrap(TotalAt(bs, Fin(x)))
      {
        var i :| 0 <= i < |bs| && bs[i].bound == Fin(x);
      }
    } else {
      var i :| 0 <= i < |bs| && bs[i].bound.Fin? &&
               !(bs[i].bound in EmittedBuckets(bs) &&
                 EmittedBuckets(bs)[bs[i].bound] == Wrap(TotalAt(bs, bs[i].bound)));
      assert Occurs(bs, Fin(bs[i].bound.x));
    }
  }

  /** Of two different bounds closer than 1e-10 at most one is emitted. */
  lemma CloserAreNotBothEmitted(bs: seq<Bucket>, x: real, y: real)
    requires x != y && -0.0000000001 < x - y < 0.0000000001
    ensures Fin(x) !in EmittedBuckets(bs) || Fin(y) !in EmittedBuckets(bs)
  {
    var acc := BumpAll([], bs);
    CloseIff(x, y, PosInf);
    MergedAreApart(bs);
    MapHasBounds(acc, Fin(x));
    MapHasBounds(acc, Fin(y));
    forall i, j | 0 <= i < |acc| && 0 <= j < |acc| && acc[i].bound == Fin(x) ensures acc[j].bound != Fin(y) {
      assert Close(acc[i].bound, acc[j].bound) ==> i == j;
    }
  }

  /** Nothing else is emitted at a finite bound. */
  lemma EmittedBoundsOccur(bs: seq<Bucket>, bound: Bound)
    requires Separated(bs)
    ensures bound in EmittedBuckets(bs) <==> Occurs(bs, bound)
  {
    MergedAreExact(bs);
    MapHasBounds(BumpAll([], bs), bound);
    var acc := BumpAll([], bs);
    if Occurs(acc, bound) {
      var k :| 0 <= k < |acc| && acc[k].bound == bound;
      assert Occurs(bs, acc[k].bound);
    }
    if Occurs(bs, bound) {
      var i :| 0 <= i < |bs| && bs[i].bound == bound;
      assert Occurs(acc, bs[i].bound);
    }
  }

  /** The counts of the `+Inf` buckets, in order. */
  function Infs(bs: seq<Bucket>): seq<u64> {
    if bs == [] then []
    else Infs(bs[..|bs| - 1]) + if bs[|bs| - 1].bound == PosInf then [bs[|bs| - 1].count] else []
  }

  lemma InfsStep(bs: seq<Bucket>, b: Bucket)
    ensures Infs(bs + [b]) == Infs(bs) + if b.bound == PosInf then [b.count] else []
  {
    assert (bs + [b])[..|bs|] == bs;
  }

  lemma {:induction false} InfsOfUpdate(acc: seq<Bucket>, i: nat, b: Bucket)
    requires i < |acc| && acc[i].bound.Fin? && b.bound.Fin?
    ensures Infs(acc[i := b]) == Infs(acc)
  {
    var front := acc[..|acc| - 1];
    if i < |front| {
      InfsOfUpdate(front, i, b);
      assert acc[i := b][..|acc| - 1] == front[i := b];
    } else {
      assert acc[i := b][..|acc| - 1] == front;
    }
  }

  /** The `+Inf` buckets are never merged: each one is kept. */
  lemma {:induction false} InfsNeverMerge(bs: seq<Bucket>)
    ensures Infs(BumpAll([], bs)) == Infs(bs)
  {
    if bs != [] {
      var front, last := bs[..|bs| - 1], bs[|bs| - 1];
      var acc := BumpAll([], front);
      InfsNeverMerge(front);
      var i := FirstClose(acc, last.bound);
      if i < |acc| {
        InfsOfUpdate(acc, i, Bucket(acc[i].bound, Wrap(acc[i].count + last.count)));
        assert Infs(front) + [] == Infs(front);
      } else {
        InfsStep(acc, last);
      }
    }
  }

  lemma {:induction false} MapKeepsLastInf(acc: seq<Bucket>)
    ensures PosInf in ToMap(acc) <==> Infs(acc) != []
    ensures Infs(acc) != [] ==> ToMap(acc)[PosInf] == Infs(acc)[|Infs(acc)| - 1]
  {
    if acc != [] {
      MapKeepsLastInf(acc[..|acc| - 1]);
    }
  }

  /** Only the last `+Inf` bucket of the group is emitted. */
  lemma EmittedInfIsLast(bs: seq<Bucket>)
    ensures PosInf in EmittedBuckets(bs) <==> Infs(bs) != []
    ensures Infs(bs) != [] ==> EmittedBuckets(bs)[PosInf] == Infs(bs)[|Infs(bs)| - 1]
  {
    InfsNeverMerge(bs);
    MapKeepsLastInf(BumpAll([], bs));
  }

  // ------------------------------------------------------------ order of the buckets

  /** The finite part of what is emitted. */
  ghost predicate SameFinite(bs: seq<Bucket>, cs: seq<Bucket>) {
    forall x: real ::
      (Fin(x) in EmittedBuckets(bs) <==> Fin(x) in EmittedBuckets(cs)) &&
      (Fin(x) in EmittedBuckets(bs) ==> EmittedBuckets(bs)[Fin(x)] == EmittedBuckets(cs)[Fin(x)])
  }

  /** The finite part of what is emitted is the same in every order of the buckets. */
  ghost predicate BucketOrderFree(bs: seq<Bucket>) {
    forall cs :: multiset(cs) == multiset(bs) ==> SameFinite(bs, cs)
  }

  lemma {:induction false} TotalIsSumOfCounts(bs: seq<Bucket>, bound: Bound, f: Bucket -> int)
    requires forall b: Bucket :: f(b) == if b.bound == bound then b.count else 0
    ensures TotalAt(bs, bound) == SumInt(f, bs)
  {
    if bs != [] {
      TotalIsSumOfCounts(bs[..|bs| - 1], bound, f);
    }
  }

  lemma OccursInBag(bs: seq<Bucket>, cs: seq<Bucket>, bound: Bound)
    requires multiset(bs) == multiset(cs) && Occurs(bs, bound)
    ensures Occurs(cs, bound)
  {
    var i :| 0 <= i < |bs| && bs[i].bound == bound;
    assert bs[i] in multiset(cs);
    var j :| 0 <= j < |cs| && cs[j] == bs[i];
  }

  /** With separated bounds the emitted count of a finite bound is the sum of its counts. */
  lemma EmittedCount(bs: seq<Bucket>, x: real)
    requires Separated(bs)
    ensures Fin(x) in EmittedBuckets(bs) <==> Occurs(bs, Fin(x))
    ensures Occurs(bs, Fin(x)) ==> EmittedBuckets(bs)[Fin(x)] == Wrap(TotalAt(bs, Fin(x)))
  {
    EmittedBoundsOccur(bs, Fin(x));
    SeparatedIsFaithful(bs);
  }

  lemma SeparatedIsOrderFree(bs: seq<Bucket>, cs: seq<Bucket>)
    requires Separated(bs) && multiset(cs) == multiset(bs)
    ensures SameFinite(bs, cs)
  {
    forall bound | Occurs(cs, bound) ensures Occurs(bs, bound) {
      OccursInBag(cs, bs, bound);
    }
    SeparatedTransfers(bs, cs);
    forall x: real
      ensures Occurs(bs, Fin(x)) <==> Occurs(cs, Fin(x))
      ensures TotalAt(bs, Fin(x)) == TotalAt(cs, Fin(x))
    {
      if Occurs(bs, Fin(x)) {
        OccursInBag(bs, cs, Fin(x));
      }
      var f := (b: Bucket) => if b.bound == Fin(x) then b.count as int else 0;
      TotalIsSumOfCounts(bs, Fin(x), f);
      TotalIsSumOfCounts(cs, Fin(x), f);
      SumIntPermutation(f, bs, cs);
    }
    forall x: real
      ensures Fin(x) in EmittedBuckets(bs) <==> Fin(x) in EmittedBuckets(cs)
      ensures Fin(x) in EmittedBuckets(bs) ==> EmittedBuckets(bs)[Fin(x)] == EmittedBuckets(cs)[Fin(x)]
    {
      EmittedCount(bs, x);
      EmittedCount(cs, x);
    }
  }

  lemma {:induction false} FirstIsKept(bs: seq<Bucket>)
    requires bs != []
    ensures BumpAll([], bs) != [] && BumpAll([], bs)[0].bound == bs[0].bound
  {
    if |bs| > 1 {
      FirstIsKept(bs[..|bs| - 1]);
    } else {
      assert bs[..0] == [];
    }
  }

  /** The first bucket is emitted, and then no other bound within the tolerance is. */
  lemma FirstExcludesClose(bs: seq<Bucket>, bound: Bound)
    requires bs != [] && Close(bs[0].bound, bound) && bound != bs[0].bound
    ensures bs[0].bound in EmittedBuckets(bs) && bound !in EmittedBuckets(bs)
  {
    var acc := BumpAll([], bs);
    FirstIsKept(bs);
    MergedAreApart(bs);
    MapHasBounds(acc, bs[0].bound);
    MapHasBounds(acc, bound);
    forall k | 0 <= k < |acc| ensures acc[k].bound != bound {
      assert Close(acc[0].bound, acc[k].bound) ==> k == 0;
    }
  }

  lemma MovedToFront(bs: seq<Bucket>, i: nat)
    requires i < |bs|
    ensures multiset([bs[i]] + Drop(bs, i)) == multiset(bs)
  {
    DropBag(bs, i);
  }

  lemma CloseBoundsDependOnOrder(bs: seq<Bucket>, i: nat, j: nat)
    requires i < |bs| && j < |bs| && Close(bs[i].bound, bs[j].bound) && bs[i].bound != bs[j].bound
    ensures !BucketOrderFree(bs)
  {
    var cs, ds := [bs[i]] + Drop(bs, i), [bs[j]] + Drop(bs, j);
    MovedToFront(bs, i);
    MovedToFront(bs, j);
    FirstExcludesClose(cs, bs[j].bound);
    FirstExcludesClose(ds, bs[i].bound);
    var x := bs[i].bound.x;
    assert Fin(x) in EmittedBuckets(cs) && Fin(x) !in EmittedBuckets(ds);
    assert !SameFinite(bs, cs) || !SameFinite(bs, ds);
  }

  /** The emitted finite buckets do not depend on the order of the merged buckets exactly
      when finite bounds are equal or at least the tolerance apart. */
  lemma BucketOrderFreeIffSeparated(bs: seq<Bucket>)
    ensures BucketOrderFree(bs) <==> Separated(bs)
  {
    if Separated(bs) {
      forall cs | multiset(cs) == multiset(bs) ensures SameFinite(bs, cs) {
        SeparatedIsOrderFree(bs, cs);
      }
    }
    if !Separated(bs) {
      var i, j :| 0 <= i < |bs| && 0 <= j < |bs| && Close(bs[i].bound, bs[j].bound) && bs[i].bound != bs[j].bound;
      CloseBoundsDependOnOrder(bs, i, j);
    }
  }

  // ------------------------------------------------------------- groups of samples

  function CountOf(m: Metric): nat {
    if m.hist.Some? && m.hist.value.count.Some? then m.hist.value.count.value else 0
  }

  function SumOf(m: Metric): real {
    if m.hist.Some? && m.hist.value.sum.Some? then m.hist.value.sum.value else 0.0
  }

  function BucketsOf(m: Metric): seq<Bucket> {
    if m.hist.Some? then m.hist.value.buckets else []
  }

  /** What a sample contributes is what it carries; what it lacks contributes nothing. */
  lemma SampleCarries(labels: seq<Label>, count: Option<u64>, sum: Option<real>, bs: seq<Bucket>)
    ensures var m := Metric(labels, Some(Hist(count, sum, bs)));
            BucketsOf(m) == bs && (count.None? ==> CountOf(m) == 0) && (sum.None? ==> SumOf(m) == 0.0) &&
            (count.Some? ==> CountOf(m) == count.value) && (sum.Some? ==> SumOf(m) == sum.value)
    ensures var m := Metric(labels, None); CountOf(m) == 0 && SumOf(m) == 0.0 && BucketsOf(m) == []
  {
  }

  function AddMetric(acc: Acc, m: Metric): Acc {
    if m.hist.None? then acc
    else
      Acc(if m.hist.value.count.Some? then Wrap(acc.count + m.hist.value.count.value) else acc.count,
          if m.hist.value.sum.Some? then acc.sum + m.hist.value.sum.value else acc.sum,
          BumpAll(acc.buckets, m.hist.value.buckets))
  }

  function Get(accs: map<string, Acc>, key: string): Acc {
    if key in accs then accs[key] else Empty
  }

  function Aggregate(names: seq<string>, ms: seq<Metric>): map<string, Acc> {
    if ms == [] then map[]
    else
      var front, last := Aggregate(names, ms[..|ms| - 1]), ms[|ms| - 1];
      var key := Key(names, last.labels);
      front[key := AddMetric(Get(front, key), last)]
  }

  function GroupCount(names: seq<string>, ms: seq<Metric>, key: string): nat {
    if ms == [] then 0
    else GroupCount(names, ms[..|ms| - 1], key) +
         if Key(names, ms[|ms| - 1].labels) == key then CountOf(ms[|ms| - 1]) else 0
  }

  function GroupSum(names: seq<string>, ms: seq<Metric>, key: string): real {
    if ms == [] then 0.0
    else GroupSum(names, ms[..|ms| - 1], key) +
         if Key(names, ms[|ms| - 1].labels) == key then SumOf(ms[|ms| - 1]) else 0.0
  }

  function GroupBuckets(names: seq<string>, ms: seq<Metric>, key: string): seq<Bucket> {
    if ms == [] then []
    else GroupBuckets(names, ms[..|ms| - 1], key) +
         if Key(names, ms[|ms| - 1].labels) == key then BucketsOf(ms[|ms| - 1]) else []
  }

  lemma {:induction false} BumpAllConcat(acc: seq<Bucket>, xs: seq<Bucket>, ys: seq<Bucket>)
    ensures BumpAll(BumpAll(acc, xs), ys) == BumpAll(acc, xs + ys)
  {
    if ys == [] {
      assert xs + ys == xs;
    } else {
      var front, last := ys[..|ys| - 1], ys[|ys| - 1];
      BumpAllConcat(acc, xs, front);
      assert (xs + ys)[..|xs + ys| - 1] == xs + front;
    }
  }

  function GroupTotals(names: seq<string>, ms: seq<Metric>, key: string): Acc {
    Acc(Wrap(GroupCount(names, ms, key)), GroupSum(names, ms, key), BumpAll([], GroupBuckets(names, ms, key)))
  }

  lemma AddedTotals(names: seq<string>, front: seq<Metric>, last: Metric, key: string)
    requires Key(names, last.labels) == key
    ensures AddMetric(GroupTotals(names, front, key), last) == GroupTotals(names, front + [last], key)
  {
    assert (front + [last])[..|front|] == front;
    WrapAdd(GroupCount(names, front, key), CountOf(last));
    BumpAllConcat([], GroupBuckets(names, front, key), BucketsOf(last));
  }

  lemma OtherTotals(names: seq<string>, front: seq<Metric>, last: Metric, key: string)
    requires Key(names, last.labels) != key
    ensures GroupTotals(names, front, key) == GroupTotals(names, front + [last], key)
  {
    assert (front + [last])[..|front|] == front;
    assert GroupBuckets(names, front, key) + [] == GroupBuckets(names, front, key);
  }

  /** A group's count and sum are the totals of its samples, and its buckets are the
      merge of all their buckets. */
  lemma {:induction false} AggregateIsTotal(names: seq<string>, ms: seq<Metric>, key: string)
    ensures Get(Aggregate(names, ms), key) == GroupTotals(names, ms, key)
  {
    if ms != [] {
      var front, last := ms[..|ms| - 1], ms[|ms| - 1];
      AggregateIsTotal(names, front, key);
      assert ms == front + [last];
      if Key(names, last.labels) == key {
        AddedTotals(names, front, last, key);
      } else {
        OtherTotals(names, front, last, key);
      }
    }
  }

  /** There is a group for each key that some sample has. */
  lemma {:induction false} AggregateKeys(names: seq<string>, ms: seq<Metric>, key: string)
    ensures key in Aggregate(names, ms) <==> exists i :: 0 <= i < |ms| && Key(names, ms[i].labels) == key
  {
    if ms != [] {
      var front := ms[..|ms| - 1];
      AggregateKeys(names, front, key);
      assert forall i :: 0 <= i < |front| ==> front[i] == ms[i];
    }
  }

  // ------------------------------------------------------- one sample, many samples

  function BucketsIn(names: seq<string>, key: string, m: Metric): seq<Bucket> {
    if Key(names, m.labels) == key then BucketsOf(m) else []
  }

  lemma {:induction false} BucketsAreFlat(names: seq<string>, ms: seq<Metric>, key: string, f: Metric -> seq<Bucket>)
    requires forall m :: f(m) == BucketsIn(names, key, m)
    ensures GroupBuckets(names, ms, key) == Flat(f, ms)
  {
    if ms != [] {
      BucketsAreFlat(names, ms[..|ms| - 1], key, f);
    }
  }

  /** Totals of a group add up over parts of the input. */
  lemma GroupsAddUp(names: seq<string>, ms: seq<Metric>, ns: seq<Metric>, key: string)
    ensures GroupCount(names, ms + ns, key) == GroupCount(names, ms, key) + GroupCount(names, ns, key)
    ensures GroupSum(names, ms + ns, key) == GroupSum(names, ms, key) + GroupSum(names, ns, key)
    ensures GroupBuckets(names, ms + ns, key) == GroupBuckets(names, ms, key) + GroupBuckets(names, ns, key)
  {
    var count := (m: Metric) => CountIn(names, key, m) as int;
    var sum := (m: Metric) => SumIn(names, key, m);
    var buckets := (m: Metric) => BucketsIn(names, key, m);
    forall xs ensures GroupCount(names, xs, key) == SumInt(count, xs) && GroupSum(names, xs, key) == SumReal(sum, xs)
              ensures GroupBuckets(names, xs, key) == Flat(buckets, xs)
    {
      CountIsSum(names, xs, key, count);
      SumIsSum(names, xs, key, sum);
      BucketsAreFlat(names, xs, key, buckets);
    }
    SumIntConcat(count, ms, ns);
    SumRealConcat(sum, ms, ns);
    FlatConcat(buckets, ms, ns);
  }

  /** No two bounds are equal or within the tolerance. */
  ghost predicate Distinct(bs: seq<Bucket>) {
    forall i, j | 0 <= i < |bs| && 0 <= j < |bs| && i != j ::
      bs[i].bound != bs[j].bound && !Close(bs[i].bound, bs[j].bound)
  }

  lemma DistinctFront(bs: seq<Bucket>)
    requires Distinct(bs) && bs != []
    ensures Distinct(bs[..|bs| - 1]) && FirstClose(bs[..|bs| - 1], bs[|bs| - 1].bound) == |bs| - 1
  {
    var front := bs[..|bs| - 1];
    assert forall i :: 0 <= i < |front| ==> front[i] == bs[i];
  }

  lemma {:induction false} DistinctAreKept(bs: seq<Bucket>)
    requires Distinct(bs)
    ensures BumpAll([], bs) == bs
  {
    if bs != [] {
      DistinctFront(bs);
      DistinctAreKept(bs[..|bs| - 1]);
      assert bs[..|bs| - 1] + [bs[|bs| - 1]] == bs;
    }
  }

  lemma {:induction false} DistinctAreMapped(bs: seq<Bucket>, i: nat)
    requires Distinct(bs) && i < |bs|
    ensures bs[i].bound in ToMap(bs) && ToMap(bs)[bs[i].bound] == bs[i].count
  {
    if i < |bs| - 1 {
      DistinctFront(bs);
      DistinctAreMapped(bs[..|bs| - 1], i);
      assert bs[i].bound != bs[|bs| - 1].bound;
    }
  }

  /** A single sample goes through unchanged: its group has its count, its sum and its
      buckets, and each bucket is emitted with its count. */
  lemma SingleSampleUnchanged(names: seq<string>, labels: seq<Label>, count: u64, sum: real, bs: seq<Bucket>)
    requires Distinct(bs)
    ensures var m := Metric(labels, Some(Hist(Some(count), Some(sum), bs)));
            var aggregate := Aggregate(names, [m]);
            aggregate.Keys == {Key(names, labels)} && aggregate[Key(names, labels)] == Acc(count, sum, bs)
    ensures forall i :: 0 <= i < |bs| ==> bs[i].bound in ToMap(bs) && ToMap(bs)[bs[i].bound] == bs[i].count
  {
    var m := Metric(labels, Some(Hist(Some(count), Some(sum), bs)));
    DistinctAreKept(bs);
    assert [m][..0] == [];
    WrapSmall(count);
    forall i | 0 <= i < |bs| ensures bs[i].bound in ToMap(bs) && ToMap(bs)[bs[i].bound] == bs[i].count {
      DistinctAreMapped(bs, i);
    }
  }

  // ----------------------------------------------------- independence of the order

  lemma TotalOfAppend(bs: seq<Bucket>, b: Bucket, bound: Bound)
    ensures TotalAt(bs + [b], bound) == TotalAt(bs, bound) + if b.bound == bound then b.count else 0
  {
    assert (bs + [b])[..|bs|] == bs;
  }

  lemma {:induction false} TotalOfConcat(xs: seq<Bucket>, ys: seq<Bucket>, bound: Bound)
    ensures TotalAt(xs + ys, bound) == TotalAt(xs, bound) + TotalAt(ys, bound)
  {
    if ys == [] {
      assert xs + ys == xs;
    } else {
      var front, last := ys[..|ys| - 1], ys[|ys| - 1];
      TotalOfConcat(xs, front, bound);
      TotalOfAppend(xs + front, last, bound);
      assert xs + ys == xs + front + [last];
    }
  }

  lemma OccursInConcat(xs: seq<Bucket>, ys: seq<Bucket>, bound: Bound)
    ensures Occurs(xs + ys, bound) <==> Occurs(xs, bound) || Occurs(ys, bound)
  {
    var all := xs + ys;
    assert forall i :: 0 <= i < |xs| ==> all[i] == xs[i];
    if i :| 0 <= i < |ys| && ys[i].bound == bound {
      assert all[|xs| + i].bound == bound;
    }
    if i :| 0 <= i < |all| && all[i].bound == bound && i >= |xs| {
      assert ys[i - |xs|].bound == bound;
    }
  }

  /** What one sample adds to a group. */
  function CountIn(names: seq<string>, key: string, m: Metric): nat {
    if Key(names, m.labels) == key then CountOf(m) else 0
  }

  function SumIn(names: seq<string>, key: string, m: Metric): real {
    if Key(names, m.labels) == key then SumOf(m) else 0.0
  }

  function TotalIn(names: seq<string>, key: string, bound: Bound, m: Metric): nat {
    if Key(names, m.labels) == key then TotalAt(BucketsOf(m), bound) else 0
  }

  lemma {:induction false} CountIsSum(names: seq<string>, ms: seq<Metric>, key: string, f: Metric -> int)
    requires forall m :: f(m) == CountIn(names, key, m)
    ensures GroupCount(names, ms, key) == SumInt(f, ms)
  {
    if ms != [] {
      CountIsSum(names, ms[..|ms| - 1], key, f);
    }
  }

  lemma {:induction false} SumIsSum(names: seq<string>, ms: seq<Metric>, key: string, f: Metric -> real)
    requires forall m :: f(m) == SumIn(names, key, m)
    ensures GroupSum(names, ms, key) == SumReal(f, ms)
  {
    if ms != [] {
      SumIsSum(names, ms[..|ms| - 1], key, f);
    }
  }

  lemma {:induction false} TotalIsSum(names: seq<string>, ms: seq<Metric>, key: string, bound: Bound, f: Metric -> int)
    requires forall m :: f(m) == TotalIn(names, key, bound, m)
    ensures TotalAt(GroupBuckets(names, ms, key), bound) == SumInt(f, ms)
  {
    if ms != [] {
      var front, last := ms[..|ms| - 1], ms[|ms| - 1];
      TotalIsSum(names, front, key, bound, f);
      if Key(names, last.labels) == key {
        TotalOfConcat(GroupBuckets(names, front, key), BucketsOf(last), bound);
      } else {
        assert GroupBuckets(names, front, key) + [] == GroupBuckets(names, front, key);
      }
    }
  }

  lemma GroupSumsOrderIndependent(names: seq<string>, ms: seq<Metric>, ns: seq<Metric>, key: string)
    requires multiset(ms) == multiset(ns)
    ensures GroupCount(names, ms, key) == GroupCount(names, ns, key)
    ensures GroupSum(names, ms, key) == GroupSum(names, ns, key)
  {
    var f := (m: Metric) => CountIn(names, key, m) as int;
    CountIsSum(names, ms, key, f);
    CountIsSum(names, ns, key, f);
    SumIntPermutation(f, ms, ns);
    var g := (m: Metric) => SumIn(names, key, m);
    SumIsSum(names, ms, key, g);
    SumIsSum(names, ns, key, g);
    SumRealPermutation(g, ms, ns);
  }

  lemma GroupTotalsOrderIndependent(names: seq<string>, ms: seq<Metric>, ns: seq<Metric>, key: string, bound: Bound)
    requires multiset(ms) == multiset(ns)
    ensures TotalAt(GroupBuckets(names, ms, key), bound) == TotalAt(GroupBuckets(names, ns, key), bound)
  {
    var f := (m: Metric) => TotalIn(names, key, bound, m) as int;
    TotalIsSum(names, ms, key, bound, f);
    TotalIsSum(names, ns, key, bound, f);
    SumIntPermutation(f, ms, ns);
  }

  lemma {:induction false} GroupOccurs(names: seq<string>, ms: seq<Metric>, key: string, bound: Bound)
    ensures Occurs(GroupBuckets(names, ms, key), bound) <==>
            exists m :: m in ms && Key(names, m.labels) == key && Occurs(BucketsOf(m), bound)
  {
    if ms != [] {
      var front, last := ms[..|ms| - 1], ms[|ms| - 1];
      GroupOccurs(names, front, key, bound);
      assert ms == front + [last];
      OccursInConcat(GroupBuckets(names, front, key), BucketsOf(last), bound);
      assert GroupBuckets(names, front, key) + [] == GroupBuckets(names, front, key);
    }
  }

  lemma SeparatedTransfers(bs: seq<Bucket>, cs: seq<Bucket>)
    requires Separated(bs) && forall bound :: Occurs(cs, bound) ==> Occurs(bs, bound)
    ensures Separated(cs)
  {
    forall i, j | 0 <= i < |cs| && 0 <= j < |cs| && Close(cs[i].bound, cs[j].bound)
      ensures cs[i].bound == cs[j].bound
    {
      assert Occurs(cs, cs[i].bound) && Occurs(cs, cs[j].bound);
      var k :| 0 <= k < |bs| && bs[k].bound == cs[i].bound;
      var l :| 0 <= l < |bs| && bs[l].bound == cs[j].bound;
    }
  }

  /** With separated bounds, the count, the sum and every finite bucket of a group are
      the same for every order in which the samples arrive. */
  lemma HistogramOrderIndependent(names: seq<string>, ms: seq<Metric>, ns: seq<Metric>, key: string, x: real)
    requires multiset(ms) == multiset(ns) && Separated(GroupBuckets(names, ms, key))
    ensures var a, b := Get(Aggregate(names, ms), key), Get(Aggregate(names, ns), key);
            a.count == b.count && a.sum == b.sum &&
            (Fin(x) in ToMap(a.buckets) <==> Fin(x) in ToMap(b.buckets)) &&
            (Fin(x) in ToMap(a.buckets) ==> ToMap(a.buckets)[Fin(x)] == ToMap(b.buckets)[Fin(x)])
  {
    var bs, cs := GroupBuckets(names, ms, key), GroupBuckets(names, ns, key);
    AggregateIsTotal(names, ms, key);
    AggregateIsTotal(names, ns, key);
    forall bound ensures Occurs(bs, bound) <==> Occurs(cs, bound) {
      GroupOccurs(names, ms, key, bound);
      GroupOccurs(names, ns, key, bound);
      assert forall m :: m in ms <==> m in multiset(ms);
      assert forall m :: m in ns <==> m in multiset(ns);
    }
    SeparatedTransfers(bs, cs);
    GroupSumsOrderIndependent(names, ms, ns, key);
    GroupTotalsOrderIndependent(names, ms, ns, key, Fin(x));
    EmittedBoundsOccur(bs, Fin(x));
    EmittedBoundsOccur(cs, Fin(x));
    SeparatedIsFaithful(bs);
    SeparatedIsFaithful(cs);
  }

  // --------------------------------------------------------------- cumulative counts

  /** The counts of a sample do not decrease over the bounds in `all` and are bounded
      by its sample count. */
  ghost predicate Cumulative(m: Metric, all: seq<Bucket>) {
    forall x: real, y: real | x <= y && Occurs(all, Fin(x)) && Occurs(all, Fin(y)) ::
      TotalAt(BucketsOf(m), Fin(x)) <= TotalAt(BucketsOf(m), Fin(y)) <= CountOf(m)
  }

  lemma {:induction false} TotalsOrdered(names: seq<string>, ms: seq<Metric>, key: string, a: Bound, b: Bound)
    requires forall i :: 0 <= i < |ms| && Key(names, ms[i].labels) == key ==>
               TotalAt(BucketsOf(ms[i]), a) <= TotalAt(BucketsOf(ms[i]), b) <= CountOf(ms[i])
    ensures TotalAt(GroupBuckets(names, ms, key), a) <= TotalAt(GroupBuckets(names, ms, key), b)
    ensures TotalAt(GroupBuckets(names, ms, key), b) <= GroupCount(names, ms, key)
  {
    if ms != [] {
      var front, last := ms[..|ms| - 1], ms[|ms| - 1];
      assert forall i :: 0 <= i < |front| ==> front[i] == ms[i];
      TotalsOrdered(names, front, key, a, b);
      var bs := GroupBuckets(names, front, key);
      if Key(names, last.labels) == key {
        TotalOfConcat(bs, BucketsOf(last), a);
        TotalOfConcat(bs, BucketsOf(last), b);
      } else {
        assert bs + [] == bs;
      }
    }
  }

  /** If every sample of a group is cumulative over all the finite bounds of the group,
      the emitted buckets are cumulative again and bounded by the emitted count. */
  lemma AggregateIsCumulative(names: seq<string>, ms: seq<Metric>, key: string, x: real, y: real)
    requires var all := GroupBuckets(names, ms, key);
             Separated(all) && GroupCount(names, ms, key) < WORD &&
             forall i :: 0 <= i < |ms| && Key(names, ms[i].labels) == key ==> Cumulative(ms[i], all)
    requires var out := ToMap(Get(Aggregate(names, ms), key).buckets);
             x <= y && Fin(x) in out && Fin(y) in out
    ensures var acc := Get(Aggregate(names, ms), key);
            ToMap(acc.buckets)[Fin(x)] <= ToMap(acc.buckets)[Fin(y)] <= acc.count
  {
    var all := GroupBuckets(names, ms, key);
    AggregateIsTotal(names, ms, key);
    EmittedBoundsOccur(all, Fin(x));
    EmittedBoundsOccur(all, Fin(y));
    SeparatedIsFaithful(all);
    TotalsOrdered(names, ms, key, Fin(x), Fin(y));
    WrapSmall(TotalAt(all, Fin(x)));
    WrapSmall(TotalAt(all, Fin(y)));
    WrapSmall(GroupCount(names, ms, key));
  }

  // ----------------------------------------------- which layouts stay cumulative

  /** Same labels and same bounds; the counts are free. */
  predicate SameBounds(bs: seq<Bucket>, cs: seq<Bucket>) {
    |bs| == |cs| && forall i :: 0 <= i < |bs| ==> bs[i].bound == cs[i].bound
  }

  predicate SameLayout(ms: seq<Metric>, ns: seq<Metric>) {
    |ms| == |ns| &&
    forall i :: 0 <= i < |ms| ==>
      ms[i].labels == ns[i].labels && SameBounds(BucketsOf(ms[i]), BucketsOf(ns[i]))
  }

  /** Each sample of the group is cumulative over its own bounds. */
  ghost predicate InputsCumulative(names: seq<string>, ms: seq<Metric>, key: string) {
    && GroupCount(names, ms, key) < WORD
    && (forall i :: 0 <= i < |ms| && Key(names, ms[i].labels) == key ==> Cumulative(ms[i], BucketsOf(ms[i])))
  }

  /** The emitted histogram is cumulative and bounded by its count. */
  ghost predicate OutCumulative(names: seq<string>, ms: seq<Metric>, key: string) {
    var acc := Get(Aggregate(names, ms), key);
    var out := ToMap(acc.buckets);
    forall x: real, y: real | x <= y && Fin(x) in out && Fin(y) in out :: out[Fin(x)] <= out[Fin(y)] <= acc.count
  }

  /** A sample of the group that has a finite bound has every greater one of the group. */
  ghost predicate Upward(names: seq<string>, ms: seq<Metric>, key: string) {
    forall i, x: real, y: real |
      0 <= i < |ms| && Key(names, ms[i].labels) == key && x <= y &&
      Occurs(BucketsOf(ms[i]), Fin(x)) && Occurs(GroupBuckets(names, ms, key), Fin(y)) ::
      Occurs(BucketsOf(ms[i]), Fin(y))
  }

  lemma SameBoundsOccur(bs: seq<Bucket>, cs: seq<Bucket>, bound: Bound)
    requires SameBounds(bs, cs)
    ensures Occurs(bs, bound) <==> Occurs(cs, bound)
  {
    if i :| 0 <= i < |bs| && bs[i].bound == bound {
      assert cs[i].bound == bound;
    }
    if i :| 0 <= i < |cs| && cs[i].bound == bound {
      assert bs[i].bound == bound;
    }
  }

  lemma {:induction false} SameLayoutOccurs(names: seq<string>, ms: seq<Metric>, ns: seq<Metric>,
                                            key: string, bound: Bound)
    requires SameLayout(ms, ns)
    ensures Occurs(GroupBuckets(names, ms, key), bound) <==> Occurs(GroupBuckets(names, ns, key), bound)
  {
    if ms != [] {
      var front, last := ms[..|ms| - 1], ms[|ms| - 1];
      var other, newLast := ns[..|ns| - 1], ns[|ns| - 1];
      SameLayoutOccurs(names, front, other, key, bound);
      SameBoundsOccur(BucketsOf(last), BucketsOf(newLast), bound);
      var bs, cs := GroupBuckets(names, front, key), GroupBuckets(names, other, key);
      OccursInConcat(bs, BucketsOf(last), bound);
      OccursInConcat(cs, BucketsOf(newLast), bound);
      assert bs + [] == bs && cs + [] == cs;
    }
  }

  lemma SameLayoutSeparated(names: seq<string>, ms: seq<Metric>, ns: seq<Metric>, key: string)
    requires SameLayout(ms, ns) && Separated(GroupBuckets(names, ms, key))
    ensures Separated(GroupBuckets(names, ns, key))
    ensures forall bound :: Occurs(GroupBuckets(names, ms, key), bound) <==> Occurs(GroupBuckets(names, ns, key), bound)
  {
    forall bound ensures Occurs(GroupBuckets(names, ms, key), bound) <==> Occurs(GroupBuckets(names, ns, key), bound) {
      SameLayoutOccurs(names, ms, ns, key, bound);
    }
    SeparatedTransfers(GroupBuckets(names, ms, key), GroupBuckets(names, ns, key));
  }

  /** A sample that is cumulative over its own bounds is so over the whole group's, if
      it has every bound of the group above its lowest. */
  lemma CumulativeOverGroup(m: Metric, all: seq<Bucket>)
    requires Cumulative(m, BucketsOf(m))
    requires forall x: real, y: real | x <= y && Occurs(BucketsOf(m), Fin(x)) && Occurs(all, Fin(y)) ::
               Occurs(BucketsOf(m), Fin(y))
    ensures Cumulative(m, all)
  {
    forall x: real, y: real | x <= y && Occurs(all, Fin(x)) && Occurs(all, Fin(y))
      ensures TotalAt(BucketsOf(m), Fin(x)) <= TotalAt(BucketsOf(m), Fin(y)) <= CountOf(m)
    {
      if !Occurs(BucketsOf(m), Fin(x)) {
        TotalOfAbsent(BucketsOf(m), Fin(x));
      }
      if !Occurs(BucketsOf(m), Fin(y)) {
        TotalOfAbsent(BucketsOf(m), Fin(y));
      } else {
        assert TotalAt(BucketsOf(m), Fin(y)) <= TotalAt(BucketsOf(m), Fin(y)) <= CountOf(m);
      }
    }
  }

  lemma UpwardStaysCumulative(names: seq<string>, ms: seq<Metric>, ns: seq<Metric>, key: string)
    requires Separated(GroupBuckets(names, ms, key)) && Upward(names, ms, key)
    requires SameLayout(ms, ns) && InputsCumulative(names, ns, key)
    ensures OutCumulative(names, ns, key)
  {
    var all := GroupBuckets(names, ns, key);
    SameLayoutSeparated(names, ms, ns, key);
    forall i | 0 <= i < |ns| && Key(names, ns[i].labels) == key ensures Cumulative(ns[i], all) {
      forall bound ensures Occurs(BucketsOf(ms[i]), bound) <==> Occurs(BucketsOf(ns[i]), bound) {
        SameBoundsOccur(BucketsOf(ms[i]), BucketsOf(ns[i]), bound);
      }
      CumulativeOverGroup(ns[i], all);
    }
    var acc := Get(Aggregate(names, ns), key);
    var out := ToMap(acc.buckets);
    forall x: real, y: real | x <= y && Fin(x) in out && Fin(y) in out
      ensures out[Fin(x)] <= out[Fin(y)] <= acc.count
    {
      AggregateIsCumulative(names, ns, key, x, y);
    }
  }

  /** The same bounds, with count 1 once at each finite bound from `from` up. */
  function Refill(bs: seq<Bucket>, from: Option<real>): seq<Bucket> {
    if bs == [] then []
    else
      var front, bound := bs[..|bs| - 1], bs[|bs| - 1].bound;
      Refill(front, from) +
      [Bucket(bound, One(from.Some? && bound.Fin? && from.value <= bound.x && !Occurs(front, bound)))]
  }

  lemma {:induction false} RefillCounts(bs: seq<Bucket>, from: Option<real>, z: real)
    ensures SameBounds(bs, Refill(bs, from))
    ensures TotalAt(Refill(bs, from), Fin(z)) == One(from.Some? && from.value <= z && Occurs(bs, Fin(z)))
  {
    if bs != [] {
      var front, last := bs[..|bs| - 1], bs[|bs| - 1];
      RefillCounts(front, from, z);
      OccursStep(front, last, Fin(z));
      assert front + [last] == bs;
      OccursStep(Refill(front, from), Refill(bs, from)[|bs| - 1], Fin(z));
    }
  }

  function RefillMetric(m: Metric, from: Option<real>): Metric {
    if m.hist.None? then m
    else Metric(m.labels, Some(Hist(Some(One(from.Some?)), None, Refill(m.hist.value.buckets, from))))
  }

  lemma RefillIsCumulative(m: Metric, from: Option<real>)
    ensures var n := RefillMetric(m, from);
            n.labels == m.labels && SameBounds(BucketsOf(m), BucketsOf(n)) && Cumulative(n, BucketsOf(n))
  {
    var n := RefillMetric(m, from);
    RefillCounts(BucketsOf(m), from, 0.0);
    if m.hist.None? {
      assert BucketsOf(n) == [];
    } else {
      forall z: real
        ensures Occurs(BucketsOf(n), Fin(z)) ==>
                  TotalAt(BucketsOf(n), Fin(z)) == One(from.Some? && from.value <= z)
      {
        RefillCounts(BucketsOf(m), from, z);
        SameBoundsOccur(BucketsOf(m), BucketsOf(n), Fin(z));
      }
    }
  }

  function From(k: nat, i: int, x: real): Option<real> { if i == k then Some(x) else None }

  /** The sample `k` gets count 1 from `x` up, and all others get 0. */
  function Spike(ms: seq<Metric>, k: nat, x: real): (ns: seq<Metric>)
    ensures |ns| == |ms|
  {
    if ms == [] then []
    else Spike(ms[..|ms| - 1], k, x) + [RefillMetric(ms[|ms| - 1], From(k, |ms| - 1, x))]
  }

  lemma {:induction false} SpikeAt(ms: seq<Metric>, k: nat, x: real, i: nat)
    requires i < |ms|
    ensures Spike(ms, k, x)[i] == RefillMetric(ms[i], From(k, i, x))
  {
    if i < |ms| - 1 {
      SpikeAt(ms[..|ms| - 1], k, x, i);
    }
  }

  lemma SpikeKeepsLayout(ms: seq<Metric>, k: nat, x: real)
    ensures SameLayout(ms, Spike(ms, k, x))
    ensures forall i :: 0 <= i < |ms| ==> Cumulative(Spike(ms, k, x)[i], BucketsOf(Spike(ms, k, x)[i]))
  {
    var ns := Spike(ms, k, x);
    forall i | 0 <= i < |ms|
      ensures ms[i].labels == ns[i].labels && SameBounds(BucketsOf(ms[i]), BucketsOf(ns[i]))
      ensures Cumulative(ns[i], BucketsOf(ns[i]))
    {
      SpikeAt(ms, k, x, i);
      RefillIsCumulative(ms[i], From(k, i, x));
    }
  }

  /** What the refilled sample adds to its group. */
  lemma RefillAdds(names: seq<string>, m: Metric, key: string, from: Option<real>, z: real)
    ensures CountIn(names, key, RefillMetric(m, from)) ==
            One(from.Some? && Key(names, m.labels) == key && m.hist.Some?)
    ensures TotalIn(names, key, Fin(z), RefillMetric(m, from)) ==
            One(from.Some? && Key(names, m.labels) == key && from.value <= z && Occurs(BucketsOf(m), Fin(z)))
  {
    RefillCounts(BucketsOf(m), from, z);
  }

  lemma GroupStep(names: seq<string>, front: seq<Metric>, last: Metric, key: string, bound: Bound)
    ensures GroupCount(names, front + [last], key) == GroupCount(names, front, key) + CountIn(names, key, last)
    ensures TotalAt(GroupBuckets(names, front + [last], key), bound) ==
            TotalAt(GroupBuckets(names, front, key), bound) + TotalIn(names, key, bound, last)
  {
    assert (front + [last])[..|front|] == front;
    TotalOfConcat(GroupBuckets(names, front, key), BucketsOf(last), bound);
    assert GroupBuckets(names, front, key) + [] == GroupBuckets(names, front, key);
  }

  /** The sample is in the group and has a histogram. */
  predicate InGroup(names: seq<string>, ms: seq<Metric>, key: string, k: nat) {
    k < |ms| && Key(names, ms[k].labels) == key && ms[k].hist.Some?
  }

  predicate Reached(names: seq<string>, ms: seq<Metric>, key: string, k: nat, x: real, z: real) {
    k < |ms| && Key(names, ms[k].labels) == key && x <= z && Occurs(BucketsOf(ms[k]), Fin(z))
  }

  lemma {:induction false} SpikeCount(names: seq<string>, ms: seq<Metric>, key: string, k: nat, x: real)
    ensures GroupCount(names, Spike(ms, k, x), key) == One(InGroup(names, ms, key, k))
  {
    if ms != [] {
      var front, last := ms[..|ms| - 1], ms[|ms| - 1];
      SpikeCount(names, front, key, k, x);
      GroupStep(names, Spike(front, k, x), RefillMetric(last, From(k, |ms| - 1, x)), key, PosInf);
      RefillAdds(names, last, key, From(k, |ms| - 1, x), x);
    }
  }

  lemma {:induction false} SpikeTotal(names: seq<string>, ms: seq<Metric>, key: string, k: nat, x: real, z: real)
    ensures TotalAt(GroupBuckets(names, Spike(ms, k, x), key), Fin(z)) == One(Reached(names, ms, key, k, x, z))
  {
    if ms != [] {
      var front, last := ms[..|ms| - 1], ms[|ms| - 1];
      SpikeTotal(names, front, key, k, x, z);
      GroupStep(names, Spike(front, k, x), RefillMetric(last, From(k, |ms| - 1, x)), key, Fin(z));
      RefillAdds(names, last, key, From(k, |ms| - 1, x), z);
    }
  }

  lemma SpikeDecreases(names: seq<string>, ms: seq<Metric>, key: string, k: nat, x: real, y: real)
    requires Separated(GroupBuckets(names, ms, key)) && k < |ms| && Key(names, ms[k].labels) == key && x <= y
    requires Occurs(BucketsOf(ms[k]), Fin(x)) && !Occurs(BucketsOf(ms[k]), Fin(y))
    requires Occurs(GroupBuckets(names, ms, key), Fin(x)) && Occurs(GroupBuckets(names, ms, key), Fin(y))
    ensures SameLayout(ms, Spike(ms, k, x)) && InputsCumulative(names, Spike(ms, k, x), key)
    ensures !OutCumulative(names, Spike(ms, k, x), key)
  {
    var ns := Spike(ms, k, x);
    var all := GroupBuckets(names, ns, key);
    SpikeKeepsLayout(ms, k, x);
    SameLayoutSeparated(names, ms, ns, key);
    SpikeCount(names, ms, key, k, x);
    SpikeTotal(names, ms, key, k, x, x);
    SpikeTotal(names, ms, key, k, x, y);
    AggregateIsTotal(names, ns, key);
    EmittedCount(all, x);
    EmittedCount(all, y);
    WrapSmall(0);
    WrapSmall(1);
    var out := ToMap(Get(Aggregate(names, ns), key).buckets);
    assert out[Fin(x)] == 1 && out[Fin(y)] == 0;
  }

  lemma {:induction false} SampleInGroup(names: seq<string>, ms: seq<Metric>, key: string, k: nat, bound: Bound)
    requires k < |ms| && Key(names, ms[k].labels) == key && Occurs(BucketsOf(ms[k]), bound)
    ensures Occurs(GroupBuckets(names, ms, key), bound)
  {
    GroupOccurs(names, ms, key, bound);
    assert ms[k] in ms;
  }

  /** Cumulative samples with the given bounds always add up to a cumulative histogram,
      whatever their counts, exactly when each sample that has a bound has every greater
      bound of its group. */
  lemma CumulativeForAllCountsIff(names: seq<string>, ms: seq<Metric>, key: string)
    requires Separated(GroupBuckets(names, ms, key))
    ensures (forall ns :: SameLayout(ms, ns) && InputsCumulative(names, ns, key) ==> OutCumulative(names, ns, key)) <==>
            Upward(names, ms, key)
  {
    if Upward(names, ms, key) {
      forall ns | SameLayout(ms, ns) && InputsCumulative(names, ns, key) ensures OutCumulative(names, ns, key) {
        UpwardStaysCumulative(names, ms, ns, key);
      }
    } else {
      var k, x: real, y: real :|
        0 <= k < |ms| && Key(names, ms[k].labels) == key && x <= y &&
        Occurs(BucketsOf(ms[k]), Fin(x)) && Occurs(GroupBuckets(names, ms, key), Fin(y)) &&
        !Occurs(BucketsOf(ms[k]), Fin(y));
      SampleInGroup(names, ms, key, k, Fin(x));
      SpikeDecreases(names, ms, key, k, x, y);
    }
  }

  // -------------------------------------------------------------- the `+Inf` bucket

  /** The samples follow the exposition format: the `+Inf` bucket equals the count. */
  predicate HasInf(m: Metric) { Infs(BucketsOf(m)) == [CountOf(m)] }

  ghost predicate GroupHasInf(names: seq<string>, ms: seq<Metric>, key: string) {
    forall i :: 0 <= i < |ms| && Key(names, ms[i].labels) == key ==> HasInf(ms[i])
  }

  lemma {:induction false} InfsOfConcat(xs: seq<Bucket>, ys: seq<Bucket>)
    ensures Infs(xs + ys) == Infs(xs) + Infs(ys)
  {
    if ys == [] {
      assert xs + ys == xs;
    } else {
      var front, last := ys[..|ys| - 1], ys[|ys| - 1];
      InfsOfConcat(xs, front);
      InfsStep(xs + front, last);
      assert xs + ys == xs + front + [last];
    }
  }

  /** The count of the last sample of the group. */
  function LastCount(names: seq<string>, ms: seq<Metric>, key: string): nat {
    if ms == [] then 0
    else if Key(names, ms[|ms| - 1].labels) == key then CountOf(ms[|ms| - 1])
    else LastCount(names, ms[..|ms| - 1], key)
  }

  lemma {:induction false} GroupInfs(names: seq<string>, ms: seq<Metric>, key: string)
    requires GroupHasInf(names, ms, key)
    ensures var infs := Infs(GroupBuckets(names, ms, key));
            (infs == [] ==> key !in Aggregate(names, ms)) &&
            (infs != [] ==> infs[|infs| - 1] == LastCount(names, ms, key))
    ensures LastCount(names, ms, key) <= GroupCount(names, ms, key)
  {
    if ms != [] {
      var front, last := ms[..|ms| - 1], ms[|ms| - 1];
      assert forall i :: 0 <= i < |front| ==> front[i] == ms[i];
      GroupInfs(names, front, key);
      var bs := GroupBuckets(names, front, key);
      if Key(names, last.labels) == key {
        InfsOfConcat(bs, BucketsOf(last));
      } else {
        assert bs + [] == bs;
      }
    }
  }

  lemma GroupLastInf(names: seq<string>, ms: seq<Metric>, key: string)
    requires key in Aggregate(names, ms) && GroupHasInf(names, ms, key)
    ensures var infs := Infs(GroupBuckets(names, ms, key));
            infs != [] && infs[|infs| - 1] == LastCount(names, ms, key) <= GroupCount(names, ms, key)
  {
    GroupInfs(names, ms, key);
  }

  /** The emitted `+Inf` bucket equals the emitted count, as the format demands, exactly
      when the samples before the last one of the group recorded nothing, modulo 2^64. */
  lemma InfMatchesCountIff(names: seq<string>, ms: seq<Metric>, key: string)
    requires key in Aggregate(names, ms)
    requires GroupHasInf(names, ms, key)
    ensures var acc := Get(Aggregate(names, ms), key);
            PosInf in ToMap(acc.buckets) &&
            (ToMap(acc.buckets)[PosInf] == acc.count <==>
             Congruent(GroupCount(names, ms, key), LastCount(names, ms, key)))
  {
    AggregateIsTotal(names, ms, key);
    GroupLastInf(names, ms, key);
    var bs, total, last := GroupBuckets(names, ms, key), GroupCount(names, ms, key), LastCount(names, ms, key);
    InfVersusCount(Get(Aggregate(names, ms), key), bs, total, last);
  }

  lemma InfVersusCount(acc: Acc, bs: seq<Bucket>, total: nat, last: nat)
    requires acc.count == Wrap(total) && acc.buckets == BumpAll([], bs)
    requires Infs(bs) != [] && Infs(bs)[|Infs(bs)| - 1] == last <= total
    ensures PosInf in ToMap(acc.buckets)
    ensures ToMap(acc.buckets)[PosInf] == acc.count <==> Congruent(total, last)
  {
    EmittedInfIsLast(bs);
    WrapEquals(total, last);
  }

  lemma TwiceTheSample(m: Metric)
    ensures GroupCount([], [m, m], Key([], m.labels)) == 2 * CountOf(m)
    ensures LastCount([], [m, m], Key([], m.labels)) == CountOf(m)
  {
    var key := Key([], m.labels);
    GroupStep([], [], m, key, PosInf);
    GroupStep([], [m], m, key, PosInf);
    assert [] + [m] == [m] && [m] + [m] == [m, m];
  }

  /** Two equal samples that count something: the emitted `+Inf` bucket is not the count. */
  lemma InfBelowCount(m: Metric)
    requires HasInf(m) && CountOf(m) != 0
    ensures var key := Key([], m.labels);
            var acc := Get(Aggregate([], [m, m]), key);
            GroupHasInf([], [m, m], key) && PosInf in ToMap(acc.buckets) && ToMap(acc.buckets)[PosInf] != acc.count
  {
    var ms, key := [m, m], Key([], m.labels);
    TwiceTheSample(m);
    AggregateKeys([], ms, key);
    assert ms[0] == m && ms[1] == m;
    InfMatchesCountIff([], ms, key);
    DoubleIsDifferent(CountOf(m));
  }

  /** What a sample sets the `+Inf` bucket of the group `key` to. */
  function SetsInf(names: seq<string>, key: string): Metric -> Option<u64> {
    (m: Metric) =>
      var infs := Infs(BucketsOf(m));
      if Key(names, m.labels) == key && infs != [] then Some(infs[|infs| - 1]) else None
  }

  function EmittedInf(names: seq<string>, ms: seq<Metric>, key: string): Option<u64> {
    var out := ToMap(Get(Aggregate(names, ms), key).buckets);
    if PosInf in out then Some(out[PosInf]) else None
  }

  function LastOf(xs: seq<u64>): Option<u64> { if xs == [] then None else Some(xs[|xs| - 1]) }

  lemma {:induction false} LastInfOfGroup(names: seq<string>, ms: seq<Metric>, key: string)
    ensures LastOf(Infs(GroupBuckets(names, ms, key))) == Last(SetsInf(names, key), ms)
  {
    if ms != [] {
      var front, last := ms[..|ms| - 1], ms[|ms| - 1];
      LastInfOfGroup(names, front, key);
      var bs := GroupBuckets(names, front, key);
      if Key(names, last.labels) == key {
        InfsOfConcat(bs, BucketsOf(last));
        assert Infs(bs) + [] == Infs(bs);
      } else {
        assert bs + [] == bs;
      }
    }
  }

  lemma EmittedInfIsLastSet(names: seq<string>, ms: seq<Metric>, key: string)
    ensures EmittedInf(names, ms, key) == Last(SetsInf(names, key), ms)
  {
    var bs := GroupBuckets(names, ms, key);
    assert Get(Aggregate(names, ms), key).buckets == BumpAll([], bs) by {
      AggregateIsTotal(names, ms, key);
    }
    EmittedInfIsLast(bs);
    LastInfOfGroup(names, ms, key);
  }

  /** The emitted `+Inf` bucket is the same in whatever order the samples arrive exactly
      when all samples of the group that have one agree on it. */
  lemma InfOrderIndependentIff(names: seq<string>, ms: seq<Metric>, key: string)
    ensures (forall ns :: multiset(ns) == multiset(ms) ==>
               EmittedInf(names, ns, key) == EmittedInf(names, ms, key)) <==>
            Agree(SetsInf(names, key), ms)
  {
    forall ns ensures EmittedInf(names, ns, key) == Last(SetsInf(names, key), ns) {
      EmittedInfIsLastSet(names, ns, key);
    }
    OrderFreeIffAgree(SetsInf(names, key), ms);
    if Agree(SetsInf(names, key), ms) {
      assert OrderFree(SetsInf(names, key), ms);
    } else {
      var ns :| multiset(ns) == multiset(ms) && Last(SetsInf(names, key), ns) != Last(SetsInf(names, key), ms);
      assert EmittedInf(names, ns, key) != EmittedInf(names, ms, key);
    }
  }

  /** Samples of one group with different `+Inf` buckets: some order emits another one. */
  lemma InfDependsOnOrder(m: Metric, n: Metric)
    requires m.labels == n.labels && HasInf(m) && HasInf(n) && CountOf(m) != CountOf(n)
    ensures exists ns :: multiset(ns) == multiset([m, n]) &&
                         EmittedInf([], ns, Key([], m.labels)) != EmittedInf([], [m, n], Key([], m.labels))
  {
    var ms, key := [m, n], Key([], m.labels);
    assert SetsInf([], key)(ms[0]) == Some(CountOf(m)) && SetsInf([], key)(ms[1]) == Some(CountOf(n));
    InfOrderIndependentIff([], ms, key);
  }

  // ---------------------------------------------------------------------- emission

  /** Every group is emitted with one value for each label exactly when the label
      values of every sample are emittable. */
  lemma {:induction false} EmissionSucceedsIff(names: seq<string>, ms: seq<Metric>)
    ensures (forall key :: key in Aggregate(names, ms) ==> |Emitted(key)| == |names|) <==>
            (forall i :: 0 <= i < |ms| ==> Emittable(Vector(names, ms[i].labels)))
  {
    forall key ensures key in Aggregate(names, ms) <==> exists i :: 0 <= i < |ms| && Key(names, ms[i].labels) == key {
      AggregateKeys(names, ms, key);
    }
    forall i | 0 <= i < |ms|
      ensures Key(names, ms[i].labels) in Aggregate(names, ms)
      ensures Emittable(Vector(names, ms[i].labels)) <==> |Emitted(Key(names, ms[i].labels))| == |names|
    {
      EmittedArityIff(Vector(names, ms[i].labels));
    }
  }

  // ----------------------------------------------------------- the histogram collector

  /** The message object of one group, updated in place. */
  class Accumulator {
    var sampleCount: u64
    var sampleSum: real
    var buckets: seq<Bucket>

    function View(): Acc
      reads this
    {
      Acc(sampleCount, sampleSum, buckets)
    }

    constructor ()
      ensures View() == Empty
    {
      sampleCount, sampleSum, buckets := 0, 0.0, [];
    }

    method AggregateBucket(bucket: Bucket)
      modifies this`buckets
      ensures buckets == Bump(old(buckets), bucket)
      ensures forall k :: 0 <= k < |old(buckets)| && FirstNear(old(buckets), bucket.bound, k) ==>
                buckets == old(buckets)[k := Bucket(old(buckets)[k].bound, Wrap(old(buckets)[k].count + bucket.count))]
      ensures NoneNear(old(buckets), bucket.bound) ==> buckets == old(buckets) + [bucket]
    {
      var found, i := false, 0;
      while i < |buckets|
        invariant i <= FirstClose(buckets, bucket.bound) && buckets == old(buckets)
      {
        if Close(buckets[i].bound, bucket.bound) {
          assert i == FirstClose(buckets, bucket.bound);
          buckets := buckets[i := Bucket(buckets[i].bound, Wrap(buckets[i].count + bucket.count))];
          found := true;
          break;
        }
        i := i + 1;
      }
      if !found {
        buckets := buckets + [bucket];
      }
    }

    method AggregateHistogramData(metric: Metric)
      modifies this
      ensures View() == AddMetric(old(View()), metric)
    {
      if metric.hist.None? {
        return;
      }
      var h := metric.hist.value;
      if h.count.Some? {
        sampleCount := Wrap(sampleCount + h.count.value);
      }
      if h.sum.Some? {
        sampleSum := sampleSum + h.sum.value;
      }
      AggregateBuckets(h.buckets);
    }

    method AggregateBuckets(bs: seq<Bucket>)
      modifies this`buckets
      ensures buckets == BumpAll(old(buckets), bs)
    {
      for i := 0 to |bs|
        invariant buckets == BumpAll(old(buckets), bs[..i])
      {
        AggregateBucket(bs[i]);
        assert bs[..i + 1][..i] == bs[..i];
      }
      assert bs[..|bs|] == bs;
    }
  }

  /** The map from keys to accumulator objects, filled by one pass over the samples. */
  method AggregateHistograms(names: seq<string>, ms: seq<Metric>) returns (accs: map<string, Accumulator>)
    ensures forall key :: key in accs ==> fresh(accs[key])
    ensures forall key :: key in accs <==> key in Aggregate(names, ms)
    ensures forall key :: key in accs ==> accs[key].View() == Aggregate(names, ms)[key]
  {
    accs := map[];
    for i := 0 to |ms|
      invariant forall key :: key in accs ==> fresh(accs[key])
      invariant forall key, other :: key in accs && other in accs && accs[key] == accs[other] ==> key == other
      invariant forall key :: key in accs <==> key in Aggregate(names, ms[..i])
      invariant forall key :: key in accs ==> accs[key].View() == Aggregate(names, ms[..i])[key]
    {
      var key := GetLabelKey(names, ms[i].labels);
      if key !in accs {
        var acc := new Accumulator();
        accs := accs[key := acc];
      }
      accs[key].AggregateHistogramData(ms[i]);
      assert ms[..i + 1][..i] == ms[..i];
    }
    assert ms[..|ms|] == ms;
  }

  datatype Emission = Emission(labels: seq<string>, count: u64, sum: real, buckets: map<Bound, u64>)

  /** The conversion of the buckets of one group to a map. */
  method BucketMap(buckets: seq<Bucket>) returns (m: map<Bound, u64>)
    ensures m == ToMap(buckets)
  {
    m := map[];
    for i := 0 to |buckets|
      invariant m == ToMap(buckets[..i])
    {
      m := m[buckets[i].bound := buckets[i].count];
      assert buckets[..i + 1][..i] == buckets[..i];
    }
    assert buckets[..|buckets|] == buckets;
  }

  /** The metric carries the accumulator, under the label values of its key. */
  predicate Emits(e: Emission, key: string, acc: Acc) {
    e.labels == (if AllEmpty(Split(key)) then [] else Split(key)) &&
    e.count == acc.count && e.sum == acc.sum && e.buckets == ToMap(acc.buckets)
  }

  /** Each accumulator is emitted once, in any order. */
  method SendHistograms(accs: map<string, Accumulator>) returns (out: seq<Emission>, keys: seq<string>)
    ensures |out| == |keys|
    ensures forall i, j | 0 <= i < |keys| && 0 <= j < |keys| :: keys[i] == keys[j] ==> i == j
    ensures forall key :: key in keys <==> key in accs
    ensures forall i :: 0 <= i < |out| ==> Emits(out[i], keys[i], accs[keys[i]].View())
  {
    out, keys := [], [];
    var left := accs.Keys;
    while left != {}
      invariant left <= accs.Keys && |out| == |keys|
      invariant forall i, j | 0 <= i < |keys| && 0 <= j < |keys| :: keys[i] == keys[j] ==> i == j
      invariant forall key :: key in keys <==> key in accs && key !in left
      invariant forall i :: 0 <= i < |out| ==> Emits(out[i], keys[i], accs[keys[i]].View())
      decreases left
    {
      var key :| key in left;
      var labels := PrepareLabelValues(Split(key));
      var buckets := BucketMap(accs[key].buckets);
      out := out + [Emission(labels, accs[key].sampleCount, accs[key].sampleSum, buckets)];
      keys := keys + [key];
      left := left - {key};
    }
  }

  /** Each group is emitted once, with its totals. */
  method Collect(names: seq<string>, ms: seq<Metric>) returns (out: seq<Emission>, keys: seq<string>)
    ensures |out| == |keys|
    ensures forall i, j | 0 <= i < |keys| && 0 <= j < |keys| :: keys[i] == keys[j] ==> i == j
    ensures forall key :: key in keys <==> exists i :: 0 <= i < |ms| && Key(names, ms[i].labels) == key
    ensures forall i :: 0 <= i < |out| ==>
              out[i].labels == (if AllEmpty(Split(keys[i])) then [] else Split(keys[i])) &&
              out[i].count == Wrap(GroupCount(names, ms, keys[i])) &&
              out[i].sum == GroupSum(names, ms, keys[i]) &&
              out[i].buckets == EmittedBuckets(GroupBuckets(names, ms, keys[i]))
  {
    var accs := AggregateHistograms(names, ms);
    out, keys := SendHistograms(accs);
    forall key ensures key in keys <==> exists i :: 0 <= i < |ms| && Key(names, ms[i].labels) == key {
      AggregateKeys(names, ms, key);
    }
    forall i | 0 <= i < |out| ensures Emits(out[i], keys[i], GroupTotals(names, ms, keys[i])) {
      assert keys[i] in accs;
      AggregateIsTotal(names, ms, keys[i]);
    }
  }

  /** Cumulative samples over different bounds need not add up to a cumulative one. */
  lemma DifferentBoundsDecrease()
    ensures exists m: Metric, n: Metric ::
              Cumulative(m, BucketsOf(m)) && Cumulative(n, BucketsOf(n)) &&
              var out := EmittedBuckets(BucketsOf(m) + BucketsOf(n));
              Fin(1.0) in out && Fin(2.0) in out && out[Fin(1.0)] > out[Fin(2.0)]
  {
    var a, b := Bucket(Fin(1.0), 5), Bucket(Fin(2.0), 3);
    var m := Metric([], Some(Hist(Some(5), None, [a])));
    var n := Metric([], Some(Hist(Some(3), None, [b])));
    assert [a, b][..1] == [a] && [a][..0] == [] && [a] + [b] == [a, b];
    assert BumpAll([], [a]) == Bump([], a) == [] + [a] == [a];
    assert FirstClose([a], b.bound) == 1;
    assert BumpAll([], [a, b]) == Bump([a], b) == [a] + [b];
    assert ToMap([a, b]) == ToMap([a])[b.bound := b.count];
    SingleIsCumulative(m, a);
    SingleIsCumulative(n, b);
    assert BucketsOf(m) + BucketsOf(n) == [a, b];
  }

  lemma SingleIsCumulative(m: Metric, b: Bucket)
    requires BucketsOf(m) == [b] && CountOf(m) == b.count
    ensures Cumulative(m, [b])
  {
    forall x: real | Occurs([b], Fin(x)) ensures b.bound == Fin(x) && TotalAt([b], Fin(x)) == b.count {
      OccursStep([], b, Fin(x));
      assert [] + [b] == [b] && !Occurs([], Fin(x));
    }
  }
}
