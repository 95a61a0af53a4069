/** Generic aggregation of counters and gauges: group the samples by their joined
    label values, fold each group, and emit it under the split key. */
module Collector {
  import opened Basics
  import opened Folds
  import opened LabelKeys

  datatype Metric = Metric(labels: seq<Label>, value: real)

  datatype Sample = Sample(labels: seq<string>, value: real)

  /** The folds of counters and gauges. */
  function AddTo(current: real, new_: real): real { current + new_ }

  function Replace(current: real, new_: real): real { new_ }

  function Get(values: map<string, real>, key: string): real {
    if key in values then values[key] else 0.0
  }

  function AddSample(fold: (real, real) -> real, names: seq<string>,
                     values: map<string, real>, m: Metric): map<string, real> {
    var key := Key(names, m.labels);
    values[key := fold(Get(values, key), m.value)]
  }

  function Aggregate(fold: (real, real) -> real, names: seq<string>, ms: seq<Metric>): map<string, real> {
    if ms == [] then map[]
    else AddSample(fold, names, Aggregate(fold, names, ms[..|ms| - 1]), ms[|ms| - 1])
  }

  /** The values of the samples with the key, in order. */
  function Group(names: seq<string>, ms: seq<Metric>, key: string): seq<real> {
    if ms == [] then []
    else
      Group(names, ms[..|ms| - 1], key) +
      if Key(names, ms[|ms| - 1].labels) == key then [ms[|ms| - 1].value] else []
  }

  /** Each group is folded on its own, in the order of its samples. */
  lemma {:induction false} AggregateIsFold(fold: (real, real) -> real, names: seq<string>, ms: seq<Metric>, key: string)
    ensures key in Aggregate(fold, names, ms) <==> Group(names, ms, key) != []
    ensures Get(Aggregate(fold, names, ms), key) == Fold(fold, 0.0, Group(names, ms, key))
  {
    if ms != [] {
      var front, last := ms[..|ms| - 1], ms[|ms| - 1];
      AggregateIsFold(fold, names, front, key);
      var g := Group(names, front, key);
      if Key(names, last.labels) == key {
        assert (g + [last.value])[..|g|] == g;
      } else {
        assert g + [] == g;
      }
    }
  }

  /** A gauge group yields exactly its last sample. */
  lemma GaugeIsLast(names: seq<string>, ms: seq<Metric>, key: string)
    requires key in Aggregate(Replace, names, ms)
    ensures var g := Group(names, ms, key);
            g != [] && Aggregate(Replace, names, ms)[key] == g[|g| - 1]
  {
    AggregateIsFold(Replace, names, ms, key);
  }

  // ---------------------------------------------------- independence of the order

  lemma CounterStepsCommute(names: seq<string>, values: map<string, real>, x: Metric, y: Metric)
    ensures AddSample(AddTo, names, AddSample(AddTo, names, values, x), y) ==
            AddSample(AddTo, names, AddSample(AddTo, names, values, y), x)
  {
    var a := AddSample(AddTo, names, AddSample(AddTo, names, values, x), y);
    var b := AddSample(AddTo, names, AddSample(AddTo, names, values, y), x);
    assert a.Keys == b.Keys;
    forall key | key in a ensures a[key] == b[key] {
    }
  }

  lemma {:induction false} CounterIsFold(op: (map<string, real>, Metric) -> map<string, real>,
                                         names: seq<string>, ms: seq<Metric>)
    requires forall values, m :: op(values, m) == AddSample(AddTo, names, values, m)
    ensures Aggregate(AddTo, names, ms) == Fold(op, map[], ms)
  {
    if ms != [] {
      CounterIsFold(op, names, ms[..|ms| - 1]);
    }
  }

  /** Counter totals are the same for every order in which the samples arrive. */
  lemma CounterOrderIndependent(names: seq<string>, ms: seq<Metric>, ns: seq<Metric>)
    requires multiset(ms) == multiset(ns)
    ensures Aggregate(AddTo, names, ms) == Aggregate(AddTo, names, ns)
  {
    var op := (values: map<string, real>, m: Metric) => AddSample(AddTo, names, values, m);
    forall v: map<string, real>, x: Metric, y: Metric ensures op(op(v, x), y) == op(op(v, y), x) {
      CounterStepsCommute(names, v, x, y);
    }
    CounterIsFold(op, names, ms);
    CounterIsFold(op, names, ns);
    FoldPermutation(op, map[], ms, ns);
  }

  /** What a sample sets the gauge of the group `key` to. */
  function Sets(names: seq<string>, key: string): Metric -> Option<real> {
    (m: Metric) => if Key(names, m.labels) == key then Some(m.value) else None
  }

  lemma {:induction false} GaugeIsLastSet(names: seq<string>, ms: seq<Metric>, key: string)
    ensures key in Aggregate(Replace, names, ms) <==> Last(Sets(names, key), ms).Some?
    ensures key in Aggregate(Replace, names, ms) ==>
              Last(Sets(names, key), ms) == Some(Aggregate(Replace, names, ms)[key])
  {
    if ms != [] {
      GaugeIsLastSet(names, ms[..|ms| - 1], key);
    }
  }

  ghost predicate EqualInGroups(names: seq<string>, ms: seq<Metric>) {
    forall i, j | 0 <= i < |ms| && 0 <= j < |ms| ::
      Key(names, ms[i].labels) == Key(names, ms[j].labels) ==> ms[i].value == ms[j].value
  }

  lemma EqualGaugesInOrder(names: seq<string>, ms: seq<Metric>, ns: seq<Metric>)
    requires EqualInGroups(names, ms) && multiset(ns) == multiset(ms)
    ensures Aggregate(Replace, names, ns) == Aggregate(Replace, names, ms)
  {
    var a, b := Aggregate(Replace, names, ns), Aggregate(Replace, names, ms);
    forall key ensures key in a <==> key in b
               ensures key in a ==> a[key] == b[key]
    {
      assert Agree(Sets(names, key), ms);
      LastOfAgreeing(Sets(names, key), ms, ns);
      GaugeIsLastSet(names, ms, key);
      GaugeIsLastSet(names, ns, key);
    }
  }

  /** The gauges are the same in whatever order the samples arrive exactly when the
      samples of each group have one value. */
  lemma GaugeOrderIndependentIff(names: seq<string>, ms: seq<Metric>)
    ensures (forall ns :: multiset(ns) == multiset(ms) ==>
               Aggregate(Replace, names, ns) == Aggregate(Replace, names, ms)) <==>
            EqualInGroups(names, ms)
  {
    if EqualInGroups(names, ms) {
      forall ns | multiset(ns) == multiset(ms)
        ensures Aggregate(Replace, names, ns) == Aggregate(Replace, names, ms)
      {
        EqualGaugesInOrder(names, ms, ns);
      }
    } else {
      var i, j :| 0 <= i < |ms| && 0 <= j < |ms| &&
                  Key(names, ms[i].labels) == Key(names, ms[j].labels) && ms[i].value != ms[j].value;
      var key := Key(names, ms[i].labels);
      assert Sets(names, key)(ms[i]) == Some(ms[i].value) && Sets(names, key)(ms[j]) == Some(ms[j].value);
      assert !Agree(Sets(names, key), ms);
      OrderFreeIffAgree(Sets(names, key), ms);
      var ns :| multiset(ns) == multiset(ms) && Last(Sets(names, key), ns) != Last(Sets(names, key), ms);
      GaugeIsLastSet(names, ms, key);
      GaugeIsLastSet(names, ns, key);
    }
  }

  /** The gauges of two workers that report in the other order differ. */
  lemma GaugeDependsOnOrder()
    ensures exists a, b :: Aggregate(Replace, [], [a, b]) != Aggregate(Replace, [], [b, a])
  {
    var a, b := Metric([], 1.0), Metric([], 2.0);
    assert [a, b][..1] == [a] && [b, a][..1] == [b];
    assert Key([], a.labels) == "" && Key([], b.labels) == "";
    assert Aggregate(Replace, [], [a, b])[""] == 2.0;
    assert Aggregate(Replace, [], [b, a])[""] == 1.0;
  }

  // ------------------------------------------------------------------ conservation

  function Total(values: map<string, real>, keys: seq<string>): real {
    if keys == [] then 0.0 else Get(values, keys[0]) + Total(values, keys[1..])
  }

  function InputTotal(ms: seq<Metric>): real {
    if ms == [] then 0.0 else InputTotal(ms[..|ms| - 1]) + ms[|ms| - 1].value
  }

  ghost predicate Distinct(keys: seq<string>) {
    forall i, j | 0 <= i < |keys| && 0 <= j < |keys| :: keys[i] == keys[j] ==> i == j
  }

  lemma {:induction false} TotalUpdate(values: map<string, real>, keys: seq<string>, key: string, value: real)
    requires Distinct(keys)
    ensures Total(values[key := value], keys) ==
            Total(values, keys) + if key in keys then value - Get(values, key) else 0.0
  {
    if keys != [] {
      TotalUpdate(values, keys[1..], key, value);
      assert forall i :: 0 <= i < |keys[1..]| ==> keys[1..][i] == keys[i + 1];
      assert key in keys <==> key == keys[0] || key in keys[1..];
      assert keys[0] !in keys[1..];
    }
  }

  /** No counter value is lost or doubled: over any enumeration of the groups the
      totals add up to the sum of all samples. */
  lemma {:induction false} CounterConserved(names: seq<string>, ms: seq<Metric>, keys: seq<string>)
    requires Distinct(keys) && forall key :: key in Aggregate(AddTo, names, ms) ==> key in keys
    ensures Total(Aggregate(AddTo, names, ms), keys) == InputTotal(ms)
  {
    if ms == [] {
      TotalOfNone(keys);
    } else {
      var front, last := ms[..|ms| - 1], ms[|ms| - 1];
      var before, key := Aggregate(AddTo, names, front), Key(names, last.labels);
      assert key in Aggregate(AddTo, names, ms);
      CounterConserved(names, front, keys);
      TotalUpdate(before, keys, key, Get(before, key) + last.value);
    }
  }

  lemma {:induction false} TotalOfNone(keys: seq<string>)
    ensures Total(map[], keys) == 0.0
  {
    if keys != [] {
      TotalOfNone(keys[1..]);
    }
  }

  // ------------------------------------------------------------------------ emission

  /** Every group is emitted with one value for each label exactly when the label
      values of every sample are emittable. */
  lemma {:induction false} EmissionSucceedsIff(fold: (real, real) -> real, names: seq<string>, ms: seq<Metric>)
    ensures (forall key :: key in Aggregate(fold, names, ms) ==> |Emitted(key)| == |names|) <==>
            (forall i :: 0 <= i < |ms| ==> Emittable(Vector(names, ms[i].labels)))
  {
    var agg := Aggregate(fold, names, ms);
    forall i | 0 <= i < |ms|
      ensures Key(names, ms[i].labels) in agg
      ensures Emittable(Vector(names, ms[i].labels)) <==> |Emitted(Key(names, ms[i].labels))| == |names|
    {
      KeyOfSample(fold, names, ms, i);
      EmittedArityIff(Vector(names, ms[i].labels));
    }
    forall key | key in agg ensures exists i :: 0 <= i < |ms| && Key(names, ms[i].labels) == key {
      SampleOfKey(fold, names, ms, key);
    }
  }

  lemma {:induction false} KeyOfSample(fold: (real, real) -> real, names: seq<string>, ms: seq<Metric>, i: nat)
    requires i < |ms|
    ensures Key(names, ms[i].labels) in Aggregate(fold, names, ms)
  {
    if i < |ms| - 1 {
      KeyOfSample(fold, names, ms[..|ms| - 1], i);
    }
  }

  lemma {:induction false} SampleOfKey(fold: (real, real) -> real, names: seq<string>, ms: seq<Metric>, key: string)
    requires key in Aggregate(fold, names, ms)
    ensures exists i :: 0 <= i < |ms| && Key(names, ms[i].labels) == key
  {
    var front, last := ms[..|ms| - 1], ms[|ms| - 1];
    if Key(names, last.labels) != key {
      SampleOfKey(fold, names, front, key);
      var i :| 0 <= i < |front| && Key(names, front[i].labels) == key;
      assert ms[i] == front[i];
    }
  }

  /** The two loops of the source; the second one ranges over the map in any order. */
  method CollectGeneric(fold: (real, real) -> real, names: seq<string>, ms: seq<Metric>)
    returns (out: seq<Sample>, keys: seq<string>)
    ensures Distinct(keys) && (forall key :: key in keys <==> key in Aggregate(fold, names, ms))
    ensures |out| == |keys|
    ensures forall i :: 0 <= i < |out| ==>
              keys[i] in Aggregate(fold, names, ms) &&
              out[i] == Sample(Emitted(keys[i]), Aggregate(fold, names, ms)[keys[i]])
  {
    var values: map<string, real> := map[];
    for i := 0 to |ms|
      invariant values == Aggregate(fold, names, ms[..i])
    {
      var key := GetLabelKey(names, ms[i].labels);
      var current := if key in values then values[key] else 0.0;
      values := values[key := fold(current, ms[i].value)];
      assert ms[..i + 1][..i] == ms[..i];
    }
    assert ms[..|ms|] == ms;
    out, keys := [], [];
    var left := values.Keys;
    while left != {}
      invariant left <= values.Keys && Distinct(keys) && |out| == |keys|
      invariant forall key :: key in keys <==> key in values && key !in left
      invariant forall i :: 0 <= i < |out| ==>
                  keys[i] in values && out[i] == Sample(Emitted(keys[i]), values[keys[i]])
      decreases left
    {
      var key :| key in left;
      var labels := PrepareLabelValues(Split(key));
      out, keys := out + [Sample(labels, values[key])], keys + [key];
      left := left - {key};
    }
  }
}
