/** The merge of the families that the workers expose: each worker's scrape is merged
    under a mutex as a whole, in whatever order the scrapes finish. */
module Scraper {
  import opened Basics
  import opened Folds
  import opened LabelKeys
  import Collector
  import Histogram

  datatype Family<M> = Family(name: string, metrics: seq<M>)

  function MergeFamily<M>(merged: map<string, Family<M>>, f: Family<M>): map<string, Family<M>> {
    if f.name in merged then merged[f.name := Family(f.name, merged[f.name].metrics + f.metrics)]
    else merged[f.name := f]
  }

  function MergeScrape<M>(merged: map<string, Family<M>>, scrape: seq<Family<M>>): map<string, Family<M>> {
    if scrape == [] then merged
    else MergeFamily(MergeScrape(merged, scrape[..|scrape| - 1]), scrape[|scrape| - 1])
  }

  function MergeAll<M>(scrapes: seq<seq<Family<M>>>): map<string, Family<M>> {
    if scrapes == [] then map[]
    else MergeScrape(MergeAll(scrapes[..|scrapes| - 1]), scrapes[|scrapes| - 1])
  }

  /** The samples that one scrape holds for a family, in order. */
  function Samples<M>(scrape: seq<Family<M>>, name: string): seq<M> {
    if scrape == [] then []
    else
      Samples(scrape[..|scrape| - 1], name) +
      if scrape[|scrape| - 1].name == name then scrape[|scrape| - 1].metrics else []
  }

  /** A family contributes its samples under its own name only, and families add up. */
  lemma {:induction false} SamplesAddUp<M>(scrape: seq<Family<M>>, more: seq<Family<M>>, name: string)
    ensures Samples(scrape + more, name) == Samples(scrape, name) + Samples(more, name)
  {
    if more == [] {
      assert scrape + more == scrape;
      assert Samples(scrape, name) + [] == Samples(scrape, name);
    } else {
      var front, last := more[..|more| - 1], more[|more| - 1];
      SamplesAddUp(scrape, front, name);
      assert scrape + more == (scrape + front) + [last];
      assert ((scrape + front) + [last])[..|scrape + front|] == scrape + front;
    }
  }

  lemma SamplesOfOne<M>(f: Family<M>, name: string)
    ensures Samples([f], name) == if f.name == name then f.metrics else []
  {
    assert [f][..0] == [];
  }

  function Merged<M>(merged: map<string, Family<M>>, name: string): seq<M> {
    if name in merged then merged[name].metrics else []
  }

  lemma MergeOne<M>(merged: map<string, Family<M>>, f: Family<M>, name: string)
    ensures Merged(MergeFamily(merged, f), name) == Merged(merged, name) + if f.name == name then f.metrics else []
  {
    assert [] + f.metrics == f.metrics;
  }

  lemma SamplesStep<M>(before: seq<M>, front: seq<Family<M>>, last: Family<M>, name: string)
    ensures before + Samples(front + [last], name) ==
            before + Samples(front, name) + if last.name == name then last.metrics else []
  {
    assert (front + [last])[..|front|] == front;
  }

  lemma {:induction false} MergeAppends<M>(merged: map<string, Family<M>>, scrape: seq<Family<M>>, name: string)
    ensures Merged(MergeScrape(merged, scrape), name) == Merged(merged, name) + Samples(scrape, name)
  {
    if scrape == [] {
      assert Merged(merged, name) + [] == Merged(merged, name);
    } else {
      var front, last := scrape[..|scrape| - 1], scrape[|scrape| - 1];
      MergeAppends(merged, front, name);
      MergeOne(MergeScrape(merged, front), last, name);
      SamplesStep(Merged(merged, name), front, last, name);
      assert front + [last] == scrape;
    }
  }

  /** The samples of all scrapes, as a bag. */
  function Bag<M>(scrapes: seq<seq<Family<M>>>, name: string): multiset<M> {
    if scrapes == [] then multiset{}
    else Bag(scrapes[..|scrapes| - 1], name) + multiset(Samples(scrapes[|scrapes| - 1], name))
  }

  /** Merging loses and doubles no sample. */
  lemma {:induction false} MergeKeepsSamples<M>(scrapes: seq<seq<Family<M>>>, name: string)
    ensures multiset(Merged(MergeAll(scrapes), name)) == Bag(scrapes, name)
  {
    if scrapes != [] {
      var front, last := scrapes[..|scrapes| - 1], scrapes[|scrapes| - 1];
      MergeKeepsSamples(front, name);
      MergeAppends(MergeAll(front), last, name);
    }
  }

  lemma {:induction false} BagIsFold<M>(op: (multiset<M>, seq<Family<M>>) -> multiset<M>,
                                        scrapes: seq<seq<Family<M>>>, name: string)
    requires forall bag, scrape :: op(bag, scrape) == bag + multiset(Samples(scrape, name))
    ensures Bag(scrapes, name) == Fold(op, multiset{}, scrapes)
  {
    if scrapes != [] {
      BagIsFold(op, scrapes[..|scrapes| - 1], name);
    }
  }

  lemma SumsCommute<M>(v: multiset<M>, x: multiset<M>, y: multiset<M>)
    ensures v + x + y == v + y + x
  {
  }

  /** The merged samples are the same bag in whatever order the workers finish. */
  lemma MergeOrderIndependent<M(!new)>(scrapes: seq<seq<Family<M>>>, others: seq<seq<Family<M>>>, name: string)
    requires multiset(scrapes) == multiset(others)
    ensures multiset(Merged(MergeAll(scrapes), name)) == multiset(Merged(MergeAll(others), name))
  {
    var op := (bag: multiset<M>, scrape: seq<Family<M>>) => bag + multiset(Samples(scrape, name));
    forall v: multiset<M>, x: seq<Family<M>>, y: seq<Family<M>> ensures op(op(v, x), y) == op(op(v, y), x) {
      SumsCommute(v, multiset(Samples(x, name)), multiset(Samples(y, name)));
    }
    BagIsFold(op, scrapes, name);
    BagIsFold(op, others, name);
    FoldPermutation(op, multiset{}, scrapes, others);
    MergeKeepsSamples(scrapes, name);
    MergeKeepsSamples(others, name);
  }

  /** Hence so is every counter that is exposed, for a given list of label names. */
  lemma CountersOrderIndependent(scrapes: seq<seq<Family<Collector.Metric>>>,
                                 others: seq<seq<Family<Collector.Metric>>>, name: string, names: seq<string>)
    requires multiset(scrapes) == multiset(others)
    ensures Collector.Aggregate(Collector.AddTo, names, Merged(MergeAll(scrapes), name)) ==
            Collector.Aggregate(Collector.AddTo, names, Merged(MergeAll(others), name))
  {
    MergeOrderIndependent(scrapes, others, name);
    Collector.CounterOrderIndependent(names, Merged(MergeAll(scrapes), name), Merged(MergeAll(others), name));
  }

  /** The collectors take the label names from the first sample of the merged family. */
  function LabelNames(labels: seq<Label>): seq<string> {
    seq(|labels|, i requires 0 <= i < |labels| => labels[i].name)
  }

  /** The names of the labels, one for each, in order. */
  lemma NamesInOrder(labels: seq<Label>, i: nat)
    ensures |LabelNames(labels)| == |labels|
    ensures i < |labels| ==> LabelNames(labels)[i] == labels[i].name
  {
  }

  function NamesOf(ms: seq<Collector.Metric>): Option<seq<string>> {
    if ms == [] then None else Some(LabelNames(ms[0].labels))
  }

  function FirstNames(ms: seq<Collector.Metric>): seq<string> {
    if NamesOf(ms).Some? then NamesOf(ms).value else []
  }

  /** The label names with which a worker's sample would come first. */
  function Offers(name: string): seq<Family<Collector.Metric>> -> Option<seq<string>> {
    (scrape: seq<Family<Collector.Metric>>) => NamesOf(Samples(scrape, name))
  }

  lemma {:induction false} NamesAreFirst(scrapes: seq<seq<Family<Collector.Metric>>>, name: string)
    ensures NamesOf(Merged(MergeAll(scrapes), name)) == First(Offers(name), scrapes)
  {
    if scrapes != [] {
      var front, last := scrapes[..|scrapes| - 1], scrapes[|scrapes| - 1];
      NamesAreFirst(front, name);
      MergeAppends(MergeAll(front), last, name);
    }
  }

  /** The exposed label names are those of the first merged sample, and with distinct names
      its own values are its label values. */
  lemma FirstSampleKeepsLabels(ms: seq<Collector.Metric>)
    requires ms != []
    requires forall i, j | 0 <= i < |ms[0].labels| && 0 <= j < |ms[0].labels| ::
               ms[0].labels[i].name == ms[0].labels[j].name ==> i == j
    ensures |FirstNames(ms)| == |ms[0].labels|
    ensures forall i :: 0 <= i < |ms[0].labels| ==> FirstNames(ms)[i] == ms[0].labels[i].name
    ensures forall i :: 0 <= i < |ms[0].labels| ==> Vector(FirstNames(ms), ms[0].labels)[i] == ms[0].labels[i].value
  {
    VectorOfOwnNames(ms[0].labels, FirstNames(ms));
  }

  /** What is exposed for a counter family: its label names, and the counter of each group. */
  datatype Exposed = Exposed(names: seq<string>, values: map<string, real>)

  function ExposedCounters(scrapes: seq<seq<Family<Collector.Metric>>>, name: string): Exposed {
    var ms := Merged(MergeAll(scrapes), name);
    Exposed(FirstNames(ms), Collector.Aggregate(Collector.AddTo, FirstNames(ms), ms))
  }

  /** Every merged sample is in a group that is exposed, under the exposed label names. */
  lemma ExposedKeepsSamples(scrapes: seq<seq<Family<Collector.Metric>>>, name: string, i: nat)
    requires i < |Merged(MergeAll(scrapes), name)|
    ensures var exposed := ExposedCounters(scrapes, name);
            Key(exposed.names, Merged(MergeAll(scrapes), name)[i].labels) in exposed.values
  {
    var ms := Merged(MergeAll(scrapes), name);
    Collector.KeyOfSample(Collector.AddTo, FirstNames(ms), ms, i);
  }

  lemma AgreeingNamesExpose(scrapes: seq<seq<Family<Collector.Metric>>>,
                            others: seq<seq<Family<Collector.Metric>>>, name: string)
    requires Agree(Offers(name), scrapes) && multiset(others) == multiset(scrapes)
    ensures ExposedCounters(others, name) == ExposedCounters(scrapes, name)
  {
    NamesAreFirst(scrapes, name);
    NamesAreFirst(others, name);
    FirstOfAgreeing(Offers(name), scrapes, others);
    CountersOrderIndependent(scrapes, others, name, FirstNames(Merged(MergeAll(scrapes), name)));
  }

  /** An order in which the worker `i` comes first. */
  lemma MovedNamesExpose(scrapes: seq<seq<Family<Collector.Metric>>>, name: string, i: nat)
    returns (others: seq<seq<Family<Collector.Metric>>>)
    requires i < |scrapes| && Offers(name)(scrapes[i]).Some?
    ensures multiset(others) == multiset(scrapes)
    ensures Some(ExposedCounters(others, name).names) == Offers(name)(scrapes[i])
  {
    others := [scrapes[i]] + Drop(scrapes, i);
    FirstOfMoved(Offers(name), scrapes, i);
    NamesAreFirst(others, name);
  }

  lemma DifferentNamesExpose(scrapes: seq<seq<Family<Collector.Metric>>>, name: string, i: nat, j: nat)
    requires i < |scrapes| && j < |scrapes| && Offers(name)(scrapes[i]).Some? && Offers(name)(scrapes[j]).Some?
    requires Offers(name)(scrapes[i]) != Offers(name)(scrapes[j])
    ensures exists others :: multiset(others) == multiset(scrapes) &&
                             ExposedCounters(others, name) != ExposedCounters(scrapes, name)
  {
    var a := MovedNamesExpose(scrapes, name, i);
    var b := MovedNamesExpose(scrapes, name, j);
    assert ExposedCounters(a, name).names != ExposedCounters(b, name).names;
  }

  /** The exposed counters do not depend on which worker finishes first exactly when the
      first samples of all workers that report the family list the same label names. */
  lemma ExposedCountersOrderIndependentIff(scrapes: seq<seq<Family<Collector.Metric>>>, name: string)
    ensures (forall others :: multiset(others) == multiset(scrapes) ==>
               ExposedCounters(others, name) == ExposedCounters(scrapes, name)) <==>
            Agree(Offers(name), scrapes)
  {
    if Agree(Offers(name), scrapes) {
      forall others | multiset(others) == multiset(scrapes)
        ensures ExposedCounters(others, name) == ExposedCounters(scrapes, name)
      {
        AgreeingNamesExpose(scrapes, others, name);
      }
    } else {
      var i, j :| 0 <= i < |scrapes| && 0 <= j < |scrapes| && Offers(name)(scrapes[i]).Some? &&
                  Offers(name)(scrapes[j]).Some? && Offers(name)(scrapes[i]) != Offers(name)(scrapes[j]);
      DifferentNamesExpose(scrapes, name, i, j);
    }
  }

  /** What a worker's scrape sets the gauge of the group `key` to. */
  function SetsGauge(name: string, names: seq<string>, key: string): seq<Family<Collector.Metric>> -> Option<real> {
    (scrape: seq<Family<Collector.Metric>>) => Last(Collector.Sets(names, key), Samples(scrape, name))
  }

  lemma {:induction false} GaugeIsLastScrape(scrapes: seq<seq<Family<Collector.Metric>>>, name: string,
                                             names: seq<string>, key: string)
    ensures Last(Collector.Sets(names, key), Merged(MergeAll(scrapes), name)) ==
            Last(SetsGauge(name, names, key), scrapes)
  {
    if scrapes != [] {
      var front, last := scrapes[..|scrapes| - 1], scrapes[|scrapes| - 1];
      GaugeIsLastScrape(front, name, names, key);
      MergeAppends(MergeAll(front), last, name);
      LastOfConcat(Collector.Sets(names, key), Merged(MergeAll(front), name), Samples(last, name));
    }
  }

  function Gauge(scrapes: seq<seq<Family<Collector.Metric>>>, name: string,
                 names: seq<string>, key: string): Option<real>
  {
    var values := Collector.Aggregate(Collector.Replace, names, Merged(MergeAll(scrapes), name));
    if key in values then Some(values[key]) else None
  }

  /** The gauge of a group does not depend on which worker finishes last exactly when all
      workers that report the group end with the same value. */
  lemma ExposedGaugeOrderIndependentIff(scrapes: seq<seq<Family<Collector.Metric>>>, name: string,
                                        names: seq<string>, key: string)
    ensures (forall others :: multiset(others) == multiset(scrapes) ==>
               Gauge(others, name, names, key) == Gauge(scrapes, name, names, key)) <==>
            Agree(SetsGauge(name, names, key), scrapes)
  {
    forall others ensures Gauge(others, name, names, key) == Last(SetsGauge(name, names, key), others) {
      GaugeIsLastScrape(others, name, names, key);
      Collector.GaugeIsLastSet(names, Merged(MergeAll(others), name), key);
    }
    OrderFreeIffAgree(SetsGauge(name, names, key), scrapes);
    if Agree(SetsGauge(name, names, key), scrapes) {
      assert OrderFree(SetsGauge(name, names, key), scrapes);
    } else {
      var others :| multiset(others) == multiset(scrapes) &&
                    Last(SetsGauge(name, names, key), others) != Last(SetsGauge(name, names, key), scrapes);
      assert Gauge(others, name, names, key) != Gauge(scrapes, name, names, key);
    }
  }

  /** The same for the finite buckets of histograms with separated bounds. */
  lemma HistogramsOrderIndependent(scrapes: seq<seq<Family<Histogram.Metric>>>,
                                   others: seq<seq<Family<Histogram.Metric>>>, name: string, names: seq<string>,
                                   key: string, x: real)
    requires multiset(scrapes) == multiset(others)
    requires Histogram.Separated(Histogram.GroupBuckets(names, Merged(MergeAll(scrapes), name), key))
    ensures var a := Histogram.Get(Histogram.Aggregate(names, Merged(MergeAll(scrapes), name)), key);
            var b := Histogram.Get(Histogram.Aggregate(names, Merged(MergeAll(others), name)), key);
            var p, q := Histogram.ToMap(a.buckets), Histogram.ToMap(b.buckets);
            a.count == b.count && a.sum == b.sum &&
            (Histogram.Fin(x) in p <==> Histogram.Fin(x) in q) &&
            (Histogram.Fin(x) in p ==> p[Histogram.Fin(x)] == q[Histogram.Fin(x)])
  {
    MergeOrderIndependent(scrapes, others, name);
    Histogram.HistogramOrderIndependent(names, Merged(MergeAll(scrapes), name), Merged(MergeAll(others), name), key, x);
  }

  /** The body that each goroutine runs under the mutex. */
  method Merge<M>(merged: map<string, Family<M>>, scrape: seq<Family<M>>) returns (result: map<string, Family<M>>)
    ensures result == MergeScrape(merged, scrape)
    ensures forall name :: Merged(result, name) == Merged(merged, name) + Samples(scrape, name)
  {
    result := merged;
    for i := 0 to |scrape|
      invariant result == MergeScrape(merged, scrape[..i])
    {
      var f := scrape[i];
      if f.name in result {
        result := result[f.name := Family(f.name, result[f.name].metrics + f.metrics)];
      } else {
        result := result[f.name := f];
      }
      assert scrape[..i + 1][..i] == scrape[..i];
    }
    assert scrape[..|scrape|] == scrape;
    forall name ensures Merged(result, name) == Merged(merged, name) + Samples(scrape, name) {
      MergeAppends(merged, scrape, name);
    }
  }
}
