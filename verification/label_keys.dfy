/** Group keys of the metrics aggregation: label values are joined with commas, and
    the key is split again when the group is emitted. */
module LabelKeys {

  datatype Label = Label(name: string, value: string)

  function Join(vs: seq<string>): string {
    if vs == [] then "" else if |vs| == 1 then vs[0] else vs[0] + "," + Join(vs[1..])
  }

  function Split(s: string): (parts: seq<string>)
    ensures |parts| >= 1
  {
    if s == "" then [""]
    else if s[0] == ',' then [""] + Split(s[1..])
    else var rest := Split(s[1..]); [[s[0]] + rest[0]] + rest[1..]
  }

  function Commas(s: string): nat {
    if s == "" then 0 else (if s[0] == ',' then 1 else 0) + Commas(s[1..])
  }

  function CommasIn(vs: seq<string>): nat {
    if vs == [] then 0 else Commas(vs[0]) + CommasIn(vs[1..])
  }

  predicate AllEmpty(vs: seq<string>) { forall i :: 0 <= i < |vs| ==> vs[i] == "" }

  /** The label values that are emitted for a group. */
  function Emitted(key: string): seq<string> {
    if AllEmpty(Split(key)) then [] else Split(key)
  }

  // ------------------------------------------------------------- join and split

  lemma {:induction false} CommasAppend(s: string, t: string)
    ensures Commas(s + t) == Commas(s) + Commas(t)
  {
    if s == "" {
      assert s + t == t;
    } else {
      CommasAppend(s[1..], t);
      assert (s + t)[1..] == s[1..] + t;
    }
  }

  lemma {:induction false} CommasOfJoin(vs: seq<string>)
    requires vs != []
    ensures Commas(Join(vs)) == CommasIn(vs) + |vs| - 1
  {
    if |vs| > 1 {
      CommasOfJoin(vs[1..]);
      CommasAppend(vs[0] + ",", Join(vs[1..]));
      CommasAppend(vs[0], ",");
    }
  }

  lemma {:induction false} SplitLength(s: string)
    ensures |Split(s)| == Commas(s) + 1 && CommasIn(Split(s)) == 0
  {
    if s != "" {
      SplitLength(s[1..]);
      var rest := Split(s[1..]);
      if s[0] == ',' {
        assert Split(s)[1..] == rest;
      } else {
        assert Split(s)[1..] == rest[1..];
        assert ([s[0]] + rest[0])[1..] == rest[0];
      }
    }
  }

  lemma {:induction false} JoinOfSplit(s: string)
    ensures Join(Split(s)) == s
  {
    if s != "" {
      JoinOfSplit(s[1..]);
      var rest := Split(s[1..]);
      if s[0] == ',' {
        assert Split(s)[1..] == rest;
      } else {
        assert Split(s)[1..] == rest[1..];
      }
    }
  }

  lemma {:induction false} SplitAtComma(s: string, t: string)
    requires Commas(s) == 0
    ensures Split(s + "," + t) == [s] + Split(t)
  {
    var all := s + "," + t;
    if s == "" {
      assert all[1..] == t;
    } else {
      SplitAtComma(s[1..], t);
      assert all[1..] == s[1..] + "," + t;
      assert [s[0]] + s[1..] == s;
    }
  }

  lemma {:induction false} SplitPlain(s: string)
    requires Commas(s) == 0
    ensures Split(s) == [s]
  {
    if s != "" {
      SplitPlain(s[1..]);
      assert [s[0]] + s[1..] == s;
    }
  }

  lemma {:induction false} SplitOfJoin(vs: seq<string>)
    requires vs != [] && CommasIn(vs) == 0
    ensures Split(Join(vs)) == vs
  {
    if |vs| == 1 {
      SplitPlain(vs[0]);
    } else {
      SplitOfJoin(vs[1..]);
      SplitAtComma(vs[0], Join(vs[1..]));
    }
  }

  /** Splitting the key of `k >= 1` values gives `k` plus the number of commas parts. */
  lemma PartsOfKey(vs: seq<string>)
    requires vs != []
    ensures |Split(Join(vs))| == |vs| + CommasIn(vs)
  {
    CommasOfJoin(vs);
    SplitLength(Join(vs));
  }

  /** The split gives the values back exactly when there are some and none has a comma. */
  lemma RoundTripIff(vs: seq<string>)
    ensures Split(Join(vs)) == vs <==> vs != [] && CommasIn(vs) == 0
  {
    if vs != [] {
      PartsOfKey(vs);
      if CommasIn(vs) == 0 {
        SplitOfJoin(vs);
      }
    }
  }

  /** The emitted values have the arity of the labels exactly when there are no labels,
      or no value has a comma and some value is not empty; then they are the values. */
  lemma EmittedArityIff(vs: seq<string>)
    ensures |Emitted(Join(vs))| == |vs| <==> vs == [] || (CommasIn(vs) == 0 && !AllEmpty(vs))
    ensures |Emitted(Join(vs))| == |vs| ==> Emitted(Join(vs)) == vs
  {
    if vs != [] {
      PartsOfKey(vs);
      RoundTripIff(vs);
    }
  }

  // -------------------------------------------------------------- unique keys

  lemma {:induction false} JoinConcat(xs: seq<string>, ys: seq<string>)
    requires xs != [] && ys != []
    ensures Join(xs + ys) == Join(xs) + "," + Join(ys)
  {
    if |xs| == 1 {
      assert (xs + ys)[1..] == ys;
    } else {
      JoinConcat(xs[1..], ys);
      assert (xs + ys)[1..] == xs[1..] + ys;
    }
  }

  lemma {:induction false} CommasInConcat(xs: seq<string>, ys: seq<string>)
    ensures CommasIn(xs + ys) == CommasIn(xs) + CommasIn(ys)
  {
    if xs == [] {
      assert xs + ys == ys;
    } else {
      CommasInConcat(xs[1..], ys);
      assert (xs + ys)[1..] == xs[1..] + ys;
    }
  }

  lemma RegroupBack(parts: seq<string>, i: nat)
    requires 0 < i < |parts|
    ensures Join(parts[..i] + [Join(parts[i..])]) == Join(parts)
  {
    assert parts == parts[..i] + parts[i..];
    JoinConcat(parts[..i], parts[i..]);
    JoinConcat(parts[..i], [Join(parts[i..])]);
  }

  lemma RegroupFront(parts: seq<string>, i: nat)
    requires 0 < i < |parts|
    ensures Join([Join(parts[..i])] + parts[i..]) == Join(parts)
  {
    assert parts == parts[..i] + parts[i..];
    JoinConcat(parts[..i], parts[i..]);
    JoinConcat([Join(parts[..i])], parts[i..]);
  }

  /** Comma-free parts can be grouped into fewer values in two different ways. */
  lemma TwoGroupings(parts: seq<string>, k: nat) returns (us: seq<string>, ws: seq<string>)
    requires 2 <= k < |parts| && CommasIn(parts) == 0
    ensures |us| == k && |ws| == k && us != ws
    ensures Join(us) == Join(parts) && Join(ws) == Join(parts)
  {
    var m := |parts| - k;
    var front, back := parts[..m + 1], parts[k - 1..];
    us := parts[..k - 1] + [Join(back)];
    ws := [Join(front)] + parts[m + 1..];
    RegroupBack(parts, k - 1);
    RegroupFront(parts, m + 1);
    CommasOfJoin(front);
    PartHasNoComma(parts);
    assert us[0] == parts[0] && Commas(us[0]) == 0;
    assert ws[0] == Join(front) && Commas(ws[0]) >= 1;
  }

  /** A value with a comma can be cut at another place, so that another vector of the
      same length gets the same key. */
  lemma {:induction false} KeyCollides(vs: seq<string>)
    requires |vs| >= 2 && CommasIn(vs) > 0
    ensures exists us :: |us| == |vs| && Join(us) == Join(vs) && us != vs
  {
    var parts := Split(Join(vs));
    PartsOfKey(vs);
    JoinOfSplit(Join(vs));
    SplitLength(Join(vs));
    var us, ws := TwoGroupings(parts, |vs|);
    assert us != vs || ws != vs;
  }

  lemma PartHasNoComma(parts: seq<string>)
    requires parts != [] && CommasIn(parts) == 0
    ensures Commas(parts[0]) == 0
  {
  }

  /** The key of a vector belongs to no other vector of its length exactly when it has
      at most one value, or no value has a comma. */
  lemma KeyUniqueIff(vs: seq<string>)
    ensures (forall us :: |us| == |vs| && Join(us) == Join(vs) ==> us == vs) <==>
            |vs| <= 1 || CommasIn(vs) == 0
  {
    if |vs| >= 2 && CommasIn(vs) > 0 {
      KeyCollides(vs);
    } else {
      forall us | |us| == |vs| && Join(us) == Join(vs) ensures us == vs {
        if |vs| >= 2 {
          CommasOfJoin(us);
          CommasOfJoin(vs);
          SplitOfJoin(us);
          SplitOfJoin(vs);
        } else if |vs| == 1 {
          assert us == [us[0]] && vs == [vs[0]];
        }
      }
    }
  }

  // ------------------------------------------------------------ labels of a sample

  /** The value of the first label called `name`, or empty. */
  function Lookup(labels: seq<Label>, name: string): string {
    if labels == [] then ""
    else if labels[0].name == name then labels[0].value
    else Lookup(labels[1..], name)
  }

  /** The first label of that name decides; without one the value is empty. */
  lemma {:induction false} LookupFirst(labels: seq<Label>, name: string, k: nat)
    requires k <= |labels| && forall j :: 0 <= j < k ==> labels[j].name != name
    ensures k < |labels| && labels[k].name == name ==> Lookup(labels, name) == labels[k].value
    ensures k == |labels| ==> Lookup(labels, name) == ""
  {
    if k > 0 {
      LookupFirst(labels[1..], name, k - 1);
    }
  }

  function Vector(names: seq<string>, labels: seq<Label>): (vs: seq<string>)
    ensures |vs| == |names|
  {
    seq(|names|, i requires 0 <= i < |names| => Lookup(labels, names[i]))
  }

  /** The vector has, at the position of a label name, the value of the first label of that
      name, or the empty string. */
  lemma VectorHoldsValues(names: seq<string>, labels: seq<Label>, i: nat, k: nat)
    requires i < |names| && k <= |labels| && forall j :: 0 <= j < k ==> labels[j].name != names[i]
    ensures k < |labels| && labels[k].name == names[i] ==> Vector(names, labels)[i] == labels[k].value
    ensures k == |labels| ==> Vector(names, labels)[i] == ""
  {
    LookupFirst(labels, names[i], k);
  }

  /** One label for each name, in order: the vector is their values. */
  lemma VectorOfOwnNames(labels: seq<Label>, names: seq<string>)
    requires |names| == |labels| && forall i :: 0 <= i < |names| ==> names[i] == labels[i].name
    requires forall i, j | 0 <= i < |names| && 0 <= j < |names| :: names[i] == names[j] ==> i == j
    ensures forall i :: 0 <= i < |labels| ==> Vector(names, labels)[i] == labels[i].value
  {
    forall i | 0 <= i < |labels| ensures Vector(names, labels)[i] == labels[i].value {
      VectorHoldsValues(names, labels, i, i);
    }
  }

  function Key(names: seq<string>, labels: seq<Label>): string {
    Join(Vector(names, labels))
  }

  /** The label values can be emitted under their own names; otherwise the client
      library is given a wrong number of them. */
  predicate Emittable(vs: seq<string>) {
    vs == [] || (CommasIn(vs) == 0 && !AllEmpty(vs))
  }

  /** Samples with emittable label values share a group exactly when they have the same
      label values, and the group is emitted under these values. */
  lemma GroupsAreLabelClasses(names: seq<string>, a: seq<Label>, b: seq<Label>)
    requires Emittable(Vector(names, a)) && Emittable(Vector(names, b))
    ensures Key(names, a) == Key(names, b) <==> Vector(names, a) == Vector(names, b)
    ensures Emitted(Key(names, a)) == Vector(names, a)
  {
    EmittedArityIff(Vector(names, a));
    EmittedArityIff(Vector(names, b));
  }

  /** The nested loops with their early break. */
  method GetLabelKey(names: seq<string>, labels: seq<Label>) returns (key: string)
    ensures key == Key(names, labels) == Join(Vector(names, labels))
  {
    var values := seq(|names|, _ => "");
    for i := 0 to |names|
      invariant |values| == |names|
      invariant forall j :: 0 <= j < |names| ==> values[j] == if j < i then Lookup(labels, names[j]) else ""
    {
      var k := 0;
      while k < |labels|
        invariant k <= |labels|
        invariant Lookup(labels, names[i]) == Lookup(labels[k..], names[i])
        invariant values[i] == ""
        invariant forall j :: 0 <= j < |names| && j != i ==> values[j] == if j < i then Lookup(labels, names[j]) else ""
        invariant |values| == |names|
      {
        if labels[k].name == names[i] {
          values := values[i := labels[k].value];
          break;
        }
        k := k + 1;
      }
    }
    assert values == Vector(names, labels);
    key := Join(values);
  }

  /** The scan for a value that is not empty. */
  method PrepareLabelValues(parts: seq<string>) returns (values: seq<string>)
    ensures values == if AllEmpty(parts) then [] else parts
  {
    var allEmpty := true;
    for i := 0 to |parts|
      invariant allEmpty && AllEmpty(parts[..i])
    {
      if parts[i] != "" {
        allEmpty := false;
        break;
      }
      assert parts[..i + 1] == parts[..i] + [parts[i]];
    }
    if allEmpty {
      assert parts[..|parts|] == parts;
      return [];
    }
    values := parts;
  }
}
