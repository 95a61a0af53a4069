/** The insertion-ordered set of workers that the balancer's list stands for. */
module WorkerSet {

  /** Two objects may carry the same name; the balancer only looks at the name. */
  datatype Worker = Worker(id: nat, name: string)

  /** A request to the loop; `extra` is the spare room that a growing append reserves. */
  datatype Op = Add(w: Worker, extra: nat) | Remove(w: Worker)

  predicate Has(ws: seq<Worker>, name: string) {
    exists i :: 0 <= i < |ws| && ws[i].name == name
  }

  function Without(ws: seq<Worker>, name: string): seq<Worker> {
    if ws == [] then []
    else (if ws[0].name == name then [] else [ws[0]]) + Without(ws[1..], name)
  }

  function Effect(ws: seq<Worker>, op: Op): seq<Worker> {
    match op
    case Add(w, _) => if Has(ws, w.name) then ws else ws + [w]
    case Remove(w) => Without(ws, w.name)
  }

  /** The set obtained by replaying the requests. */
  function Replay(ops: seq<Op>): seq<Worker> {
    if ops == [] then [] else Effect(Replay(ops[..|ops| - 1]), ops[|ops| - 1])
  }

  /** The last request that names `name` is an addition. */
  predicate LastAdded(ops: seq<Op>, name: string) {
    ops != [] &&
    var last := ops[|ops| - 1];
    if last.w.name == name then last.Add? else LastAdded(ops[..|ops| - 1], name)
  }

  lemma HasCons(w: Worker, rest: seq<Worker>, name: string)
    ensures Has([w] + rest, name) <==> w.name == name || Has(rest, name)
  {
    var ws := [w] + rest;
    assert ws[0] == w;
    if j :| 0 <= j < |rest| && rest[j].name == name {
      assert ws[j + 1].name == name;
    }
    if j :| 0 <= j < |ws| && ws[j].name == name && j > 0 {
      assert rest[j - 1].name == name;
    }
  }

  lemma {:induction false} WithoutHas(ws: seq<Worker>, name: string, other: string)
    ensures Has(Without(ws, name), other) <==> Has(ws, other) && other != name
  {
    if ws != [] {
      WithoutHas(ws[1..], name, other);
      assert ws == [ws[0]] + ws[1..];
      HasCons(ws[0], ws[1..], other);
      HasCons(ws[0], Without(ws[1..], name), other);
      assert [] + Without(ws[1..], name) == Without(ws[1..], name);
    }
  }

  /** A name is in the set exactly when the last request about it was an addition. */
  lemma {:induction false} MemberIffLastAdded(ops: seq<Op>, name: string)
    ensures Has(Replay(ops), name) <==> LastAdded(ops, name)
  {
    if ops != [] {
      var front, last := ops[..|ops| - 1], ops[|ops| - 1];
      MemberIffLastAdded(front, name);
      var ws := Replay(front);
      match last {
        case Add(w, _) =>
          assert forall i :: 0 <= i < |ws| ==> (ws + [w])[i] == ws[i];
          assert (ws + [w])[|ws|] == w;
        case Remove(w) => WithoutHas(ws, w.name, name);
      }
    }
  }

  ghost predicate DistinctNames(ws: seq<Worker>) {
    forall i, j | 0 <= i < |ws| && 0 <= j < |ws| :: ws[i].name == ws[j].name ==> i == j
  }

  lemma {:induction false} WithoutOthers(ws: seq<Worker>, name: string)
    requires !Has(ws, name)
    ensures Without(ws, name) == ws
  {
    if ws != [] {
      assert forall i :: 0 <= i < |ws[1..]| ==> ws[1..][i] == ws[i + 1];
      WithoutOthers(ws[1..], name);
      assert ws == [ws[0]] + ws[1..];
    }
  }

  lemma {:induction false} WithoutAt(ws: seq<Worker>, name: string, i: nat)
    requires DistinctNames(ws) && i < |ws| && ws[i].name == name
    ensures Without(ws, name) == ws[..i] + ws[i + 1..]
  {
    assert forall j :: 0 <= j < |ws[1..]| ==> ws[1..][j] == ws[j + 1];
    if i == 0 {
      WithoutOthers(ws[1..], name);
      assert ws[..0] + ws[1..] == ws[1..];
    } else {
      WithoutAt(ws[1..], name, i - 1);
      assert ws[..i] == [ws[0]] + ws[1..][..i - 1];
      assert ws[i + 1..] == ws[1..][i..];
    }
  }

  // -------------------------------------------------------------- insertion order

  /** The request `k` put a worker on the list that is still there: its name was not
      listed before, and was not removed since. */
  ghost predicate Listing(ops: seq<Op>, k: nat)
    requires k < |ops|
  {
    && ops[k].Add? && !LastAdded(ops[..k], ops[k].w.name)
    && (forall j :: k < j < |ops| && ops[j].Remove? ==> ops[j].w.name != ops[k].w.name)
  }

  /** The workers of these requests among the first `n`, in order. */
  ghost function Listed(ops: seq<Op>, n: nat): seq<Worker>
    requires n <= |ops|
  {
    if n == 0 then [] else Listed(ops, n - 1) + if Listing(ops, n - 1) then [ops[n - 1].w] else []
  }

  lemma {:induction false} WithoutAppend(ws: seq<Worker>, w: Worker, name: string)
    ensures Without(ws + [w], name) == Without(ws, name) + if w.name == name then [] else [w]
  {
    if ws == [] {
      assert ws + [w] == [w] && [w][1..] == [];
    } else {
      WithoutAppend(ws[1..], w, name);
      assert (ws + [w])[1..] == ws[1..] + [w];
    }
  }

  lemma ListingStep(front: seq<Op>, last: Op, k: nat)
    requires k < |front|
    ensures Listing(front + [last], k) <==>
            Listing(front, k) && !(last.Remove? && last.w.name == front[k].w.name)
  {
    var ops := front + [last];
    assert ops[..k] == front[..k] && ops[|front|] == last;
    assert forall j :: 0 <= j < |front| ==> ops[j] == front[j];
  }

  lemma ListedUnfold(ops: seq<Op>, n: nat)
    requires n < |ops|
    ensures Listed(ops, n + 1) == if Listing(ops, n) then Listed(ops, n) + [ops[n].w] else Listed(ops, n)
  {
    assert Listed(ops, n) + [] == Listed(ops, n);
  }

  lemma {:induction false} ListedStep(front: seq<Op>, last: Op, n: nat)
    requires n <= |front|
    ensures Listed(front + [last], n) ==
            if last.Remove? then Without(Listed(front, n), last.w.name) else Listed(front, n)
  {
    if n > 0 {
      var m: nat := n - 1;
      ListedStep(front, last, m);
      ListingStep(front, last, m);
      ListedUnfold(front, m);
      ListedUnfold(front + [last], m);
      WithoutAppend(Listed(front, m), front[m].w, last.w.name);
      assert (front + [last])[m] == front[m];
      var ws := Without(Listed(front, m), last.w.name);
      assert ws + [] == ws;
    }
  }

  /** The set holds the workers of the requests that listed them and were not undone, in
      the order of these requests. */
  lemma {:induction false} ReplayIsInInsertionOrder(ops: seq<Op>)
    ensures Replay(ops) == Listed(ops, |ops|)
  {
    if ops != [] {
      var front, last := ops[..|ops| - 1], ops[|ops| - 1];
      assert ops == front + [last];
      ReplayIsInInsertionOrder(front);
      ListedStep(front, last, |front|);
      MemberIffLastAdded(front, last.w.name);
      assert Listed(ops, |front|) + [] == Listed(ops, |front|);
      assert Listed(ops, |ops|) == Listed(ops, |front|) + if Listing(ops, |front|) then [last.w] else [];
    }
  }
}
