/** The balancer's worker list, kept in a slice that `Next` reads without a lock while
    `append` and `slices.Delete` work in place. */
module LoadBalance {
  import opened Basics
  import opened WorkerSet
  import opened Uint64
  import RoundRobin

  // ------------------------------------------------------- slices over arrays

  /** A slice is a backing array and a length; its capacity is the array's length. */
  datatype Slice = Slice(block: nat, len: nat)

  datatype State = State(heap: seq<seq<Option<Worker>>>, cur: Slice, names: set<string>)

  function Init(): State { State([[]], Slice(0, 0), {}) }

  ghost predicate Wf(s: State) {
    s.cur.block == |s.heap| - 1 && s.cur.len <= |s.heap[s.cur.block]|
  }

  function Backing(s: State): seq<Option<Worker>>
    requires Wf(s)
  {
    s.heap[s.cur.block]
  }

  function Nones(n: nat): seq<Option<Worker>> { seq(n, _ => None) }

  /** `append` writes in place when there is room, and copies to a larger array otherwise. */
  function OnAdd(s: State, w: Worker, extra: nat): (t: State)
    requires Wf(s)
    ensures Wf(t)
  {
    var a, n := Backing(s), s.cur.len;
    if w.name in s.names then s
    else if n < |a| then
      State(s.heap[s.cur.block := a[n := Some(w)]], Slice(s.cur.block, n + 1), s.names + {w.name})
    else
      State(s.heap + [a + [Some(w)] + Nones(extra)], Slice(|s.heap|, n + 1), s.names + {w.name})
  }

  /** The index of the first of the first `n` slots that holds `name`, or `n`. */
  function Find(a: seq<Option<Worker>>, n: nat, name: string): (i: nat)
    requires n <= |a|
    ensures i <= n && (i < n ==> a[i].Some? && a[i].value.name == name)
    ensures forall j :: 0 <= j < i ==> a[j].None? || a[j].value.name != name
  {
    if n == 0 then 0
    else
      var i := Find(a, n - 1, name);
      if i < n - 1 || (a[n - 1].Some? && a[n - 1].value.name == name) then i else n
  }

  /** The array after `slices.Delete` of slot `i` from its first `n` slots: the tail
      moves down and the last slot is cleared. */
  function Deleted(a: seq<Option<Worker>>, n: nat, i: nat): (b: seq<Option<Worker>>)
    requires i < n <= |a|
    ensures |b| == |a|
    ensures forall k :: 0 <= k < |a| ==>
              b[k] == if i <= k < n - 1 then a[k + 1] else if k == n - 1 then None else a[k]
  {
    a[..i] + a[i + 1..n] + [None] + a[n..]
  }

  /** An array in the middle of that delete: each slot holds what it held, or what the
      next slot of the list held; none was cleared. */
  predicate Shifting(a: seq<Option<Worker>>, n: nat, i: nat, b: seq<Option<Worker>>)
    requires i < n <= |a|
  {
    |b| == |a| &&
    forall k :: 0 <= k < |a| ==> b[k] == a[k] || (i <= k < n - 1 && b[k] == a[k + 1])
  }

  /** A scan that misses would publish a nil slice. */
  function OnRemove(s: State, w: Worker): (t: State)
    requires Wf(s)
    ensures Wf(t)
  {
    var a, n := Backing(s), s.cur.len;
    var i := Find(a, n, w.name);
    if w.name !in s.names then s
    else if i < n then
      State(s.heap[s.cur.block := Deleted(a, n, i)], Slice(s.cur.block, n - 1), s.names - {w.name})
    else
      State(s.heap + [[]], Slice(|s.heap|, 0), s.names - {w.name})
  }

  function Apply(s: State, op: Op): (t: State)
    requires Wf(s)
    ensures Wf(t)
  {
    match op case Add(w, extra) => OnAdd(s, w, extra) case Remove(w) => OnRemove(s, w)
  }

  function Exec(s: State, ops: seq<Op>): (t: State)
    requires Wf(s)
    ensures Wf(t)
  {
    if ops == [] then s else Apply(Exec(s, ops[..|ops| - 1]), ops[|ops| - 1])
  }

  // -------------------------------------------------------- the list is the set

  /** The published slice holds `ws`, and the name set agrees with it. */
  ghost predicate Publishes(s: State, ws: seq<Worker>) {
    && Wf(s) && s.cur.len == |ws|
    && (forall i :: 0 <= i < |ws| ==> Backing(s)[i] == Some(ws[i]))
    && DistinctNames(ws)
    && (forall name :: name in s.names <==> Has(ws, name))
  }

  lemma AddPublishes(s: State, ws: seq<Worker>, w: Worker, extra: nat)
    requires Publishes(s, ws)
    ensures Publishes(OnAdd(s, w, extra), Effect(ws, Add(w, extra)))
  {
    var t, vs := OnAdd(s, w, extra), Effect(ws, Add(w, extra));
    if !Has(ws, w.name) {
      assert vs == ws + [w];
      forall name ensures name in t.names <==> Has(vs, name) {
        assert vs[|ws|] == w;
        assert forall i :: 0 <= i < |ws| ==> vs[i] == ws[i];
      }
    }
  }

  lemma FindsWorker(s: State, ws: seq<Worker>, name: string)
    requires Publishes(s, ws)
    ensures var i := Find(Backing(s), s.cur.len, name);
            if Has(ws, name) then i < |ws| && ws[i].name == name else i == |ws|
  {
    var i := Find(Backing(s), s.cur.len, name);
    if i < |ws| {
      assert Backing(s)[i] == Some(ws[i]);
    }
    if Has(ws, name) {
      var j :| 0 <= j < |ws| && ws[j].name == name;
      assert Backing(s)[j] == Some(ws[j]);
    }
  }

  lemma DeletePublishes(s: State, ws: seq<Worker>, w: Worker)
    requires Publishes(s, ws) && w.name in s.names
    ensures Publishes(OnRemove(s, w), Without(ws, w.name))
  {
    var t, vs := OnRemove(s, w), Without(ws, w.name);
    FindsWorker(s, ws, w.name);
    var i := Find(Backing(s), s.cur.len, w.name);
    WithoutAt(ws, w.name, i);
    forall k | 0 <= k < |vs| ensures Backing(t)[k] == Some(vs[k]) {
      assert vs[k] == if k < i then ws[k] else ws[k + 1];
    }
    forall name ensures name in t.names <==> Has(vs, name) {
      WithoutHas(ws, w.name, name);
    }
  }

  lemma RemovePublishes(s: State, ws: seq<Worker>, w: Worker)
    requires Publishes(s, ws)
    ensures Publishes(OnRemove(s, w), Effect(ws, Remove(w)))
  {
    if w.name in s.names {
      DeletePublishes(s, ws, w);
    } else {
      WithoutOthers(ws, w.name);
    }
  }

  /** In every run the published slice is the replayed set: distinct names, the name
      set is exactly the names in the slice, and every slot holds a worker. */
  lemma {:induction false} ListIsReplay(ops: seq<Op>)
    ensures Publishes(Exec(Init(), ops), Replay(ops))
  {
    if ops != [] {
      var front, last := ops[..|ops| - 1], ops[|ops| - 1];
      ListIsReplay(front);
      match last {
        case Add(w, extra) => AddPublishes(Exec(Init(), front), Replay(front), w, extra);
        case Remove(w) => RemovePublishes(Exec(Init(), front), Replay(front), w);
      }
    }
  }

  /** The scan of a removal never misses its target. */
  lemma RemovalFindsItsTarget(ops: seq<Op>, w: Worker)
    ensures var s := Exec(Init(), ops);
            w.name in s.names <==> Find(Backing(s), s.cur.len, w.name) < s.cur.len
  {
    ListIsReplay(ops);
    FindsWorker(Exec(Init(), ops), Replay(ops), w.name);
  }

  /** The published slots hold workers, and a recorded name is among them. */
  ghost predicate Scannable(s: State, name: string) {
    && Wf(s)
    && (forall i :: 0 <= i < s.cur.len ==> Backing(s)[i].Some?)
    && (name in s.names ==> Find(Backing(s), s.cur.len, name) < s.cur.len)
  }

  lemma RunIsScannable(ops: seq<Op>, w: Worker)
    ensures Scannable(Exec(Init(), ops), w.name)
  {
    ListIsReplay(ops);
    RemovalFindsItsTarget(ops, w);
  }

  // ------------------------------------------------------------------ snapshots

  /** A snapshot loaded by `Next` is read in a later heap. */
  function Read(t: State, snapshot: Slice, k: nat): Option<Worker>
    requires snapshot.block < |t.heap| && k < |t.heap[snapshot.block]|
  {
    t.heap[snapshot.block][k]
  }

  predicate Adds(ops: seq<Op>) { forall op :: op in ops ==> op.Add? }

  lemma ApplyKeepsArrays(s: State, op: Op)
    requires Wf(s)
    ensures var t := Apply(s, op);
            |s.heap| <= |t.heap| &&
            (forall a :: 0 <= a < |s.heap| ==> |t.heap[a]| == |s.heap[a]|) &&
            (forall a :: 0 <= a < |s.heap| && a != s.cur.block ==> t.heap[a] == s.heap[a])
  {
  }

  /** Any number of additions leave a snapshot as it was loaded. */
  lemma {:induction false} AddsKeepSnapshot(s: State, ops: seq<Op>)
    requires Wf(s) && Adds(ops)
    ensures var t := Exec(s, ops);
            |s.heap| <= |t.heap| && |t.heap[s.cur.block]| == |Backing(s)| &&
            (t.cur.block == s.cur.block ==> t.cur.len >= s.cur.len) &&
            t.heap[s.cur.block][..s.cur.len] == Backing(s)[..s.cur.len]
  {
    if ops != [] {
      var front, last := ops[..|ops| - 1], ops[|ops| - 1];
      AddsKeepSnapshot(s, front);
      ApplyKeepsArrays(Exec(s, front), last);
    }
  }

  /** So a call of `Next` that loaded the slice before any number of additions still
      returns the worker that was at its index. */
  lemma StaleReadAfterAdds(ops: seq<Op>, more: seq<Op>, k: nat)
    requires Adds(more) && k < |Replay(ops)|
    ensures var s := Exec(Init(), ops);
            var t := Exec(s, more);
            s.cur.block < |t.heap| && k < |t.heap[s.cur.block]| &&
            Read(t, s.cur, k) == Some(Replay(ops)[k])
  {
    var s := Exec(Init(), ops);
    var t := Exec(s, more);
    ListIsReplay(ops);
    AddsKeepSnapshot(s, more);
    assert t.heap[s.cur.block][k] == t.heap[s.cur.block][..s.cur.len][k];
    assert Backing(s)[k] == Backing(s)[..s.cur.len][k];
  }

  lemma {:induction false} ExecAppend(s: State, ops: seq<Op>, more: seq<Op>)
    requires Wf(s)
    ensures Exec(s, ops + more) == Exec(Exec(s, ops), more)
  {
    if more == [] {
      assert ops + more == ops;
    } else {
      ExecAppend(s, ops, more[..|more| - 1]);
      assert (ops + more)[..|ops + more| - 1] == ops + more[..|more| - 1];
    }
  }

  lemma {:induction false} ExecKeepsArrays(s: State, ops: seq<Op>)
    requires Wf(s)
    ensures var t := Exec(s, ops);
            |s.heap| <= |t.heap| && forall a :: 0 <= a < |s.heap| ==> |t.heap[a]| == |s.heap[a]|
  {
    if ops != [] {
      ExecKeepsArrays(s, ops[..|ops| - 1]);
      ApplyKeepsArrays(Exec(s, ops[..|ops| - 1]), ops[|ops| - 1]);
    }
  }

  /** The nil slots are exactly the slots of the live array from the length on. */
  ghost predicate Full(s: State) {
    && Wf(s)
    && (forall a, k | 0 <= a < |s.heap| && 0 <= k < |s.heap[a]| ::
          s.heap[a][k].None? <==> a == s.cur.block && k >= s.cur.len)
  }

  lemma StepKeepsFull(s: State, op: Op)
    requires Full(s) && Scannable(s, op.w.name)
    ensures Full(Apply(s, op))
  {
  }

  lemma {:induction false} RunIsFull(ops: seq<Op>)
    ensures Full(Exec(Init(), ops))
  {
    if ops != [] {
      var front, last := ops[..|ops| - 1], ops[|ops| - 1];
      RunIsFull(front);
      RunIsScannable(front, last.w);
      StepKeepsFull(Exec(Init(), front), last);
    }
  }

  /** A call of `Next` that loaded a slice before any requests `more` reads nil at `k`
      exactly when the list still lives in the same array and has shrunk to `k` or less;
      while it lives there the call reads the worker at `k` of the current list. */
  lemma {:induction false} StaleReadNilIff(ops: seq<Op>, more: seq<Op>, k: nat)
    requires k < Exec(Init(), ops).cur.len
    ensures var s := Exec(Init(), ops);
            var t := Exec(s, more);
            s.cur.block < |t.heap| && k < |t.heap[s.cur.block]| &&
            (Read(t, s.cur, k).None? <==> t.cur.block == s.cur.block && k >= t.cur.len)
    ensures var s := Exec(Init(), ops);
            var t := Exec(s, more);
            t.cur.block == s.cur.block && k < t.cur.len ==>
              k < |Replay(ops + more)| && Read(t, s.cur, k) == Some(Replay(ops + more)[k])
  {
    ExecAppend(Init(), ops, more);
    ExecKeepsArrays(Exec(Init(), ops), more);
    RunIsFull(ops + more);
    ListIsReplay(ops + more);
  }

  /** After one removal that found its target at `i`, a snapshot of `ws` reads the
      worker one slot later from `i` on, and nil in its last slot. */
  lemma RemovalShiftsSnapshot(ops: seq<Op>, w: Worker, k: nat)
    requires var s := Exec(Init(), ops); w.name in s.names && k < s.cur.len
    ensures var s := Exec(Init(), ops);
            var i := Find(Backing(s), s.cur.len, w.name);
            var ws := Replay(ops);
            |ws| == s.cur.len &&
            Read(OnRemove(s, w), s.cur, k) ==
              if k == |ws| - 1 then None else if k < i then Some(ws[k]) else Some(ws[k + 1])
  {
    var s, ws, more := Exec(Init(), ops), Replay(ops), [Remove(w)];
    ListIsReplay(ops);
    FindsWorker(s, ws, w.name);
    WithoutAt(ws, w.name, Find(Backing(s), s.cur.len, w.name));
    assert (ops + more)[..|ops + more| - 1] == ops && more[..0] == [];
    assert Exec(s, []) == s && Exec(s, more) == OnRemove(s, w);
    StaleReadNilIff(ops, more, k);
  }

  predicate EverAdded(ops: seq<Op>, w: Worker) {
    exists k :: 0 <= k < |ops| && ops[k].Add? && ops[k].w == w
  }

  ghost predicate SlotsAdded(s: State, ops: seq<Op>) {
    forall a, k | 0 <= a < |s.heap| && 0 <= k < |s.heap[a]| ::
      s.heap[a][k].Some? ==> EverAdded(ops, s.heap[a][k].value)
  }

  lemma EverAddedLater(ops: seq<Op>, op: Op, w: Worker)
    requires EverAdded(ops, w) || (op.Add? && op.w == w)
    ensures EverAdded(ops + [op], w)
  {
    var all := ops + [op];
    if j :| 0 <= j < |ops| && ops[j].Add? && ops[j].w == w {
      assert all[j] == ops[j];
    } else {
      assert all[|ops|] == op;
    }
  }

  lemma StepSlotsAdded(s: State, ops: seq<Op>, op: Op)
    requires Wf(s) && SlotsAdded(s, ops)
    ensures SlotsAdded(Apply(s, op), ops + [op])
  {
    var t := Apply(s, op);
    forall a, k | 0 <= a < |t.heap| && 0 <= k < |t.heap[a]| && t.heap[a][k].Some?
      ensures EverAdded(ops + [op], t.heap[a][k].value)
    {
      SlotOrigin(s, op, a, k);
      EverAddedLater(ops, op, t.heap[a][k].value);
    }
  }

  /** Over any run, every slot of every array holds nil or a worker that was added. */
  lemma {:induction false} SlotsHoldAddedWorkers(ops: seq<Op>)
    ensures SlotsAdded(Exec(Init(), ops), ops)
  {
    if ops != [] {
      var front, last := ops[..|ops| - 1], ops[|ops| - 1];
      SlotsHoldAddedWorkers(front);
      StepSlotsAdded(Exec(Init(), front), front, last);
      assert front + [last] == ops;
    }
  }

  /** A slot holds what some slot held before, the added worker, or nil. */
  lemma SlotOrigin(s: State, op: Op, a: nat, k: nat)
    requires Wf(s) && a < |Apply(s, op).heap| && k < |Apply(s, op).heap[a]|
    ensures var c := Apply(s, op).heap[a][k];
            c == None || (op.Add? && c == Some(op.w)) ||
            exists b, j :: 0 <= b < |s.heap| && 0 <= j < |s.heap[b]| && s.heap[b][j] == c
  {
    var c := Apply(s, op).heap[a][k];
    var cells := Backing(s);
    if a < |s.heap| && k < |s.heap[a]| && s.heap[a][k] == c {
    } else if op.Remove? && k + 1 < |cells| {
      assert c == None || cells[k + 1] == c;
    } else if k < |cells| {
      assert c == None || (op.Add? && c == Some(op.w)) || cells[k] == c;
    }
  }

  // ------------------------------------------------------------- the balancer object

  class LoadBalancer {
    var backing: array<Option<Worker>>
    var len: nat
    var workerNames: set<string>
    var nextIndex: nat
    /** The arrays that earlier appends left behind; nothing writes to them. */
    ghost var past: seq<seq<Option<Worker>>>

    ghost predicate Valid()
      reads this, backing
    {
      len <= backing.Length && nextIndex < WORD
    }

    ghost function View(): (s: State)
      reads this, backing
      requires Valid()
      ensures Wf(s)
    {
      State(past + [backing[..]], Slice(|past|, len), workerNames)
    }

    constructor ()
      ensures Valid() && View() == Init() && nextIndex == 0 && fresh(backing)
    {
      backing := new Option<Worker>[0](_ => None);
      len, workerNames, nextIndex, past := 0, {}, 0, [];
    }

    /** The atomic increment and the read of the slot it selects. */
    method Next() returns (w: Option<Worker>)
      requires Valid()
      modifies this`nextIndex
      ensures Valid() && View() == old(View())
      ensures len == 0 ==> w == None && nextIndex == old(nextIndex)
      ensures len > 0 ==>
                w == backing[((old(nextIndex) + 1) % WORD) % len] == backing[RoundRobin.Pick(old(nextIndex), 1, len)] &&
                nextIndex == (old(nextIndex) + 1) % WORD
    {
      if len == 0 {
        return None;
      }
      nextIndex := (nextIndex + 1) % WORD;
      w := backing[nextIndex % len];
    }

    method OnAddWorker(w: Worker, extra: nat)
      requires Valid()
      modifies this`backing, this`len, this`workerNames, this`past, backing
      ensures Valid() && View() == OnAdd(old(View()), w, extra)
      ensures backing == old(backing) || (fresh(backing) && old(backing)[..] == old(backing[..]))
    {
      if w.name in workerNames {
        return;
      }
      if len < backing.Length {
        backing[len] := Some(w);
        assert (past + [old(backing[..])])[|past| := backing[..]] == past + [backing[..]];
      } else {
        Grow(w, extra);
      }
      len := len + 1;
      workerNames := workerNames + {w.name};
    }

    method Grow(w: Worker, extra: nat)
      requires len == backing.Length
      modifies this`backing, this`past
      ensures fresh(backing) && backing[..] == old(backing[..]) + [Some(w)] + Nones(extra)
      ensures past == old(past) + [old(backing[..])]
    {
      var larger := new Option<Worker>[len + 1 + extra](_ => None);
      for i := 0 to len
        invariant backing == old(backing) && past == old(past)
        invariant forall j :: 0 <= j < larger.Length ==> larger[j] == if j < i then backing[j] else None
      {
        larger[i] := backing[i];
      }
      larger[len] := Some(w);
      past := past + [backing[..]];
      assert larger[..] == backing[..] + [Some(w)] + Nones(extra);
      backing := larger;
    }

    method OnRemoveWorker(w: Worker)
      requires Valid() && Scannable(View(), w.name)
      modifies this`len, this`workerNames, backing
      ensures Valid() && View() == OnRemove(old(View()), w)
    {
      if w.name !in workerNames {
        return;
      }
      ghost var s := View();
      var i := IndexOf(w.name);
      ghost var _ := DeleteAt(i);
      workerNames := workerNames - {w.name};
      assert s.heap[|past| := backing[..]] == past + [backing[..]];
    }

    /** The scan of the list, which stops at the first match. */
    method IndexOf(name: string) returns (i: nat)
      requires Valid() && Scannable(View(), name) && name in workerNames
      ensures i == Find(backing[..], len, name) && i < len
    {
      i := 0;
      while backing[i].value.name != name
        invariant i <= Find(backing[..], len, name) < len
        decreases len - i
      {
        i := i + 1;
      }
    }

    /** `slices.Delete` in place, one slot after the other; `seen` holds the array after
        each write, which is what a concurrent `Next` may read. */
    method DeleteAt(i: nat) returns (ghost seen: seq<seq<Option<Worker>>>)
      requires i < len <= backing.Length
      modifies this`len, backing
      ensures len == old(len) - 1
      ensures backing[..] == Deleted(old(backing[..]), old(len), i)
      ensures forall j :: 0 <= j < |seen| - 1 ==> Shifting(old(backing[..]), old(len), i, seen[j])
      ensures |seen| == old(len) - i && seen[|seen| - 1] == backing[..]
    {
      ghost var a := backing[..];
      var k := i;
      seen := [];
      while k + 1 < len
        invariant i <= k < len && len == old(len) && |seen| == k - i
        invariant forall j :: 0 <= j < i || k <= j < |a| ==> backing[j] == a[j]
        invariant forall j :: i <= j < k ==> backing[j] == a[j + 1]
        invariant forall j :: 0 <= j < |seen| ==> Shifting(a, len, i, seen[j])
      {
        backing[k] := backing[k + 1];
        k := k + 1;
        seen := seen + [backing[..]];
      }
      backing[k] := None;
      len := len - 1;
      seen := seen + [backing[..]];
    }

    method Handle(op: Op)
      requires Valid() && Scannable(View(), op.w.name)
      modifies this`backing, this`len, this`workerNames, this`past, backing
      ensures Valid() && View() == Apply(old(View()), op)
      ensures backing == old(backing) || fresh(backing)
    {
      match op {
        case Add(w, extra) => OnAddWorker(w, extra);
        case Remove(w) => OnRemoveWorker(w);
      }
    }

    /** The event loop over the requests `ops`, after the requests `before`. */
    method Run(ghost before: seq<Op>, ops: seq<Op>)
      requires Valid() && View() == Exec(Init(), before)
      modifies this`backing, this`len, this`workerNames, this`past, backing
      ensures Valid() && View() == Exec(Init(), before + ops)
      ensures Publishes(View(), Replay(before + ops))
    {
      assert before + ops[..0] == before;
      for k := 0 to |ops|
        invariant Valid() && View() == Exec(Init(), before + ops[..k])
        invariant backing == old(backing) || fresh(backing)
      {
        RunIsScannable(before + ops[..k], ops[k].w);
        ExecStep(before, ops, k);
        Handle(ops[k]);
      }
      assert ops[..|ops|] == ops;
      ListIsReplay(before + ops);
    }
  }

  lemma ExecStep(before: seq<Op>, ops: seq<Op>, k: nat)
    requires k < |ops|
    ensures Exec(Init(), before + ops[..k + 1]) == Apply(Exec(Init(), before + ops[..k]), ops[k])
  {
    var all := before + ops[..k + 1];
    assert all[..|all| - 1] == before + ops[..k] && all[|all| - 1] == ops[k];
  }
}
