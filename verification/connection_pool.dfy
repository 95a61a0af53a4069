/** The pool of client connections of one worker: slot indices travel through a
    buffered channel, slots are read without the mutex on the fast path, and
    `close` wipes the slots while handles are out. */
module ConnectionPool {
  import opened Basics
  import opened Runs

  /** Progress of a goroutine inside `fetchConn`, then the handle it holds. */
  datatype Fetcher =
    | Waiting                 // at the select
    | Testing(index: nat)     // about to test its slot, without the mutex
    | Reading(index: nat)     // saw a connection, about to read the slot again
    | Locking(index: nat)     // saw nil, about to take the mutex
    | Rechecking(index: nat)  // holds the mutex from here, about to test the slot again
    | Building(index: nat)    // about to call the builder
    | Storing(index: nat, conn: Option<nat>)
    | Refusing(index: nat)    // the builder failed, about to put the index back
    | Copying(index: nat)     // about to read the slot for the handle
    | Unlocking(index: nat, conn: Option<nat>)
    | Failing                 // about to release the mutex, without a handle
    | Holding(index: nat, conn: Option<nat>)
    | Done

  /** `close` holds the mutex while its loop is at the slot `next`. */
  datatype Mutex = Free | HeldByClose(next: nat) | HeldByFetch(g: nat)

  /** Connections are numbered in the order the builder made them; `closed` counts the
      calls of Close on each. */
  datatype State = State(
    slots: seq<Option<nat>>, available: seq<nat>, mutex: Mutex,
    made: nat, closed: multiset<nat>, fetchers: seq<Fetcher>)

  datatype Event =
    | Arrive | Take(g: nat) | Cancel(g: nat) | Test(g: nat) | Read(g: nat)
    | Lock(g: nat) | Recheck(g: nat) | Build(g: nat, built: bool) | Store(g: nat) | PutBack(g: nat)
    | Copy(g: nat) | Unlock(g: nat)
    | Return(g: nat)
    | CloseLock | CloseSlot(index: nat) | CloseUnlock

  function Upto(n: nat): (r: seq<nat>)
    ensures |r| == n && forall i :: 0 <= i < n ==> r[i] == i
  {
    if n == 0 then [] else Upto(n - 1) + [n - 1]
  }

  function Init(size: nat): State {
    State(seq(size, _ => None), Upto(size), Free, 0, multiset{}, [])
  }

  predicate At(s: State, g: nat) { g < |s.fetchers| }

  /** The goroutine has an index. */
  predicate HasAny(f: Fetcher) { !f.Waiting? && !f.Failing? && !f.Done? }

  predicate AtSlot(s: State, g: nat) {
    At(s, g) && HasAny(s.fetchers[g]) && s.fetchers[g].index < |s.slots|
  }

  predicate Enabled(s: State, e: Event) {
    match e
    case Arrive => true
    case Take(g) => At(s, g) && s.fetchers[g].Waiting? && s.available != []
    case Cancel(g) => At(s, g) && s.fetchers[g].Waiting?
    case Test(g) => AtSlot(s, g) && s.fetchers[g].Testing?
    case Read(g) => AtSlot(s, g) && s.fetchers[g].Reading?
    case Lock(g) => At(s, g) && s.fetchers[g].Locking? && s.mutex == Free
    case Recheck(g) => AtSlot(s, g) && s.fetchers[g].Rechecking?
    case Build(g, _) => At(s, g) && s.fetchers[g].Building?
    case Store(g) => AtSlot(s, g) && s.fetchers[g].Storing?
    case PutBack(g) => At(s, g) && s.fetchers[g].Refusing? && HasRoom(s)
    case Copy(g) => AtSlot(s, g) && s.fetchers[g].Copying?
    case Unlock(g) => At(s, g) && (s.fetchers[g].Unlocking? || s.fetchers[g].Failing?)
    case Return(g) => At(s, g) && s.fetchers[g].Holding? && HasRoom(s)
    case CloseLock => s.mutex == Free
    case CloseSlot(i) => s.mutex == HeldByClose(i) && i < |s.slots|
    case CloseUnlock => s.mutex == HeldByClose(|s.slots|)
  }

  /** A send on the index channel does not block. */
  predicate HasRoom(s: State) { |s.available| < |s.slots| }

  function Apply(s: State, e: Event): State
    requires Enabled(s, e)
  {
    match e
    case Arrive => s.(fetchers := s.fetchers + [Waiting])
    case Take(g) => s.(fetchers := s.fetchers[g := Testing(s.available[0])], available := s.available[1..])
    case Cancel(g) => s.(fetchers := s.fetchers[g := Done])
    case Test(g) =>
      var i := s.fetchers[g].index;
      s.(fetchers := s.fetchers[g := if s.slots[i].Some? then Reading(i) else Locking(i)])
    case Read(g) =>
      var i := s.fetchers[g].index;
      s.(fetchers := s.fetchers[g := Holding(i, s.slots[i])])
    case Lock(g) => s.(mutex := HeldByFetch(g), fetchers := s.fetchers[g := Rechecking(s.fetchers[g].index)])
    case Recheck(g) =>
      var i := s.fetchers[g].index;
      s.(fetchers := s.fetchers[g := if s.slots[i].Some? then Copying(i) else Building(i)])
    case Build(g, built) =>
      var i := s.fetchers[g].index;
      if built then s.(made := s.made + 1, fetchers := s.fetchers[g := Storing(i, Some(s.made))])
      else s.(fetchers := s.fetchers[g := Refusing(i)])
    case Store(g) =>
      var f := s.fetchers[g];
      s.(slots := s.slots[f.index := f.conn], fetchers := s.fetchers[g := Copying(f.index)])
    case PutBack(g) =>
      s.(available := s.available + [s.fetchers[g].index], fetchers := s.fetchers[g := Failing])
    case Copy(g) =>
      var i := s.fetchers[g].index;
      s.(fetchers := s.fetchers[g := Unlocking(i, s.slots[i])])
    case Unlock(g) =>
      var f := s.fetchers[g];
      s.(mutex := Free, fetchers := s.fetchers[g := if f.Failing? then Done else Holding(f.index, f.conn)])
    case Return(g) =>
      s.(fetchers := s.fetchers[g := Done], available := s.available + [s.fetchers[g].index])
    case CloseLock => s.(mutex := HeldByClose(0))
    case CloseSlot(i) =>
      s.(mutex := HeldByClose(i + 1), slots := s.slots[i := None],
         closed := if s.slots[i].Some? then s.closed + multiset{s.slots[i].value} else s.closed)
    case CloseUnlock => s.(mutex := Free)
  }

  function Next(s: State, e: Event): Option<State> {
    if Enabled(s, e) then Some(Apply(s, e)) else None
  }

  // ------------------------------------------- indices and connections as resources

  predicate IsIndex(x: nat, k: nat) { x == k }

  predicate HasIndex(f: Fetcher, k: nat) { HasAny(f) && f.index == k }

  /** The goroutine has a new connection that is in no slot yet. */
  predicate HasNew(f: Fetcher, k: nat) { f.Storing? && f.conn == Some(k) }

  predicate HasConn(c: Option<nat>, k: nat) { c == Some(k) }

  /** How many elements of `xs` hold the resource `k`. */
  function Count<T>(holds: (T, nat) -> bool, xs: seq<T>, k: nat): nat {
    if xs == [] then 0 else (if holds(xs[0], k) then 1 else 0) + Count(holds, xs[1..], k)
  }

  lemma {:induction false} CountUpdate<T>(holds: (T, nat) -> bool, xs: seq<T>, i: nat, x: T, k: nat)
    requires i < |xs|
    ensures Count(holds, xs[i := x], k) + One(holds(xs[i], k)) == Count(holds, xs, k) + One(holds(x, k))
  {
    if i == 0 {
      assert xs[i := x][1..] == xs[1..];
    } else {
      CountUpdate(holds, xs[1..], i - 1, x, k);
      assert xs[i := x][1..] == xs[1..][i - 1 := x];
    }
  }

  lemma {:induction false} CountAppend<T>(holds: (T, nat) -> bool, xs: seq<T>, x: T, k: nat)
    ensures Count(holds, xs + [x], k) == Count(holds, xs, k) + One(holds(x, k))
  {
    if xs == [] {
      assert xs + [x] == [x];
      assert Count(holds, [x], k) == One(holds(x, k)) + Count(holds, [], k);
    } else {
      CountAppend(holds, xs[1..], x, k);
      assert (xs + [x])[1..] == xs[1..] + [x];
    }
  }

  lemma {:induction false} CountPositive<T>(holds: (T, nat) -> bool, xs: seq<T>, k: nat)
    ensures Count(holds, xs, k) > 0 <==> exists i :: 0 <= i < |xs| && holds(xs[i], k)
  {
    if xs != [] {
      CountPositive(holds, xs[1..], k);
      if Count(holds, xs[1..], k) > 0 {
        var i :| 0 <= i < |xs[1..]| && holds(xs[1..][i], k);
        assert holds(xs[i + 1], k);
      }
      if i :| 0 <= i < |xs| && holds(xs[i], k) && i > 0 {
        assert holds(xs[1..][i - 1], k);
      }
    }
  }

  /** Two elements that hold the same resource count twice. */
  lemma CountTwice<T>(holds: (T, nat) -> bool, xs: seq<T>, i: nat, j: nat, none: T, k: nat)
    requires i < |xs| && j < |xs| && i != j && holds(xs[i], k) && holds(xs[j], k) && !holds(none, k)
    ensures Count(holds, xs, k) >= 2
  {
    CountUpdate(holds, xs, i, none, k);
    assert holds(xs[i := none][j], k);
    CountPositive(holds, xs[i := none], k);
  }

  lemma FirstCounted(xs: seq<nat>)
    requires xs != []
    ensures Count(IsIndex, xs, xs[0]) >= 1
  {
    assert IsIndex(xs[0], xs[0]);
  }

  lemma {:induction false} Pigeonhole(xs: seq<nat>, n: nat)
    requires forall k: nat :: Count(IsIndex, xs, k) <= One(k < n)
    ensures |xs| <= n
    decreases n
  {
    if n == 0 {
      if xs != [] {
        FirstCounted(xs);
      }
    } else if Count(IsIndex, xs, n - 1) == 0 {
      forall k: nat ensures Count(IsIndex, xs, k) <= One(k < n - 1) {
        assert Count(IsIndex, xs, k) <= One(k < n);
      }
      Pigeonhole(xs, n - 1);
    } else {
      CountPositive(IsIndex, xs, n - 1);
      var i :| 0 <= i < |xs| && IsIndex(xs[i], n - 1);
      var last := xs[|xs| - 1];
      var ys := xs[i := last];
      var front := ys[..|xs| - 1];
      assert ys == front + [last];
      forall k: nat ensures Count(IsIndex, front, k) <= One(k < n - 1) {
        CountUpdate(IsIndex, xs, i, last, k);
        CountAppend(IsIndex, front, last, k);
        assert Count(IsIndex, xs, k) <= One(k < n);
      }
      Pigeonhole(front, n - 1);
    }
  }

  /** The connection of a handle is the one in its slot, or has been closed. */
  ghost predicate HandleInv(s: State, f: Fetcher) {
    f.Holding? && f.conn.Some? ==>
      f.conn.value in s.closed || (f.index < |s.slots| && s.slots[f.index] == f.conn)
  }

  predicate Locks(f: Fetcher) {
    f.Rechecking? || f.Building? || f.Storing? || f.Refusing? || f.Copying? || f.Unlocking? || f.Failing?
  }

  /** Under the mutex the slot stays as the goroutine found or left it. */
  predicate LockedInv(s: State, f: Fetcher) {
    && (Locks(f) && !f.Failing? ==> f.index < |s.slots|)
    && (f.Building? || f.Storing? || f.Refusing? ==> s.slots[f.index].None?)
    && (f.Storing? ==> f.conn.Some?)
    && (f.Copying? ==> s.slots[f.index].Some?)
    && (f.Unlocking? ==> f.conn.Some? && s.slots[f.index] == f.conn)
  }

  ghost predicate MutexInv(s: State) {
    && (s.mutex.HeldByClose? ==> s.mutex.next <= |s.slots|)
    && (s.mutex.HeldByFetch? ==> s.mutex.g < |s.fetchers|)
    && (forall g :: 0 <= g < |s.fetchers| ==> (Locks(s.fetchers[g]) <==> s.mutex == HeldByFetch(g)))
  }

  /** The index is once in the channel or with one goroutine. */
  ghost predicate IndexInv(s: State, k: nat) {
    Count(IsIndex, s.available, k) + Count(HasIndex, s.fetchers, k) == One(k < |s.slots|)
  }

  /** The connection is in one slot, or about to be stored, or was closed once. */
  ghost predicate ConnInv(s: State, k: nat) {
    Count(HasConn, s.slots, k) + Count(HasNew, s.fetchers, k) + s.closed[k] == One(k < s.made)
  }

  ghost predicate Inv(s: State) {
    && MutexInv(s)
    && (forall k :: IndexInv(s, k))
    && (forall k :: ConnInv(s, k))
    && (forall g :: 0 <= g < |s.fetchers| ==> HandleInv(s, s.fetchers[g]) && LockedInv(s, s.fetchers[g]))
  }

  lemma HolderIsAlone(s: State, g: nat)
    requires Inv(s) && g < |s.fetchers| && HasAny(s.fetchers[g])
    ensures var i := s.fetchers[g].index;
            i < |s.slots| && i !in s.available &&
            forall h :: 0 <= h < |s.fetchers| && h != g ==> !HasIndex(s.fetchers[h], i)
  {
    var i := s.fetchers[g].index;
    assert IndexInv(s, i) && HasIndex(s.fetchers[g], i);
    CountPositive(HasIndex, s.fetchers, i);
    CountPositive(IsIndex, s.available, i);
    assert forall j :: 0 <= j < |s.available| && s.available[j] == i ==> IsIndex(s.available[j], i);
    forall h | 0 <= h < |s.fetchers| && h != g ensures !HasIndex(s.fetchers[h], i) {
      if HasIndex(s.fetchers[h], i) {
        CountTwice(HasIndex, s.fetchers, g, h, Waiting, i);
      }
    }
  }

  lemma HolderHasRoom(s: State, g: nat)
    requires Inv(s) && g < |s.fetchers| && HasAny(s.fetchers[g])
    ensures HasRoom(s)
  {
    HolderIsAlone(s, g);
    var i := s.fetchers[g].index;
    forall k: nat ensures Count(IsIndex, s.available + [i], k) <= One(k < |s.slots|) {
      CountAppend(IsIndex, s.available, i, k);
      assert IndexInv(s, k);
      if k == i {
        assert HasIndex(s.fetchers[g], i);
        CountPositive(HasIndex, s.fetchers, i);
      }
    }
    Pigeonhole(s.available + [i], |s.slots|);
  }

  // ----------------------------------------------------------------- invariance

  predicate ByFetch(e: Event) { !e.Arrive? && !e.CloseLock? && !e.CloseSlot? && !e.CloseUnlock? }

  lemma FetchKeepsMutexInv(s: State, e: Event)
    requires MutexInv(s) && Enabled(s, e) && ByFetch(e)
    ensures MutexInv(Apply(s, e))
  {
  }

  lemma StepKeepsMutexInv(s: State, e: Event)
    requires MutexInv(s) && Enabled(s, e)
    ensures MutexInv(Apply(s, e))
  {
    if ByFetch(e) {
      FetchKeepsMutexInv(s, e);
    }
  }

  /** A goroutine puts its index back, takes one, or keeps what it has. */
  lemma IndexMoves(s: State, e: Event)
    requires Enabled(s, e) && ByFetch(e)
    ensures var t, f := Apply(s, e), s.fetchers[e.g];
            |t.slots| == |s.slots| && t.fetchers == s.fetchers[e.g := t.fetchers[e.g]] &&
            if e.PutBack? || e.Return? then t.available == s.available + [f.index] && !HasAny(t.fetchers[e.g])
            else if e.Take? then s.available == [t.fetchers[e.g].index] + t.available && HasAny(t.fetchers[e.g])
            else t.available == s.available && HasAny(f) == HasAny(t.fetchers[e.g]) &&
                 (HasAny(f) ==> t.fetchers[e.g].index == f.index)
    ensures !e.Take? && !e.Cancel? && !e.Unlock? ==> HasAny(s.fetchers[e.g])
    ensures e.Take? ==> !HasAny(s.fetchers[e.g])
  {
  }

  lemma PutBackKeepsIndexInv(s: State, e: Event, k: nat)
    requires IndexInv(s, k) && Enabled(s, e) && (e.PutBack? || e.Return?)
    ensures IndexInv(Apply(s, e), k)
  {
    var t := Apply(s, e);
    IndexMoves(s, e);
    CountUpdate(HasIndex, s.fetchers, e.g, t.fetchers[e.g], k);
    CountAppend(IsIndex, s.available, s.fetchers[e.g].index, k);
  }

  lemma FetchKeepsIndexInv(s: State, e: Event, k: nat)
    requires IndexInv(s, k) && Enabled(s, e) && ByFetch(e) && !e.PutBack? && !e.Return?
    ensures IndexInv(Apply(s, e), k)
  {
    var t := Apply(s, e);
    IndexMoves(s, e);
    CountUpdate(HasIndex, s.fetchers, e.g, t.fetchers[e.g], k);
  }

  lemma StepKeepsIndexInv(s: State, e: Event, k: nat)
    requires Inv(s) && Enabled(s, e)
    ensures IndexInv(Apply(s, e), k)
  {
    assert IndexInv(s, k);
    if e.Arrive? {
      CountAppend(HasIndex, s.fetchers, Waiting, k);
    } else if e.PutBack? || e.Return? {
      PutBackKeepsIndexInv(s, e, k);
    } else if ByFetch(e) {
      FetchKeepsIndexInv(s, e, k);
    }
  }

  lemma NewMoves(s: State, e: Event)
    requires Inv(s) && Enabled(s, e) && ByFetch(e)
    ensures var t, f := Apply(s, e), s.fetchers[e.g];
            t.closed == s.closed && t.fetchers == s.fetchers[e.g := t.fetchers[e.g]] &&
            (t.fetchers[e.g].Storing? <==> e.Build? && e.built) && (f.Storing? <==> e.Store?) &&
            (if e.Build? && e.built then t.made == s.made + 1 && t.fetchers[e.g].conn == Some(s.made)
             else t.made == s.made) &&
            if e.Store? then f.conn.Some? && f.index < |s.slots| && s.slots[f.index] == None &&
                             t.slots == s.slots[f.index := f.conn]
            else t.slots == s.slots
  {
    assert LockedInv(s, s.fetchers[e.g]);
  }

  lemma StepKeepsConnInv(s: State, e: Event, k: nat)
    requires Inv(s) && Enabled(s, e)
    ensures ConnInv(Apply(s, e), k)
  {
    var t := Apply(s, e);
    assert ConnInv(s, k);
    if e.Arrive? {
      CountAppend(HasNew, s.fetchers, Waiting, k);
    } else if e.CloseSlot? {
      CountUpdate(HasConn, s.slots, e.index, None, k);
    } else if ByFetch(e) {
      NewMoves(s, e);
      CountUpdate(HasNew, s.fetchers, e.g, t.fetchers[e.g], k);
      if e.Store? {
        CountUpdate(HasConn, s.slots, s.fetchers[e.g].index, s.fetchers[e.g].conn, k);
      }
    }
  }

  /** The slot of a goroutine is changed by itself and by `close` alone. */
  lemma SlotStep(s: State, e: Event, g: nat)
    requires Inv(s) && Enabled(s, e) && g < |s.fetchers| && HasAny(s.fetchers[g])
    ensures var i := s.fetchers[g].index;
            i < |s.slots| == |Apply(s, e).slots| &&
            Apply(s, e).slots[i] ==
              if e == CloseSlot(i) then None else if e == Store(g) then s.fetchers[g].conn else s.slots[i]
  {
    HolderIsAlone(s, g);
  }

  lemma StepKeepsHandleInv(s: State, e: Event, g: nat)
    requires Inv(s) && Enabled(s, e) && g < |s.fetchers|
    ensures HandleInv(Apply(s, e), Apply(s, e).fetchers[g])
  {
    assert HandleInv(s, s.fetchers[g]) && LockedInv(s, s.fetchers[g]);
    if HasAny(s.fetchers[g]) {
      SlotStep(s, e, g);
    }
  }

  lemma StepKeepsLockedInv(s: State, e: Event, g: nat)
    requires Inv(s) && Enabled(s, e) && g < |s.fetchers|
    ensures LockedInv(Apply(s, e), Apply(s, e).fetchers[g])
  {
    assert LockedInv(s, s.fetchers[g]);
    if HasAny(s.fetchers[g]) {
      SlotStep(s, e, g);
    }
  }

  lemma StepKeepsInv(s: State, e: Event)
    requires Inv(s) && Enabled(s, e)
    ensures Inv(Apply(s, e)) && |Apply(s, e).slots| == |s.slots|
  {
    var t := Apply(s, e);
    StepKeepsMutexInv(s, e);
    forall k: nat ensures IndexInv(t, k) && ConnInv(t, k) {
      StepKeepsIndexInv(s, e, k);
      StepKeepsConnInv(s, e, k);
    }
    forall g: nat | g < |t.fetchers| ensures HandleInv(t, t.fetchers[g]) && LockedInv(t, t.fetchers[g]) {
      if g < |s.fetchers| {
        StepKeepsHandleInv(s, e, g);
        StepKeepsLockedInv(s, e, g);
      }
    }
  }

  lemma RunKeepsInv(s: State, es: seq<Event>, t: State)
    requires Inv(s) && Reaches(Next, s, es, t)
    ensures Inv(t) && |t.slots| == |s.slots|
  {
    var inv := (u: State) => Inv(u) && |u.slots| == |s.slots|;
    forall u, e | inv(u) && Next(u, e).Some? ensures inv(Next(u, e).value) {
      StepKeepsInv(u, e);
    }
    Invariant(Next, inv, s, es, t);
  }

  lemma {:induction false} UptoOnce(n: nat, k: nat)
    ensures Count(IsIndex, Upto(n), k) == One(k < n)
  {
    if n > 0 {
      var m: nat := n - 1;
      UptoOnce(m, k);
      CountAppend(IsIndex, Upto(m), m, k);
    }
  }

  lemma InitInv(size: nat)
    ensures Inv(Init(size))
  {
    var s := Init(size);
    forall k: nat ensures IndexInv(s, k) && ConnInv(s, k) {
      UptoOnce(size, k);
      CountPositive(HasConn, s.slots, k);
    }
  }

  // -------------------------------------------------------------------- theorems

  ghost predicate Holds(s: State, g: int, i: int) {
    0 <= g < |s.fetchers| && 0 <= i && HasIndex(s.fetchers[g], i)
  }

  ghost predicate Taken(s: State, i: int) { exists g :: Holds(s, g, i) }

  /** Each index is in exactly one place: once in the channel and with no goroutine,
      or not in the channel and with exactly one goroutine. */
  lemma IndexInOnePlace(size: nat, es: seq<Event>, s: State, i: nat)
    requires Reaches(Next, Init(size), es, s) && i < size
    ensures Count(IsIndex, s.available, i) <= 1
    ensures i in s.available <==> !Taken(s, i)
    ensures forall g, h :: Holds(s, g, i) && Holds(s, h, i) ==> g == h
  {
    InitInv(size);
    RunKeepsInv(Init(size), es, s);
    assert IndexInv(s, i);
    CountPositive(HasIndex, s.fetchers, i);
    CountPositive(IsIndex, s.available, i);
    if g :| 0 <= g < |s.fetchers| && HasIndex(s.fetchers[g], i) {
      assert Holds(s, g, i);
    }
    if j :| 0 <= j < |s.available| && s.available[j] == i {
      assert IsIndex(s.available[j], i);
    }
    forall g, h | Holds(s, g, i) && Holds(s, h, i) ensures g == h {
      HolderIsAlone(s, g);
    }
  }

  /** The sends of an index back to the channel never block, and a fetch waits only
      while every index is held by some goroutine. */
  lemma ChannelNeverBlocks(size: nat, es: seq<Event>, s: State)
    requires Reaches(Next, Init(size), es, s)
    ensures forall g :: 0 <= g < |s.fetchers| && s.fetchers[g].Holding? ==> Enabled(s, Return(g))
    ensures forall g :: 0 <= g < |s.fetchers| && s.fetchers[g].Refusing? ==> Enabled(s, PutBack(g))
    ensures s.available == [] ==> forall i :: 0 <= i < size ==> Taken(s, i)
  {
    InitInv(size);
    RunKeepsInv(Init(size), es, s);
    forall g | 0 <= g < |s.fetchers| && HasAny(s.fetchers[g]) ensures HasRoom(s) {
      HolderHasRoom(s, g);
    }
    if s.available == [] {
      forall i | 0 <= i < size ensures Taken(s, i) {
        IndexInOnePlace(size, es, s, i);
      }
    }
  }

  /** The next step of a goroutine that has its index or the mutex. */
  function NextStep(f: Fetcher, g: nat, built: bool): Event {
    match f
    case Testing(_) => Test(g)
    case Reading(_) => Read(g)
    case Locking(_) => Lock(g)
    case Rechecking(_) => Recheck(g)
    case Building(_) => Build(g, built)
    case Storing(_, _) => Store(g)
    case Refusing(_) => PutBack(g)
    case Copying(_) => Copy(g)
    case Unlocking(_, _) => Unlock(g)
    case Failing => Unlock(g)
    case Holding(_, _) => Return(g)
    case _ => Take(g)
  }

  /** A goroutine past the index channel waits for nothing but the mutex, and the holder
      of the mutex can always move, be it a fetch or `close`. */
  lemma OnlyTheMutexBlocks(size: nat, es: seq<Event>, s: State, g: nat, built: bool)
    requires Reaches(Next, Init(size), es, s)
    ensures g < |s.fetchers| && (HasAny(s.fetchers[g]) || s.fetchers[g].Failing?) ==>
              (Enabled(s, NextStep(s.fetchers[g], g, built)) <==> s.fetchers[g].Locking? ==> s.mutex == Free)
    ensures match s.mutex
            case Free => true
            case HeldByClose(i) => Enabled(s, if i < size then CloseSlot(i) else CloseUnlock)
            case HeldByFetch(h) => h < |s.fetchers| && Enabled(s, NextStep(s.fetchers[h], h, built))
  {
    InitInv(size);
    RunKeepsInv(Init(size), es, s);
    if g < |s.fetchers| && HasAny(s.fetchers[g]) {
      HolderIsAlone(s, g);
      HolderHasRoom(s, g);
    }
    if s.mutex.HeldByFetch? && HasAny(s.fetchers[s.mutex.g]) {
      HolderIsAlone(s, s.mutex.g);
      HolderHasRoom(s, s.mutex.g);
    }
  }

  function Connections(slots: seq<Option<nat>>): set<nat> {
    if slots == [] then {}
    else (if slots[0].Some? then {slots[0].value} else {}) + Connections(slots[1..])
  }

  lemma {:induction false} ConnectionsCounted(slots: seq<Option<nat>>, k: nat)
    ensures k in Connections(slots) <==> Count(HasConn, slots, k) > 0
    ensures |Connections(slots)| <= |slots|
  {
    if slots != [] {
      ConnectionsCounted(slots[1..], k);
    }
  }

  /** The connections that are in a slot, or about to be put into one. */
  predicate Open(s: State, k: nat) {
    Count(HasConn, s.slots, k) + Count(HasNew, s.fetchers, k) == 1
  }

  /** No connection leaks: each one the builder made is in one slot, or is being stored
      by one goroutine, or has been closed exactly once. */
  lemma ConnectionsConserved(size: nat, es: seq<Event>, s: State)
    requires Reaches(Next, Init(size), es, s)
    ensures forall k: nat :: k < s.made ==> (if k in s.closed then s.closed[k] == 1 && !Open(s, k) else Open(s, k))
    ensures forall k: nat :: k >= s.made ==> k !in s.closed && !Open(s, k)
    ensures forall g :: 0 <= g < |s.fetchers| ==> HandleInv(s, s.fetchers[g])
  {
    InitInv(size);
    RunKeepsInv(Init(size), es, s);
    forall k: nat ensures Count(HasConn, s.slots, k) + Count(HasNew, s.fetchers, k) + s.closed[k] == One(k < s.made) {
      assert ConnInv(s, k);
    }
  }

  /** The slots after the store of the connection that is being stored, if any. */
  function Settled(s: State): seq<Option<nat>> {
    if s.mutex.HeldByFetch? && AtSlot(s, s.mutex.g) && s.fetchers[s.mutex.g].Storing? then
      s.slots[s.fetchers[s.mutex.g].index := s.fetchers[s.mutex.g].conn]
    else s.slots
  }

  lemma NewIsBeingStored(s: State, k: nat)
    requires Inv(s)
    ensures Count(HasNew, s.fetchers, k) > 0 <==>
            s.mutex.HeldByFetch? && HasNew(s.fetchers[s.mutex.g], k)
  {
    CountPositive(HasNew, s.fetchers, k);
    if g :| 0 <= g < |s.fetchers| && HasNew(s.fetchers[g], k) {
      assert Locks(s.fetchers[g]);
    }
  }

  lemma OpenIsSettled(s: State, k: nat)
    requires Inv(s)
    ensures k < s.made && k !in s.closed <==> k in Connections(Settled(s))
  {
    assert ConnInv(s, k);
    NewIsBeingStored(s, k);
    ConnectionsCounted(Settled(s), k);
    if s.mutex.HeldByFetch? && AtSlot(s, s.mutex.g) && s.fetchers[s.mutex.g].Storing? {
      var f := s.fetchers[s.mutex.g];
      CountUpdate(HasConn, s.slots, f.index, f.conn, k);
    }
    if s.mutex.HeldByFetch? {
      assert LockedInv(s, s.fetchers[s.mutex.g]);
    }
  }

  /** At most `size` connections are open at any time. */
  lemma OpenAtMostSize(size: nat, es: seq<Event>, s: State)
    requires Reaches(Next, Init(size), es, s)
    ensures |set k: nat | k < s.made && k !in s.closed| <= size
  {
    InitInv(size);
    RunKeepsInv(Init(size), es, s);
    forall k: nat ensures k < s.made && k !in s.closed <==> k in Connections(Settled(s)) {
      OpenIsSettled(s, k);
    }
    assert (set k: nat | k < s.made && k !in s.closed) == Connections(Settled(s));
    ConnectionsCounted(Settled(s), 0);
  }

  /** The handle of the locked path carries a live connection, that of its slot, until
      the mutex is released. */
  lemma LockedHandleIsLive(size: nat, es: seq<Event>, s: State, g: nat)
    requires Reaches(Next, Init(size), es, s) && g < |s.fetchers| && s.fetchers[g].Unlocking?
    ensures var f := s.fetchers[g];
            f.conn.Some? && f.conn.value !in s.closed && f.index < |s.slots| && s.slots[f.index] == f.conn &&
            Enabled(s, Unlock(g)) && Apply(s, Unlock(g)).fetchers[g] == Holding(f.index, f.conn)
  {
    InitInv(size);
    RunKeepsInv(Init(size), es, s);
    var f := s.fetchers[g];
    assert LockedInv(s, f) && ConnInv(s, f.conn.value);
    assert HasConn(s.slots[f.index], f.conn.value);
    CountPositive(HasConn, s.slots, f.conn.value);
  }

  lemma WindowStep(s: State, e: Event, g: nat)
    requires Inv(s) && Enabled(s, e) && e != Read(g)
    requires g < |s.fetchers| && s.fetchers[g].Reading?
    ensures var t := Apply(s, e);
            g < |t.fetchers| && t.fetchers[g] == s.fetchers[g]
    ensures var t, i := Apply(s, e), s.fetchers[g].index;
            i < |s.slots| == |t.slots| && t.slots[i] == if e == CloseSlot(i) then None else s.slots[i]
  {
    SlotStep(s, e, g);
  }

  lemma {:induction false} Window(s: State, es: seq<Event>, t: State, g: nat)
    requires Inv(s) && Reaches(Next, s, es, t) && Read(g) !in es
    requires g < |s.fetchers| && s.fetchers[g].Reading?
    ensures g < |t.fetchers| && t.fetchers[g] == s.fetchers[g]
    ensures var i := s.fetchers[g].index;
            i < |s.slots| == |t.slots| && t.slots[i] == if CloseSlot(i) in es then None else s.slots[i]
    decreases |es|
  {
    if es == [] {
      HolderIsAlone(s, g);
    } else {
      assert Begins(Next, s, es, t);
      var n := Apply(s, es[0]);
      WindowStep(s, es[0], g);
      StepKeepsInv(s, es[0]);
      assert forall e :: e in es <==> e == es[0] || e in es[1..];
      Window(n, es[1..], t, g);
    }
  }

  /** On the fast path the handle carries a nil connection exactly when a `close`
      passed its slot between the test of the slot and the second read of it. */
  lemma HandleNilExactlyWhenClosedBetween(size: nat, before: seq<Event>, s: State, g: nat,
                                          between: seq<Event>, t: State)
    requires Reaches(Next, Init(size), before, s) && Enabled(s, Test(g))
    requires s.slots[s.fetchers[g].index].Some?
    requires Reaches(Next, Apply(s, Test(g)), between, t) && Read(g) !in between
    ensures Enabled(t, Read(g))
    ensures var i := s.fetchers[g].index;
            var f := Apply(t, Read(g)).fetchers[g];
            f == Holding(i, if CloseSlot(i) in between then None else s.slots[i])
  {
    InitInv(size);
    RunKeepsInv(Init(size), before, s);
    StepKeepsInv(s, Test(g));
    Window(Apply(s, Test(g)), between, t, g);
  }

  /** The nil handle does occur: a close falls into the window of the second fetch. */
  lemma NilHandleOccurs()
    ensures exists es, s :: Reaches(Next, Init(1), es, s) && |s.fetchers| == 2 && s.fetchers[1] == Holding(0, None)
  {
    var s := Init(1);
    var es1, t := FirstTake(s);
    var es2, u := FirstBuild(t);
    var es3, v := FirstHandOut(u);
    var es4, w := SecondFetch(v);
    var es5, x := CloseInWindow(w);
    var es6, y := ReadAfterClose(x);
    Append(Next, s, es1, t, es2, u);
    Append(Next, s, es1 + es2, u, es3, v);
    Append(Next, s, es1 + es2 + es3, v, es4, w);
    Append(Next, s, es1 + es2 + es3 + es4, w, es5, x);
    Append(Next, s, es1 + es2 + es3 + es4 + es5, x, es6, y);
  }

  lemma FirstTake(s: State) returns (es: seq<Event>, t: State)
    requires s == Init(1)
    ensures Reaches(Next, s, es, t)
    ensures t == State([None], [], Free, 0, multiset{}, [Locking(0)])
  {
    assert s == State([None], [0], Free, 0, multiset{}, []);
    Extend(Next, s, [], s, Arrive);
    var a := Apply(s, Arrive);
    assert a == State([None], [0], Free, 0, multiset{}, [Waiting]);
    Extend(Next, s, [] + [Arrive], a, Take(0));
    var b := Apply(a, Take(0));
    assert b == State([None], [], Free, 0, multiset{}, [Testing(0)]);
    Extend(Next, s, [] + [Arrive] + [Take(0)], b, Test(0));
    t := Apply(b, Test(0));
    assert t == State([None], [], Free, 0, multiset{}, [Locking(0)]);
    es := [] + [Arrive] + [Take(0)] + [Test(0)];
  }

  lemma FirstBuild(s: State) returns (es: seq<Event>, t: State)
    requires s == State([None], [], Free, 0, multiset{}, [Locking(0)])
    ensures Reaches(Next, s, es, t)
    ensures t == State([None], [], HeldByFetch(0), 1, multiset{}, [Storing(0, Some(0))])
  {
    Extend(Next, s, [], s, Lock(0));
    var a := Apply(s, Lock(0));
    assert a == State([None], [], HeldByFetch(0), 0, multiset{}, [Rechecking(0)]);
    Extend(Next, s, [] + [Lock(0)], a, Recheck(0));
    var b := Apply(a, Recheck(0));
    assert b == State([None], [], HeldByFetch(0), 0, multiset{}, [Building(0)]);
    Extend(Next, s, [] + [Lock(0)] + [Recheck(0)], b, Build(0, true));
    t := Apply(b, Build(0, true));
    assert t == State([None], [], HeldByFetch(0), 1, multiset{}, [Storing(0, Some(0))]);
    es := [] + [Lock(0)] + [Recheck(0)] + [Build(0, true)];
  }

  lemma FirstHandOut(s: State) returns (es: seq<Event>, t: State)
    requires s == State([None], [], HeldByFetch(0), 1, multiset{}, [Storing(0, Some(0))])
    ensures Reaches(Next, s, es, t)
    ensures t == State([Some(0)], [], Free, 1, multiset{}, [Holding(0, Some(0))])
  {
    Extend(Next, s, [], s, Store(0));
    var a := Apply(s, Store(0));
    assert a == State([Some(0)], [], HeldByFetch(0), 1, multiset{}, [Copying(0)]);
    Extend(Next, s, [] + [Store(0)], a, Copy(0));
    var b := Apply(a, Copy(0));
    assert b == State([Some(0)], [], HeldByFetch(0), 1, multiset{}, [Unlocking(0, Some(0))]);
    Extend(Next, s, [] + [Store(0)] + [Copy(0)], b, Unlock(0));
    t := Apply(b, Unlock(0));
    assert t == State([Some(0)], [], Free, 1, multiset{}, [Holding(0, Some(0))]);
    es := [] + [Store(0)] + [Copy(0)] + [Unlock(0)];
  }

  lemma SecondFetch(s: State) returns (es: seq<Event>, t: State)
    requires s == State([Some(0)], [], Free, 1, multiset{}, [Holding(0, Some(0))])
    ensures Reaches(Next, s, es, t)
    ensures t == State([Some(0)], [], Free, 1, multiset{}, [Done, Reading(0)])
  {
    Extend(Next, s, [], s, Return(0));
    var a := Apply(s, Return(0));
    assert a == State([Some(0)], [0], Free, 1, multiset{}, [Done]);
    Extend(Next, s, [] + [Return(0)], a, Arrive);
    var b := Apply(a, Arrive);
    assert b == State([Some(0)], [0], Free, 1, multiset{}, [Done, Waiting]);
    Extend(Next, s, [] + [Return(0)] + [Arrive], b, Take(1));
    var c := Apply(b, Take(1));
    assert c == State([Some(0)], [], Free, 1, multiset{}, [Done, Testing(0)]);
    Extend(Next, s, [] + [Return(0)] + [Arrive] + [Take(1)], c, Test(1));
    t := Apply(c, Test(1));
    assert t == State([Some(0)], [], Free, 1, multiset{}, [Done, Reading(0)]);
    es := [] + [Return(0)] + [Arrive] + [Take(1)] + [Test(1)];
  }

  lemma CloseInWindow(s: State) returns (es: seq<Event>, t: State)
    requires s == State([Some(0)], [], Free, 1, multiset{}, [Done, Reading(0)])
    ensures Reaches(Next, s, es, t)
    ensures t == State([None], [], HeldByClose(1), 1, multiset{0}, [Done, Reading(0)])
  {
    Extend(Next, s, [], s, CloseLock);
    var a := Apply(s, CloseLock);
    assert a == State([Some(0)], [], HeldByClose(0), 1, multiset{}, [Done, Reading(0)]);
    Extend(Next, s, [] + [CloseLock], a, CloseSlot(0));
    t := Apply(a, CloseSlot(0));
    assert t == State([None], [], HeldByClose(1), 1, multiset{0}, [Done, Reading(0)]);
    es := [] + [CloseLock] + [CloseSlot(0)];
  }

  lemma ReadAfterClose(s: State) returns (es: seq<Event>, t: State)
    requires s == State([None], [], HeldByClose(1), 1, multiset{0}, [Done, Reading(0)])
    ensures Reaches(Next, s, es, t)
    ensures t == State([None], [], Free, 1, multiset{0}, [Done, Holding(0, None)])
  {
    Extend(Next, s, [], s, CloseUnlock);
    var a := Apply(s, CloseUnlock);
    assert a == State([None], [], Free, 1, multiset{0}, [Done, Reading(0)]);
    Extend(Next, s, [] + [CloseUnlock], a, Read(1));
    t := Apply(a, Read(1));
    assert t == State([None], [], Free, 1, multiset{0}, [Done, Holding(0, None)]);
    es := [] + [CloseUnlock] + [Read(1)];
  }

  // -------------------------------------------------------------- the pool object

  /** The slot that the next fetch is given. */
  function FirstSlot(s: State): Option<nat> {
    if s.available != [] && s.available[0] < |s.slots| then s.slots[s.available[0]] else None
  }

  /** The pool with the source's fields and the positions of its goroutines.  Each
      method executes one body of the source without interruption and is a run of
      the step system. */
  class Pool {
    var connections: array<Option<nat>>
    var available: seq<nat>
    var mutex: Mutex
    var made: nat
    var closed: multiset<nat>
    var fetchers: seq<Fetcher>

    function View(): State
      reads this, connections
    {
      State(connections[..], available, mutex, made, closed, fetchers)
    }

    constructor (size: nat)
      ensures View() == Init(size) && fresh(connections)
    {
      connections := new Option<nat>[size](_ => None);
      available, mutex, made, closed, fetchers := [], Free, 0, multiset{}, [];
      new;
      for i := 0 to size
        invariant available == Upto(i) && fresh(connections) && connections.Length == size
        invariant connections[..] == seq(size, _ => None)
        invariant mutex == Free && made == 0 && closed == multiset{} && fetchers == []
      {
        available := available + [i];
      }
    }

    /** `cancelled` says that the context ends first, `built` is the builder's outcome. */
    method FetchConn(g: nat, cancelled: bool, built: bool) returns (err: bool, ghost trace: seq<Event>)
      requires Inv(View()) && At(View(), g) && fetchers[g].Waiting?
      requires !cancelled ==> available != [] && (FirstSlot(View()).Some? || mutex == Free)
      modifies this`available, this`made, this`fetchers, this`mutex, connections
      ensures Reaches(Next, old(View()), trace, View()) && Inv(View())
      ensures |fetchers| == |old(fetchers)| && mutex == old(mutex)
      ensures err <==> cancelled || (!built && FirstSlot(old(View())).None?)
      ensures err ==> fetchers[g] == Done && multiset(available) == multiset(old(available))
      ensures !err ==> fetchers[g].Holding? && old(available) == [fetchers[g].index] + available
      ensures !err ==> fetchers[g].conn.Some? && FirstSlot(View().(available := old(available))) == fetchers[g].conn
    {
      ghost var s := View();
      if cancelled {
        trace := Give(g, s);
        return true, trace;
      }
      trace := Obtain(g, s);
      var idx := fetchers[g].index;
      if connections[idx].Some? {
        trace := Fast(g, s, trace);
        err := false;
      } else {
        Extend(Next, s, trace, View(), Test(g));
        trace := trace + [Test(g)];
        fetchers := fetchers[g := Locking(idx)];
        RunKeepsInv(s, trace, View());
        err, trace := Locked(g, built, s, trace);
      }
      RunKeepsInv(s, trace, View());
    }

    /** The context ends before an index is available. */
    method Give(g: nat, ghost s: State) returns (ghost trace: seq<Event>)
      requires s == View() && Inv(s) && At(s, g) && s.fetchers[g].Waiting?
      modifies this`fetchers
      ensures Reaches(Next, s, trace, View()) && Inv(View())
      ensures fetchers == old(fetchers)[g := Done]
    {
      Extend(Next, s, [], s, Cancel(g));
      trace := [] + [Cancel(g)];
      fetchers := fetchers[g := Done];
      RunKeepsInv(s, trace, View());
    }

    /** The receive from the index channel. */
    method Obtain(g: nat, ghost s: State) returns (ghost trace: seq<Event>)
      requires s == View() && Inv(s) && At(s, g) && s.fetchers[g].Waiting? && available != []
      modifies this`available, this`fetchers
      ensures Reaches(Next, s, trace, View()) && Inv(View())
      ensures old(available) == [old(available)[0]] + available
      ensures fetchers == old(fetchers)[g := Testing(old(available)[0])] && old(available)[0] < connections.Length
    {
      Extend(Next, s, [], s, Take(g));
      trace := [] + [Take(g)];
      fetchers := fetchers[g := Testing(available[0])];
      available := available[1..];
      RunKeepsInv(s, trace, View());
      HolderIsAlone(View(), g);
    }

    method Fast(g: nat, ghost s: State, ghost before: seq<Event>) returns (ghost trace: seq<Event>)
      requires Reaches(Next, s, before, View()) && At(View(), g) && fetchers[g].Testing?
      requires fetchers[g].index < connections.Length && connections[fetchers[g].index].Some?
      modifies this`fetchers
      ensures Reaches(Next, s, trace, View())
      ensures fetchers == old(fetchers)[g := Holding(old(fetchers[g].index), connections[old(fetchers[g].index)])]
    {
      var idx := fetchers[g].index;
      Extend(Next, s, before, View(), Test(g));
      trace := before + [Test(g)];
      fetchers := fetchers[g := Reading(idx)];
      Extend(Next, s, trace, View(), Read(g));
      trace := trace + [Read(g)];
      fetchers := fetchers[g := Holding(idx, connections[idx])];
    }

    /** The part under the mutex, whatever another goroutine did to the slot before. */
    method Locked(g: nat, built: bool, ghost s: State, ghost before: seq<Event>)
      returns (err: bool, ghost trace: seq<Event>)
      requires Reaches(Next, s, before, View()) && At(View(), g) && fetchers[g].Locking? && mutex == Free && Inv(View())
      modifies this`available, this`made, this`fetchers, this`mutex, connections
      ensures Reaches(Next, s, trace, View())
      ensures |fetchers| == |old(fetchers)| && mutex == Free
      ensures var i := old(fetchers[g].index);
              i < connections.Length && (err <==> old(connections[i]).None? && !built)
      ensures var i := old(fetchers[g].index);
              if err then fetchers[g] == Done && available == old(available) + [i]
              else available == old(available) && fetchers[g] == Holding(i, connections[i]) &&
                   connections[i] == if old(connections[i]).Some? then old(connections[i]) else Some(old(made))
    {
      var idx := fetchers[g].index;
      HolderIsAlone(View(), g);
      HolderHasRoom(View(), g);
      trace := TakeMutex(g, s, before);
      err := false;
      if connections[idx].None? {
        Extend(Next, s, trace, View(), Build(g, built));
        trace := trace + [Build(g, built)];
        if !built {
          trace := Refuse(g, s, trace);
          return true, trace;
        }
        trace := StoreNew(g, s, trace);
      }
      trace := HandOut(g, s, trace);
    }

    method TakeMutex(g: nat, ghost s: State, ghost before: seq<Event>) returns (ghost trace: seq<Event>)
      requires Reaches(Next, s, before, View()) && AtSlot(View(), g) && fetchers[g].Locking? && mutex == Free
      modifies this`fetchers, this`mutex
      ensures Reaches(Next, s, trace, View()) && mutex == HeldByFetch(g)
      ensures var i := old(fetchers[g].index);
              fetchers == old(fetchers)[g := if connections[i].Some? then Copying(i) else Building(i)]
    {
      var idx := fetchers[g].index;
      Extend(Next, s, before, View(), Lock(g));
      trace := before + [Lock(g)];
      mutex, fetchers := HeldByFetch(g), fetchers[g := Rechecking(idx)];
      Extend(Next, s, trace, View(), Recheck(g));
      trace := trace + [Recheck(g)];
      fetchers := fetchers[g := if connections[idx].Some? then Copying(idx) else Building(idx)];
    }

    /** The builder failed: the index goes back before the mutex is released. */
    method Refuse(g: nat, ghost s: State, ghost before: seq<Event>) returns (ghost trace: seq<Event>)
      requires At(View(), g) && fetchers[g].Building? && HasRoom(View())
      requires Reaches(Next, s, before, View().(fetchers := fetchers[g := Refusing(fetchers[g].index)]))
      modifies this`available, this`fetchers, this`mutex
      ensures Reaches(Next, s, trace, View()) && mutex == Free
      ensures available == old(available) + [old(fetchers[g].index)] && fetchers == old(fetchers)[g := Done]
    {
      var idx := fetchers[g].index;
      fetchers := fetchers[g := Refusing(idx)];
      Extend(Next, s, before, View(), PutBack(g));
      trace := before + [PutBack(g)];
      available, fetchers := available + [idx], fetchers[g := Failing];
      Extend(Next, s, trace, View(), Unlock(g));
      trace := trace + [Unlock(g)];
      mutex, fetchers := Free, fetchers[g := Done];
    }

    method StoreNew(g: nat, ghost s: State, ghost before: seq<Event>) returns (ghost trace: seq<Event>)
      requires AtSlot(View(), g) && fetchers[g].Building?
      requires Reaches(Next, s, before, Apply(View(), Build(g, true)))
      modifies this`made, this`fetchers, connections
      ensures Reaches(Next, s, trace, View())
      ensures connections[..] == old(connections[..])[old(fetchers[g].index) := Some(old(made))]
      ensures fetchers == old(fetchers)[g := Copying(old(fetchers[g].index))]
    {
      var idx := fetchers[g].index;
      ghost var was := fetchers;
      fetchers := fetchers[g := Storing(idx, Some(made))];
      made := made + 1;
      Extend(Next, s, before, View(), Store(g));
      trace := before + [Store(g)];
      connections[idx] := fetchers[g].conn;
      fetchers := fetchers[g := Copying(idx)];
    }

    method HandOut(g: nat, ghost s: State, ghost before: seq<Event>) returns (ghost trace: seq<Event>)
      requires Reaches(Next, s, before, View()) && AtSlot(View(), g) && fetchers[g].Copying?
      modifies this`fetchers, this`mutex
      ensures Reaches(Next, s, trace, View()) && mutex == Free
      ensures fetchers == old(fetchers)[g := Holding(old(fetchers[g].index), connections[old(fetchers[g].index)])]
    {
      var idx := fetchers[g].index;
      Extend(Next, s, before, View(), Copy(g));
      trace := before + [Copy(g)];
      fetchers := fetchers[g := Unlocking(idx, connections[idx])];
      Extend(Next, s, trace, View(), Unlock(g));
      trace := trace + [Unlock(g)];
      mutex, fetchers := Free, fetchers[g := Holding(idx, connections[idx])];
    }

    method Close() returns (ghost trace: seq<Event>)
      requires mutex == Free
      modifies this`mutex, this`closed, connections
      ensures Reaches(Next, old(View()), trace, View())
      ensures mutex == Free && forall i :: 0 <= i < connections.Length ==> connections[i] == None
      ensures forall i :: 0 <= i < connections.Length && old(connections[i]).Some? ==>
                old(connections[i]).value in closed
    {
      ghost var s := View();
      Extend(Next, s, [], s, CloseLock);
      mutex := HeldByClose(0);
      trace := CloseAll(s, [] + [CloseLock]);
      Extend(Next, s, trace, View(), CloseUnlock);
      trace := trace + [CloseUnlock];
      mutex := Free;
    }

    /** The loop over the slots. */
    method CloseAll(ghost s: State, ghost before: seq<Event>) returns (ghost trace: seq<Event>)
      requires Reaches(Next, s, before, View()) && mutex == HeldByClose(0)
      modifies this`mutex, this`closed, connections
      ensures Reaches(Next, s, trace, View()) && mutex == HeldByClose(connections.Length)
      ensures forall i :: 0 <= i < connections.Length ==> connections[i] == None
      ensures forall i :: 0 <= i < connections.Length && old(connections[i]).Some? ==>
                old(connections[i]).value in closed
    {
      trace := before;
      for i := 0 to connections.Length
        invariant mutex == HeldByClose(i) && Reaches(Next, s, trace, View())
        invariant forall j :: 0 <= j < i ==> connections[j] == None
        invariant forall j :: 0 <= j < i && old(connections[j]).Some? ==> old(connections[j]).value in closed
        invariant forall j :: i <= j < connections.Length ==> connections[j] == old(connections[j])
      {
        trace := CloseAt(i, s, trace);
      }
    }

    method CloseAt(i: nat, ghost s: State, ghost before: seq<Event>) returns (ghost trace: seq<Event>)
      requires Reaches(Next, s, before, View()) && i < connections.Length && mutex == HeldByClose(i)
      modifies this`mutex, this`closed, connections
      ensures Reaches(Next, s, trace, View()) && mutex == HeldByClose(i + 1)
      ensures connections[..] == old(connections[..])[i := None]
      ensures closed ==
                old(closed) + if old(connections[i]).Some? then multiset{old(connections[i]).value} else multiset{}
    {
      Extend(Next, s, before, View(), CloseSlot(i));
      trace := before + [CloseSlot(i)];
      if connections[i].Some? {
        closed := closed + multiset{connections[i].value};
      }
      connections[i] := None;
      mutex := HeldByClose(i + 1);
    }

    method Return(g: nat) returns (ghost trace: seq<Event>)
      requires Inv(View()) && g < |fetchers| && fetchers[g].Holding?
      modifies this`available, this`fetchers
      ensures Reaches(Next, old(View()), trace, View()) && Inv(View())
      ensures available == old(available) + [old(fetchers[g].index)]
      ensures fetchers == old(fetchers)[g := Done]
    {
      HolderHasRoom(View(), g);
      ghost var s := View();
      Extend(Next, s, [], s, Event.Return(g));
      trace := [] + [Event.Return(g)];
      available := available + [fetchers[g].index];
      fetchers := fetchers[g := Done];
      RunKeepsInv(s, trace, View());
    }
  }
}
