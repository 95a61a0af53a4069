/** The manager: it names the workers, runs each of them in a goroutine, and turns the
    first error into its own result. */
module Manager {
  import opened Basics
  import opened Runs

  // ------------------------------------------------------------ names and ports

  function Digit(d: nat): char
    requires d < 10
  {
    "0123456789"[d]
  }

  function Decimal(n: nat): string {
    (if n < 10 then "" else Decimal(n / 10)) + [Digit(n % 10)]
  }

  function Name(i: nat): string { "worker-" + Decimal(i + 1) }

  /** The number that a decimal numeral stands for. */
  function Value(s: string): int {
    if s == "" then 0 else 10 * Value(s[..|s| - 1]) + (s[|s| - 1] as int - '0' as int)
  }

  lemma {:induction false} DecimalRoundTrip(n: nat)
    ensures Value(Decimal(n)) == n
  {
    var s := Decimal(n);
    assert s[|s| - 1] == Digit(n % 10);
    assert s[..|s| - 1] == if n < 10 then "" else Decimal(n / 10);
    if n >= 10 {
      DecimalRoundTrip(n / 10);
    }
  }

  /** A name is the prefix and the worker's number from 1 on, so no two names are equal. */
  lemma NameHoldsNumber(i: nat)
    ensures Name(i)[..7] == "worker-" && Value(Name(i)[7..]) == i + 1
  {
    assert Name(i)[7..] == Decimal(i + 1);
    DecimalRoundTrip(i + 1);
  }

  lemma NameInjective(i: nat, j: nat)
    requires Name(i) == Name(j)
    ensures i == j
  {
    NameHoldsNumber(i);
    NameHoldsNumber(j);
  }

  lemma NamesDiffer(i: nat)
    ensures forall j | 0 <= j < i :: Name(j) != Name(i)
  {
    forall j | 0 <= j < i ensures Name(j) != Name(i) {
      if Name(j) == Name(i) {
        NameInjective(j, i);
      }
    }
  }

  datatype Worker = Worker(name: string, port: int, metricsPort: int)

  function Configured(name: string, startPort: int, i: nat): Worker {
    Worker(name, startPort + i, startPort + i + 100)
  }

  function Table(count: nat, startPort: int): map<string, Worker> {
    if count == 0 then map[]
    else Table(count - 1, startPort)[Name(count - 1) := Configured(Name(count - 1), startPort, count - 1)]
  }

  method NewManager(count: nat, startPort: int) returns (workers: map<string, Worker>)
    ensures workers == Table(count, startPort)
  {
    workers := map[];
    for i := 0 to count
      invariant workers == Table(i, startPort)
    {
      var name := Name(i);
      var port := startPort + i;
      workers := workers[name := Worker(name, port, port + 100)];
    }
  }

  lemma {:induction false} TableKey(count: nat, startPort: int, name: string)
    requires name in Table(count, startPort)
    ensures exists i: nat :: i < count && name == Name(i)
  {
    if name != Name(count - 1) {
      TableKey(count - 1, startPort, name);
    }
  }

  lemma {:induction false} TableEntry(count: nat, startPort: int, i: nat)
    requires i < count
    ensures Name(i) in Table(count, startPort)
    ensures var w := Table(count, startPort)[Name(i)];
            w.name == Name(i) && w.port == startPort + i && w.metricsPort == startPort + i + 100
  {
    if i < count - 1 {
      TableEntry(count - 1, startPort, i);
      NamesDiffer(count - 1);
    }
  }

  /** No two workers share a name, so the map holds as many workers as configured. */
  lemma {:induction false} TableHoldsAll(count: nat, startPort: int)
    ensures |Table(count, startPort)| == count
  {
    if count > 0 {
      TableHoldsAll(count - 1, startPort);
      if Name(count - 1) in Table(count - 1, startPort) {
        TableKey(count - 1, startPort, Name(count - 1));
        NamesDiffer(count - 1);
      }
    }
  }

  ghost predicate PortsDistinct(count: nat, startPort: int) {
    forall i: nat, j: nat | i < count && j < count ::
      Configured(Name(i), startPort, i).port != Configured(Name(j), startPort, j).metricsPort &&
      (Configured(Name(i), startPort, i).port == Configured(Name(j), startPort, j).port ==> i == j)
  }

  /** The service and metrics ports are all distinct exactly for at most 100 workers. */
  lemma PortsDistinctIff(count: nat, startPort: int)
    ensures PortsDistinct(count, startPort) <==> count <= 100
  {
    if count > 100 {
      assert Configured(Name(100), startPort, 100).port == Configured(Name(0), startPort, 0).metricsPort;
    }
  }

  // ------------------------------------------------------------------------ running

  /** Progress of the goroutine that runs one worker. */
  datatype Runner =
    | Running
    | Erring(err: nat)     // the worker's Run failed, about to offer the error
    | Finished

  datatype Main =
    | Selecting
    | Cancelling(err: Option<nat>)
    | Waiting(err: Option<nat>)     // for all runners
    | Closing(err: Option<nat>)     // the deferred close of the error channel
    | Returned(err: Option<nat>)

  /** The error channel has room for one error; `offered` is the history of errors that
      were put into it. */
  datatype State = State(
    runners: seq<Runner>, main: Main, buffer: seq<nat>, closed: bool, offered: seq<nat>,
    parentDone: bool, cancelled: bool)

  datatype Event =
    | ParentDone
    | Fails(i: nat, err: nat) | Stops(i: nat)
    | Offer(i: nat)
    | SelectError | SelectDone | Cancel | AllDone | Close

  function Init(count: nat): State {
    State(seq(count, _ => Running), Selecting, [], false, [], false, false)
  }

  predicate Enabled(s: State, e: Event) {
    match e
    case ParentDone => !s.parentDone
    case Fails(i, _) => i < |s.runners| && s.runners[i] == Running
    case Stops(i) => i < |s.runners| && s.runners[i] == Running && (s.parentDone || s.cancelled)
    case Offer(i) => i < |s.runners| && s.runners[i].Erring?
    case SelectError => s.main == Selecting && s.buffer != []
    case SelectDone => s.main == Selecting && s.parentDone
    case Cancel => s.main.Cancelling?
    case AllDone => s.main.Waiting? && forall i :: 0 <= i < |s.runners| ==> s.runners[i] == Finished
    case Close => s.main.Closing?
  }

  function Apply(s: State, e: Event): State
    requires Enabled(s, e)
  {
    match e
    case ParentDone => s.(parentDone := true)
    case Fails(i, err) => s.(runners := s.runners[i := Erring(err)])
    case Stops(i) => s.(runners := s.runners[i := Finished])
    case Offer(i) =>
      var t := s.(runners := s.runners[i := Finished]);
      if s.buffer != [] then t
      else t.(buffer := [s.runners[i].err], offered := s.offered + [s.runners[i].err])
    case SelectError => s.(main := Cancelling(Some(s.buffer[0])), buffer := [])
    case SelectDone => s.(main := Cancelling(None))
    case Cancel => s.(main := Waiting(s.main.err), cancelled := true)
    case AllDone => s.(main := Closing(s.main.err))
    case Close => s.(main := Returned(s.main.err), closed := true)
  }

  function Next(s: State, e: Event): Option<State> {
    if Enabled(s, e) then Some(Apply(s, e)) else None
  }

  predicate AllFinished(s: State) { forall i :: 0 <= i < |s.runners| ==> s.runners[i] == Finished }

  ghost predicate Inv(s: State) {
    && |s.buffer| <= 1
    && (s.closed <==> s.main.Returned?)
    && (s.main.Closing? || s.main.Returned? ==> AllFinished(s))
    && (s.main.Waiting? || s.main.Closing? || s.main.Returned? ==> s.cancelled)
    && (s.main.Selecting? ==> s.buffer == s.offered && !s.cancelled)
    && (s.main.Cancelling? || s.main.Waiting? || s.main.Closing? || s.main.Returned? ==>
          match s.main.err
          case Some(err) => s.offered != [] && err == s.offered[0]
          case None => s.parentDone)
  }

  lemma StepKeepsInv(s: State, e: Event)
    requires Inv(s) && Enabled(s, e)
    ensures Inv(Apply(s, e))
  {
  }

  lemma RunKeepsInv(count: nat, es: seq<Event>, s: State)
    requires Reaches(Next, Init(count), es, s)
    ensures Inv(s) && |s.runners| == count
  {
    var inv := (s: State) => Inv(s) && |s.runners| == count;
    forall s, e | inv(s) && Next(s, e).Some? ensures inv(Next(s, e).value) {
      StepKeepsInv(s, e);
    }
    Invariant(Next, inv, Init(count), es, s);
  }

  /** In every run: when `Run` returns, every worker has finished and the others were
      cancelled; its error is the first one offered; no offer comes after the close of
      the channel; and it returns no error only if its context was done. */
  lemma RunReturnsFirstError(count: nat, es: seq<Event>, s: State)
    requires Reaches(Next, Init(count), es, s)
    ensures s.main.Returned? ==> AllFinished(s) && s.cancelled && |s.runners| == count
    ensures s.main.Returned? && s.main.err.Some? ==> s.offered != [] && s.main.err.value == s.offered[0]
    ensures s.main.Returned? && s.main.err.None? ==> s.parentDone
    ensures s.closed ==> forall i :: !Enabled(s, Offer(i))
    ensures s.offered != [] && s.main == Selecting ==> Enabled(s, SelectError)
  {
    RunKeepsInv(count, es, s);
  }

  lemma OfferedStays(s: State, es: seq<Event>, t: State, err: nat)
    requires s.offered != [] && s.offered[0] == err && Reaches(Next, s, es, t)
    ensures t.offered != [] && t.offered[0] == err
  {
    var inv := (u: State) => u.offered != [] && u.offered[0] == err;
    forall u, e | inv(u) && Next(u, e).Some? ensures inv(Next(u, e).value) {
    }
    Invariant(Next, inv, s, es, t);
  }

  /** The first worker that fails gets its error to the main goroutine: if none was offered
      before, the offer is taken, stays the first in every continuation, and can be
      received as long as `Run` selects. */
  lemma FirstErrorIsOffered(count: nat, es: seq<Event>, s: State, i: nat, more: seq<Event>, t: State)
    requires Reaches(Next, Init(count), es, s) && s.offered == [] && Enabled(s, Offer(i))
    requires Reaches(Next, Apply(s, Offer(i)), more, t)
    ensures t.offered != [] && t.offered[0] == s.runners[i].err
    ensures t.main == Selecting ==> Enabled(t, SelectError)
    ensures t.main.Returned? && t.main.err.Some? ==> t.main.err.value == s.runners[i].err
  {
    RunKeepsInv(count, es, s);
    var u := Apply(s, Offer(i));
    assert s.buffer == [] by {
      BufferWasOffered(count, es, s);
    }
    OfferedStays(u, more, t, s.runners[i].err);
    Extend(Next, Init(count), es, s, Offer(i));
    Append(Next, Init(count), es + [Offer(i)], u, more, t);
    RunKeepsInv(count, es + [Offer(i)] + more, t);
  }

  lemma BufferWasOffered(count: nat, es: seq<Event>, s: State)
    requires Reaches(Next, Init(count), es, s)
    ensures s.buffer != [] ==> s.offered != []
  {
    forall u: State, e | (u.buffer != [] ==> u.offered != []) && Next(u, e).Some?
      ensures Next(u, e).value.buffer != [] ==> Next(u, e).value.offered != []
    {
    }
    Invariant(Next, (u: State) => u.buffer != [] ==> u.offered != [], Init(count), es, s);
  }

  /** An error that a worker's `Run` returned is the one that its goroutine offers. */
  lemma ErrorIsKept(s: State, i: nat, err: nat)
    requires Enabled(s, Fails(i, err))
    ensures var t := Apply(s, Fails(i, err)); Enabled(t, Offer(i)) && t.runners[i].err == err
  {
  }

  function Work(s: State): nat {
    Sum(RunnerWork, s.runners) + (if s.parentDone then 0 else 1) +
    match s.main
    case Selecting => 4
    case Cancelling(_) => 3
    case Waiting(_) => 2
    case Closing(_) => 1
    case Returned(_) => 0
  }

  function RunnerWork(r: Runner): nat { match r case Running => 2 case Erring(_) => 1 case Finished => 0 }

  lemma StepWorks(s: State, e: Event)
    requires Enabled(s, e)
    ensures Work(Apply(s, e)) < Work(s)
  {
    match e {
      case Fails(i, err) => SumUpdate(RunnerWork, s.runners, i, Erring(err));
      case Stops(i) => SumUpdate(RunnerWork, s.runners, i, Finished);
      case Offer(i) => SumUpdate(RunnerWork, s.runners, i, Finished);
      case _ =>
    }
  }

  /** No run takes more than `Work(s)` steps. */
  lemma RunIsBounded(s: State, es: seq<Event>, t: State)
    requires Reaches(Next, s, es, t)
    ensures |es| + Work(t) <= Work(s)
  {
    forall s, e | Next(s, e).Some? ensures Work(Next(s, e).value) < Work(s) {
      StepWorks(s, e);
    }
    Bounded(Next, s => true, Work, s, es, t);
  }

  /** Once an error was offered or the context is done, the goroutines come to rest only
      when `Run` has returned. */
  lemma QuietOnlyWhenReturned(count: nat, es: seq<Event>, s: State)
    requires Reaches(Next, Init(count), es, s) && (s.offered != [] || s.parentDone)
    ensures (forall e :: Enabled(s, e) ==> e.ParentDone?) <==> s.main.Returned?
  {
    RunKeepsInv(count, es, s);
    if forall e :: Enabled(s, e) ==> e.ParentDone? {
      assert !Enabled(s, SelectError) && !Enabled(s, SelectDone) && !Enabled(s, Cancel) && !Enabled(s, Close);
      forall i: nat | i < |s.runners| && s.main.Waiting? ensures s.runners[i] == Finished {
        assert !Enabled(s, Stops(i)) && !Enabled(s, Offer(i));
      }
      assert !Enabled(s, AllDone);
    }
  }
}
