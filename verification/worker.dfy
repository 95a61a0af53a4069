/** Supervision of one worker process: the restart loop of the waiter goroutines,
    the one-shot exit channel and the shutdown that races with both.

    Every step below is one atomic action of the source: an access to a shared
    variable, a channel operation, a mutex operation or a move of the environment
    (a child exits).  The mutex is explicit, because `stopping` and `cmd` are read
    without it. */
module WorkerLifecycle {
  import opened Basics
  import opened Runs

  /** A command built by `buildCmd`; Reaped means that `ProcessState` is set. */
  datatype Child = NotStarted | Alive | Exited | Reaped

  /** Progress of a goroutine inside `start`. */
  datatype StartPhase =
    | AtLock      // about to take the mutex
    | Building    // holds the mutex, about to replace the command
    | Launching   // holds the mutex, about to start the new command

  /** Progress of a goroutine inside `waitCmdDone`. */
  datatype Waiter =
    | Spawned                      // about to read the command
    | Waiting(cmd: nat)            // inside Wait on that command
    | Returned                     // about to read `stopping`, without the mutex
    | Sending | Closing | Closed   // hands the exit to shutdown
    | Clearing                     // decided to restart, about to clear `running`
    | Sleeping
    | Restarting(at: StartPhase)
    | Ended

  /** Progress of the goroutine that executes `Run`. */
  datatype Lifecycle =
    | Starting(at: StartPhase)
    | Serving                      // waits for the context
    | Flagging                     // holds the mutex, about to set `stopping`
    | Inspecting                   // about to test `running`
    | Probing                      // about to look at ProcessState
    | Terminating                  // about to send SIGTERM
    | Killing                      // SIGTERM failed
    | Selecting                    // waits for the exit channel or the timeout
    | TimedOut
    | Stopped(ok: bool)            // shutdown has returned
    | Failed                       // the first start failed

  datatype Mutex = Free | HeldByRun | HeldByWaiter(id: nat)

  /** The exit channel has room for one value; a send on it or a close of it
      after it was closed panics. */
  datatype Channel = Channel(buffered: nat, sends: nat, closes: nat, panicked: bool)

  datatype State = State(
    mutex: Mutex, running: bool, stopping: bool,
    cmd: nat, children: seq<Child>, killed: set<nat>,
    done: Channel, run: Lifecycle, waiters: seq<Waiter>)

  datatype Caller = ByRun | ByWaiter(id: nat)

  datatype Event =
    | StartLock(c: Caller) | Build(c: Caller) | Launch(c: Caller, launched: bool)
    | ReadCmd(i: nat) | Reap(i: nat) | WaitReturns(i: nat) | ReadStopping(i: nat)
    | Send(i: nat) | Close(i: nat) | Clear(i: nat) | Wake(i: nat)
    | ShutdownLock | SetStopping | CheckRunning | CheckExited(normally: bool)
    | Terminate(delivered: bool) | Kill(delivered: bool)
    | Receive | Timeout | KillLate(delivered: bool)
    | Exit(child: nat)

  function Init(): State {
    State(Free, false, false, 0, [], {}, Channel(0, 0, 0, false), Starting(AtLock), [])
  }

  predicate InStart(s: State, c: Caller, p: StartPhase) {
    match c
    case ByRun => s.run == Starting(p)
    case ByWaiter(i) => i < |s.waiters| && s.waiters[i] == Restarting(p)
  }

  function Move(s: State, c: Caller, p: StartPhase): State
    requires c.ByWaiter? ==> c.id < |s.waiters|
  {
    match c
    case ByRun => s.(run := Starting(p))
    case ByWaiter(i) => s.(waiters := s.waiters[i := Restarting(p)])
  }

  /** `start` returns, without or with an error; a waiter only logs the error. */
  function Leave(s: State, c: Caller, failed: bool): State
    requires c.ByWaiter? ==> c.id < |s.waiters|
  {
    match c
    case ByRun => s.(run := if failed then Failed else Serving)
    case ByWaiter(i) => s.(waiters := s.waiters[i := Ended])
  }

  function Holder(c: Caller): Mutex {
    match c case ByRun => HeldByRun case ByWaiter(i) => HeldByWaiter(i)
  }

  predicate At(s: State, i: nat, w: Waiter) {
    i < |s.waiters| && s.waiters[i] == w
  }

  predicate Enabled(s: State, e: Event) {
    match e
    case StartLock(c) => InStart(s, c, AtLock) && s.mutex == Free
    case Build(c) => InStart(s, c, Building)
    case Launch(c, _) => InStart(s, c, Launching) && s.cmd < |s.children|
    case ReadCmd(i) => At(s, i, Spawned)
    case Reap(i) =>
      i < |s.waiters| && s.waiters[i].Waiting? &&
      s.waiters[i].cmd < |s.children| && s.children[s.waiters[i].cmd] == Exited
    case WaitReturns(i) =>
      i < |s.waiters| && s.waiters[i].Waiting? &&
      s.waiters[i].cmd < |s.children| && s.children[s.waiters[i].cmd] == Reaped
    case ReadStopping(i) => At(s, i, Returned)
    case Send(i) => At(s, i, Sending) && (s.done.buffered < 1 || s.done.closes > 0)
    case Close(i) => At(s, i, Closing)
    case Clear(i) => At(s, i, Clearing) && s.mutex == Free
    case Wake(i) => At(s, i, Sleeping)
    case ShutdownLock => s.run == Serving && s.mutex == Free
    case SetStopping => s.run == Flagging
    case CheckRunning => s.run == Inspecting
    case CheckExited(_) => s.run == Probing && s.cmd < |s.children|
    case Terminate(_) => s.run == Terminating
    case Kill(_) => s.run == Killing
    case Receive => s.run == Selecting && (s.done.buffered > 0 || s.done.closes > 0)
    case Timeout => s.run == Selecting
    case KillLate(_) => s.run == TimedOut
    case Exit(k) => k < |s.children| && s.children[k] == Alive
  }

  function Return(s: State, ok: bool): State {
    s.(run := Stopped(ok), mutex := Free)
  }

  function Apply(s: State, e: Event): State
    requires Enabled(s, e)
  {
    match e
    case StartLock(c) =>
      if s.running || s.stopping then Leave(s, c, false)
      else Move(s, c, Building).(mutex := Holder(c))
    case Build(c) =>
      Move(s, c, Launching).(cmd := |s.children|, children := s.children + [NotStarted])
    case Launch(c, launched) =>
      var t := Leave(s, c, !launched).(mutex := Free);
      if !launched then t
      else t.(running := true, children := s.children[s.cmd := Alive], waiters := t.waiters + [Spawned])
    case ReadCmd(i) => s.(waiters := s.waiters[i := Waiting(s.cmd)])
    case Reap(i) => s.(children := s.children[s.waiters[i].cmd := Reaped])
    case WaitReturns(i) => s.(waiters := s.waiters[i := Returned])
    case ReadStopping(i) => s.(waiters := s.waiters[i := if s.stopping then Sending else Clearing])
    case Send(i) =>
      s.(waiters := s.waiters[i := Closing],
         done := if s.done.closes > 0 then s.done.(panicked := true)
                 else s.done.(buffered := s.done.buffered + 1, sends := s.done.sends + 1))
    case Close(i) =>
      s.(waiters := s.waiters[i := Closed],
         done := if s.done.closes > 0 then s.done.(panicked := true)
                 else s.done.(closes := s.done.closes + 1))
    case Clear(i) => s.(waiters := s.waiters[i := Sleeping], running := false)
    case Wake(i) => s.(waiters := s.waiters[i := Restarting(AtLock)])
    case ShutdownLock => s.(run := Flagging, mutex := HeldByRun)
    case SetStopping => s.(run := Inspecting, stopping := true)
    case CheckRunning =>
      if s.running then s.(run := Probing, running := false) else Return(s, true)
    case CheckExited(normally) =>
      if s.children[s.cmd] == Reaped && normally then Return(s, true) else s.(run := Terminating)
    case Terminate(delivered) => s.(run := if delivered then Selecting else Killing)
    case Kill(delivered) =>
      if delivered then s.(run := Selecting, killed := s.killed + {s.cmd}) else Return(s, false)
    case Receive =>
      Return(s, true).(done := if s.done.buffered > 0 then s.done.(buffered := s.done.buffered - 1) else s.done)
    case Timeout => s.(run := TimedOut)
    case KillLate(delivered) =>
      if delivered then Return(s, true).(killed := s.killed + {s.cmd}) else Return(s, false)
    case Exit(k) => s.(children := s.children[k := Exited])
  }

  function Next(s: State, e: Event): Option<State> {
    if Enabled(s, e) then Some(Apply(s, e)) else None
  }

  /** The waiter has not cleared `running` for the child it was spawned for. */
  predicate Owns(w: Waiter) {
    w.Spawned? || w.Waiting? || w.Returned? || w.Sending? || w.Closing? || w.Closed? || w.Clearing?
  }

  predicate Watches(w: Waiter) { w.Spawned? || w.Waiting? }

  predicate LocksStart(p: StartPhase) { p.Building? || p.Launching? }

  predicate RunLocks(r: Lifecycle) {
    (r.Starting? && LocksStart(r.at)) || r.Flagging? || r.Inspecting? || r.Probing? ||
    r.Terminating? || r.Killing? || r.Selecting? || r.TimedOut?
  }

  predicate WaiterLocks(w: Waiter) { w.Restarting? && LocksStart(w.at) }

  predicate ShutsDown(r: Lifecycle) {
    r.Probing? || r.Terminating? || r.Killing? || r.Selecting? || r.TimedOut?
  }

  predicate LastOwns(s: State) { |s.waiters| > 0 && Owns(s.waiters[|s.waiters| - 1]) }

  predicate LastIs(s: State, p: Waiter -> bool) { |s.waiters| > 0 && p(s.waiters[|s.waiters| - 1]) }

  ghost predicate MutexInv(s: State) {
    && (s.mutex == HeldByRun <==> RunLocks(s.run))
    && (s.mutex.HeldByWaiter? ==> s.mutex.id < |s.waiters|)
    && (forall i :: 0 <= i < |s.waiters| ==> (s.mutex == HeldByWaiter(i) <==> WaiterLocks(s.waiters[i])))
  }

  /** Only the waiter spawned last is unfinished, and it owns `running` until it clears it. */
  ghost predicate OwnerInv(s: State) {
    && (forall i :: 0 <= i < |s.waiters| - 1 ==> s.waiters[i].Ended?)
    && (s.stopping <==> s.run.Inspecting? || ShutsDown(s.run) || s.run.Stopped?)
    && (s.run.Starting? || s.run.Failed? ==> s.waiters == [] && !s.running)
    && (s.run.Serving? || s.run.Flagging? || s.run.Inspecting? ==> (s.running <==> LastOwns(s)))
    && (ShutsDown(s.run) ==> !s.running && LastOwns(s))
    && (s.run.Stopped? ==> !s.running)
  }

  predicate InsideStart(s: State) {
    s.mutex.HeldByWaiter? || (s.run.Starting? && LocksStart(s.run.at))
  }

  predicate BeforeLaunch(s: State) {
    s.run == Starting(Launching) || (s.mutex.HeldByWaiter? && At(s, s.mutex.id, Restarting(Launching)))
  }

  ghost predicate StartInv(s: State) {
    && (InsideStart(s) ==> !s.running && !s.stopping && !LastOwns(s))
    && (BeforeLaunch(s) ==> s.cmd < |s.children| && s.children[s.cmd] == NotStarted)
  }

  ghost predicate ChildInv(s: State) {
    && (forall k :: 0 <= k < |s.children| && (s.children[k].Alive? || s.children[k].Exited?) ==>
          k == s.cmd && LastIs(s, Watches))
    && (LastOwns(s) ==>
          var w := s.waiters[|s.waiters| - 1];
          s.cmd < |s.children| &&
          (w.Spawned? ==> s.children[s.cmd].Alive? || s.children[s.cmd].Exited?) &&
          (w.Waiting? ==> w.cmd == s.cmd && !s.children[s.cmd].NotStarted?) &&
          (!Watches(w) ==> s.children[s.cmd].Reaped?))
  }

  ghost predicate ChannelInv(s: State) {
    && !s.done.panicked
    && s.done.sends == (if LastIs(s, (w: Waiter) => w.Closing? || w.Closed?) then 1 else 0)
    && s.done.closes == (if LastIs(s, (w: Waiter) => w.Closed?) then 1 else 0)
    && (LastIs(s, (w: Waiter) => w.Sending? || w.Closing? || w.Closed?) ==> s.stopping)
    && s.done.buffered <= s.done.sends
    && (!s.run.Stopped? ==> s.done.buffered == s.done.sends)
  }

  ghost predicate ResultInv(s: State) {
    s.run == Stopped(true) ==>
      forall k :: 0 <= k < |s.children| && s.children[k].Alive? ==> k in s.killed
  }

  ghost predicate Inv(s: State) {
    MutexInv(s) && OwnerInv(s) && StartInv(s) && ChildInv(s) && ChannelInv(s) && ResultInv(s)
  }

  lemma FlaggingKeepsInv(s: State, e: Event)
    requires Inv(s) && Enabled(s, e)
    requires e.ShutdownLock? || e.SetStopping?
    ensures Inv(Apply(s, e))
  {
  }

  lemma CheckingKeepsInv(s: State, e: Event)
    requires Inv(s) && Enabled(s, e)
    requires e.CheckRunning? || e.CheckExited?
    ensures Inv(Apply(s, e))
  {
  }

  lemma SignallingKeepsInv(s: State, e: Event)
    requires Inv(s) && Enabled(s, e)
    requires e.Terminate? || e.Kill?
    ensures Inv(Apply(s, e))
  {
  }

  lemma ReceivingKeepsInv(s: State, e: Event)
    requires Inv(s) && Enabled(s, e)
    requires e.Receive?
    ensures Inv(Apply(s, e))
  {
  }

  lemma TimingOutKeepsInv(s: State, e: Event)
    requires Inv(s) && Enabled(s, e)
    requires e.Timeout? || e.KillLate?
    ensures Inv(Apply(s, e))
  {
  }

  lemma ExitKeepsInv(s: State, e: Event)
    requires Inv(s) && Enabled(s, e)
    requires e.ReadCmd? || e.Exit? || e.Reap? || e.WaitReturns?
    ensures Inv(Apply(s, e))
  {
  }

  lemma DecidingKeepsInv(s: State, e: Event)
    requires Inv(s) && Enabled(s, e)
    requires e.ReadStopping?
    ensures Inv(Apply(s, e))
  {
  }

  lemma HandingOverKeepsInv(s: State, e: Event)
    requires Inv(s) && Enabled(s, e)
    requires e.Send? || e.Close?
    ensures Inv(Apply(s, e))
  {
  }

  lemma RestartingKeepsInv(s: State, e: Event)
    requires Inv(s) && Enabled(s, e)
    requires e.Clear? || e.Wake?
    ensures Inv(Apply(s, e))
  {
  }

  lemma StartKeepsInv(s: State, e: Event)
    requires Inv(s) && Enabled(s, e)
    requires e.StartLock?
    ensures Inv(Apply(s, e))
  {
  }

  lemma BuildKeepsInv(s: State, e: Event)
    requires Inv(s) && Enabled(s, e)
    requires e.Build?
    ensures Inv(Apply(s, e))
  {
  }

  lemma LaunchKeepsInv(s: State, e: Event)
    requires Inv(s) && Enabled(s, e)
    requires e.Launch?
    ensures Inv(Apply(s, e))
  {
  }

  lemma StepKeepsInv(s: State, e: Event)
    requires Inv(s) && Enabled(s, e)
    ensures Inv(Apply(s, e))
  {
    match e {
      case StartLock(_) => StartKeepsInv(s, e);
      case Build(_) => BuildKeepsInv(s, e);
      case Launch(_, _) => LaunchKeepsInv(s, e);
      case ReadCmd(_) => ExitKeepsInv(s, e);
      case Exit(_) => ExitKeepsInv(s, e);
      case Reap(_) => ExitKeepsInv(s, e);
      case WaitReturns(_) => ExitKeepsInv(s, e);
      case ReadStopping(_) => DecidingKeepsInv(s, e);
      case Send(_) => HandingOverKeepsInv(s, e);
      case Close(_) => HandingOverKeepsInv(s, e);
      case Clear(_) => RestartingKeepsInv(s, e);
      case Wake(_) => RestartingKeepsInv(s, e);
      case ShutdownLock => FlaggingKeepsInv(s, e);
      case SetStopping => FlaggingKeepsInv(s, e);
      case CheckRunning => CheckingKeepsInv(s, e);
      case CheckExited(_) => CheckingKeepsInv(s, e);
      case Terminate(_) => SignallingKeepsInv(s, e);
      case Kill(_) => SignallingKeepsInv(s, e);
      case Receive => ReceivingKeepsInv(s, e);
      case Timeout => TimingOutKeepsInv(s, e);
      case KillLate(_) => TimingOutKeepsInv(s, e);
    }
  }

  lemma RunKeepsInv(s: State, es: seq<Event>, t: State)
    requires Inv(s) && Reaches(Next, s, es, t)
    ensures Inv(t)
  {
    forall u, e | Inv(u) && Next(u, e).Some? ensures Inv(Next(u, e).value) {
      StepKeepsInv(u, e);
    }
    Invariant(Next, Inv, s, es, t);
  }

  // ---------------------------------------------------------------- safety

  ghost predicate OneChildAlive(s: State) {
    forall j, k | 0 <= j < |s.children| && 0 <= k < |s.children| ::
      s.children[j].Alive? && s.children[k].Alive? ==> j == k
  }

  ghost predicate AliveIsWatched(s: State) {
    forall k :: 0 <= k < |s.children| && s.children[k].Alive? ==>
      k == s.cmd && exists i :: 0 <= i < |s.waiters| && Watches(s.waiters[i])
  }

  ghost predicate OneOwner(s: State) {
    forall i, j | 0 <= i < |s.waiters| && 0 <= j < |s.waiters| ::
      Owns(s.waiters[i]) && Owns(s.waiters[j]) ==> i == j
  }

  ghost predicate RunningIffOwned(s: State) {
    !s.stopping ==> (s.running <==> exists i :: 0 <= i < |s.waiters| && Owns(s.waiters[i]))
  }

  /** The command is not replaced while a waiter is inside Wait on it. */
  ghost predicate WaitsOnCurrent(s: State) {
    forall i :: 0 <= i < |s.waiters| && s.waiters[i].Waiting? ==> s.waiters[i].cmd == s.cmd
  }

  ghost predicate OneShot(s: State) {
    && s.done.closes <= s.done.sends <= 1
    && !s.done.panicked
    && (forall i :: 0 <= i < |s.waiters| && s.waiters[i].Sending? ==>
          s.done.closes == 0 && Enabled(s, Send(i)))
    && (forall i :: 0 <= i < |s.waiters| && s.waiters[i].Closing? ==> s.done.sends == 1 && s.done.closes == 0)
  }

  ghost predicate Safe(s: State) {
    OneChildAlive(s) && AliveIsWatched(s) && OneOwner(s) && RunningIffOwned(s) &&
    WaitsOnCurrent(s) && OneShot(s) && ResultInv(s)
  }

  lemma OwnershipIsSafe(s: State)
    requires Inv(s)
    ensures OneOwner(s) && RunningIffOwned(s) && WaitsOnCurrent(s) && OneShot(s)
  {
    var last := |s.waiters| - 1;
    if LastOwns(s) {
      assert Owns(s.waiters[last]);
    }
    assert forall i :: 0 <= i < |s.waiters| && Owns(s.waiters[i]) ==> i == last;
  }

  lemma ChildrenAreSafe(s: State)
    requires Inv(s)
    ensures OneChildAlive(s) && AliveIsWatched(s)
  {
    if exists k :: 0 <= k < |s.children| && s.children[k].Alive? {
      assert Watches(s.waiters[|s.waiters| - 1]);
    }
  }

  /** Safety of every interleaving of starts, exits, restarts and the shutdown. */
  lemma EveryRunIsSafe(es: seq<Event>, s: State)
    requires Reaches(Next, Init(), es, s)
    ensures Safe(s)
  {
    RunKeepsInv(Init(), es, s);
    OwnershipIsSafe(s);
    ChildrenAreSafe(s);
  }

  // ------------------------------------------- finality and bounded stopping

  function WaiterWork(w: Waiter): nat {
    match w
    case Spawned => 6
    case Waiting(_) => 5
    case Returned => 4
    case Clearing => 3
    case Sleeping => 2
    case Restarting(_) => 1
    case Sending => 2
    case Closing => 1
    case Closed => 0
    case Ended => 0
  }

  function RunWork(r: Lifecycle): nat {
    match r
    case Inspecting => 6
    case Probing => 5
    case Terminating => 4
    case Killing => 3
    case Selecting => 2
    case TimedOut => 1
    case _ => 0
  }

  function ChildWork(c: Child): nat {
    match c case Alive => 2 case Exited => 1 case _ => 0
  }

  /** The steps that are left once `stopping` is set. */
  function Work(s: State): nat {
    RunWork(s.run) + Sum(WaiterWork, s.waiters) + Sum(ChildWork, s.children)
  }

  ghost predicate StaysStopped(s: State, t: State) {
    && t.stopping
    && t.cmd == s.cmd && |t.children| == |s.children| && |t.waiters| == |s.waiters|
    && (forall k :: 0 <= k < |s.children| && t.children[k].Alive? ==> s.children[k].Alive?)
    && (s.run.Stopped? ==> t.run == s.run && t.killed == s.killed)
  }

  lemma NoStartWhenStopping(s: State, e: Event)
    requires Inv(s) && s.stopping && Enabled(s, e)
    ensures !e.Build? && !e.Launch? && (e.StartLock? ==> e.c.ByWaiter?)
  {
  }

  lemma StoppingStep(s: State, e: Event)
    requires Inv(s) && s.stopping && Enabled(s, e)
    ensures StaysStopped(s, Apply(s, e))
  {
    NoStartWhenStopping(s, e);
  }

  lemma WaiterMoveWorks(s: State, t: State, i: nat, w: Waiter)
    requires i < |s.waiters| && WaiterWork(w) < WaiterWork(s.waiters[i])
    requires t.waiters == s.waiters[i := w] && t.run == s.run && t.children == s.children
    ensures Work(t) < Work(s)
  {
    SumUpdate(WaiterWork, s.waiters, i, w);
  }

  lemma ChildMoveWorks(s: State, t: State, k: nat, c: Child)
    requires k < |s.children| && ChildWork(c) < ChildWork(s.children[k])
    requires t.children == s.children[k := c] && t.run == s.run && t.waiters == s.waiters
    ensures Work(t) < Work(s)
  {
    SumUpdate(ChildWork, s.children, k, c);
  }

  predicate ByAWaiter(e: Event) {
    e.ReadCmd? || e.WaitReturns? || e.ReadStopping? || e.Send? || e.Close? || e.Clear? || e.Wake? || e.StartLock?
  }

  lemma WaiterStepWorks(s: State, e: Event)
    requires Inv(s) && s.stopping && Enabled(s, e) && ByAWaiter(e)
    ensures Work(Apply(s, e)) < Work(s)
  {
    var i := if e.StartLock? then e.c.id else e.i;
    WaiterMoveWorks(s, Apply(s, e), i, Apply(s, e).waiters[i]);
  }

  lemma StoppingStepWorks(s: State, e: Event)
    requires Inv(s) && s.stopping && Enabled(s, e)
    ensures Work(Apply(s, e)) < Work(s)
  {
    var t := Apply(s, e);
    if ByAWaiter(e) {
      WaiterStepWorks(s, e);
    } else if e.Reap? {
      ChildMoveWorks(s, t, s.waiters[e.i].cmd, Reaped);
    } else if e.Exit? {
      ChildMoveWorks(s, t, e.child, Exited);
    } else {
      assert t.waiters == s.waiters && t.children == s.children;
    }
  }

  /** After `stopping` is set no child is started, and the goroutines take at most
      `Work(s)` more steps, whatever the interleaving. */
  lemma {:induction false} StoppingRunIsBounded(s: State, es: seq<Event>, t: State)
    requires Inv(s) && s.stopping && Reaches(Next, s, es, t)
    ensures StaysStopped(s, t) && |es| + Work(t) <= Work(s)
    decreases |es|
  {
    if es != [] {
      assert Begins(Next, s, es, t);
      var n := Apply(s, es[0]);
      StepKeepsInv(s, es[0]);
      StoppingStep(s, es[0]);
      StoppingStepWorks(s, es[0]);
      StoppingRunIsBounded(n, es[1..], t);
    }
  }

  /** When shutdown has returned nil, then from there on, in every run, a child
      that is still alive is one that was sent SIGKILL before shutdown returned. */
  lemma ShutdownIsFinal(es: seq<Event>, s: State, more: seq<Event>, t: State)
    requires Reaches(Next, Init(), es, s) && s.run == Stopped(true) && Reaches(Next, s, more, t)
    ensures t.run == Stopped(true) && !t.running && |t.children| == |s.children|
    ensures forall k :: 0 <= k < |t.children| && t.children[k].Alive? ==> k in s.killed
  {
    RunKeepsInv(Init(), es, s);
    RunKeepsInv(s, more, t);
    StoppingRunIsBounded(s, more, t);
  }

  predicate Finished(s: State, i: nat)
    requires i < |s.waiters|
  {
    var w := s.waiters[i];
    w.Closed? || w.Ended? || (w.Waiting? && w.cmd < |s.children| && s.children[w.cmd].Alive?)
  }

  /** The step that an unfinished goroutine of a stopping worker can take. */
  function NextStep(s: State): Event {
    match s.run
    case Inspecting => CheckRunning
    case Probing => CheckExited(true)
    case Terminating => Terminate(true)
    case Killing => Kill(true)
    case Selecting => Timeout
    case _ => KillLate(true)
  }

  function NextWaiterStep(s: State, i: nat): Event
    requires i < |s.waiters|
  {
    match s.waiters[i]
    case Spawned => ReadCmd(i)
    case Waiting(c) => if c < |s.children| && s.children[c] == Exited then Reap(i) else WaitReturns(i)
    case Returned => ReadStopping(i)
    case Sending => Send(i)
    case Closing => Close(i)
    case Clearing => Clear(i)
    case Sleeping => Wake(i)
    case _ => StartLock(ByWaiter(i))
  }

  lemma UnfinishedCanMove(s: State)
    requires Inv(s) && s.stopping
    ensures s.run.Stopped? || Enabled(s, NextStep(s))
    ensures s.run.Stopped? ==>
              forall i :: 0 <= i < |s.waiters| ==> Finished(s, i) || Enabled(s, NextWaiterStep(s, i))
  {
  }

  lemma FinishedCannotMove(s: State, e: Event)
    requires Inv(s) && s.run.Stopped? && !e.Exit?
    requires forall i :: 0 <= i < |s.waiters| ==> Finished(s, i)
    ensures !Enabled(s, e)
  {
    if e.StartLock? || e.Build? || e.Launch? {
      assert e.c.ByWaiter? && e.c.id < |s.waiters| ==> Finished(s, e.c.id);
    } else if ByAWaiter(e) || e.Reap? {
      assert e.i < |s.waiters| ==> Finished(s, e.i);
    }
  }

  /** A stopping worker is never deadlocked: when no goroutine can move, `Run` has
      returned and every waiter has finished or waits for a child that is alive. */
  lemma QuietExactlyWhenFinished(es: seq<Event>, s: State)
    requires Reaches(Next, Init(), es, s) && s.stopping
    ensures (forall e :: Enabled(s, e) ==> e.Exit?) <==>
            s.run.Stopped? && forall i :: 0 <= i < |s.waiters| ==> Finished(s, i)
  {
    RunKeepsInv(Init(), es, s);
    UnfinishedCanMove(s);
    if s.run.Stopped? && forall i :: 0 <= i < |s.waiters| ==> Finished(s, i) {
      forall e: Event | !e.Exit? ensures !Enabled(s, e) {
        FinishedCannotMove(s, e);
      }
    }
  }

  // ------------------------------------------------------------ supervision

  predicate RestartFails(e: Event) { e.Launch? && e.c.ByWaiter? && !e.launched }

  ghost predicate Abandoned(s: State) { LastIs(s, (w: Waiter) => w.Ended?) }

  ghost predicate SupervisionInv(s: State, failed: bool) {
    && (s.run.Serving? ==> s.waiters != [] && (Abandoned(s) <==> failed))
    && (s.run.Starting? || s.run.Failed? ==> !failed)
  }

  lemma SupervisionStep(s: State, failed: bool, e: Event)
    requires Inv(s) && SupervisionInv(s, failed) && Enabled(s, e)
    ensures SupervisionInv(Apply(s, e), failed || RestartFails(e))
  {
    if e.StartLock? || e.Build? || e.Launch? {
      SupervisionStart(s, failed, e);
    }
  }

  lemma SupervisionStart(s: State, failed: bool, e: Event)
    requires Inv(s) && SupervisionInv(s, failed) && Enabled(s, e)
    requires e.StartLock? || e.Build? || e.Launch?
    ensures SupervisionInv(Apply(s, e), failed || RestartFails(e))
  {
  }

  lemma {:induction false} SupervisionRun(s: State, failed: bool, es: seq<Event>, t: State)
    requires Inv(s) && SupervisionInv(s, failed) && Reaches(Next, s, es, t)
    ensures SupervisionInv(t, failed || exists e :: e in es && RestartFails(e))
    decreases |es|
  {
    if es != [] {
      assert Begins(Next, s, es, t);
      var n := Apply(s, es[0]);
      StepKeepsInv(s, es[0]);
      assert forall e :: e in es <==> e == es[0] || e in es[1..];
      SupervisionStep(s, failed, es[0]);
      SupervisionRun(n, failed || RestartFails(es[0]), es[1..], t);
    }
  }

  /** While the worker serves, some waiter is left to restart it exactly when no
      restart has failed: one failed restart is never retried. */
  lemma SupervisedUntilRestartFails(es: seq<Event>, s: State)
    requires Reaches(Next, Init(), es, s) && s.run == Serving
    ensures (forall i :: 0 <= i < |s.waiters| ==> s.waiters[i].Ended?) <==>
            exists e :: e in es && RestartFails(e)
  {
    RunKeepsInv(Init(), es, s);
    SupervisionRun(Init(), false, es, s);
  }

  const NO_EXIT: Channel := Channel(0, 0, 0, false)

  lemma FirstLaunch(s: State) returns (es: seq<Event>, t: State)
    requires s == Init()
    ensures Reaches(Next, s, es, t)
    ensures t == State(Free, true, false, 0, [Alive], {}, NO_EXIT, Serving, [Spawned])
  {
    Extend(Next, s, [], s, StartLock(ByRun));
    var a := Apply(s, StartLock(ByRun));
    assert a == State(HeldByRun, false, false, 0, [], {}, NO_EXIT, Starting(Building), []);
    Extend(Next, s, [] + [StartLock(ByRun)], a, Build(ByRun));
    var b := Apply(a, Build(ByRun));
    assert b == State(HeldByRun, false, false, 0, [NotStarted], {}, NO_EXIT, Starting(Launching), []);
    Extend(Next, s, [] + [StartLock(ByRun)] + [Build(ByRun)], b, Launch(ByRun, true));
    t := Apply(b, Launch(ByRun, true));
    assert t == State(Free, true, false, 0, [Alive], {}, NO_EXIT, Serving, [Spawned]);
    es := [] + [StartLock(ByRun)] + [Build(ByRun)] + [Launch(ByRun, true)];
  }

  lemma ChildExits(s: State) returns (es: seq<Event>, t: State)
    requires s == State(Free, true, false, 0, [Alive], {}, NO_EXIT, Serving, [Spawned])
    ensures Reaches(Next, s, es, t)
    ensures t == State(Free, true, false, 0, [Reaped], {}, NO_EXIT, Serving, [Returned])
  {
    Extend(Next, s, [], s, ReadCmd(0));
    var a := Apply(s, ReadCmd(0));
    assert a == State(Free, true, false, 0, [Alive], {}, NO_EXIT, Serving, [Waiting(0)]);
    Extend(Next, s, [] + [ReadCmd(0)], a, Exit(0));
    var b := Apply(a, Exit(0));
    assert b == State(Free, true, false, 0, [Exited], {}, NO_EXIT, Serving, [Waiting(0)]);
    Extend(Next, s, [] + [ReadCmd(0)] + [Exit(0)], b, Reap(0));
    var c := Apply(b, Reap(0));
    assert c == State(Free, true, false, 0, [Reaped], {}, NO_EXIT, Serving, [Waiting(0)]);
    Extend(Next, s, [] + [ReadCmd(0)] + [Exit(0)] + [Reap(0)], c, WaitReturns(0));
    t := Apply(c, WaitReturns(0));
    assert t == State(Free, true, false, 0, [Reaped], {}, NO_EXIT, Serving, [Returned]);
    es := [] + [ReadCmd(0)] + [Exit(0)] + [Reap(0)] + [WaitReturns(0)];
  }

  lemma WaiterRestarts(s: State) returns (es: seq<Event>, t: State)
    requires s == State(Free, true, false, 0, [Reaped], {}, NO_EXIT, Serving, [Returned])
    ensures Reaches(Next, s, es, t)
    ensures t == State(Free, false, false, 0, [Reaped], {}, NO_EXIT, Serving, [Restarting(AtLock)])
  {
    Extend(Next, s, [], s, ReadStopping(0));
    var a := Apply(s, ReadStopping(0));
    assert a == State(Free, true, false, 0, [Reaped], {}, NO_EXIT, Serving, [Clearing]);
    Extend(Next, s, [] + [ReadStopping(0)], a, Clear(0));
    var b := Apply(a, Clear(0));
    assert b == State(Free, false, false, 0, [Reaped], {}, NO_EXIT, Serving, [Sleeping]);
    Extend(Next, s, [] + [ReadStopping(0)] + [Clear(0)], b, Wake(0));
    t := Apply(b, Wake(0));
    assert t == State(Free, false, false, 0, [Reaped], {}, NO_EXIT, Serving, [Restarting(AtLock)]);
    es := [] + [ReadStopping(0)] + [Clear(0)] + [Wake(0)];
  }

  lemma RestartFailing(s: State) returns (es: seq<Event>, t: State)
    requires s == State(Free, false, false, 0, [Reaped], {}, NO_EXIT, Serving, [Restarting(AtLock)])
    ensures Reaches(Next, s, es, t)
    ensures t == State(Free, false, false, 1, [Reaped, NotStarted], {}, NO_EXIT, Serving, [Ended])
  {
    Extend(Next, s, [], s, StartLock(ByWaiter(0)));
    var a := Apply(s, StartLock(ByWaiter(0)));
    assert a == State(HeldByWaiter(0), false, false, 0, [Reaped], {}, NO_EXIT, Serving, [Restarting(Building)]);
    Extend(Next, s, [] + [StartLock(ByWaiter(0))], a, Build(ByWaiter(0)));
    var b := Apply(a, Build(ByWaiter(0)));
    assert b == State(HeldByWaiter(0), false, false, 1, [Reaped, NotStarted], {}, NO_EXIT, Serving,
                      [Restarting(Launching)]);
    Extend(Next, s, [] + [StartLock(ByWaiter(0))] + [Build(ByWaiter(0))], b, Launch(ByWaiter(0), false));
    t := Apply(b, Launch(ByWaiter(0), false));
    assert t == State(Free, false, false, 1, [Reaped, NotStarted], {}, NO_EXIT, Serving, [Ended]);
    es := [] + [StartLock(ByWaiter(0))] + [Build(ByWaiter(0))] + [Launch(ByWaiter(0), false)];
  }

  /** It does occur: after one exit and one failed restart the worker serves on with no
      child, and nobody is left to start one. */
  lemma SupervisionLost()
    ensures exists es, s :: Reaches(Next, Init(), es, s) && s.run == Serving &&
                            s.waiters == [Ended] && !s.running
  {
    var s := Init();
    var es1, t := FirstLaunch(s);
    var es2, u := ChildExits(t);
    var es3, v := WaiterRestarts(u);
    var es4, w := RestartFailing(v);
    Append(Next, s, es1, t, es2, u);
    Append(Next, s, es1 + es2, u, es3, v);
    Append(Next, s, es1 + es2 + es3, v, es4, w);
  }

  // ------------------------------------------------------- the worker object

  /** The caller of `start` is out of it: `Run` serves or has failed, a waiter has ended. */
  predicate Left(s: State, t: State, c: Caller, failed: bool) {
    match c
    case ByRun => t.run == (if failed then Failed else Serving) && s.waiters <= t.waiters
    case ByWaiter(i) => t.run == s.run && i < |t.waiters| && t.waiters[i] == Ended
  }

  predicate ByMain(e: Event) {
    e.ShutdownLock? || e.SetStopping? || e.CheckRunning? || e.CheckExited? || e.Terminate? || e.Kill? ||
    e.Receive? || e.Timeout? || e.KillLate? || ((e.StartLock? || e.Build? || e.Launch?) && e.c == ByRun)
  }

  /** The steps of the waiters and of the children, not of the goroutine of `Run`. */
  function OthersNext(s: State, e: Event): Option<State> {
    if Enabled(s, e) && !ByMain(e) then Some(Apply(s, e)) else None
  }

  lemma {:induction false} ScriptKeepsMain(s: State, es: seq<Event>)
    ensures Script(OthersNext, s, es).run == s.run && Script(OthersNext, s, es).killed == s.killed
  {
    if es != [] {
      ScriptKeepsMain(s, es[..|es| - 1]);
    }
  }

  /** Shutdown gets past its test of the process and has to stop it. */
  predicate MustStop(s: State, exited: bool) {
    s.running && s.cmd < |s.children| && !(s.children[s.cmd] == Reaped && exited)
  }

  /** The outcomes of the process calls of shutdown: whether the exit was a normal one, and
      whether SIGTERM and SIGKILL could be sent. */
  datatype Outcomes = Outcomes(exited: bool, delivered: bool, killDelivered: bool)

  /** The events of shutdown itself carry these outcomes. */
  predicate Fits(e: Event, o: Outcomes) {
    && (e.CheckExited? ==> e.normally == o.exited)
    && (e.Terminate? ==> e.delivered == o.delivered)
    && (e.Kill? || e.KillLate? ==> e.delivered == o.killDelivered)
  }

  ghost predicate Conforms(es: seq<Event>, o: Outcomes) { forall e :: e in es ==> Fits(e, o) }

  /** SIGTERM was tried. */
  predicate Signalled(es: seq<Event>) { Terminate(true) in es || Terminate(false) in es }

  /** The state in which shutdown arrives at its select. */
  function AtSelect(s: State, killed: bool): State {
    s.(mutex := HeldByRun, stopping := true, running := false, run := Selecting,
       killed := if killed then s.killed + {s.cmd} else s.killed)
  }

  /** The steps by which the waiter `i` hands over the exit of its child. */
  function ExitEvents(i: nat, cmd: nat): seq<Event> {
    [] + [Exit(cmd)] + [Reap(i)] + [WaitReturns(i)] + [ReadStopping(i)] + [Send(i)]
  }

  lemma ExitIsAwaited(s: State, i: nat)
    requires s.cmd < |s.children| && s.children[s.cmd] == Alive && At(s, i, Waiting(s.cmd))
    ensures Script(OthersNext, s, [] + [Exit(s.cmd)] + [Reap(i)] + [WaitReturns(i)]) ==
            s.(children := s.children[s.cmd := Reaped], waiters := s.waiters[i := Returned])
  {
    var s1 := s.(children := s.children[s.cmd := Exited]);
    var s2 := s.(children := s.children[s.cmd := Reaped]);
    assert s1.children[s.cmd := Reaped] == s2.children;
    ScriptStep(OthersNext, s, [], s, Exit(s.cmd));
    ScriptStep(OthersNext, s, [] + [Exit(s.cmd)], s1, Reap(i));
    ScriptStep(OthersNext, s, [] + [Exit(s.cmd)] + [Reap(i)], s2, WaitReturns(i));
  }

  lemma ExitIsSent(s: State, i: nat)
    requires s.stopping && s.cmd < |s.children| && s.children[s.cmd] == Alive
    requires At(s, i, Waiting(s.cmd)) && s.done == Channel(0, 0, 0, false)
    ensures Script(OthersNext, s, ExitEvents(i, s.cmd)).done == Channel(1, 1, 0, false)
  {
    ExitIsAwaited(s, i);
    var es := [] + [Exit(s.cmd)] + [Reap(i)] + [WaitReturns(i)];
    var t := s.(children := s.children[s.cmd := Reaped], waiters := s.waiters[i := Returned]);
    var u := t.(waiters := t.waiters[i := Sending]);
    ScriptStep(OthersNext, s, es, t, ReadStopping(i));
    ScriptStep(OthersNext, s, es + [ReadStopping(i)], u, Send(i));
  }

  /** Shutdown returned without touching the process or letting others move. */
  predicate Unstopped(s: State, t: State) {
    t.killed == s.killed && t.waiters == s.waiters && t.children == s.children
  }

  /** How shutdown stops a running child: nil exactly when a signal was delivered and the
      exit was received or SIGKILL delivered; SIGKILL exactly when SIGTERM failed or the
      exit was not received; others moved exactly if the select was reached. */
  predicate StopsAs(s: State, t: State, o: Outcomes, others: seq<Event>, timeout: bool, ok: bool, received: bool) {
    var waited := Script(OthersNext, AtSelect(s, !o.delivered), others);
    var reached := o.delivered || o.killDelivered;
    && (received <==> reached && !timeout && waited.done.buffered > 0)
    && (ok <==> reached && (received || o.killDelivered))
    && t.killed == s.killed + (if o.killDelivered && (!o.delivered || !received) then {s.cmd} else {})
    && t.waiters == (if reached then waited else s).waiters
    && t.children == (if reached then waited else s).children
  }

  /** A child that exits while shutdown waits is handed over by its waiter: no step of the
      waiter needs the mutex that shutdown holds. */
  lemma ExitReachesSelect(s: State, killed: bool)
    requires Inv(s) && s.run == Serving && LastIs(s, (w: Waiter) => w.Waiting?)
    requires s.cmd < |s.children| && s.children[s.cmd] == Alive
    ensures Script(OthersNext, AtSelect(s, killed), ExitEvents(|s.waiters| - 1, s.cmd)).done.buffered == 1
  {
    assert At(s, |s.waiters| - 1, Waiting(s.cmd)) && s.done == Channel(0, 0, 0, false);
    ExitIsSent(AtSelect(s, killed), |s.waiters| - 1);
  }

  /** The worker with the source's fields and the positions of its goroutines.  A method
      executes one body of the source; its contract is that this is a run of the step
      system. */
  class Worker {
    var mutex: Mutex
    var running: bool
    var stopping: bool
    var cmd: nat
    var children: seq<Child>
    var killed: set<nat>
    var done: Channel
    var run: Lifecycle
    var waiters: seq<Waiter>

    function View(): State
      reads this
    {
      State(mutex, running, stopping, cmd, children, killed, done, run, waiters)
    }

    constructor ()
      ensures View() == Init()
    {
      mutex, running, stopping, cmd, children, killed := Free, false, false, 0, [], {};
      done, run, waiters := Channel(0, 0, 0, false), Starting(AtLock), [];
    }

    method MoveTo(c: Caller, p: StartPhase)
      requires c.ByWaiter? ==> c.id < |waiters|
      modifies this`run, this`waiters
      ensures View() == Move(old(View()), c, p)
    {
      match c {
        case ByRun => run := Starting(p);
        case ByWaiter(i) => waiters := waiters[i := Restarting(p)];
      }
    }

    method ReturnTo(c: Caller, failed: bool)
      requires c.ByWaiter? ==> c.id < |waiters|
      modifies this`run, this`waiters
      ensures View() == Leave(old(View()), c, failed)
    {
      match c {
        case ByRun => run := if failed then Failed else Serving;
        case ByWaiter(i) => waiters := waiters[i := Ended];
      }
    }

    /** `launched` is the outcome of starting the process. */
    method Start(c: Caller, launched: bool) returns (err: bool, ghost trace: seq<Event>)
      requires InStart(View(), c, AtLock) && mutex == Free
      modifies this
      ensures Reaches(Next, old(View()), trace, View())
      ensures err <==> !old(running) && !old(stopping) && !launched
      ensures !err && !old(running) && !old(stopping) ==>
                running && children == old(children) + [Alive] && cmd == |old(children)| &&
                |waiters| == |old(waiters)| + 1 && waiters[|waiters| - 1] == Spawned
      ensures err ==> !running && children == old(children) + [NotStarted] && |waiters| == |old(waiters)|
      ensures old(running) || old(stopping) ==>
                running == old(running) && children == old(children) && |waiters| == |old(waiters)|
      ensures Left(old(View()), View(), c, err)
      ensures mutex == Free && stopping == old(stopping)
    {
      ghost var s := View();
      Extend(Next, s, [], s, StartLock(c));
      trace := [] + [StartLock(c)];
      if running || stopping {
        ReturnTo(c, false);
        return false, trace;
      }
      MoveTo(c, Building);
      mutex := Holder(c);
      trace := LaunchNew(c, launched, s, trace);
      err := !launched;
    }

    method LaunchNew(c: Caller, launched: bool, ghost s: State, ghost before: seq<Event>)
      returns (ghost trace: seq<Event>)
      requires Reaches(Next, s, before, View()) && InStart(View(), c, Building)
      modifies this
      ensures Reaches(Next, s, trace, View())
      ensures mutex == Free && stopping == old(stopping)
      ensures cmd == |old(children)| && children == old(children) + [if launched then Alive else NotStarted]
      ensures running == (launched || old(running))
      ensures |waiters| == |old(waiters)| + One(launched) && (launched ==> waiters[|waiters| - 1] == Spawned)
      ensures Left(old(View()), View(), c, !launched)
    {
      Extend(Next, s, before, View(), Build(c));
      trace := before + [Build(c)];
      BuildCmd(c);
      Extend(Next, s, trace, View(), Launch(c, launched));
      trace := trace + [Launch(c, launched)];
      LaunchCmd(c, launched);
    }

    method BuildCmd(c: Caller)
      requires Enabled(View(), Build(c))
      modifies this`cmd, this`children, this`run, this`waiters
      ensures View() == Apply(old(View()), Build(c))
      ensures running == old(running) && |waiters| == |old(waiters)|
      ensures if c.ByRun? then waiters == old(waiters) else run == old(run)
      ensures InStart(View(), c, Launching) && cmd == |old(children)| && children == old(children) + [NotStarted]
    {
      cmd := |children|;
      children := children + [NotStarted];
      MoveTo(c, Launching);
    }

    method LaunchCmd(c: Caller, launched: bool)
      requires Enabled(View(), Launch(c, launched))
      modifies this`mutex, this`children, this`running, this`run, this`waiters
      ensures View() == Apply(old(View()), Launch(c, launched))
      ensures mutex == Free && running == (launched || old(running))
      ensures children == if launched then old(children)[cmd := Alive] else old(children)
      ensures |waiters| == |old(waiters)| + One(launched) && (launched ==> waiters[|waiters| - 1] == Spawned)
      ensures Left(old(View()), View(), c, !launched)
    {
      ReturnTo(c, !launched);
      if launched {
        children := children[cmd := Alive];
        running := true;
        waiters := waiters + [Spawned];
      }
      mutex := Free;
    }

    method Become(t: State)
      modifies this
      ensures View() == t
    {
      mutex, running, stopping, cmd, children, killed := t.mutex, t.running, t.stopping, t.cmd, t.children, t.killed;
      done, run, waiters := t.done, t.run, t.waiters;
    }

    /** While shutdown waits at its select, waiters and children take the steps of
        `others`; then the timeout fires, or the exit is received if it is there. */
    method Shutdown(o: Outcomes, others: seq<Event>, timeout: bool)
      returns (ok: bool, received: bool, ghost trace: seq<Event>)
      requires Inv(View()) && run == Serving && mutex == Free
      modifies this
      ensures Reaches(Next, old(View()), trace, View()) && Inv(View())
      ensures run == Stopped(ok) && mutex == Free && stopping && !running
      ensures ok ==> forall k :: 0 <= k < |children| && children[k].Alive? ==> k in killed
      ensures !MustStop(old(View()), o.exited) ==> ok && !received && Unstopped(old(View()), View())
      ensures MustStop(old(View()), o.exited) ==> StopsAs(old(View()), View(), o, others, timeout, ok, received)
      ensures received <==>
                old(running) && !(old(children[cmd]) == Reaped && o.exited) &&
                (o.delivered || o.killDelivered) && !timeout &&
                Script(OthersNext, AtSelect(old(View()), !o.delivered), others).done.buffered > 0
      ensures old(running) && !(old(children[cmd]) == Reaped && o.exited) && !received ==> (ok <==> o.killDelivered)
      ensures Signalled(trace) <==> old(running) && !(old(children[cmd]) == Reaped && o.exited)
      ensures Conforms(trace, o)
    {
      ghost var s := View();
      trace := BeginShutdown(o);
      if running {
        trace := ClaimStop(s, trace, o);
        ok, received, trace := StopRunning(s, trace, o, others, timeout);
      } else {
        trace := StopNothing(s, trace, o);
        ok, received := true, false;
      }
      RunKeepsInv(s, trace, View());
    }

    method StopNothing(ghost s: State, ghost before: seq<Event>, ghost o: Outcomes) returns (ghost trace: seq<Event>)
      requires Reaches(Next, s, before, View()) && Conforms(before, o) && !Signalled(before)
      requires run == Inspecting && !running
      modifies this`mutex, this`run
      ensures Reaches(Next, s, trace, View()) && Conforms(trace, o) && !Signalled(trace)
      ensures View() == old(View()).(run := Stopped(true), mutex := Free)
    {
      Extend(Next, s, before, View(), CheckRunning);
      trace := before + [CheckRunning];
      run, mutex := Stopped(true), Free;
    }

    method ClaimStop(ghost s: State, ghost before: seq<Event>, ghost o: Outcomes) returns (ghost trace: seq<Event>)
      requires Reaches(Next, s, before, View()) && Conforms(before, o) && !Signalled(before)
      requires run == Inspecting && running
      modifies this`running, this`run
      ensures Reaches(Next, s, trace, View()) && Conforms(trace, o) && !Signalled(trace)
      ensures View() == old(View()).(running := false, run := Probing)
    {
      Extend(Next, s, before, View(), CheckRunning);
      trace := before + [CheckRunning];
      running, run := false, Probing;
    }

    method BeginShutdown(ghost o: Outcomes) returns (ghost trace: seq<Event>)
      requires Inv(View()) && run == Serving && mutex == Free
      modifies this`mutex, this`run, this`stopping
      ensures Reaches(Next, old(View()), trace, View()) && Conforms(trace, o) && !Signalled(trace)
      ensures View() == old(View()).(mutex := HeldByRun, run := Inspecting, stopping := true)
      ensures running ==> cmd < |children|
    {
      trace := LockForShutdown(o);
      ghost var s, t := old(View()), View();
      Extend(Next, s, trace, t, SetStopping);
      trace := trace + [SetStopping];
      stopping, run := true, Inspecting;
    }

    method LockForShutdown(ghost o: Outcomes) returns (ghost trace: seq<Event>)
      requires run == Serving && mutex == Free
      modifies this`mutex, this`run
      ensures Reaches(Next, old(View()), trace, View()) && Conforms(trace, o) && !Signalled(trace)
      ensures View() == old(View()).(mutex := HeldByRun, run := Flagging)
    {
      ghost var s := View();
      Extend(Next, s, [], s, ShutdownLock);
      trace := [] + [ShutdownLock];
      mutex, run := HeldByRun, Flagging;
    }

    method StopRunning(ghost s: State, ghost before: seq<Event>, o: Outcomes, others: seq<Event>, timeout: bool)
      returns (ok: bool, received: bool, ghost trace: seq<Event>)
      requires Reaches(Next, s, before, View()) && run == Probing && cmd < |children| && Inv(s)
      requires View() == AtSelect(s, false).(run := Probing) && s.running
      requires Conforms(before, o) && !Signalled(before)
      modifies this
      ensures Reaches(Next, s, trace, View()) && run == Stopped(ok)
      ensures !MustStop(s, o.exited) ==> ok && !received && Unstopped(s, View())
      ensures MustStop(s, o.exited) ==> StopsAs(s, View(), o, others, timeout, ok, received)
      ensures (Signalled(trace) <==> MustStop(s, o.exited)) && Conforms(trace, o)
    {
      Extend(Next, s, before, View(), CheckExited(o.exited));
      trace := before + [CheckExited(o.exited)];
      if children[cmd] == Reaped && o.exited {
        run, mutex := Stopped(true), Free;
        return true, false, trace;
      }
      run := Terminating;
      ok, received, trace := StopAlive(s, trace, o, others, timeout);
    }

    /** The part of shutdown that signals the process and waits for it. */
    method StopAlive(ghost s: State, ghost before: seq<Event>, o: Outcomes, others: seq<Event>, timeout: bool)
      returns (ok: bool, received: bool, ghost trace: seq<Event>)
      requires Reaches(Next, s, before, View()) && View() == AtSelect(s, false).(run := Terminating) && Inv(s)
      requires Conforms(before, o)
      modifies this
      ensures Reaches(Next, s, trace, View()) && run == Stopped(ok)
      ensures StopsAs(s, View(), o, others, timeout, ok, received)
      ensures Signalled(trace) && Conforms(trace, o)
    {
      ok, trace := StopChild(s, before, o);
      received := false;
      if ok {
        trace := LetOthers(s, trace, others, o);
        ok, received, trace := AwaitExit(s, trace, timeout, o);
      }
    }

    /** While shutdown is at its select the waiters and children take the steps of `es`
        that are possible in their turn. */
    method LetOthers(ghost s: State, ghost before: seq<Event>, es: seq<Event>, ghost o: Outcomes)
      returns (ghost trace: seq<Event>)
      requires Inv(s) && Reaches(Next, s, before, View()) && run == Selecting && Conforms(before, o)
      modifies this
      ensures Reaches(Next, s, trace, View()) && View() == Script(OthersNext, old(View()), es)
      ensures run == Selecting && cmd == old(cmd) && killed == old(killed)
      ensures Conforms(trace, o) && (Signalled(before) ==> Signalled(trace))
    {
      ghost var t := View();
      ghost var taken := Taken(OthersNext, t, es);
      Interferes(OthersNext, Next, s, before, t, es);
      Interferes(OthersNext, Next, t, [], t, es);
      TakenFrom(OthersNext, e => !ByMain(e), t, es);
      RunKeepsInv(s, before, t);
      StoppingRunIsBounded(t, [] + taken, Script(OthersNext, t, es));
      ScriptKeepsMain(t, es);
      trace := before + taken;
      Become(Script(OthersNext, View(), es));
    }

    method StopChild(ghost s: State, ghost before: seq<Event>, o: Outcomes)
      returns (ok: bool, ghost trace: seq<Event>)
      requires Reaches(Next, s, before, View()) && run == Terminating && Conforms(before, o)
      modifies this`run, this`killed, this`mutex
      ensures Reaches(Next, s, trace, View()) && Conforms(trace, o) && Signalled(trace)
      ensures ok <==> o.delivered || o.killDelivered
      ensures killed == if o.delivered || !o.killDelivered then old(killed) else old(killed) + {cmd}
      ensures if ok then run == Selecting && mutex == old(mutex) else run == Stopped(false) && mutex == Free
    {
      Extend(Next, s, before, View(), Terminate(o.delivered));
      trace := before + [Terminate(o.delivered)];
      if o.delivered {
        run := Selecting;
        return true, trace;
      }
      run := Killing;
      ok, trace := KillChild(s, trace, o);
    }

    method KillChild(ghost s: State, ghost before: seq<Event>, o: Outcomes)
      returns (ok: bool, ghost trace: seq<Event>)
      requires Reaches(Next, s, before, View()) && run == Killing && Conforms(before, o)
      modifies this`run, this`killed, this`mutex
      ensures Reaches(Next, s, trace, View()) && Conforms(trace, o) && (Signalled(before) ==> Signalled(trace))
      ensures ok <==> o.killDelivered
      ensures killed == if ok then old(killed) + {cmd} else old(killed)
      ensures if ok then run == Selecting && mutex == old(mutex) else run == Stopped(false) && mutex == Free
    {
      Extend(Next, s, before, View(), Kill(o.killDelivered));
      trace := before + [Kill(o.killDelivered)];
      ok := o.killDelivered;
      if ok {
        run, killed := Selecting, killed + {cmd};
      } else {
        run, mutex := Stopped(false), Free;
      }
    }

    /** The select; without the exit in the channel only the timeout can end it. */
    method AwaitExit(ghost s: State, ghost before: seq<Event>, timeout: bool, o: Outcomes)
      returns (ok: bool, received: bool, ghost trace: seq<Event>)
      requires Reaches(Next, s, before, View()) && run == Selecting && Conforms(before, o)
      modifies this`run, this`killed, this`mutex, this`done
      ensures Reaches(Next, s, trace, View()) && Conforms(trace, o) && (Signalled(before) ==> Signalled(trace))
      ensures received <==> !timeout && old(done).buffered > 0
      ensures ok <==> received || o.killDelivered
      ensures run == Stopped(ok) && mutex == Free
      ensures killed == if received || !o.killDelivered then old(killed) else old(killed) + {cmd}
    {
      received := !timeout && done.buffered > 0;
      if received {
        Extend(Next, s, before, View(), Receive);
        trace := before + [Receive];
        done := done.(buffered := done.buffered - 1);
        run, mutex := Stopped(true), Free;
        return true, true, trace;
      }
      Extend(Next, s, before, View(), Timeout);
      run := TimedOut;
      ok, trace := KillAfterTimeout(s, before + [Timeout], o);
    }

    method KillAfterTimeout(ghost s: State, ghost before: seq<Event>, o: Outcomes)
      returns (ok: bool, ghost trace: seq<Event>)
      requires Reaches(Next, s, before, View()) && run == TimedOut && Conforms(before, o)
      modifies this`run, this`killed, this`mutex
      ensures Reaches(Next, s, trace, View()) && Conforms(trace, o) && (Signalled(before) ==> Signalled(trace))
      ensures ok <==> o.killDelivered
      ensures killed == if ok then old(killed) + {cmd} else old(killed)
      ensures run == Stopped(ok) && mutex == Free
    {
      Extend(Next, s, before, View(), KillLate(o.killDelivered));
      trace := before + [KillLate(o.killDelivered)];
      ok := o.killDelivered;
      if ok {
        killed := killed + {cmd};
      }
      run, mutex := Stopped(ok), Free;
    }

    /** The part of `waitCmdDone` between the return of Wait and the sleep.  Only the
        restart takes the mutex: an exit is handed over while shutdown holds it. */
    method ReportExit(i: nat) returns (ghost trace: seq<Event>)
      requires Inv(View()) && At(View(), i, Returned) && (stopping || mutex == Free)
      modifies this
      ensures Reaches(Next, old(View()), trace, View())
      ensures if old(stopping) then
                At(View(), i, Closed) && done.sends == 1 && done.closes == 1 && !done.panicked &&
                running == old(running)
              else
                At(View(), i, Sleeping) && !running && done == old(done)
      ensures mutex == old(mutex) && run == old(run) && |waiters| == |old(waiters)|
      ensures forall j :: 0 <= j < |waiters| && j != i ==> waiters[j] == old(waiters[j])
    {
      ghost var s := View();
      Extend(Next, s, [], s, ReadStopping(i));
      trace := [] + [ReadStopping(i)];
      if stopping {
        waiters := waiters[i := Sending];
        trace := HandOver(i, s, trace);
      } else {
        waiters := waiters[i := Clearing];
        Extend(Next, s, trace, View(), Clear(i));
        trace := trace + [Clear(i)];
        waiters := waiters[i := Sleeping];
        running := false;
      }
    }

    method HandOver(i: nat, ghost s: State, ghost before: seq<Event>) returns (ghost trace: seq<Event>)
      requires Reaches(Next, s, before, View()) && At(View(), i, Sending) && done == Channel(0, 0, 0, false)
      modifies this`waiters, this`done
      ensures Reaches(Next, s, trace, View())
      ensures At(View(), i, Closed) && done == Channel(1, 1, 1, false) && |waiters| == |old(waiters)|
      ensures forall j :: 0 <= j < |waiters| && j != i ==> waiters[j] == old(waiters[j])
    {
      Extend(Next, s, before, View(), Send(i));
      trace := before + [Send(i)];
      waiters := waiters[i := Closing];
      done := done.(buffered := done.buffered + 1, sends := done.sends + 1);
      Extend(Next, s, trace, View(), Close(i));
      trace := trace + [Close(i)];
      waiters := waiters[i := Closed];
      done := done.(closes := done.closes + 1);
    }
  }
}
