/** Rounds of parallel health checks that send their verdicts to the balancer loop,
    and the readiness probe, which reads the recorded states one at a time. */
module HealthCheck {
  import opened Basics
  import opened Runs
  import opened WorkerSet
  import LoadBalance

  datatype Health = Ready | TransientFailure | Shutdown

  datatype Outcome = CheckFailed | Serving | NotServing | Unknown

  /** Progress of one worker's check in the current round. */
  datatype Check =
    | Resting
    | Checking
    | Sending(op: Op, verdict: Health)   // blocked on an unbuffered channel
    | Updating(verdict: Health)          // the balancer took the request

  datatype Balancer = Idle | Handling(op: Op) | Stopped

  /** What the probe knows of one worker: it has not read its state yet, or it read
      Ready and the state recorded since then is Ready, or is not. */
  datatype Look = Unread | Current | Stale

  /** Progress of a call of the readiness probe. */
  datatype Probe = NoProbe | Probing(looks: seq<Look>) | Answered(ok: bool, looks: seq<Look>)

  /** `handled` is the sequence of requests the balancer has completed, so the worker
      list is `Replay(handled)`. */
  datatype State = State(
    workers: seq<Worker>, checks: seq<Check>, states: map<string, Health>,
    balancer: Balancer, handled: seq<Op>, probe: Probe)

  datatype Event =
    | StartRound | Decide(i: nat, running: bool, outcome: Outcome, spare: nat)
    | Rendezvous(i: nat) | Handle | Update(i: nat) | StopBalancer
    | ProbeStart | ProbeRead(i: nat) | ProbeAnswer

  function Init(workers: seq<Worker>): State {
    State(workers, seq(|workers|, _ => Resting), map[], Idle, [], NoProbe)
  }

  /** The verdict of `checkWorker`; `outcome` is only looked at for a running worker. */
  function Verdict(running: bool, outcome: Outcome): Health {
    if !running then Shutdown else if outcome == Serving then Ready else TransientFailure
  }

  /** `spare` is the room that the balancer's append reserves if it grows the list. */
  function Request(w: Worker, running: bool, outcome: Outcome, spare: nat): Op {
    if running && outcome == Serving then Add(w, spare) else Remove(w)
  }

  function ServerState(s: State, name: string): Health {
    if name in s.states then s.states[name] else Shutdown
  }

  predicate AllResting(s: State) { forall i :: 0 <= i < |s.checks| ==> s.checks[i] == Resting }

  predicate AllRead(looks: seq<Look>) { forall i :: 0 <= i < |looks| ==> looks[i] != Unread }

  predicate Enabled(s: State, e: Event) {
    |s.checks| == |s.workers| && (s.probe.Probing? ==> |s.probe.looks| == |s.workers|) &&
    match e
    case StartRound => AllResting(s)
    case Decide(i, _, _, _) => i < |s.checks| && s.checks[i] == Checking
    case Rendezvous(i) => i < |s.checks| && s.checks[i].Sending? && s.balancer == Idle
    case Handle => s.balancer.Handling?
    case Update(i) => i < |s.checks| && s.checks[i].Updating?
    case StopBalancer => s.balancer == Idle
    case ProbeStart => !s.probe.Probing?
    case ProbeRead(i) => s.probe.Probing? && i < |s.workers| && s.probe.looks[i] == Unread
    case ProbeAnswer => s.probe.Probing? && AllRead(s.probe.looks)
  }

  /** The probe's knowledge after `verdict` was recorded for the worker `i`. */
  function Noted(probe: Probe, i: nat, verdict: Health): Probe {
    if probe.Probing? && i < |probe.looks| && probe.looks[i] != Unread then
      Probing(probe.looks[i := if verdict == Ready then Current else Stale])
    else probe
  }

  function Apply(s: State, e: Event): State
    requires Enabled(s, e)
  {
    match e
    case StartRound => s.(checks := seq(|s.checks|, _ => Checking))
    case Decide(i, running, outcome, spare) =>
      s.(checks := s.checks[i := Sending(Request(s.workers[i], running, outcome, spare), Verdict(running, outcome))])
    case Rendezvous(i) =>
      s.(checks := s.checks[i := Updating(s.checks[i].verdict)], balancer := Handling(s.checks[i].op))
    case Handle => s.(balancer := Idle, handled := s.handled + [s.balancer.op])
    case Update(i) =>
      s.(checks := s.checks[i := Resting], states := s.states[s.workers[i].name := s.checks[i].verdict],
         probe := Noted(s.probe, i, s.checks[i].verdict))
    case StopBalancer => s.(balancer := Stopped)
    case ProbeStart => s.(probe := Probing(seq(|s.workers|, _ => Unread)))
    case ProbeRead(i) =>
      s.(probe := if ServerState(s, s.workers[i].name) == Ready then Probing(s.probe.looks[i := Current])
                  else Answered(false, s.probe.looks))
    case ProbeAnswer => s.(probe := Answered(true, s.probe.looks))
  }

  function Next(s: State, e: Event): Option<State> {
    if Enabled(s, e) then Some(Apply(s, e)) else None
  }

  // ------------------------------------------------------------------- invariant

  /** The requests handled once the balancer has finished the one it is handling. */
  function Eventually(s: State): seq<Op> {
    s.handled + if s.balancer.Handling? then [s.balancer.op] else []
  }

  predicate Member(ops: seq<Op>, w: Worker) { Has(Replay(ops), w.name) }

  /** The last verdict that the balancer has been told about. */
  function Latest(s: State, i: nat): Health
    requires i < |s.checks| == |s.workers|
  {
    if s.checks[i].Updating? then s.checks[i].verdict else ServerState(s, s.workers[i].name)
  }

  predicate SendInv(s: State, i: nat)
    requires i < |s.checks| == |s.workers|
  {
    s.checks[i].Sending? ==>
      s.checks[i].op.w == s.workers[i] && (s.checks[i].op.Add? <==> s.checks[i].verdict == Ready)
  }

  predicate MemberInv(s: State, i: nat)
    requires i < |s.checks| == |s.workers|
  {
    Member(Eventually(s), s.workers[i]) <==> Latest(s, i) == Ready
  }

  predicate LookInv(s: State, i: nat)
    requires i < |s.workers|
  {
    s.probe.Probing? ==>
      |s.probe.looks| == |s.workers| &&
      (s.probe.looks[i] != Unread ==> (s.probe.looks[i] == Current <==> ServerState(s, s.workers[i].name) == Ready))
  }

  ghost predicate Inv(s: State) {
    && |s.checks| == |s.workers| && DistinctNames(s.workers)
    && (s.probe.Probing? ==> |s.probe.looks| == |s.workers|)
    && (forall i :: 0 <= i < |s.checks| ==> SendInv(s, i) && MemberInv(s, i) && LookInv(s, i))
    && (forall op :: op in Eventually(s) ==> op.w in s.workers)
  }

  lemma MemberStep(ops: seq<Op>, op: Op, w: Worker)
    ensures Member(ops + [op], w) <==> if op.w.name == w.name then op.Add? else Member(ops, w)
  {
    MemberIffLastAdded(ops, w.name);
    MemberIffLastAdded(ops + [op], w.name);
    assert (ops + [op])[..|ops|] == ops;
  }

  lemma EventuallyStep(s: State, e: Event)
    requires Enabled(s, e)
    ensures Eventually(Apply(s, e)) == Eventually(s) + if e.Rendezvous? then [s.checks[e.i].op] else []
  {
    assert s.handled + [] == s.handled;
    if e.Handle? {
      assert Apply(s, e).handled + [] == Eventually(s);
    }
  }

  /** What was recorded for a worker changes only with its own update. */
  lemma RecordedStep(s: State, e: Event, i: nat)
    requires DistinctNames(s.workers) && Enabled(s, e) && i < |s.workers|
    ensures var name := s.workers[i].name;
            ServerState(Apply(s, e), name) == if e == Update(i) then s.checks[i].verdict else ServerState(s, name)
  {
    if e.Update? && s.workers[e.i].name == s.workers[i].name {
      assert e.i == i;
    }
  }

  lemma LatestStep(s: State, e: Event, i: nat)
    requires Inv(s) && Enabled(s, e) && i < |s.checks|
    ensures Latest(Apply(s, e), i) == if e == Rendezvous(i) then s.checks[i].verdict else Latest(s, i)
  {
    RecordedStep(s, e, i);
  }

  lemma StepKeepsMemberInv(s: State, e: Event, i: nat)
    requires Inv(s) && Enabled(s, e) && i < |s.checks|
    ensures MemberInv(Apply(s, e), i)
  {
    assert MemberInv(s, i);
    EventuallyStep(s, e);
    LatestStep(s, e, i);
    if e.Rendezvous? {
      assert SendInv(s, e.i);
      assert s.workers[e.i].name == s.workers[i].name ==> e.i == i;
      MemberStep(Eventually(s), s.checks[e.i].op, s.workers[i]);
    } else {
      assert Eventually(s) + [] == Eventually(s);
    }
  }

  lemma StepKeepsLookInv(s: State, e: Event, i: nat)
    requires Inv(s) && Enabled(s, e) && i < |s.checks|
    ensures LookInv(Apply(s, e), i)
  {
    assert LookInv(s, i);
    RecordedStep(s, e, i);
  }

  lemma StepKeepsOrigins(s: State, e: Event)
    requires Inv(s) && Enabled(s, e)
    ensures forall op :: op in Eventually(Apply(s, e)) ==> op.w in s.workers
  {
    EventuallyStep(s, e);
    if e.Rendezvous? {
      assert SendInv(s, e.i);
    }
  }

  lemma StepKeepsInv(s: State, e: Event)
    requires Inv(s) && Enabled(s, e)
    ensures Inv(Apply(s, e)) && Apply(s, e).workers == s.workers
  {
    var t := Apply(s, e);
    StepKeepsOrigins(s, e);
    forall i: nat | i < |s.checks| ensures SendInv(t, i) && MemberInv(t, i) && LookInv(t, i) {
      assert SendInv(s, i);
      StepKeepsMemberInv(s, e, i);
      StepKeepsLookInv(s, e, i);
    }
  }

  lemma InitInv(workers: seq<Worker>)
    requires DistinctNames(workers)
    ensures Inv(Init(workers))
  {
    var none: seq<Op> := [];
    assert none + none == none;
  }

  lemma RunKeepsInv(s: State, es: seq<Event>, t: State)
    requires Inv(s) && Reaches(Next, s, es, t)
    ensures Inv(t) && t.workers == s.workers
  {
    var inv := (u: State) => Inv(u) && u.workers == s.workers;
    forall u, e | inv(u) && Next(u, e).Some? ensures inv(Next(u, e).value) {
      StepKeepsInv(u, e);
    }
    Invariant(Next, inv, s, es, t);
  }

  // ---------------------------------------------------- membership and recorded state

  /** The worker's request has reached the balancer, and its effect on the list or
      the update of its recorded state is still to come. */
  predicate InFlight(s: State, i: nat)
    requires i < |s.checks| == |s.workers|
  {
    s.checks[i].Updating? || (s.balancer.Handling? && s.balancer.op.w.name == s.workers[i].name)
  }

  predicate NothingInFlight(s: State) {
    |s.checks| == |s.workers| && forall i :: 0 <= i < |s.checks| ==> !InFlight(s, i)
  }

  lemma MemberIffReady(s: State, i: nat)
    requires Inv(s) && i < |s.checks| && !InFlight(s, i)
    ensures Member(s.handled, s.workers[i]) <==> ServerState(s, s.workers[i].name) == Ready
  {
    assert MemberInv(s, i);
    if s.balancer.Handling? {
      MemberStep(s.handled, s.balancer.op, s.workers[i]);
    } else {
      assert s.handled + [] == s.handled;
    }
  }

  /** Membership and recorded state disagree at most while a request is in flight. */
  lemma AgreeUnlessInFlight(workers: seq<Worker>, es: seq<Event>, s: State, i: nat)
    requires DistinctNames(workers) && Reaches(Next, Init(workers), es, s) && i < |workers|
    ensures s.workers == workers && |s.checks| == |workers|
    ensures !InFlight(s, i) ==>
              (Member(s.handled, workers[i]) <==> ServerState(s, workers[i].name) == Ready)
  {
    InitInv(workers);
    RunKeepsInv(Init(workers), es, s);
    if !InFlight(s, i) {
      MemberIffReady(s, i);
    }
  }

  predicate Quiet(s: State) { AllResting(s) && !s.balancer.Handling? }

  /** After a drained round the balancer's list names exactly the managed workers
      that are recorded as Ready. */
  lemma MembersAreReady(workers: seq<Worker>, es: seq<Event>, s: State, name: string)
    requires DistinctNames(workers) && Reaches(Next, Init(workers), es, s) && Quiet(s)
    ensures Has(Replay(s.handled), name) <==> Has(workers, name) && ServerState(s, name) == Ready
  {
    InitInv(workers);
    RunKeepsInv(Init(workers), es, s);
    if Has(workers, name) {
      var i :| 0 <= i < |workers| && workers[i].name == name;
      MemberIffReady(s, i);
    } else {
      assert Eventually(s) == s.handled;
      NeverNamed(s.handled, name);
      MemberIffLastAdded(s.handled, name);
    }
  }

  lemma {:induction false} NeverNamed(ops: seq<Op>, name: string)
    requires forall op :: op in ops ==> op.w.name != name
    ensures !LastAdded(ops, name)
  {
    if ops != [] {
      assert ops[|ops| - 1] in ops;
      NeverNamed(ops[..|ops| - 1], name);
    }
  }

  // ------------------------------------------------------------ the readiness probe

  /** The probe is about to answer 200. */
  predicate AnswersReady(s: State) { Enabled(s, ProbeAnswer) }

  /** No state that the probe has read went off Ready since, without coming back. */
  predicate NoneStale(looks: seq<Look>) { forall i :: 0 <= i < |looks| ==> looks[i] != Stale }

  /** At any moment of a probe, a worker that it has read and that has no request in
      flight is in the balancer exactly when its state did not go off Ready since. */
  lemma ReadWorkerIsMemberIff(workers: seq<Worker>, es: seq<Event>, s: State, i: nat)
    requires DistinctNames(workers) && Reaches(Next, Init(workers), es, s) && i < |workers|
    requires s.probe.Probing?
    ensures |s.checks| == |s.workers| == |workers| && |s.probe.looks| == |workers|
    ensures s.probe.looks[i] != Unread && !InFlight(s, i) ==>
              (Member(s.handled, workers[i]) <==> s.probe.looks[i] != Stale)
  {
    InitInv(workers);
    RunKeepsInv(Init(workers), es, s);
    assert LookInv(s, i);
    if !InFlight(s, i) {
      MemberIffReady(s, i);
    }
  }

  /** Every managed worker is recorded as Ready, at one moment. */
  predicate Readiness(s: State) {
    forall i :: 0 <= i < |s.workers| ==> ServerState(s, s.workers[i].name) == Ready
  }

  /** `Next` has a worker to return in every slot of the published slice. */
  ghost predicate Serves(handled: seq<Op>) {
    var lb := LoadBalance.Exec(LoadBalance.Init(), handled);
    lb.cur.len > 0 && forall k :: 0 <= k < lb.cur.len ==> LoadBalance.Backing(lb)[k].Some?
  }

  /** When the probe answers 200 with nothing in flight, every managed worker is in the
      balancer exactly when no state it has read went off Ready before the answer; then
      `Next` returns a worker. */
  lemma ReadyMeansServingIff(workers: seq<Worker>, es: seq<Event>, s: State)
    requires DistinctNames(workers) && Reaches(Next, Init(workers), es, s)
    requires AnswersReady(s) && NothingInFlight(s)
    ensures (forall i :: 0 <= i < |workers| ==> Member(s.handled, workers[i])) <==> NoneStale(s.probe.looks)
    ensures NoneStale(s.probe.looks) && workers != [] ==> Serves(s.handled)
  {
    forall i | 0 <= i < |workers|
      ensures |s.probe.looks| == |workers|
      ensures Member(s.handled, workers[i]) <==> s.probe.looks[i] != Stale
    {
      ReadWorkerIsMemberIff(workers, es, s, i);
    }
    InitInv(workers);
    RunKeepsInv(Init(workers), es, s);
    LoadBalance.ListIsReplay(s.handled);
    if NoneStale(s.probe.looks) && workers != [] {
      assert Member(s.handled, workers[0]);
    }
  }

  /** The event records a state other than Ready for a worker that the probe has read. */
  predicate Spoils(s: State, e: Event) {
    e.Update? && Enabled(s, e) && s.checks[e.i].verdict != Ready &&
    s.probe.Probing? && s.probe.looks[e.i] != Unread
  }

  function CalmNext(s: State, e: Event): Option<State> {
    if Enabled(s, e) && !Spoils(s, e) && e != ProbeStart then Some(Apply(s, e)) else None
  }

  predicate CalmInv(s: State) { s.probe.Probing? ==> NoneStale(s.probe.looks) }

  lemma CalmRun(s: State, es: seq<Event>, t: State)
    requires CalmInv(s) && Reaches(CalmNext, s, es, t)
    ensures CalmInv(t)
  {
    forall u, e | CalmInv(u) && CalmNext(u, e).Some? ensures CalmInv(CalmNext(u, e).value) {
    }
    Invariant(CalmNext, CalmInv, s, es, t);
  }

  /** If nothing that the probe has read is recorded off Ready between its start and its
      answer, then 200 means that every worker is in the balancer. */
  lemma CalmProbeMeansServing(workers: seq<Worker>, before: seq<Event>, s: State, during: seq<Event>, t: State)
    requires DistinctNames(workers) && Reaches(Next, Init(workers), before, s) && Enabled(s, ProbeStart)
    requires Reaches(CalmNext, Apply(s, ProbeStart), during, t) && AnswersReady(t) && NothingInFlight(t)
    ensures forall i :: 0 <= i < |workers| ==> Member(t.handled, workers[i])
    ensures workers != [] ==> Serves(t.handled)
  {
    var u := Apply(s, ProbeStart);
    CalmRun(u, during, t);
    forall v, e | CalmNext(v, e).Some? ensures Next(v, e) == CalmNext(v, e) {
    }
    Weaken(CalmNext, Next, u, during, t);
    Extend(Next, Init(workers), before, s, ProbeStart);
    Append(Next, Init(workers), before + [ProbeStart], u, during, t);
    ReadyMeansServingIff(workers, before + [ProbeStart] + during, t);
  }

  /** In particular a probe during which no state is recorded at all is calm. */
  lemma {:induction false} UnrecordedIsCalm(s: State, es: seq<Event>, t: State)
    requires Reaches(Next, s, es, t) && forall e :: e in es ==> !e.Update? && !e.ProbeStart?
    ensures Reaches(CalmNext, s, es, t)
    decreases |es|
  {
    if es != [] {
      assert Begins(Next, s, es, t);
      assert forall e :: e in es[1..] ==> e in es;
      UnrecordedIsCalm(Apply(s, es[0]), es[1..], t);
      assert Begins(CalmNext, s, es, t);
    }
  }

  // ------------------------------------------------------------- one check, undisturbed

  function CheckEvents(i: nat, running: bool, outcome: Outcome, spare: nat): seq<Event> {
    [Decide(i, running, outcome, spare)] + [Rendezvous(i)] + [Handle] + [Update(i)]
  }

  /** The state after one check that runs from its decision to its update. */
  function Checked(s: State, i: nat, running: bool, outcome: Outcome, spare: nat): State
    requires i < |s.checks| == |s.workers|
  {
    s.(checks := s.checks[i := Resting],
       states := s.states[s.workers[i].name := Verdict(running, outcome)],
       handled := s.handled + [Request(s.workers[i], running, outcome, spare)],
       probe := Noted(s.probe, i, Verdict(running, outcome)))
  }

  lemma CheckReaches(s: State, i: nat, running: bool, outcome: Outcome, spare: nat)
    requires Enabled(s, Decide(i, running, outcome, spare)) && s.balancer == Idle
    ensures Reaches(Next, s, CheckEvents(i, running, outcome, spare), Checked(s, i, running, outcome, spare))
  {
    var op, verdict := Request(s.workers[i], running, outcome, spare), Verdict(running, outcome);
    var a := s.(checks := s.checks[i := Sending(op, verdict)]);
    var b := s.(checks := s.checks[i := Updating(verdict)], balancer := Handling(op));
    var c := s.(checks := s.checks[i := Updating(verdict)], handled := s.handled + [op]);
    assert a.checks[i := Updating(verdict)] == b.checks && c.checks[i := Resting] == s.checks[i := Resting];
    Extend(Next, s, [], s, Decide(i, running, outcome, spare));
    assert [] + [Decide(i, running, outcome, spare)] == [Decide(i, running, outcome, spare)];
    Extend(Next, s, [Decide(i, running, outcome, spare)], a, Rendezvous(i));
    Extend(Next, s, [Decide(i, running, outcome, spare)] + [Rendezvous(i)], b, Handle);
    Extend(Next, s, [Decide(i, running, outcome, spare)] + [Rendezvous(i)] + [Handle], c, Update(i));
  }

  // ---------------------------------------------------------------- a misled probe

  const A := Worker(0, "a")
  const B := Worker(1, "b")

  /** A round over two workers of which only the first, or only the second, serves. */
  lemma RoundOfTwo(s: State, firstServes: bool) returns (es: seq<Event>, t: State)
    requires s.workers == [A, B] && s.checks == [Checking, Checking] && s.balancer == Idle
    requires s.probe.Probing? ==> |s.probe.looks| == 2
    ensures Reaches(Next, s, es, t) && t == Checked(Checked(s, 0, firstServes, Serving, 0), 1, !firstServes, Serving, 0)
    ensures t.checks == [Resting, Resting]
  {
    var u := Checked(s, 0, firstServes, Serving, 0);
    t := Checked(u, 1, !firstServes, Serving, 0);
    CheckReaches(s, 0, firstServes, Serving, 0);
    CheckReaches(u, 1, !firstServes, Serving, 0);
    es := CheckEvents(0, firstServes, Serving, 0) + CheckEvents(1, !firstServes, Serving, 0);
    Append(Next, s, CheckEvents(0, firstServes, Serving, 0), u, CheckEvents(1, !firstServes, Serving, 0), t);
  }

  /** The first round finds only `a` serving, and the probe reads its state. */
  lemma FirstRound() returns (es: seq<Event>, s: State)
    ensures Reaches(Next, Init([A, B]), es, s)
    ensures s.workers == [A, B] && s.checks == [Resting, Resting] && s.balancer == Idle
    ensures s.handled == [Add(A, 0), Remove(B)] && s.probe == Probing([Current, Unread])
  {
    var s0 := Init([A, B]);
    assert s0.checks == [Resting, Resting];
    var s1 := Apply(s0, StartRound);
    assert s1.checks == [Checking, Checking];
    Extend(Next, s0, [], s0, StartRound);
    var round, s2 := RoundOfTwo(s1, true);
    Append(Next, s0, [] + [StartRound], s1, round, s2);
    var s3 := Apply(s2, ProbeStart);
    assert s3.probe.looks == [Unread, Unread];
    Extend(Next, s0, [] + [StartRound] + round, s2, ProbeStart);
    s := Apply(s3, ProbeRead(0));
    Extend(Next, s0, [] + [StartRound] + round + [ProbeStart], s3, ProbeRead(0));
    es := [] + [StartRound] + round + [ProbeStart] + [ProbeRead(0)];
    assert s.probe.looks == [Current, Unread];
  }

  /** A second round, between the two reads, finds only `b` serving. */
  lemma SecondRound(first: seq<Event>, s: State) returns (es: seq<Event>, t: State)
    requires Reaches(Next, Init([A, B]), first, s)
    requires s.workers == [A, B] && s.checks == [Resting, Resting] && s.balancer == Idle
    requires s.probe == Probing([Current, Unread])
    ensures Reaches(Next, Init([A, B]), es, t)
    ensures t.workers == [A, B] && t.checks == [Resting, Resting] && t.balancer == Idle
    ensures t.probe == Probing([Stale, Current])
  {
    var u := Apply(s, StartRound);
    assert u.checks == [Checking, Checking];
    Extend(Next, Init([A, B]), first, s, StartRound);
    var round, v := RoundOfTwo(u, false);
    Append(Next, Init([A, B]), first + [StartRound], u, round, v);
    assert v.probe.looks == [Stale, Unread];
    t := Apply(v, ProbeRead(1));
    assert t.probe.looks == [Stale, Current];
    es := first + [StartRound] + round + [ProbeRead(1)];
    Extend(Next, Init([A, B]), first + [StartRound] + round, v, ProbeRead(1));
  }

  /** The probe can answer 200 with nothing in flight while a worker that it has read as
      Ready is no longer in the balancer. */
  lemma MisledProbeOccurs()
    ensures exists es, s :: Reaches(Next, Init([A, B]), es, s) && AnswersReady(s) && NothingInFlight(s) &&
                            !Member(s.handled, A)
  {
    var first, s0 := FirstRound();
    var es, s := SecondRound(first, s0);
    assert AnswersReady(s);
    ReadWorkerIsMemberIff([A, B], es, s, 0);
    assert s.workers[0] == A && !InFlight(s, 0);
  }

  // ------------------------------------------------------------------- completion

  predicate Blocked(s: State, i: nat, check: Check) {
    s.balancer == Stopped && i < |s.checks| && s.checks[i] == check && check.Sending?
  }

  /** Once the balancer loop has stopped, a check that is sending blocks forever, and
      the round it belongs to never completes. */
  lemma SenderBlocksForever(s: State, es: seq<Event>, t: State, i: nat)
    requires Reaches(Next, s, es, t) && s.balancer == Stopped && i < |s.checks| && s.checks[i].Sending?
    ensures t.balancer == Stopped && i < |t.checks| && t.checks[i] == s.checks[i] && !AllResting(t)
  {
    var check := s.checks[i];
    var inv := (u: State) => Blocked(u, i, check);
    forall u, e | inv(u) && Next(u, e).Some? ensures inv(Next(u, e).value) {
      assert u.checks[i] != Resting;
    }
    Invariant(Next, inv, s, es, t);
    assert t.checks[i] != Resting;
  }

  predicate ByProbe(e: Event) { e.ProbeStart? || e.ProbeRead? || e.ProbeAnswer? }

  /** No check and no request can move. */
  ghost predicate Stuck(s: State) { forall e: Event :: Enabled(s, e) ==> e.StopBalancer? || ByProbe(e) }

  /** That is the only way in which a round can get stuck. */
  lemma StuckExactlyWhenStopped(workers: seq<Worker>, es: seq<Event>, s: State)
    requires DistinctNames(workers) && Reaches(Next, Init(workers), es, s)
    ensures Stuck(s) <==>
            s.balancer == Stopped && !AllResting(s) &&
            forall i :: 0 <= i < |s.checks| ==> s.checks[i].Resting? || s.checks[i].Sending?
  {
    InitInv(workers);
    RunKeepsInv(Init(workers), es, s);
    if Stuck(s) {
      assert !Enabled(s, StartRound) && !Enabled(s, Handle);
      forall i: nat | i < |s.checks| ensures s.checks[i].Resting? || (s.checks[i].Sending? && s.balancer != Idle) {
        assert !Enabled(s, Decide(i, true, Serving, 0)) && !Enabled(s, Update(i)) && !Enabled(s, Rendezvous(i));
      }
    }
  }

  /** It does occur: the loop stops between the check of a worker and its request. */
  lemma StuckRoundOccurs()
    ensures exists es, s :: Reaches(Next, Init([A]), es, s) && Stuck(s) && !AllResting(s)
  {
    var s0 := Init([A]);
    assert s0.checks == [Resting];
    var s1 := Apply(s0, StartRound);
    assert s1.checks == [Checking];
    var s2 := Apply(s1, Decide(0, true, Serving, 0));
    var s3 := Apply(s2, StopBalancer);
    Extend(Next, s0, [], s0, StartRound);
    Extend(Next, s0, [] + [StartRound], s1, Decide(0, true, Serving, 0));
    Extend(Next, s0, [] + [StartRound] + [Decide(0, true, Serving, 0)], s2, StopBalancer);
    StuckExactlyWhenStopped([A], [] + [StartRound] + [Decide(0, true, Serving, 0)] + [StopBalancer], s3);
    assert s3.checks[0] != Resting;
  }

  function CheckWork(c: Check): nat {
    match c case Checking => 4 case Sending(_, _) => 3 case Updating(_) => 1 case Resting => 0
  }

  function LookWork(l: Look): nat { if l == Unread then 1 else 0 }

  function BalancerWork(b: Balancer): nat { match b case Handling(_) => 2 case Idle => 1 case Stopped => 0 }

  function ProbeWork(p: Probe): nat { if p.Probing? then 1 + Sum(LookWork, p.looks) else 0 }

  /** The steps that are left in the current round and the current probe. */
  function Work(s: State): nat {
    Sum(CheckWork, s.checks) + BalancerWork(s.balancer) + ProbeWork(s.probe)
  }

  lemma ProbeStepWorks(s: State, e: Event)
    requires Enabled(s, e) && e != ProbeStart
    ensures ProbeWork(Apply(s, e).probe) <= ProbeWork(s.probe)
    ensures e.ProbeRead? || e.ProbeAnswer? ==> ProbeWork(Apply(s, e).probe) < ProbeWork(s.probe)
  {
    var p := Apply(s, e).probe;
    if s.probe.Probing? && p.Probing? && (e.ProbeRead? || e.Update?) {
      SumUpdate(LookWork, s.probe.looks, e.i, p.looks[e.i]);
      assert s.probe.looks[e.i := p.looks[e.i]] == p.looks;
    }
  }

  lemma StepWorks(s: State, e: Event)
    requires Enabled(s, e) && e != StartRound && e != ProbeStart
    ensures Work(Apply(s, e)) < Work(s)
  {
    ProbeStepWorks(s, e);
    if e.Decide? || e.Rendezvous? || e.Update? {
      SumUpdate(CheckWork, s.checks, e.i, Apply(s, e).checks[e.i]);
    }
  }

  /** The steps within one round. */
  function RoundNext(s: State, e: Event): Option<State> {
    if Enabled(s, e) && e != StartRound && e != ProbeStart then Some(Apply(s, e)) else None
  }

  /** A round takes at most `Work(s)` more steps: so unless the balancer loop stops, every
      round completes, with its requests drained. */
  lemma RoundIsBounded(s: State, es: seq<Event>, t: State)
    requires Reaches(RoundNext, s, es, t)
    ensures |es| + Work(t) <= Work(s)
  {
    forall u, e | RoundNext(u, e).Some? ensures Work(RoundNext(u, e).value) < Work(u) {
      StepWorks(u, e);
    }
    Bounded(RoundNext, u => true, Work, s, es, t);
  }

  // -------------------------------------------------------------- the checker object

  /** The steps of the goroutines other than the handler of the probe. */
  function OthersNext(s: State, e: Event): Option<State> {
    if Enabled(s, e) && !ByProbe(e) then Some(Apply(s, e)) else None
  }

  /** The checker with the source's fields, the positions of its goroutines, and the
      states of the balancer loop that it talks to and of a probe that reads it. */
  class Checker {
    const workers: seq<Worker>
    var checks: seq<Check>
    var workerStates: map<string, Health>
    var balancer: Balancer
    var handled: seq<Op>
    var probe: Probe

    function View(): State
      reads this
    {
      State(workers, checks, workerStates, balancer, handled, probe)
    }

    constructor (workers: seq<Worker>)
      ensures View() == Init(workers)
    {
      this.workers := workers;
      checks := seq(|workers|, _ => Resting);
      workerStates, balancer, handled, probe := map[], Idle, [], NoProbe;
    }

    method GetServerState(name: string) returns (state: Health)
      ensures state == ServerState(View(), name)
      ensures if name in workerStates then state == workerStates[name] else state == Shutdown
    {
      if name !in workerStates {
        return Shutdown;
      }
      state := workerStates[name];
    }

    method CheckWorker(i: nat, running: bool, outcome: Outcome, spare: nat)
      requires Enabled(View(), Decide(i, running, outcome, spare))
      modifies this`checks
      ensures View() == Apply(old(View()), Decide(i, running, outcome, spare))
      ensures checks[i].verdict == Ready <==> running && outcome == Serving
      ensures checks[i].verdict == Shutdown <==> !running
      ensures checks[i].op == if running && outcome == Serving then Add(workers[i], spare) else Remove(workers[i])
    {
      var w := workers[i];
      if !running {
        checks := checks[i := Sending(Remove(w), Shutdown)];
        return;
      }
      match outcome {
        case Serving => checks := checks[i := Sending(Add(w, spare), Ready)];
        case CheckFailed => checks := checks[i := Sending(Remove(w), TransientFailure)];
        case NotServing => checks := checks[i := Sending(Remove(w), TransientFailure)];
        case Unknown => checks := checks[i := Sending(Remove(w), TransientFailure)];
      }
    }

    method UpdateWorkerState(i: nat)
      requires Enabled(View(), Update(i))
      modifies this`checks, this`workerStates, this`probe
      ensures View() == Apply(old(View()), Update(i))
    {
      workerStates := workerStates[workers[i].name := checks[i].verdict];
      probe := Noted(probe, i, checks[i].verdict);
      checks := checks[i := Resting];
    }

    /** One round in which the checks happen to run one after the other. */
    method CheckAll(running: seq<bool>, outcomes: seq<Outcome>, spares: seq<nat>) returns (ghost trace: seq<Event>)
      requires Inv(View()) && AllResting(View()) && balancer == Idle
      requires |running| == |outcomes| == |spares| == |workers|
      modifies this
      ensures Reaches(Next, old(View()), trace, View()) && Quiet(View()) && balancer == Idle
      ensures forall i :: 0 <= i < |workers| ==>
                ServerState(View(), workers[i].name) == Verdict(running[i], outcomes[i]) &&
                (ServerState(View(), workers[i].name) == Shutdown <==> !running[i]) &&
                (ServerState(View(), workers[i].name) == Ready <==> running[i] && outcomes[i] == Serving) &&
                (Member(handled, workers[i]) <==> running[i] && outcomes[i] == Serving)
    {
      ghost var s := View();
      Extend(Next, s, [], s, StartRound);
      trace := [] + [StartRound];
      checks := seq(|checks|, _ => Checking);
      for i := 0 to |workers|
        invariant Reaches(Next, s, trace, View()) && balancer == Idle && |checks| == |workers|
        invariant probe.Probing? ==> |probe.looks| == |workers|
        invariant forall j :: 0 <= j < |checks| ==> checks[j] == if j < i then Resting else Checking
        invariant forall j :: 0 <= j < i ==>
                    ServerState(View(), workers[j].name) == Verdict(running[j], outcomes[j])
      {
        ghost var u := View();
        CheckReaches(u, i, running[i], outcomes[i], spares[i]);
        CheckOne(i, running[i], outcomes[i], spares[i]);
        Append(Next, s, trace, u, CheckEvents(i, running[i], outcomes[i], spares[i]), View());
        trace := trace + CheckEvents(i, running[i], outcomes[i], spares[i]);
      }
      RunKeepsInv(s, trace, View());
      forall i | 0 <= i < |workers| ensures Member(handled, workers[i]) <==> running[i] && outcomes[i] == Serving {
        MemberIffReady(View(), i);
      }
    }

    method CheckOne(i: nat, running: bool, outcome: Outcome, spare: nat)
      requires Enabled(View(), Decide(i, running, outcome, spare)) && balancer == Idle
      modifies this
      ensures View() == Checked(old(View()), i, running, outcome, spare)
    {
      CheckWorker(i, running, outcome, spare);
      balancer := Handling(checks[i].op);
      checks := checks[i := Updating(checks[i].verdict)];
      handled := handled + [balancer.op];
      balancer := Idle;
      UpdateWorkerState(i);
      assert old(View()).checks[i := Resting] == checks;
    }

    method Become(t: State)
      requires t.workers == workers
      modifies this
      ensures View() == t
    {
      checks, workerStates, balancer, handled, probe := t.checks, t.states, t.balancer, t.handled, t.probe;
    }

    /** The loop of the readiness handler over the managed names; before its read of the
        worker `i`, the checks and the balancer take the steps of `others[i]`. */
    method ReadinessProbe(others: seq<seq<Event>>) returns (ok: bool, ghost rounds: nat, ghost trace: seq<Event>)
      requires Inv(View()) && !probe.Probing? && |others| == |workers|
      modifies this
      ensures Reaches(Next, old(View()), trace, View()) && Inv(View())
      ensures probe.Answered? && probe.ok == ok
      ensures Undisturbed(others) ==> (ok <==> Readiness(old(View())))
      ensures rounds <= |others| && (ok ==> rounds == |others|)
      ensures var t := Probed(old(View()), others, rounds); View() == if ok then Do(Next, t, ProbeAnswer) else t
      ensures ok ==> |probe.looks| == |checks| == |workers| &&
                     forall i :: 0 <= i < |workers| && !InFlight(View(), i) ==>
                       (Member(handled, workers[i]) <==> probe.looks[i] != Stale)
    {
      ghost var s := View();
      trace := StartProbe();
      ok, rounds, trace := ReadAll(others, s, trace);
      if Undisturbed(others) {
        ProbedUndisturbed(s, others, rounds);
      }
      if ok {
        trace := AnswerReady(s, trace);
      }
    }

    method ReadAll(others: seq<seq<Event>>, ghost s: State, ghost before: seq<Event>)
      returns (ok: bool, ghost rounds: nat, ghost trace: seq<Event>)
      requires Inv(s) && s.workers == workers && |others| == |workers| && HasRead(probe, 0)
      requires Reaches(Next, s, before, View()) && Inv(View()) && View() == Probed(s, others, 0)
      modifies this
      ensures Reaches(Next, s, trace, View()) && Inv(View())
      ensures rounds <= |others| && (ok ==> rounds == |others|) && View() == Probed(s, others, rounds)
      ensures if ok then HasRead(probe, |workers|) else probe.Answered? && !probe.ok
    {
      trace := before;
      for i := 0 to |workers|
        invariant Reaches(Next, s, trace, View()) && Inv(View()) && HasRead(probe, i)
        invariant View() == Probed(s, others, i)
      {
        ProbedStep(s, others, i, View());
        ok, trace := ReadNext(i, others[i], s, trace);
        if !ok {
          return ok, i + 1, trace;
        }
      }
      return true, |others|, trace;
    }

    method StartProbe() returns (ghost trace: seq<Event>)
      requires Inv(View()) && !probe.Probing?
      modifies this`probe
      ensures Reaches(Next, old(View()), trace, View()) && Inv(View()) && HasRead(probe, 0)
      ensures View() == Do(Next, old(View()), ProbeStart)
    {
      ghost var s := View();
      Extend(Next, s, [], s, ProbeStart);
      trace := [] + [ProbeStart];
      StepKeepsInv(s, ProbeStart);
      probe := Probing(seq(|workers|, _ => Unread));
    }

    /** One iteration, after the others have moved. */
    method ReadNext(i: nat, es: seq<Event>, ghost s: State, ghost before: seq<Event>)
      returns (ok: bool, ghost trace: seq<Event>)
      requires Inv(s) && Reaches(Next, s, before, View()) && HasRead(probe, i) && i < |workers|
      modifies this
      ensures Reaches(Next, s, trace, View()) && Inv(View())
      ensures View() == ReadAfter(old(View()), es, i)
      ensures if ok then HasRead(probe, i + 1) else probe.Answered? && !probe.ok
    {
      trace := Disturb(i, es, s, before);
      ok, trace := ReadState(i, s, trace);
    }

    method AnswerReady(ghost s: State, ghost before: seq<Event>) returns (ghost trace: seq<Event>)
      requires Reaches(Next, s, before, View()) && Inv(View()) && HasRead(probe, |workers|)
      modifies this`probe
      ensures Reaches(Next, s, trace, View()) && Inv(View())
      ensures View() == Do(Next, old(View()), ProbeAnswer)
      ensures probe.Answered? && probe.ok && |probe.looks| == |checks| == |workers|
      ensures forall i :: 0 <= i < |workers| && !InFlight(View(), i) ==>
                (Member(handled, workers[i]) <==> probe.looks[i] != Stale)
    {
      ReadersAgree(View());
      Extend(Next, s, before, View(), ProbeAnswer);
      StepKeepsInv(View(), ProbeAnswer);
      trace := before + [ProbeAnswer];
      probe := Answered(true, probe.looks);
    }

    /** The checks and the balancer take the steps of `es` that are possible in their
        turn, which leaves the position of the probe alone. */
    method Disturb(ghost i: nat, es: seq<Event>, ghost s: State, ghost before: seq<Event>)
      returns (ghost trace: seq<Event>)
      requires Inv(s) && Reaches(Next, s, before, View()) && HasRead(probe, i)
      modifies this
      ensures Reaches(Next, s, trace, View()) && Inv(View()) && HasRead(probe, i)
      ensures View() == Script(OthersNext, old(View()), es)
    {
      ScriptKeepsPosition(View(), es);
      Interferes(OthersNext, Next, s, before, View(), es);
      trace := before + Taken(OthersNext, View(), es);
      RunKeepsInv(s, trace, Script(OthersNext, View(), es));
      Become(Script(OthersNext, View(), es));
    }

    /** One iteration: the read of one state and the test of it. */
    method ReadState(i: nat, ghost s: State, ghost before: seq<Event>) returns (ok: bool, ghost trace: seq<Event>)
      requires Reaches(Next, s, before, View()) && Inv(View()) && HasRead(probe, i) && i < |workers|
      modifies this`probe
      ensures Reaches(Next, s, trace, View()) && Inv(View())
      ensures View() == Do(Next, old(View()), ProbeRead(i))
      ensures ok <==> ServerState(View(), workers[i].name) == Ready
      ensures if ok then HasRead(probe, i + 1) else probe.Answered? && !probe.ok
    {
      Extend(Next, s, before, View(), ProbeRead(i));
      trace := before + [ProbeRead(i)];
      StepKeepsInv(View(), ProbeRead(i));
      var state := GetServerState(workers[i].name);
      ok := !(state == TransientFailure || state == Shutdown);
      probe := if ok then Probing(probe.looks[i := Current]) else Answered(false, probe.looks);
    }
  }

  /** The others take their steps and the state `i` is read. */
  function ReadAfter(s: State, es: seq<Event>, i: nat): State {
    Do(Next, Script(OthersNext, s, es), ProbeRead(i))
  }

  /** In an iteration the others take their steps, whatever the probe reads then. */
  lemma ReadAfterMovesOthers(s: State, es: seq<Event>, i: nat)
    ensures var t, u := ReadAfter(s, es, i), Script(OthersNext, s, es);
            t.checks == u.checks && t.states == u.states && t.balancer == u.balancer && t.handled == u.handled
  {
  }

  /** The state after the probe has gone round `n` times: each time the others take their
      steps and one state is read, unless the answer was given. */
  function Probed(s: State, others: seq<seq<Event>>, n: nat): State
    requires n <= |others|
    decreases n, 1
  {
    if n == 0 then Do(Next, s, ProbeStart) else ProbedOn(s, others, n)
  }

  function ProbedOn(s: State, others: seq<seq<Event>>, n: nat): State
    requires 0 < n <= |others|
    decreases n, 0
  {
    var t := Probed(s, others, n - 1);
    if t.probe.Probing? then ReadAfter(t, others[n - 1], n - 1) else t
  }

  lemma ProbedStep(s: State, others: seq<seq<Event>>, n: nat, t: State)
    requires n < |others| && t == Probed(s, others, n) && t.probe.Probing?
    ensures Probed(s, others, n + 1) == ReadAfter(t, others[n], n)
  {
    assert Probed(s, others, n + 1) == ProbedOn(s, others, n + 1);
  }

  lemma {:induction false} ProbedUndisturbed(s: State, others: seq<seq<Event>>, n: nat)
    requires Enabled(s, ProbeStart) && Undisturbed(others) && n <= |others| == |s.workers|
    ensures var t := Probed(s, others, n);
            t.workers == s.workers && t.states == s.states && |t.checks| == |s.checks| &&
            (t.probe.Probing? <==> ReadyUpTo(s, n)) &&
            (t.probe.Probing? ==> |t.probe.looks| == |s.workers| && HasRead(t.probe, n))
  {
    if n > 0 {
      ProbedUndisturbed(s, others, n - 1);
      assert Probed(s, others, n) == ProbedOn(s, others, n);
    }
  }

  /** The probe has read the first `n` states. */
  predicate HasRead(p: Probe, n: int) {
    p.Probing? && forall j :: 0 <= j < |p.looks| ==> (p.looks[j] == Unread <==> n <= j)
  }

  predicate ReadyUpTo(s: State, n: int) {
    forall i :: 0 <= i < |s.workers| && i < n ==> ServerState(s, s.workers[i].name) == Ready
  }

  predicate Undisturbed(others: seq<seq<Event>>) { forall i :: 0 <= i < |others| ==> others[i] == [] }

  lemma ReadersAgree(s: State)
    requires Inv(s) && s.probe.Probing? && AllRead(s.probe.looks)
    ensures forall i :: 0 <= i < |s.workers| && !InFlight(s, i) ==>
              (Member(s.handled, s.workers[i]) <==> s.probe.looks[i] != Stale)
  {
    forall i | 0 <= i < |s.workers| && !InFlight(s, i)
      ensures Member(s.handled, s.workers[i]) <==> s.probe.looks[i] != Stale
    {
      assert LookInv(s, i);
      MemberIffReady(s, i);
    }
  }

  ghost predicate SamePosition(s: State, t: State) {
    && t.workers == s.workers
    && (s.probe.Probing? ==>
          t.probe.Probing? && |t.probe.looks| == |s.probe.looks| &&
          forall j :: 0 <= j < |s.probe.looks| ==> (t.probe.looks[j] == Unread <==> s.probe.looks[j] == Unread))
  }

  lemma {:induction false} ScriptKeepsPosition(s: State, es: seq<Event>)
    ensures SamePosition(s, Script(OthersNext, s, es))
  {
    if es != [] {
      ScriptKeepsPosition(s, es[..|es| - 1]);
    }
  }
}
