/** Step systems: which events are possible in a state, and which state they lead to.
    A sequence of events is one interleaving of all goroutines and the environment. */
module Runs {
  import opened Basics

  /** The events `es` lead from `s` to `t`. */
  ghost predicate Reaches<S(!new), E>(step: (S, E) -> Option<S>, s: S, es: seq<E>, t: S)
    decreases |es|, 1
  {
    if es == [] then s == t else Begins(step, s, es, t)
  }

  ghost predicate Begins<S(!new), E>(step: (S, E) -> Option<S>, s: S, es: seq<E>, t: S)
    requires es != []
    decreases |es|, 0
  {
    step(s, es[0]).Some? && Reaches(step, step(s, es[0]).value, es[1..], t)
  }

  lemma {:induction false} Append<S(!new), E>(step: (S, E) -> Option<S>, s: S, es: seq<E>, t: S, fs: seq<E>, u: S)
    requires Reaches(step, s, es, t) && Reaches(step, t, fs, u)
    ensures Reaches(step, s, es + fs, u)
    decreases |es|
  {
    if es == [] {
      assert es + fs == fs;
    } else {
      assert Begins(step, s, es, t);
      Append(step, step(s, es[0]).value, es[1..], t, fs, u);
      assert (es + fs)[1..] == es[1..] + fs;
      assert Begins(step, s, es + fs, u);
    }
  }

  lemma Extend<S(!new), E>(step: (S, E) -> Option<S>, s: S, es: seq<E>, t: S, e: E)
    requires Reaches(step, s, es, t) && step(t, e).Some?
    ensures Reaches(step, s, es + [e], step(t, e).value)
  {
    assert Begins(step, t, [e], step(t, e).value);
    Append(step, s, es, t, [e], step(t, e).value);
  }

  /** What holds at first and is kept by every step holds at the end of every run. */
  lemma {:induction false} Invariant<S(!new), E(!new)>(
      step: (S, E) -> Option<S>, inv: S -> bool, s: S, es: seq<E>, t: S)
    requires inv(s) && Reaches(step, s, es, t)
    requires forall s, e :: inv(s) && step(s, e).Some? ==> inv(step(s, e).value)
    ensures inv(t)
    decreases |es|
  {
    if es != [] {
      assert Begins(step, s, es, t);
      Invariant(step, inv, step(s, es[0]).value, es[1..], t);
    }
  }

  /** If every step lowers the measure, it bounds the length of every run. */
  lemma {:induction false} Bounded<S(!new), E(!new)>(
      step: (S, E) -> Option<S>, inv: S -> bool, work: S -> nat, s: S, es: seq<E>, t: S)
    requires inv(s) && Reaches(step, s, es, t)
    requires forall s, e :: inv(s) && step(s, e).Some? ==>
               inv(step(s, e).value) && work(step(s, e).value) < work(s)
    ensures |es| + work(t) <= work(s)
    decreases |es|
  {
    if es != [] {
      assert Begins(step, s, es, t);
      Bounded(step, inv, work, step(s, es[0]).value, es[1..], t);
    }
  }

  /** A run of a restricted system is a run of the whole one. */
  lemma {:induction false} Weaken<S(!new), E(!new)>(
      step: (S, E) -> Option<S>, wider: (S, E) -> Option<S>, s: S, es: seq<E>, t: S)
    requires Reaches(step, s, es, t)
    requires forall s, e :: step(s, e).Some? ==> wider(s, e) == step(s, e)
    ensures Reaches(wider, s, es, t)
    decreases |es|
  {
    if es != [] {
      assert Begins(step, s, es, t);
      Weaken(step, wider, step(s, es[0]).value, es[1..], t);
      assert Begins(wider, s, es, t);
    }
  }

  // ------------------------------------------------------------------- interference

  /** The event if it is possible, and nothing otherwise. */
  function Do<S, E>(step: (S, E) -> Option<S>, s: S, e: E): S {
    if step(s, e).Some? then step(s, e).value else s
  }

  /** The state after the events of `es` that are possible when their turn comes. */
  function Script<S, E>(step: (S, E) -> Option<S>, s: S, es: seq<E>): S {
    if es == [] then s else Do(step, Script(step, s, es[..|es| - 1]), es[|es| - 1])
  }

  /** The events of `es` that are possible when their turn comes. */
  function Taken<S, E>(step: (S, E) -> Option<S>, s: S, es: seq<E>): seq<E> {
    if es == [] then []
    else
      var t, e := Script(step, s, es[..|es| - 1]), es[|es| - 1];
      Taken(step, s, es[..|es| - 1]) + if step(t, e).Some? then [e] else []
  }

  lemma {:induction false} ScriptReaches<S(!new), E>(step: (S, E) -> Option<S>, s: S, es: seq<E>)
    ensures Reaches(step, s, Taken(step, s, es), Script(step, s, es))
  {
    if es != [] {
      var front, e := es[..|es| - 1], es[|es| - 1];
      ScriptReaches(step, s, front);
      if step(Script(step, s, front), e).Some? {
        Extend(step, s, Taken(step, s, front), Script(step, s, front), e);
      } else {
        assert Taken(step, s, front) + [] == Taken(step, s, front);
      }
    }
  }

  /** All events of a script that are taken are events of these goroutines. */
  lemma {:induction false} TakenFrom<S(!new), E(!new)>(
      step: (S, E) -> Option<S>, mine: E -> bool, s: S, es: seq<E>)
    requires forall s, e :: step(s, e).Some? ==> mine(e)
    ensures forall e :: e in Taken(step, s, es) ==> mine(e)
  {
    if es != [] {
      TakenFrom(step, mine, s, es[..|es| - 1]);
    }
  }

  /** Interference by some of the goroutines is a run of the whole system. */
  lemma Interferes<S(!new), E(!new)>(
      some: (S, E) -> Option<S>, step: (S, E) -> Option<S>, s: S, before: seq<E>, t: S, es: seq<E>)
    requires Reaches(step, s, before, t)
    requires forall s, e :: some(s, e).Some? ==> step(s, e) == some(s, e)
    ensures Reaches(step, s, before + Taken(some, t, es), Script(some, t, es))
  {
    ScriptReaches(some, t, es);
    Weaken(some, step, t, Taken(some, t, es), Script(some, t, es));
    Append(step, s, before, t, Taken(some, t, es), Script(some, t, es));
  }

  lemma ScriptStep<S, E>(step: (S, E) -> Option<S>, s: S, es: seq<E>, t: S, e: E)
    requires Script(step, s, es) == t && step(t, e).Some?
    ensures Script(step, s, es + [e]) == step(t, e).value
  {
    assert (es + [e])[..|es|] == es;
  }
}
