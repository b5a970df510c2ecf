/**
 Threads that count to a limit in one shared variable: the mutex version stops at `>=`, the spinlock
 version at `==`.

 Lock, test, read, write and unlock are steps of their own, and the steps of all threads interleave freely.
*/
module SharedCounter {

  datatype Test = AtLeast | Exactly

  predicate Reached(test: Test, num: int, limit: nat) {
    match test
    case AtLeast => num >= limit
    case Exactly => num == limit
  }

  /** About to lock, test, read, write what was read plus one, unlock and loop, unlock and stop; stopped. */
  datatype Pc = Lock | Compare | Read | Write(v: int) | Loop | Leave | Stopped

  datatype Owner = Free | By(t: nat)

  datatype State = State(num: int, mutex: Owner, threads: seq<Pc>)

  ghost predicate Init(s: State) {
    s.num == 0 && s.mutex == Free && forall t :: 0 <= t < |s.threads| ==> s.threads[t] == Lock
  }

  /** A thread waits only for the lock. */
  predicate Enabled(s: State, t: nat) {
    t < |s.threads| && s.threads[t] != Stopped && (s.threads[t] == Lock ==> s.mutex == Free)
  }

  function Do(s: State, t: nat, test: Test, limit: nat): State
    requires Enabled(s, t)
  {
    match s.threads[t]
    case Lock => s.(mutex := By(t), threads := s.threads[t := Compare])
    case Compare => s.(threads := s.threads[t := if Reached(test, s.num, limit) then Leave else Read])
    case Read => s.(threads := s.threads[t := Write(s.num)])
    case Write(v) => s.(num := v + 1, threads := s.threads[t := Loop])
    case Loop => s.(mutex := Free, threads := s.threads[t := Lock])
    case Leave => s.(mutex := Free, threads := s.threads[t := Stopped])
  }

  ghost predicate Next(s: State, s': State, test: Test, limit: nat) {
    exists t :: Enabled(s, t) && s' == Do(s, t, test, limit)
  }

  ghost predicate Behavior(run: seq<State>, test: Test, limit: nat) {
    run != [] && Init(run[0]) && forall k :: 0 <= k < |run| - 1 ==> Next(run[k], run[k + 1], test, limit)
  }

  predicate Inside(pc: Pc) {
    pc != Lock && pc != Stopped
  }

  /** What thread `t` knows about the counter. */
  ghost predicate ThreadOk(s: State, t: nat, limit: nat)
    requires t < |s.threads|
  {
    && (Inside(s.threads[t]) <==> s.mutex == By(t))
    && (s.threads[t] == Read ==> s.num < limit)
    && (s.threads[t].Write? ==> s.threads[t].v == s.num < limit)
    && (s.threads[t] == Leave || s.threads[t] == Stopped ==> s.num == limit)
  }

  ghost predicate Inv(s: State, limit: nat) {
    && 0 <= s.num <= limit
    && (s.mutex.By? ==> s.mutex.t < |s.threads|)
    && forall t :: 0 <= t < |s.threads| ==> ThreadOk(s, t, limit)
  }

  lemma StepInv(s: State, t: nat, test: Test, limit: nat)
    requires Inv(s, limit) && Enabled(s, t)
    ensures Inv(Do(s, t, test, limit), limit)
  {
    assert ThreadOk(s, t, limit);
    var next := Do(s, t, test, limit);
    forall j | 0 <= j < |s.threads|
      ensures ThreadOk(next, j, limit)
    {
      assert ThreadOk(s, j, limit);
    }
  }

  lemma {:induction false} ReachableInv(run: seq<State>, test: Test, limit: nat, k: nat)
    requires Behavior(run, test, limit) && k < |run|
    ensures Inv(run[k], limit) && |run[k].threads| == |run[0].threads|
  {
    if k > 0 {
      ReachableInv(run, test, limit, k - 1);
      assert Next(run[k - 1], run[k], test, limit);
      var t :| Enabled(run[k - 1], t) && run[k] == Do(run[k - 1], t, test, limit);
      StepInv(run[k - 1], t, test, limit);
    }
  }

  /** The counter never passes the limit, whichever test is used. */
  lemma NeverPastTheLimit(run: seq<State>, test: Test, limit: nat, k: nat)
    requires Behavior(run, test, limit) && k < |run|
    ensures 0 <= run[k].num <= limit
  {
    ReachableInv(run, test, limit, k);
  }

  /** At most one thread is between its lock and its unlock. */
  lemma OneThreadInside(run: seq<State>, test: Test, limit: nat, k: nat, t: nat, u: nat)
    requires Behavior(run, test, limit) && k < |run| && t < u < |run[k].threads|
    ensures !(Inside(run[k].threads[t]) && Inside(run[k].threads[u]))
  {
    ReachableInv(run, test, limit, k);
    assert ThreadOk(run[k], t, limit) && ThreadOk(run[k], u, limit);
  }

  /** When any thread has stopped, and so when all have, the counter is the limit. */
  lemma StoppedMeansDone(run: seq<State>, test: Test, limit: nat, k: nat, t: nat)
    requires Behavior(run, test, limit) && k < |run| && t < |run[k].threads|
    requires run[k].threads[t] == Stopped
    ensures run[k].num == limit
  {
    ReachableInv(run, test, limit, k);
    assert ThreadOk(run[k], t, limit);
  }

  lemma SameStep(s: State, s': State, test: Test, other: Test, limit: nat)
    requires Inv(s, limit) && Next(s, s', test, limit)
    ensures Next(s, s', other, limit)
  {
    var t: nat :| Enabled(s, t) && s' == Do(s, t, test, limit);
    assert s' == Do(s, t, other, limit);
  }

  lemma TestsAgreeOneWay(run: seq<State>, test: Test, other: Test, limit: nat)
    requires Behavior(run, test, limit)
    ensures Behavior(run, other, limit)
  {
    forall k | 0 <= k < |run| - 1
      ensures Next(run[k], run[k + 1], other, limit)
    {
      ReachableInv(run, test, limit, k);
      assert Next(run[k], run[k + 1], test, limit);
      SameStep(run[k], run[k + 1], test, other, limit);
    }
  }

  /** The two programs have exactly the same runs. */
  lemma TestsAgree(run: seq<State>, limit: nat)
    ensures Behavior(run, AtLeast, limit) <==> Behavior(run, Exactly, limit)
  {
    if Behavior(run, AtLeast, limit) {
      TestsAgreeOneWay(run, AtLeast, Exactly, limit);
    }
    if Behavior(run, Exactly, limit) {
      TestsAgreeOneWay(run, Exactly, AtLeast, limit);
    }
  }

  // ---- termination -----------------------------------------------------------------------------

  /** Steps a thread has taken beyond five for each addition it made. */
  function Ahead(pc: Pc): int {
    match pc
    case Loop => -1
    case Lock => 0
    case Compare => 1
    case Read => 2
    case Leave => 2
    case Write(_) => 3
    case Stopped => 3
  }

  function AllAhead(threads: seq<Pc>): int {
    if threads == [] then 0 else Ahead(threads[0]) + AllAhead(threads[1..])
  }

  lemma {:induction false} AheadOfUpdate(threads: seq<Pc>, t: nat, pc: Pc)
    requires t < |threads|
    ensures AllAhead(threads[t := pc]) == AllAhead(threads) - Ahead(threads[t]) + Ahead(pc)
  {
    if t == 0 {
      assert threads[0 := pc][1..] == threads[1..];
    } else {
      AheadOfUpdate(threads[1..], t - 1, pc);
      assert threads[t := pc][1..] == threads[1..][t - 1 := pc];
    }
  }

  lemma {:induction false} AheadIsBounded(threads: seq<Pc>)
    ensures AllAhead(threads) <= 3 * |threads|
    ensures (forall t :: 0 <= t < |threads| ==> threads[t] == Stopped) ==> AllAhead(threads) == 3 * |threads|
    ensures (forall t :: 0 <= t < |threads| ==> threads[t] == Lock) ==> AllAhead(threads) == 0
  {
    if threads != [] {
      AheadIsBounded(threads[1..]);
    }
  }

  lemma OneStepTaken(s: State, s': State, test: Test, limit: nat)
    requires Inv(s, limit) && Next(s, s', test, limit)
    ensures 5 * s'.num + AllAhead(s'.threads) == 5 * s.num + AllAhead(s.threads) + 1
  {
    hide AllAhead;
    var t: nat :| Enabled(s, t) && s' == Do(s, t, test, limit);
    assert ThreadOk(s, t, limit);
    AheadOfUpdate(s.threads, t, s'.threads[t]);
    hide Inv;
    assert s'.threads == s.threads[t := s'.threads[t]];
  }

  /** Each addition costs five steps, wherever they were interleaved. */
  lemma {:induction false} StepsTaken(run: seq<State>, test: Test, limit: nat, k: nat)
    requires Behavior(run, test, limit) && k < |run|
    ensures k == 5 * run[k].num + AllAhead(run[k].threads)
  {
    if k == 0 {
      AheadIsBounded(run[0].threads);
    } else {
      StepsTaken(run, test, limit, k - 1);
      ReachableInv(run, test, limit, k - 1);
      assert Next(run[k - 1], run[k], test, limit);
      OneStepTaken(run[k - 1], run[k], test, limit);
    }
  }

  /** No run is longer than five steps for each number and three for each thread; a finished one has just that many. */
  lemma EveryRunEnds(run: seq<State>, test: Test, limit: nat, k: nat)
    requires Behavior(run, test, limit) && k < |run|
    ensures k <= 5 * limit + 3 * |run[0].threads|
    ensures (forall t :: 0 <= t < |run[k].threads| ==> run[k].threads[t] == Stopped) && |run[k].threads| > 0
            ==> run[k].num == limit && k == 5 * limit + 3 * |run[0].threads|
  {
    ReachableInv(run, test, limit, k);
    StepsTaken(run, test, limit, k);
    AheadIsBounded(run[k].threads);
    if |run[k].threads| > 0 {
      assert ThreadOk(run[k], 0, limit);
    }
  }

  /** While some thread has not stopped, some thread can take a step. */
  lemma NeverStuck(run: seq<State>, test: Test, limit: nat, k: nat, t: nat) returns (u: nat)
    requires Behavior(run, test, limit) && k < |run| && t < |run[k].threads| && run[k].threads[t] != Stopped
    ensures Enabled(run[k], u)
  {
    ReachableInv(run, test, limit, k);
    u := if run[k].mutex.By? then run[k].mutex.t else t;
    assert ThreadOk(run[k], u, limit);
  }
}
