/**
 Counting to a limit in private cells that the main thread sums at the end, and counting in one loop.
*/
module MapReduce {

  /** Clearing the own cell, adding one to it, comparing it with the share; stopped. */
  datatype Pc = Clear | Bump | Compare | Stopped

  /** The main thread has joined the first `joined` threads and added up their cells. */
  datatype State = State(cells: seq<int>, threads: seq<Pc>, joined: nat, sum: int)

  datatype Action = ThreadStep(t: nat) | JoinNext

  /** The cells start with whatever the stack held. */
  ghost predicate Init(s: State) {
    && |s.threads| == |s.cells| > 0
    && (forall t :: 0 <= t < |s.threads| ==> s.threads[t] == Clear)
    && s.joined == 0 && s.sum == 0
  }

  predicate Enabled(s: State, a: Action) {
    && |s.threads| == |s.cells|
    && match a
       case ThreadStep(t) => t < |s.threads| && s.threads[t] != Stopped
       case JoinNext => s.joined < |s.threads| && s.threads[s.joined] == Stopped
  }

  function Do(s: State, a: Action, share: nat): State
    requires Enabled(s, a)
  {
    match a
    case ThreadStep(t) => (
      match s.threads[t]
      case Clear => s.(cells := s.cells[t := 0], threads := s.threads[t := Bump])
      case Bump => s.(cells := s.cells[t := s.cells[t] + 1], threads := s.threads[t := Compare])
      case Compare => s.(threads := s.threads[t := if s.cells[t] == share then Stopped else Bump])
    )
    case JoinNext => s.(joined := s.joined + 1, sum := s.sum + s.cells[s.joined])
  }

  ghost predicate Next(s: State, s': State, share: nat) {
    exists a :: Enabled(s, a) && s' == Do(s, a, share)
  }

  /** Each thread counts to the limit divided by the number of threads, rounded down. */
  ghost predicate Behavior(run: seq<State>, limit: nat) {
    && run != [] && Init(run[0])
    && forall k :: 0 <= k < |run| - 1 ==> Next(run[k], run[k + 1], limit / |run[0].threads|)
  }

  ghost predicate ThreadOk(s: State, t: nat, share: nat)
    requires t < |s.threads| == |s.cells|
  {
    match s.threads[t]
    case Clear => true
    case Bump => 0 <= s.cells[t] && (share > 0 ==> s.cells[t] < share)
    case Compare => 1 <= s.cells[t] && (share > 0 ==> s.cells[t] <= share)
    case Stopped => s.cells[t] == share > 0
  }

  ghost predicate Inv(s: State, share: nat) {
    && |s.threads| == |s.cells| > 0 && s.joined <= |s.threads|
    && (forall t :: 0 <= t < |s.threads| ==> ThreadOk(s, t, share))
    && (forall t :: 0 <= t < s.joined ==> s.threads[t] == Stopped)
    && s.sum == s.joined * share
  }

  lemma StepInv(s: State, a: Action, share: nat)
    requires Inv(s, share) && Enabled(s, a)
    ensures Inv(Do(s, a, share), share)
  {
    var next := Do(s, a, share);
    if a.JoinNext? {
      assert ThreadOk(s, s.joined, share);
      assert (s.joined + 1) * share == s.joined * share + share;
    } else {
      assert ThreadOk(s, a.t, share);
    }
    forall t | 0 <= t < |s.threads|
      ensures ThreadOk(next, t, share)
    {
      assert ThreadOk(s, t, share);
    }
  }

  lemma {:induction false} ReachableInv(run: seq<State>, limit: nat, k: nat)
    requires Behavior(run, limit) && k < |run|
    ensures Inv(run[k], limit / |run[0].threads|) && |run[k].threads| == |run[0].threads|
  {
    if k > 0 {
      ReachableInv(run, limit, k - 1);
      var share := limit / |run[0].threads|;
      assert Next(run[k - 1], run[k], share);
      var a :| Enabled(run[k - 1], a) && run[k] == Do(run[k - 1], a, share);
      StepInv(run[k - 1], a, share);
    }
  }

  /** After the last join the sum is the limit exactly when the number of threads divides it. */
  lemma SumIsTheLimit(run: seq<State>, limit: nat, k: nat)
    requires Behavior(run, limit) && k < |run| && run[k].joined == |run[k].threads|
    ensures run[k].sum == limit - limit % |run[0].threads|
    ensures run[k].sum == limit <==> limit % |run[0].threads| == 0
  {
    ReachableInv(run, limit, k);
    hide Behavior, Inv;
    ShareTimesThreads(limit, |run[0].threads|);
  }

  lemma ShareTimesThreads(limit: nat, n: nat)
    requires n > 0
    ensures n * (limit / n) == limit - limit % n
  {
  }

  lemma NothingToShare(limit: nat, n: nat)
    requires limit < n
    ensures limit / n == 0
  {
  }

  /** With more threads than numbers to count, no thread ever stops. */
  lemma TooManyThreadsNeverStop(run: seq<State>, limit: nat, k: nat, t: nat)
    requires Behavior(run, limit) && k < |run| && t < |run[k].threads|
    requires limit < |run[0].threads|
    ensures run[k].threads[t] != Stopped
  {
    ReachableInv(run, limit, k);
    NothingToShare(limit, |run[0].threads|);
    assert ThreadOk(run[k], t, 0);
  }

  // ---- termination -----------------------------------------------------------------------------

  /** The steps a thread has taken: one to clear its cell, then two for each number it has counted. */
  function Steps(pc: Pc, cell: int): int {
    match pc
    case Clear => 0
    case Bump => 1 + 2 * cell
    case Compare => 2 * cell
    case Stopped => 1 + 2 * cell
  }

  function AllSteps(threads: seq<Pc>, cells: seq<int>): int
    requires |threads| == |cells|
  {
    if threads == [] then 0 else Steps(threads[0], cells[0]) + AllSteps(threads[1..], cells[1..])
  }

  lemma {:induction false} StepsOfUpdate(threads: seq<Pc>, cells: seq<int>, t: nat, pc: Pc, cell: int)
    requires t < |threads| == |cells|
    ensures AllSteps(threads[t := pc], cells[t := cell])
            == AllSteps(threads, cells) - Steps(threads[t], cells[t]) + Steps(pc, cell)
  {
    if t == 0 {
      assert threads[0 := pc][1..] == threads[1..] && cells[0 := cell][1..] == cells[1..];
    } else {
      StepsOfUpdate(threads[1..], cells[1..], t - 1, pc, cell);
      assert threads[t := pc][1..] == threads[1..][t - 1 := pc];
      assert cells[t := cell][1..] == cells[1..][t - 1 := cell];
    }
  }

  lemma {:induction false} StepsAreBounded(threads: seq<Pc>, cells: seq<int>, share: nat)
    requires |threads| == |cells| && share > 0
    requires forall t :: 0 <= t < |threads| ==> Steps(threads[t], cells[t]) <= 1 + 2 * share
    ensures AllSteps(threads, cells) <= (1 + 2 * share) * |threads|
    ensures (forall t :: 0 <= t < |threads| ==> threads[t] == Stopped && cells[t] == share) ==>
              AllSteps(threads, cells) == (1 + 2 * share) * |threads|
  {
    if threads != [] {
      StepsAreBounded(threads[1..], cells[1..], share);
      assert (1 + 2 * share) * |threads| == (1 + 2 * share) + (1 + 2 * share) * |threads[1..]|;
    }
  }

  lemma {:induction false} NoStepsYet(threads: seq<Pc>, cells: seq<int>)
    requires |threads| == |cells| && forall t :: 0 <= t < |threads| ==> threads[t] == Clear
    ensures AllSteps(threads, cells) == 0
  {
    if threads != [] {
      NoStepsYet(threads[1..], cells[1..]);
    }
  }

  lemma OneStepTaken(s: State, s': State, share: nat)
    requires Inv(s, share) && Next(s, s', share)
    ensures |s'.threads| == |s'.cells|
    ensures s'.joined + AllSteps(s'.threads, s'.cells) == s.joined + AllSteps(s.threads, s.cells) + 1
  {
    hide AllSteps;
    var a :| Enabled(s, a) && s' == Do(s, a, share);
    if a.ThreadStep? {
      StepsOfUpdate(s.threads, s.cells, a.t, s'.threads[a.t], s'.cells[a.t]);
      hide Inv;
      assert s'.threads == s.threads[a.t := s'.threads[a.t]];
      assert s'.cells == s.cells[a.t := s'.cells[a.t]];
    }
  }

  lemma {:induction false} StepsTaken(run: seq<State>, limit: nat, k: nat)
    requires Behavior(run, limit) && k < |run|
    ensures |run[k].threads| == |run[k].cells| && k == run[k].joined + AllSteps(run[k].threads, run[k].cells)
  {
    hide AllSteps, Inv, Do, Enabled;
    if k == 0 {
      NoStepsYet(run[0].threads, run[0].cells);
    } else {
      StepsTaken(run, limit, k - 1);
      ReachableInv(run, limit, k - 1);
      assert Next(run[k - 1], run[k], limit / |run[0].threads|);
      OneStepTaken(run[k - 1], run[k], limit / |run[0].threads|);
    }
  }

  /**
   With at least one number for each thread no run is longer than a clear, two steps for each number of
   its share, and a join for each thread; a run that has joined them all has just that many.
  */
  lemma EveryRunEnds(run: seq<State>, limit: nat, k: nat)
    requires Behavior(run, limit) && k < |run| && limit >= |run[0].threads|
    ensures var n := |run[0].threads|;
            && k <= (2 + 2 * (limit / n)) * n
            && (run[k].joined == n ==> k == (2 + 2 * (limit / n)) * n)
  {
    var n, s := |run[0].threads|, run[k];
    var share := limit / n;
    ReachableInv(run, limit, k);
    StepsTaken(run, limit, k);
    assert share > 0;
    forall t | 0 <= t < n ensures Steps(s.threads[t], s.cells[t]) <= 1 + 2 * share
    {
      assert ThreadOk(s, t, share);
    }
    StepsAreBounded(s.threads, s.cells, share);
    assert (2 + 2 * share) * n == n + (1 + 2 * share) * n;
    if s.joined == n {
      forall t | 0 <= t < n ensures s.threads[t] == Stopped && s.cells[t] == share
      {
        assert ThreadOk(s, t, share);
      }
      assert k == n + (1 + 2 * share) * n;
    }
  }

  /** Until the main thread has joined them all, some thread or the main thread can take a step. */
  lemma NeverStuck(run: seq<State>, limit: nat, k: nat) returns (a: Action)
    requires Behavior(run, limit) && k < |run| && run[k].joined < |run[k].threads|
    ensures Enabled(run[k], a)
  {
    ReachableInv(run, limit, k);
    a := if run[k].threads[run[k].joined] == Stopped then JoinNext else ThreadStep(run[k].joined);
  }

  /** The simple loop the threads must agree with. */
  method Sequential(limit: nat) returns (num: int)
    requires limit >= 1
    ensures num == limit
  {
    num := 0;
    while true
      invariant 0 <= num < limit
      decreases limit - num
    {
      num := num + 1;
      if num == limit {
        break;
      }
    }
  }
}
