/**
 The parallel-buffer server before a kill: a main thread hands requests to workers through one slot
 per worker, with an `is_ready` flag and no lock.

 Every read or write of a flag, every half of the address a client structure holds, and every send
 is a step of its own; the steps of the main thread and the workers interleave freely.
*/
module SlotHandshake {

  /** A client's address; the main thread writes its two parts one after the other. */
  datatype Client = Client(addr: int, port: int)

  datatype Slot = Slot(client: Client, ready: bool)

  /** The main thread: testing slot i, in `recvfrom`, holding a request, between its writes. */
  datatype MainPc =
    | Scan(i: nat)
    | Receiving(f: nat)
    | WriteAddr(f: nat, c: Client)
    | WritePort(f: nat, c: Client)
    | Raise(f: nat, c: Client)

  /** A worker: reading the flag, reading it again for the stop value, sending, about to clear it. */
  datatype WorkerPc = Poll | Recheck | Send | Clear

  /** `received` and `answers` record what happened; no step reads them. */
  datatype State = State(slots: seq<Slot>, main: MainPc, workers: seq<WorkerPc>,
                         received: multiset<Client>, answers: multiset<Client>)

  datatype Action = MainStep(request: Client) | WorkerStep(w: nat)

  ghost predicate Init(s: State, n: nat) {
    && n >= 2
    && |s.slots| == n && (forall i :: 0 <= i < n ==> !s.slots[i].ready)
    && s.main == Scan(0)
    && s.workers == seq(n, _ => Poll)
    && s.received == multiset{} && s.answers == multiset{}
  }

  predicate Enabled(s: State, a: Action) {
    match a
    case MainStep(_) => MainIndex(s.main) < |s.slots|
    case WorkerStep(w) => w < |s.slots| && w < |s.workers|
  }

  function MainIndex(m: MainPc): nat {
    if m.Scan? then m.i else m.f
  }

  /**
   The selection loop resets its index to 0 after the last slot, and the loop header then increments it,
   so every round but the first starts at slot 1.
  */
  function NextScan(i: nat, n: nat): nat {
    if i == n - 1 then 1 else i + 1
  }

  function Do(s: State, a: Action): State
    requires Enabled(s, a)
  {
    match a
    case MainStep(request) => DoMain(s, request)
    case WorkerStep(w) => DoWorker(s, w)
  }

  function DoMain(s: State, request: Client): State
    requires MainIndex(s.main) < |s.slots|
  {
    match s.main
    case Scan(i) => s.(main := if !s.slots[i].ready then Receiving(i) else Scan(NextScan(i, |s.slots|)))
    case Receiving(f) => s.(main := WriteAddr(f, request), received := s.received + multiset{request})
    case WriteAddr(f, c) =>
      s.(main := WritePort(f, c), slots := s.slots[f := s.slots[f].(client := s.slots[f].client.(addr := c.addr))])
    case WritePort(f, c) =>
      s.(main := Raise(f, c), slots := s.slots[f := s.slots[f].(client := s.slots[f].client.(port := c.port))])
    case Raise(f, c) => s.(main := Scan(0), slots := s.slots[f := s.slots[f].(ready := true)])
  }

  function DoWorker(s: State, w: nat): State
    requires w < |s.slots| && w < |s.workers|
  {
    match s.workers[w]
    case Poll => if s.slots[w].ready then s.(workers := s.workers[w := Recheck]) else s
    case Recheck => s.(workers := s.workers[w := Send])
    case Send => s.(workers := s.workers[w := Clear], answers := s.answers + multiset{s.slots[w].client})
    case Clear => s.(workers := s.workers[w := Poll], slots := s.slots[w := s.slots[w].(ready := false)])
  }

  ghost predicate Next(s: State, s': State) {
    exists a :: Enabled(s, a) && s' == Do(s, a)
  }

  ghost predicate Behavior(t: seq<State>, n: nat) {
    t != [] && Init(t[0], n) && forall i :: 0 <= i < |t| - 1 ==> Next(t[i], t[i + 1])
  }

  // ---------------------------------------------------------------- the invariant

  /** A slot whose client waits for its answer. */
  predicate Pending(slot: Slot, pc: WorkerPc) {
    slot.ready && pc != Clear
  }

  /** How many slots hold client `c`, waiting for its answer. */
  function InSlots(slots: seq<Slot>, workers: seq<WorkerPc>, c: Client): nat
    requires |slots| == |workers|
  {
    if slots == [] then 0
    else (if Pending(slots[0], workers[0]) && slots[0].client == c then 1 else 0) + InSlots(slots[1..], workers[1..], c)
  }

  /** The request the main thread holds and has not handed over. */
  function Held(m: MainPc): multiset<Client> {
    if m.WriteAddr? || m.WritePort? || m.Raise? then multiset{m.c} else multiset{}
  }

  ghost predicate Conserved(s: State, c: Client)
    requires |s.slots| == |s.workers|
  {
    s.received[c] == s.answers[c] + InSlots(s.slots, s.workers, c) + Held(s.main)[c]
  }

  ghost predicate Handshake(s: State, n: nat) {
    && n >= 2 && |s.slots| == n && |s.workers| == n && MainIndex(s.main) < n
    // a worker past its test has a raised flag
    && (forall w :: 0 <= w < n ==> s.workers[w] != Poll ==> s.slots[w].ready)
    // the slot the main thread selected is free until it raises the flag itself
    && (!s.main.Scan? ==> !s.slots[s.main.f].ready)
    && (s.main.WritePort? ==> s.slots[s.main.f].client.addr == s.main.c.addr)
    && (s.main.Raise? ==> s.slots[s.main.f].client == s.main.c)
  }

  ghost predicate Inv(s: State, n: nat) {
    Handshake(s, n) && forall c :: Conserved(s, c)
  }

  lemma {:induction false} SlotUpdate(slots: seq<Slot>, workers: seq<WorkerPc>, w: nat,
      slot: Slot, pc: WorkerPc, c: Client)
    requires w < |slots| == |workers|
    ensures InSlots(slots[w := slot], workers[w := pc], c) == InSlots(slots, workers, c)
            - (if Pending(slots[w], workers[w]) && slots[w].client == c then 1 else 0)
            + (if Pending(slot, pc) && slot.client == c then 1 else 0)
  {
    hide Pending;
    if w == 0 {
      assert slots[0 := slot][1..] == slots[1..] && workers[0 := pc][1..] == workers[1..];
    } else {
      assert slots[w := slot][1..] == slots[1..][w - 1 := slot];
      assert workers[w := pc][1..] == workers[1..][w - 1 := pc];
      SlotUpdate(slots[1..], workers[1..], w - 1, slot, pc, c);
    }
  }

  lemma {:induction false} NothingPending(slots: seq<Slot>, workers: seq<WorkerPc>, c: Client)
    requires |slots| == |workers| && forall i :: 0 <= i < |slots| ==> !slots[i].ready
    ensures InSlots(slots, workers, c) == 0
  {
    if slots != [] {
      NothingPending(slots[1..], workers[1..], c);
    }
  }

  lemma InitInv(s: State, n: nat)
    requires Init(s, n)
    ensures Inv(s, n)
  {
    forall c ensures Conserved(s, c) {
      NothingPending(s.slots, s.workers, c);
    }
  }

  lemma MainConserves(s: State, request: Client, n: nat, c: Client)
    requires Handshake(s, n) && Conserved(s, c)
    ensures |DoMain(s, request).slots| == n && Conserved(DoMain(s, request), c)
  {
    hide InSlots;
    if s.main.WriteAddr? || s.main.WritePort? || s.main.Raise? {
      var f := s.main.f;
      assert s.workers[f := s.workers[f]] == s.workers;
      SlotUpdate(s.slots, s.workers, f, DoMain(s, request).slots[f], s.workers[f], c);
    }
  }

  lemma MainInv(s: State, request: Client, n: nat)
    requires Inv(s, n)
    ensures Inv(DoMain(s, request), n)
  {
    forall c ensures Conserved(DoMain(s, request), c) {
      MainConserves(s, request, n, c);
    }
    hide Conserved;
  }

  lemma WorkerConserves(s: State, w: nat, n: nat, c: Client)
    requires Handshake(s, n) && w < n && Conserved(s, c)
    ensures |DoWorker(s, w).slots| == |DoWorker(s, w).workers| == n && Conserved(DoWorker(s, w), c)
  {
    hide InSlots, Held;
    var s' := DoWorker(s, w);
    assert s.slots[w := s.slots[w]] == s.slots && s.workers[w := s.workers[w]] == s.workers;
    SlotUpdate(s.slots, s.workers, w, s'.slots[w], s'.workers[w], c);
  }

  lemma WorkerInv(s: State, w: nat, n: nat)
    requires Inv(s, n) && w < n
    ensures Inv(DoWorker(s, w), n)
  {
    forall c ensures |DoWorker(s, w).slots| == |DoWorker(s, w).workers| && Conserved(DoWorker(s, w), c) {
      WorkerConserves(s, w, n, c);
    }
    hide Conserved;
  }

  lemma {:induction false} ReachableInv(t: seq<State>, i: nat, n: nat)
    requires Behavior(t, n) && i < |t|
    ensures Inv(t[i], n)
  {
    hide Inv, DoMain, DoWorker, Init;
    if i == 0 {
      InitInv(t[0], n);
    } else {
      ReachableInv(t, i - 1, n);
      assert Next(t[i - 1], t[i]);
      var a :| Enabled(t[i - 1], a) && t[i] == Do(t[i - 1], a);
      InvShape(t[i - 1], n);
      match a
      case MainStep(request) => MainInv(t[i - 1], request, n);
      case WorkerStep(w) => WorkerInv(t[i - 1], w, n);
    }
  }

  lemma InvShape(s: State, n: nat)
    requires Inv(s, n)
    ensures |s.slots| == |s.workers| == n
  {
  }

  // ---------------------------------------------------------------- main results

  /** No request is lost and none is answered twice. */
  lemma RequestsAreConserved(t: seq<State>, i: nat, n: nat, c: Client)
    requires Behavior(t, n) && i < |t|
    ensures |t[i].slots| == |t[i].workers|
    ensures t[i].received[c] == t[i].answers[c] + InSlots(t[i].slots, t[i].workers, c) + Held(t[i].main)[c]
  {
    hide InSlots;
    ReachableInv(t, i, n);
    assert Conserved(t[i], c);
  }

  /** The main thread never writes into a slot whose client is still waiting, and its worker is not looking. */
  lemma SelectedSlotStaysFree(t: seq<State>, i: nat, n: nat)
    requires Behavior(t, n) && i < |t| && !t[i].main.Scan?
    ensures t[i].main.f < n && |t[i].slots| == |t[i].workers| == n
    ensures !t[i].slots[t[i].main.f].ready && t[i].workers[t[i].main.f] == Poll
  {
    hide InSlots;
    ReachableInv(t, i, n);
  }

  /** A step of the main thread leaves every waiting client as it is. */
  lemma WaitingClientsSurvive(t: seq<State>, i: nat, n: nat, request: Client, w: nat)
    requires Behavior(t, n) && i < |t| && w < n
    ensures |t[i].slots| == |t[i].workers| == n && Enabled(t[i], MainStep(request))
    ensures Pending(t[i].slots[w], t[i].workers[w]) ==> Do(t[i], MainStep(request)).slots[w] == t[i].slots[w]
  {
    hide InSlots;
    ReachableInv(t, i, n);
  }

  /** What a worker answers is a complete address that was received, never a half-written mixture. */
  lemma AnswersAreGenuine(t: seq<State>, i: nat, n: nat, w: nat)
    requires Behavior(t, n) && i < |t| && w < n && w < |t[i].workers| && t[i].workers[w] == Send
    ensures w < |t[i].slots| && t[i].received[t[i].slots[w].client] > t[i].answers[t[i].slots[w].client]
  {
    ReachableInv(t, i, n);
    PendingCounts(t[i].slots, t[i].workers, w);
    hide InSlots;
    assert Conserved(t[i], t[i].slots[w].client);
  }

  lemma {:induction false} PendingCounts(slots: seq<Slot>, workers: seq<WorkerPc>, w: nat)
    requires w < |slots| == |workers| && Pending(slots[w], workers[w])
    ensures InSlots(slots, workers, slots[w].client) > 0
  {
    if w > 0 {
      PendingCounts(slots[1..], workers[1..], w - 1);
      assert slots[1..][w - 1] == slots[w];
    }
  }

  /**
   Once a selection has found slot 0 busy it never looks there again: from then on the main thread
   selects a slot other than 0, however long slot 0 has been free.
  */
  lemma {:induction false} RescanSkipsSlotZero(t: seq<State>, i: nat, j: nat, n: nat)
    requires Behavior(t, n) && i <= j < |t|
    requires t[i].main.Scan? && t[i].main.i > 0
    requires forall k :: i <= k < j ==> t[k].main.Scan?
    ensures (t[j].main.Scan? && t[j].main.i > 0) || (t[j].main.Receiving? && t[j].main.f > 0)
    decreases j
  {
    if i < j {
      RescanSkipsSlotZero(t, i, j - 1, n);
      hide Do, Init;
      assert Next(t[j - 1], t[j]);
      var a :| Enabled(t[j - 1], a) && t[j] == Do(t[j - 1], a);
      NextRoundStartsAtOne(t[j - 1], a);
    }
  }

  lemma NextRoundStartsAtOne(s: State, a: Action)
    requires Enabled(s, a) && s.main.Scan? && s.main.i > 0
    ensures var m := Do(s, a).main; (m.Scan? && m.i > 0) || (m.Receiving? && m.f > 0)
  {
  }

  // ---------------------------------------------------------------- progress

  /** How far a worker is with its slot. */
  function Stage(pc: WorkerPc): nat {
    match pc
    case Poll => 0
    case Recheck => 1
    case Send => 2
    case Clear => 3
  }

  /** Step `k` moved worker `w`; a look at a lowered flag moves nobody. */
  predicate Moved(t: seq<State>, k: nat, w: nat)
    requires k + 1 < |t|
  {
    w < |t[k].workers| && w < |t[k + 1].workers| && t[k].workers[w] != t[k + 1].workers[w]
  }

  /** How often worker `w` has moved from state `i` to state `j`. */
  function Moves(t: seq<State>, i: nat, j: nat, w: nat): nat
    requires i <= j < |t|
    decreases j
  {
    if i == j then 0 else Moves(t, i, j - 1, w) + if Moved(t, j - 1, w) then 1 else 0
  }

  /** The worker of a slot whose flag is raised can step, and its step moves it. */
  lemma RaisedSlotIsServed(t: seq<State>, i: nat, n: nat, w: nat)
    requires Behavior(t, n) && i < |t| && w < n
    ensures |t[i].slots| == |t[i].workers| == n
    ensures Enabled(t[i], WorkerStep(w))
    ensures t[i].slots[w].ready ==>
              Stage(Do(t[i], WorkerStep(w)).workers[w]) == (Stage(t[i].workers[w]) + 1) % 4
  {
    hide InSlots;
    ReachableInv(t, i, n);
  }

  /** A slot with a raised flag keeps its client, until its worker leaves `Clear`; the worker goes on by one stage. */
  lemma RaisedSlotStep(s: State, a: Action, n: nat, w: nat)
    requires Handshake(s, n) && Enabled(s, a) && w < n && s.slots[w].ready
    ensures var s' := Do(s, a);
            && |s'.slots| == |s'.workers| == n
            && (s'.workers[w] == s.workers[w] ==> s'.slots[w] == s.slots[w])
            && (s'.workers[w] != s.workers[w] ==>
                  && Stage(s'.workers[w]) == (Stage(s.workers[w]) + 1) % 4
                  && (s.workers[w] != Clear ==> s'.slots[w] == s.slots[w])
                  && (s.workers[w] == Clear ==> !s'.slots[w].ready)
                  && (s.workers[w] == Send ==> s'.answers == s.answers + multiset{s.slots[w].client}))
  {
  }

  /** A waiting client's slot stays as it is while its worker moves on, stage by stage. */
  lemma {:induction false} WaitingAdvances(t: seq<State>, i: nat, j: nat, n: nat, w: nat)
    requires Behavior(t, n) && i <= j < |t| && w < n && |t[i].slots| == |t[i].workers| == n
    requires Pending(t[i].slots[w], t[i].workers[w])
    requires Stage(t[i].workers[w]) + Moves(t, i, j, w) <= 3
    ensures |t[j].slots| == |t[j].workers| == n && t[j].slots[w] == t[i].slots[w]
    ensures Stage(t[j].workers[w]) == Stage(t[i].workers[w]) + Moves(t, i, j, w)
    decreases j
  {
    hide InSlots, DoMain, DoWorker, Do, Init, Conserved;
    if i < j {
      WaitingAdvances(t, i, j - 1, n, w);
      ReachableInv(t, j - 1, n);
      assert Next(t[j - 1], t[j]);
      var a :| Enabled(t[j - 1], a) && t[j] == Do(t[j - 1], a);
      RaisedSlotStep(t[j - 1], a, n, w);
    }
  }

  /** The step at which the worker of a waiting client has moved `m` times. */
  lemma {:induction false} NthMove(t: seq<State>, i: nat, j: nat, w: nat, m: nat) returns (a: nat)
    requires i <= j < |t| && m < Moves(t, i, j, w)
    ensures i <= a < j && Moves(t, i, a, w) == m && Moved(t, a, w)
    decreases j
  {
    if Moved(t, j - 1, w) && Moves(t, i, j - 1, w) == m {
      a := j - 1;
    } else {
      a := NthMove(t, i, j - 1, w, m);
    }
  }

  /** With its third move at the latest the worker answers the client that waits in its slot. */
  lemma WaitingIsAnswered(t: seq<State>, i: nat, j: nat, n: nat, w: nat) returns (a: nat)
    requires Behavior(t, n) && i <= j < |t| && w < n && |t[i].slots| == |t[i].workers| == n
    requires Pending(t[i].slots[w], t[i].workers[w])
    requires Stage(t[i].workers[w]) + Moves(t, i, j, w) >= 3
    ensures i <= a < j && Stage(t[i].workers[w]) + Moves(t, i, a, w) == 2 && Moved(t, a, w)
    ensures t[a + 1].answers == t[a].answers + multiset{t[i].slots[w].client}
  {
    hide InSlots, DoMain, DoWorker, Do, Init, Conserved, Moved;
    a := NthMove(t, i, j, w, 2 - Stage(t[i].workers[w]));
    WaitingAdvances(t, i, a, n, w);
    ReachableInv(t, a, n);
    WorkerMoves(t, a, n, w);
  }

  /** With its fourth move at the latest it lowers the flag, so that the slot is free again. */
  lemma WaitingSlotIsFreed(t: seq<State>, i: nat, j: nat, n: nat, w: nat) returns (a: nat)
    requires Behavior(t, n) && i <= j < |t| && w < n && |t[i].slots| == |t[i].workers| == n
    requires Pending(t[i].slots[w], t[i].workers[w])
    requires Stage(t[i].workers[w]) + Moves(t, i, j, w) >= 4
    ensures i <= a < j && Stage(t[i].workers[w]) + Moves(t, i, a, w) == 3 && Moved(t, a, w)
    ensures |t[a].slots| == |t[a + 1].slots| == |t[a + 1].workers| == n && t[a].slots[w] == t[i].slots[w]
    ensures !t[a + 1].slots[w].ready && t[a + 1].workers[w] == Poll
  {
    hide InSlots, DoMain, DoWorker, Do, Init, Conserved, Moved;
    a := NthMove(t, i, j, w, 3 - Stage(t[i].workers[w]));
    WaitingAdvances(t, i, a, n, w);
    ReachableInv(t, a, n);
    WorkerMoves(t, a, n, w);
  }

  lemma WorkerMoves(t: seq<State>, a: nat, n: nat, w: nat)
    requires Behavior(t, n) && a + 1 < |t| && w < n && Handshake(t[a], n) && t[a].slots[w].ready && Moved(t, a, w)
    ensures |t[a + 1].slots| == |t[a + 1].workers| == n
    ensures Stage(t[a + 1].workers[w]) == (Stage(t[a].workers[w]) + 1) % 4
    ensures t[a].workers[w] == Clear ==> !t[a + 1].slots[w].ready
    ensures t[a].workers[w] == Send ==> t[a + 1].answers == t[a].answers + multiset{t[a].slots[w].client}
  {
    hide DoMain, DoWorker, Do, Init;
    assert Next(t[a], t[a + 1]);
    var x :| Enabled(t[a], x) && t[a + 1] == Do(t[a], x);
    RaisedSlotStep(t[a], x, n, w);
  }
}
