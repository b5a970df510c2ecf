/**
 The producer/consumer server: one thread receives requests and queues them, W workers answer them,
 and a kill request queues one poison message for each worker.

 The state machine interleaves the receiving thread with the workers at single queue operations.
 No send fails and the queue is removed only after the drain.
*/
module WorkerQueue {

  type Client = int

  datatype Msg = Request(client: Client) | Poison

  /** The receiving thread: in `recvfrom`, about to queue a request, queueing poison, out of the loop. */
  datatype Producer = Receiving | Holding(client: Client) | Killing(sent: nat) | Finished

  /** A worker: in `msgrcv`, answering a request, out of its loop. */
  datatype Worker = Waiting | Serving(client: Client) | Stopped

  /** `received`, `taken` and `answers` record what happened, in order; no step reads them. */
  datatype State = State(queue: seq<Msg>, producer: Producer, workers: seq<Worker>,
                         received: seq<Client>, taken: seq<Client>, answers: multiset<Client>)

  datatype Action =
    | Receive(client: Client)
    | Enqueue
    | ReceiveKill
    | SendPoison
    | Take(w: nat)
    | Answer(w: nat)

  ghost predicate Init(s: State, n: nat) {
    s == State([], Receiving, seq(n, _ => Waiting), [], [], multiset{})
  }

  predicate Enabled(s: State, a: Action) {
    match a
    case Receive(_) => s.producer == Receiving
    case Enqueue => s.producer.Holding?
    case ReceiveKill => s.producer == Receiving
    case SendPoison => s.producer.Killing?
    case Take(w) => w < |s.workers| && s.workers[w] == Waiting && s.queue != []
    case Answer(w) => w < |s.workers| && s.workers[w].Serving?
  }

  /** `thread_killer` sends one poison message per worker. */
  function Do(s: State, a: Action): State
    requires Enabled(s, a)
  {
    match a
    case Receive(c) => s.(producer := Holding(c), received := s.received + [c])
    case Enqueue => s.(producer := Receiving, queue := s.queue + [Request(s.producer.client)])
    case ReceiveKill => s.(producer := Killing(0))
    case SendPoison =>
      if s.producer.sent < |s.workers| then
        s.(producer := Killing(s.producer.sent + 1), queue := s.queue + [Poison])
      else s.(producer := Finished)
    case Take(w) =>
      var rest := s.(queue := s.queue[1..]);
      if s.queue[0] == Poison then rest.(workers := s.workers[w := Stopped])
      else
        var c := s.queue[0].client;
        rest.(workers := s.workers[w := Serving(c)], taken := s.taken + [c])
    case Answer(w) =>
      s.(workers := s.workers[w := Waiting], answers := s.answers + multiset{s.workers[w].client})
  }

  ghost predicate Next(s: State, s': State) {
    exists a :: Enabled(s, a) && s' == Do(s, a)
  }

  ghost predicate Behavior(t: seq<State>, n: nat) {
    t != [] && Init(t[0], n) && forall i :: 0 <= i < |t| - 1 ==> Next(t[i], t[i + 1])
  }

  // ---------------------------------------------------------------- counting

  function Requests(q: seq<Msg>): seq<Client> {
    if q == [] then [] else (if q[0].Request? then [q[0].client] else []) + Requests(q[1..])
  }

  function Pills(q: seq<Msg>): nat {
    if q == [] then 0 else (if q[0] == Poison then 1 else 0) + Pills(q[1..])
  }

  /** How many workers are answering client `c`. */
  function InService(ws: seq<Worker>, c: Client): nat {
    if ws == [] then 0 else (if ws[0] == Serving(c) then 1 else 0) + InService(ws[1..], c)
  }

  function StoppedCount(ws: seq<Worker>): (n: nat)
    ensures n <= |ws|
  {
    if ws == [] then 0 else (if ws[0] == Stopped then 1 else 0) + StoppedCount(ws[1..])
  }

  /** Poison is a suffix of the queue. */
  ghost predicate PoisonLast(q: seq<Msg>) {
    forall i, j :: 0 <= i < j < |q| && q[i] == Poison ==> q[j] == Poison
  }

  lemma {:induction false} RequestsSnoc(q: seq<Msg>, m: Msg)
    ensures Requests(q + [m]) == Requests(q) + if m.Request? then [m.client] else []
  {
    var last := if m.Request? then [m.client] else [];
    RequestsFirst(q + [m]);
    if q == [] {
      assert (q + [m])[1..] == [] && last + Requests([]) == last;
    } else {
      RequestsFirst(q);
      RequestsSnoc(q[1..], m);
      hide Requests;
      var head := if q[0].Request? then [q[0].client] else [];
      assert (q + [m])[1..] == q[1..] + [m];
      assert head + (Requests(q[1..]) + last) == head + Requests(q[1..]) + last;
    }
  }

  lemma RequestsFirst(q: seq<Msg>)
    requires q != []
    ensures Requests(q) == (if q[0].Request? then [q[0].client] else []) + Requests(q[1..])
  {
  }

  lemma {:induction false} PillsSnoc(q: seq<Msg>, m: Msg)
    ensures Pills(q + [m]) == Pills(q) + if m == Poison then 1 else 0
  {
    if q == [] {
      assert (q + [m])[1..] == [];
    } else {
      assert (q + [m])[1..] == q[1..] + [m];
      PillsSnoc(q[1..], m);
    }
  }

  lemma {:induction false} StoppedUpdate(ws: seq<Worker>, w: nat, v: Worker)
    requires w < |ws|
    ensures StoppedCount(ws[w := v]) ==
            StoppedCount(ws) - (if ws[w] == Stopped then 1 else 0) + if v == Stopped then 1 else 0
  {
    if w == 0 {
      assert ws[0 := v][1..] == ws[1..];
    } else {
      assert ws[w := v][1..] == ws[1..][w - 1 := v];
      StoppedUpdate(ws[1..], w - 1, v);
    }
  }

  lemma {:induction false} InServiceUpdate(ws: seq<Worker>, w: nat, v: Worker, c: Client)
    requires w < |ws|
    ensures InService(ws[w := v], c) ==
            InService(ws, c) - (if ws[w] == Serving(c) then 1 else 0) + if v == Serving(c) then 1 else 0
  {
    if w == 0 {
      assert ws[0 := v][1..] == ws[1..];
    } else {
      assert ws[w := v][1..] == ws[1..][w - 1 := v];
      InServiceUpdate(ws[1..], w - 1, v, c);
    }
  }

  lemma {:induction false} Idle(n: nat)
    ensures var ws := seq(n, _ => Waiting); StoppedCount(ws) == 0 && forall c :: InService(ws, c) == 0
  {
    if n > 0 {
      Idle(n - 1);
      var ws: seq<Worker> := seq(n, _ => Waiting);
      assert ws[1..] == seq(n - 1, _ => Waiting);
    }
  }

  // ---------------------------------------------------------------- the invariant

  function Sent(p: Producer, n: nat): nat {
    match p
    case Killing(k) => k
    case Finished => n
    case _ => 0
  }

  function Held(p: Producer): seq<Client> {
    if p.Holding? then [p.client] else []
  }

  ghost predicate Inv(s: State, n: nat) {
    && |s.workers| == n
    && PoisonLast(s.queue)
    && Sent(s.producer, n) <= n
    && Pills(s.queue) + StoppedCount(s.workers) == Sent(s.producer, n)
    && (StoppedCount(s.workers) > 0 ==> Requests(s.queue) == [])
    && s.taken + Requests(s.queue) + Held(s.producer) == s.received
    && forall c :: s.answers[c] + InService(s.workers, c) == multiset(s.taken)[c]
  }

  lemma InitInv(s: State, n: nat)
    requires Init(s, n)
    ensures Inv(s, n)
  {
    Idle(n);
  }

  lemma {:induction false} NoPills(q: seq<Msg>)
    requires Pills(q) == 0
    ensures forall i :: 0 <= i < |q| ==> q[i].Request?
  {
    if q != [] {
      NoPills(q[1..]);
      assert forall i :: 0 < i < |q| ==> q[i] == q[1..][i - 1];
    }
  }

  lemma {:induction false} OnlyPills(q: seq<Msg>)
    requires forall i :: 0 <= i < |q| ==> q[i] == Poison
    ensures Requests(q) == [] && Pills(q) == |q|
  {
    if q != [] {
      OnlyPills(q[1..]);
    }
  }

  lemma {:induction false} RequestsAndPills(q: seq<Msg>)
    ensures |Requests(q)| + Pills(q) == |q|
  {
    if q != [] {
      RequestsAndPills(q[1..]);
    }
  }

  lemma StepInv(s: State, a: Action, n: nat)
    requires Inv(s, n) && Enabled(s, a)
    ensures Inv(Do(s, a), n)
  {
    match a
    case Receive(c) => hide Requests, Pills, InService, StoppedCount;
    case Enqueue => EnqueueInv(s, n);
    case ReceiveKill => hide Requests, Pills, InService, StoppedCount;
    case SendPoison => SendPoisonInv(s, n);
    case Take(w) => TakeInv(s, w, n);
    case Answer(w) => AnswerInv(s, w, n);
  }

  /** While requests are queued no poison is. */
  lemma EnqueueInv(s: State, n: nat)
    requires Inv(s, n) && Enabled(s, Enqueue)
    ensures Inv(Do(s, Enqueue), n)
  {
    RequestsSnoc(s.queue, Request(s.producer.client));
    PillsSnoc(s.queue, Request(s.producer.client));
    hide Requests, Pills, InService, StoppedCount;
    assert Pills(s.queue) == 0 && StoppedCount(s.workers) == 0;
    NoPills(s.queue);
  }

  lemma SendPoisonInv(s: State, n: nat)
    requires Inv(s, n) && Enabled(s, SendPoison)
    ensures Inv(Do(s, SendPoison), n)
  {
    RequestsSnoc(s.queue, Poison);
    PillsSnoc(s.queue, Poison);
    hide Requests, Pills, InService, StoppedCount;
  }

  lemma AnswerInv(s: State, w: nat, n: nat)
    requires Inv(s, n) && Enabled(s, Answer(w))
    ensures Inv(Do(s, Answer(w)), n)
  {
    StoppedUpdate(s.workers, w, Waiting);
    hide Requests, Pills, InService, StoppedCount, PoisonLast;
    forall c
      ensures InService(s.workers[w := Waiting], c)
              == InService(s.workers, c) - if s.workers[w] == Serving(c) then 1 else 0
    {
      InServiceUpdate(s.workers, w, Waiting, c);
    }
  }

  lemma PoisonLastTail(q: seq<Msg>)
    requires PoisonLast(q) && q != []
    ensures PoisonLast(q[1..])
    ensures q[0] == Poison ==> Requests(q) == [] && Requests(q[1..]) == []
    ensures Requests(q) == (if q[0].Request? then [q[0].client] else []) + Requests(q[1..])
    ensures Pills(q) == (if q[0] == Poison then 1 else 0) + Pills(q[1..])
  {
    if q[0] == Poison {
      OnlyPills(q);
      OnlyPills(q[1..]);
    }
  }

  lemma TakeBalance(s: State, w: nat, n: nat)
    requires Inv(s, n) && Enabled(s, Take(w))
    ensures var s' := Do(s, Take(w)); forall c :: s'.answers[c] + InService(s'.workers, c) == multiset(s'.taken)[c]
  {
    hide Requests, Pills, InService, StoppedCount, PoisonLast;
    var v := if s.queue[0] == Poison then Stopped else Serving(s.queue[0].client);
    var s' := Do(s, Take(w));
    assert s'.workers == s.workers[w := v];
    forall c ensures s'.answers[c] + InService(s'.workers, c) == multiset(s'.taken)[c] {
      InServiceUpdate(s.workers, w, v, c);
    }
  }

  lemma TakeInv(s: State, w: nat, n: nat)
    requires Inv(s, n) && Enabled(s, Take(w))
    ensures Inv(Do(s, Take(w)), n)
  {
    hide Requests, Pills, InService, StoppedCount, PoisonLast;
    PoisonLastTail(s.queue);
    var v := if s.queue[0] == Poison then Stopped else Serving(s.queue[0].client);
    StoppedUpdate(s.workers, w, v);
    TakeBalance(s, w, n);
    var s' := Do(s, Take(w));
    assert s'.taken + Requests(s'.queue) == s.taken + Requests(s.queue) by {
      if s.queue[0].Request? {
        var c, rest := s.queue[0].client, Requests(s'.queue);
        assert s.taken + ([c] + rest) == (s.taken + [c]) + rest;
      }
    }
  }

  lemma {:induction false} ReachableInv(t: seq<State>, i: nat, n: nat)
    requires Behavior(t, n) && i < |t|
    ensures Inv(t[i], n)
  {
    hide Inv, Do, Enabled, Init;
    if i == 0 {
      InitInv(t[0], n);
    } else {
      ReachableInv(t, i - 1, n);
      assert Next(t[i - 1], t[i]);
      var a :| Enabled(t[i - 1], a) && t[i] == Do(t[i - 1], a);
      StepInv(t[i - 1], a, n);
    }
  }

  // ---------------------------------------------------------------- main results

  /** Poison messages are always the last ones in the queue. */
  lemma PoisonIsASuffix(t: seq<State>, i: nat, n: nat)
    requires Behavior(t, n) && i < |t|
    ensures PoisonLast(t[i].queue)
  {
    ReachableInv(t, i, n);
  }

  /** Once all poison is queued, what is left of it and the workers it has stopped add up to W. */
  lemma PoisonIsConserved(t: seq<State>, i: nat, n: nat)
    requires Behavior(t, n) && i < |t| && t[i].producer == Finished
    ensures Pills(t[i].queue) + StoppedCount(t[i].workers) == n
  {
    hide Pills, StoppedCount;
    ReachableInv(t, i, n);
  }

  /** Requests are taken in the order they were received, none twice and none skipped. */
  lemma TakenInOrder(t: seq<State>, i: nat, n: nat)
    requires Behavior(t, n) && i < |t|
    ensures t[i].taken <= t[i].received
    ensures t[i].received == t[i].taken + Requests(t[i].queue) + Held(t[i].producer)
  {
    hide Pills, StoppedCount, Requests;
    ReachableInv(t, i, n);
  }

  /** When the kill is through and every worker has stopped, nothing is left and everything was answered once. */
  lemma CleanShutdown(t: seq<State>, i: nat, n: nat)
    requires Behavior(t, n) && i < |t| && n > 0
    requires forall w :: 0 <= w < n ==> w < |t[i].workers| && t[i].workers[w] == Stopped
    ensures t[i].queue == []
    ensures t[i].answers == multiset(t[i].received)
  {
    var s := t[i];
    ReachableInv(t, i, n);
    AllStopped(s.workers);
    hide Pills, StoppedCount, Requests, InService;
    RequestsAndPills(s.queue);
    assert s.taken + [] + [] == s.taken;
    assert forall c :: s.answers[c] == multiset(s.received)[c];
  }

  lemma {:induction false} AllStopped(ws: seq<Worker>)
    requires forall w :: 0 <= w < |ws| ==> ws[w] == Stopped
    ensures StoppedCount(ws) == |ws| && forall c :: InService(ws, c) == 0
  {
    if ws != [] {
      AllStopped(ws[1..]);
    }
  }

  // ---------------------------------------------------------------- the drain ends

  function Busy(ws: seq<Worker>): nat {
    if ws == [] then 0 else (if ws[0].Serving? then 1 else 0) + Busy(ws[1..])
  }

  /** Counts the steps left after the kill: two per queued message, one per answer under way. */
  function StepsLeft(s: State): nat {
    2 * |s.queue| + Busy(s.workers)
    + (if s.producer.Killing? && s.producer.sent <= |s.workers| then 3 * (|s.workers| - s.producer.sent) + 1 else 0)
  }

  lemma {:induction false} BusyUpdate(ws: seq<Worker>, w: nat, v: Worker)
    requires w < |ws|
    ensures Busy(ws[w := v]) == Busy(ws) - (if ws[w].Serving? then 1 else 0) + if v.Serving? then 1 else 0
  {
    if w == 0 {
      assert ws[0 := v][1..] == ws[1..];
    } else {
      assert ws[w := v][1..] == ws[1..][w - 1 := v];
      BusyUpdate(ws[1..], w - 1, v);
    }
  }

  /** After the kill every step, whoever takes it, brings the shutdown nearer. */
  lemma DrainProgresses(s: State, a: Action, n: nat)
    requires Inv(s, n) && (s.producer.Killing? || s.producer == Finished) && Enabled(s, a)
    ensures StepsLeft(Do(s, a)) < StepsLeft(s)
    ensures Do(s, a).producer.Killing? || Do(s, a).producer == Finished
  {
    hide Busy, Requests, Pills, InService, StoppedCount;
    match a
    case Take(w) =>
      BusyUpdate(s.workers, w, if s.queue[0] == Poison then Stopped else Serving(s.queue[0].client));
    case Answer(w) => BusyUpdate(s.workers, w, Waiting);
    case SendPoison =>
  }

  /** And as long as some worker has not stopped, some step is possible: the drain cannot get stuck. */
  lemma DrainNeverStuck(s: State, n: nat, w: nat)
    requires Inv(s, n) && (s.producer.Killing? || s.producer == Finished) && w < n && s.workers[w] != Stopped
    ensures Enabled(s, SendPoison) || Enabled(s, Take(w)) || Enabled(s, Answer(w))
  {
    if s.producer == Finished && s.workers[w] == Waiting {
      NotAllStopped(s.workers, w);
      hide StoppedCount;
      assert Pills(s.queue) > 0;
    }
  }

  lemma {:induction false} NotAllStopped(ws: seq<Worker>, w: nat)
    requires w < |ws| && ws[w] != Stopped
    ensures StoppedCount(ws) < |ws|
  {
    if w > 0 {
      NotAllStopped(ws[1..], w - 1);
    }
  }
}
