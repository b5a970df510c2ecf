/**
 The warehouse: customers empty five shelves, a loader fills them, and each shelf has its own mutex.

 Lock, each read, each write and unlock are steps of their own, and the steps of all threads interleave
 freely. The main thread joins the customers, then tells the loader to stop, then joins the loader.
*/
module Shelves {

  const SHELVES: nat := 5
  const PACK: nat := 500

  function Min(a: int, b: int): int {
    if a < b then a else b
  }

  /** Testing `need`; then, on the chosen shelf, about to lock, compare, read, write, lower the need, unlock. */
  datatype CustomerPc =
    | Test
    | Lock(choice: nat)
    | Compare(choice: nat)
    | ReadShelf(choice: nat, min: int)
    | WriteShelf(choice: nat, min: int, read: int)
    | WriteNeed(choice: nat, min: int)
    | Unlock(choice: nat)
    | Gone

  /** `wanted` and `taken` record the first need and the goods that left a shelf; no step reads them. */
  datatype Customer = Customer(pc: CustomerPc, need: int, wanted: int, taken: int)

  datatype LoaderPc =
    | Check
    | LockShelf(choice: nat)
    | Read(choice: nat)
    | Write(choice: nat, read: int)
    | Release(choice: nat)
    | Home

  datatype MainPc = JoinCustomer(i: nat) | JoinLoader | Finished

  datatype Owner = Free | ByCustomer(i: nat) | ByLoader

  /** `loads` counts the packages put on a shelf; no step reads it. */
  datatype State = State(shelves: seq<int>, mutexes: seq<Owner>, customers: seq<Customer>,
                         loader: LoaderPc, working: bool, main: MainPc, loads: nat)

  datatype Action = CustomerStep(i: nat, choice: nat) | LoaderStep(choice: nat) | MainStep

  ghost predicate Init(s: State) {
    && s.shelves == seq(SHELVES, _ => PACK)
    && s.mutexes == seq(SHELVES, _ => Free)
    && (forall i :: 0 <= i < |s.customers| ==>
          var c := s.customers[i];
          c.pc == Test && c.need == c.wanted && c.taken == 0 && c.need >= 0 && c.need % PACK == 0)
    && s.loader == Check && s.working && s.main == JoinCustomer(0) && s.loads == 0
  }

  /** The shelf a thread works on; SHELVES when there is none. */
  function CustomerShelf(pc: CustomerPc): nat {
    if pc.Test? || pc.Gone? then SHELVES else pc.choice
  }

  function LoaderShelf(pc: LoaderPc): nat {
    if pc.Check? || pc.Home? then SHELVES else pc.choice
  }

  /** A thread is blocked only at a mutex another thread holds, or at a join; a stopped thread takes no step. */
  predicate Enabled(s: State, a: Action) {
    && |s.shelves| == |s.mutexes| == SHELVES
    && match a
       case CustomerStep(i, choice) =>
         && i < |s.customers| && !s.customers[i].pc.Gone? && choice < SHELVES
         && var pc := s.customers[i].pc;
            && (!pc.Test? ==> pc.choice < SHELVES)
            && (pc.Lock? ==> s.mutexes[pc.choice] == Free)
       case LoaderStep(choice) =>
         && !s.loader.Home? && choice < SHELVES
         && (!s.loader.Check? ==> s.loader.choice < SHELVES)
         && (s.loader.LockShelf? ==> s.mutexes[s.loader.choice] == Free)
       case MainStep =>
         match s.main
         case JoinCustomer(i) => i < |s.customers| ==> s.customers[i].pc.Gone?
         case JoinLoader => s.loader.Home?
         case Finished => false
  }

  function Do(s: State, a: Action): State
    requires Enabled(s, a)
  {
    match a
    case CustomerStep(i, choice) => DoCustomer(s, i, choice)
    case LoaderStep(choice) => DoLoader(s, choice)
    case MainStep =>
      match s.main
      case JoinCustomer(i) =>
        if i < |s.customers| then s.(main := JoinCustomer(i + 1)) else s.(main := JoinLoader, working := false)
      case _ => s.(main := Finished)
  }

  function DoCustomer(s: State, i: nat, choice: nat): State
    requires Enabled(s, CustomerStep(i, choice))
  {
    var c := s.customers[i];
    match c.pc
    case Test => s.(customers := s.customers[i := c.(pc := if c.need != 0 then Lock(choice) else Gone)])
    case Lock(k) => s.(customers := s.customers[i := c.(pc := Compare(k))], mutexes := s.mutexes[k := ByCustomer(i)])
    case Compare(k) => s.(customers := s.customers[i := c.(pc := ReadShelf(k, Min(s.shelves[k], c.need)))])
    case ReadShelf(k, m) => s.(customers := s.customers[i := c.(pc := WriteShelf(k, m, s.shelves[k]))])
    case WriteShelf(k, m, v) =>
      s.(customers := s.customers[i := c.(pc := WriteNeed(k, m), taken := c.taken + m)],
         shelves := s.shelves[k := v - m])
    case WriteNeed(k, m) => s.(customers := s.customers[i := c.(pc := Unlock(k), need := c.need - m)])
    case Unlock(k) => s.(customers := s.customers[i := c.(pc := Test)], mutexes := s.mutexes[k := Free])
  }

  function DoLoader(s: State, choice: nat): State
    requires Enabled(s, LoaderStep(choice))
  {
    match s.loader
    case Check => s.(loader := if s.working then LockShelf(choice) else Home)
    case LockShelf(k) => s.(loader := Read(k), mutexes := s.mutexes[k := ByLoader])
    case Read(k) => s.(loader := Write(k, s.shelves[k]))
    case Write(k, v) => s.(loader := Release(k), shelves := s.shelves[k := v + PACK], loads := s.loads + 1)
    case Release(k) => s.(loader := Check, mutexes := s.mutexes[k := Free])
  }

  // ---- the invariant ---------------------------------------------------------------------------

  function Sum(s: seq<int>): int {
    if s == [] then 0 else s[0] + Sum(s[1..])
  }

  lemma {:induction false} SumOfUpdate(s: seq<int>, k: nat, v: int)
    requires k < |s|
    ensures Sum(s[k := v]) == Sum(s) - s[k] + v
  {
    if k == 0 {
      assert s[0 := v][1..] == s[1..];
    } else {
      SumOfUpdate(s[1..], k - 1, v);
      assert s[k := v][1..] == s[1..][k - 1 := v];
    }
  }

  function Taken(cs: seq<Customer>): seq<int> {
    seq(|cs|, i requires 0 <= i < |cs| => cs[i].taken)
  }

  function Wanted(cs: seq<Customer>): seq<int> {
    seq(|cs|, i requires 0 <= i < |cs| => cs[i].wanted)
  }

  lemma TakenOfUpdate(cs: seq<Customer>, i: nat, c: Customer)
    requires i < |cs|
    ensures Sum(Taken(cs[i := c])) == Sum(Taken(cs)) - cs[i].taken + c.taken
  {
    assert Taken(cs[i := c]) == Taken(cs)[i := c.taken];
    SumOfUpdate(Taken(cs), i, c.taken);
  }

  /** The goods that are on a shelf or have left one are those there at first and those loaded since. */
  ghost predicate Conserved(s: State) {
    Sum(s.shelves) + Sum(Taken(s.customers)) == SHELVES * PACK + PACK * s.loads
  }

  predicate Packs(v: int) {
    v >= 0 && v % PACK == 0
  }

  /** The shelf whose mutex a thread holds; SHELVES when it holds none. */
  function CustomerHolds(pc: CustomerPc): nat {
    if pc.Lock? then SHELVES else CustomerShelf(pc)
  }

  function LoaderHolds(pc: LoaderPc): nat {
    if pc.LockShelf? then SHELVES else LoaderShelf(pc)
  }

  /** What customer `i` knows about its shelf, which its mutex keeps true, and where its goods are. */
  ghost predicate CustomerOk(s: State, i: nat)
    requires i < |s.customers| && |s.shelves| == |s.mutexes| == SHELVES
  {
    var c := s.customers[i];
    && (!c.pc.Test? && !c.pc.Gone? ==> c.pc.choice < SHELVES)
    && (forall k {:trigger s.mutexes[k]} :: 0 <= k < SHELVES ==>
          (s.mutexes[k] == ByCustomer(i) <==> CustomerHolds(c.pc) == k))
    && Packs(c.need)
    && (c.pc.Gone? ==> c.need == 0)
    && (c.pc.ReadShelf? || c.pc.WriteShelf? ==> c.pc.min == Min(s.shelves[c.pc.choice], c.need))
    && (c.pc.WriteShelf? ==> c.pc.read == s.shelves[c.pc.choice])
    && (c.pc.WriteNeed? ==> Packs(c.pc.min) && c.pc.min <= c.need)
    && c.taken + c.need == c.wanted + if c.pc.WriteNeed? then c.pc.min else 0
  }

  ghost predicate LoaderOk(s: State)
    requires |s.shelves| == |s.mutexes| == SHELVES
  {
    && (!s.loader.Check? && !s.loader.Home? ==> s.loader.choice < SHELVES)
    && (forall k {:trigger s.mutexes[k]} :: 0 <= k < SHELVES ==>
          (s.mutexes[k] == ByLoader <==> LoaderHolds(s.loader) == k))
    && (s.loader.Write? ==> s.loader.read == s.shelves[s.loader.choice])
    && (s.loader.Home? ==> !s.working)
  }

  ghost predicate MainOk(s: State) {
    && (s.main.JoinCustomer? ==> s.working && s.main.i <= |s.customers|)
    && (forall i :: 0 <= i < |s.customers| ==> (s.main.JoinCustomer? ==> i < s.main.i) ==> s.customers[i].pc.Gone?)
    && (s.main.Finished? ==> s.loader.Home?)
  }

  ghost predicate Inv(s: State) {
    && |s.shelves| == |s.mutexes| == SHELVES
    && (forall k :: 0 <= k < SHELVES ==> Packs(s.shelves[k]))
    && (forall k :: 0 <= k < SHELVES ==> s.mutexes[k].ByCustomer? ==> s.mutexes[k].i < |s.customers|)
    && (forall i :: 0 <= i < |s.customers| ==> CustomerOk(s, i))
    && LoaderOk(s) && MainOk(s) && Conserved(s)
  }

  lemma InitInv(s: State)
    requires Init(s)
    ensures Inv(s)
  {
    SumOfConstant(s.shelves, PACK);
    SumOfConstant(Taken(s.customers), 0);
  }

  lemma {:induction false} SumOfConstant(s: seq<int>, v: int)
    requires forall i :: 0 <= i < |s| ==> s[i] == v
    ensures Sum(s) == |s| * v
  {
    if s != [] {
      SumOfConstant(s[1..], v);
      assert |s| * v == v + |s[1..]| * v;
    }
  }

  /** Every step moves the goods without losing or making any. */
  lemma StepConserves(s: State, a: Action)
    requires Inv(s) && Enabled(s, a)
    ensures Conserved(Do(s, a))
  {
    match a
    case MainStep =>
    case LoaderStep(choice) =>
      if s.loader.Write? {
        SumOfUpdate(s.shelves, s.loader.choice, s.loader.read + PACK);
      }
    case CustomerStep(i, choice) =>
      var t := Do(s, a);
      assert t.customers == s.customers[i := t.customers[i]];
      TakenOfUpdate(s.customers, i, t.customers[i]);
      assert CustomerOk(s, i);
      var c := s.customers[i];
      if c.pc.WriteShelf? {
        SumOfUpdate(s.shelves, c.pc.choice, c.pc.read - c.pc.min);
      }
  }

  /** Whoever holds a mutex is alone in doing so. */
  lemma CustomerAndLoader(s: State, i: nat)
    requires Inv(s) && i < |s.customers|
    ensures CustomerOk(s, i)
    ensures CustomerHolds(s.customers[i].pc) < SHELVES ==> CustomerHolds(s.customers[i].pc) != LoaderHolds(s.loader)
  {
    assert CustomerOk(s, i);
    var p := CustomerHolds(s.customers[i].pc);
    if p < SHELVES {
      assert s.mutexes[p] == ByCustomer(i);
    }
  }

  lemma TwoCustomers(s: State, i: nat, j: nat)
    requires Inv(s) && i < |s.customers| && j < |s.customers| && i != j
    ensures CustomerOk(s, i) && CustomerOk(s, j)
    ensures var p := CustomerHolds(s.customers[i].pc); p < SHELVES ==> p != CustomerHolds(s.customers[j].pc)
  {
    assert CustomerOk(s, i) && CustomerOk(s, j);
    var p := CustomerHolds(s.customers[i].pc);
    if p < SHELVES {
      assert s.mutexes[p] == ByCustomer(i);
    }
  }

  /** The steps of one thread leave every other thread's knowledge intact. */
  lemma LoaderStepOthers(s: State, choice: nat, j: nat)
    requires Inv(s) && Enabled(s, LoaderStep(choice)) && j < |s.customers|
    ensures CustomerOk(DoLoader(s, choice), j)
  {
    CustomerAndLoader(s, j);
    hide Sum, Taken, Conserved, MainOk;
    var t := DoLoader(s, choice);
    forall k {:trigger t.mutexes[k]} | 0 <= k < SHELVES
      ensures t.mutexes[k] == ByCustomer(j) <==> CustomerHolds(t.customers[j].pc) == k
    {
      assert s.mutexes[k] == ByCustomer(j) <==> CustomerHolds(s.customers[j].pc) == k;
      assert s.mutexes[k] == ByLoader <==> LoaderHolds(s.loader) == k;
    }
  }

  lemma CustomerStepOthers(s: State, i: nat, choice: nat, j: nat)
    requires Inv(s) && Enabled(s, CustomerStep(i, choice)) && j < |s.customers| && i != j
    ensures CustomerOk(DoCustomer(s, i, choice), j)
  {
    TwoCustomers(s, i, j);
    hide Sum, Taken, Conserved, MainOk, LoaderOk;
    var t := DoCustomer(s, i, choice);
    forall k {:trigger t.mutexes[k]} | 0 <= k < SHELVES
      ensures t.mutexes[k] == ByCustomer(j) <==> CustomerHolds(t.customers[j].pc) == k
    {
      assert s.mutexes[k] == ByCustomer(j) <==> CustomerHolds(s.customers[j].pc) == k;
      assert s.mutexes[k] == ByCustomer(i) <==> CustomerHolds(s.customers[i].pc) == k;
    }
  }

  lemma CustomerStepLoader(s: State, i: nat, choice: nat)
    requires Inv(s) && Enabled(s, CustomerStep(i, choice))
    ensures LoaderOk(DoCustomer(s, i, choice))
  {
    CustomerAndLoader(s, i);
    hide Sum, Taken, Conserved, MainOk;
    var t := DoCustomer(s, i, choice);
    forall k {:trigger t.mutexes[k]} | 0 <= k < SHELVES
      ensures t.mutexes[k] == ByLoader <==> LoaderHolds(t.loader) == k
    {
      assert s.mutexes[k] == ByLoader <==> LoaderHolds(s.loader) == k;
      assert s.mutexes[k] == ByCustomer(i) <==> CustomerHolds(s.customers[i].pc) == k;
    }
  }

  lemma StepOwn(s: State, i: nat, choice: nat)
    requires Inv(s) && Enabled(s, CustomerStep(i, choice))
    ensures CustomerOk(Do(s, CustomerStep(i, choice)), i)
  {
    hide Sum, Taken, Conserved;
    assert CustomerOk(s, i);
  }

  lemma StepLoader(s: State, a: Action)
    requires Inv(s) && Enabled(s, a)
    ensures LoaderOk(Do(s, a))
  {
    hide Sum, Taken, Conserved;
    if a.CustomerStep? {
      CustomerStepLoader(s, a.i, a.choice);
    }
  }

  lemma StepShelves(s: State, a: Action)
    requires Inv(s) && Enabled(s, a)
    ensures var t := Do(s, a);
            && |t.shelves| == |t.mutexes| == SHELVES && |t.customers| == |s.customers|
            && (forall k :: 0 <= k < SHELVES ==> Packs(t.shelves[k]))
            && (forall k :: 0 <= k < SHELVES ==> t.mutexes[k].ByCustomer? ==> t.mutexes[k].i < |t.customers|)
  {
    hide Sum, Taken, Conserved, MainOk, Packs, Min;
    if a.CustomerStep? {
      assert CustomerOk(s, a.i);
      var c := s.customers[a.i];
      if c.pc.WriteShelf? {
        TakingPacks(s.shelves[c.pc.choice], c.need);
      }
    } else if s.loader.Write? {
      AddingPacks(s.shelves[s.loader.choice]);
    }
  }

  lemma TakingPacks(shelf: int, need: int)
    requires Packs(shelf) && Packs(need)
    ensures Packs(shelf - Min(shelf, need))
  {
  }

  lemma AddingPacks(shelf: int)
    requires Packs(shelf)
    ensures Packs(shelf + PACK)
  {
  }

  lemma StepMain(s: State, a: Action)
    requires Inv(s) && Enabled(s, a)
    ensures MainOk(Do(s, a))
  {
    hide Sum, Taken, Conserved, Packs, CustomerOk, CustomerHolds, CustomerShelf;
  }

  lemma StepInv(s: State, a: Action)
    requires Inv(s) && Enabled(s, a)
    ensures Inv(Do(s, a))
  {
    StepShelves(s, a);
    StepMain(s, a);
    StepConserves(s, a);
    StepLoader(s, a);
    forall j | 0 <= j < |s.customers|
      ensures CustomerOk(Do(s, a), j)
    {
      match a
      case CustomerStep(i, choice) =>
        if i == j {
          StepOwn(s, j, choice);
        } else {
          CustomerStepOthers(s, i, choice, j);
        }
      case LoaderStep(choice) => LoaderStepOthers(s, choice, j);
      case MainStep => assert CustomerOk(s, j);
    }
  }

  // ---- whole runs ------------------------------------------------------------------------------

  ghost predicate Next(s: State, s': State) {
    exists a :: Enabled(s, a) && s' == Do(s, a)
  }

  ghost predicate Behavior(run: seq<State>) {
    run != [] && Init(run[0]) && forall k :: 0 <= k < |run| - 1 ==> Next(run[k], run[k + 1])
  }

  lemma StepWanted(s: State, a: Action)
    requires Enabled(s, a)
    ensures Wanted(Do(s, a).customers) == Wanted(s.customers)
  {
  }

  lemma {:induction false} ReachableInv(run: seq<State>, k: nat)
    requires Behavior(run) && k < |run|
    ensures Inv(run[k])
    ensures Wanted(run[k].customers) == Wanted(run[0].customers)
  {
    hide Inv, Wanted, Do, Enabled;
    if k == 0 {
      InitInv(run[0]);
    } else {
      ReachableInv(run, k - 1);
      assert Next(run[k - 1], run[k]);
      var a :| Enabled(run[k - 1], a) && run[k] == Do(run[k - 1], a);
      StepInv(run[k - 1], a);
      StepWanted(run[k - 1], a);
    }
  }

  /** In every reachable state: conservation, each customer's balance, and whole packages everywhere. */
  lemma GoodsAreConserved(run: seq<State>, k: nat)
    requires Behavior(run) && k < |run|
    ensures Sum(run[k].shelves) + Sum(Taken(run[k].customers)) == 2500 + 500 * run[k].loads
    ensures forall v :: v in run[k].shelves ==> v >= 0 && v % 500 == 0
    ensures forall c :: c in run[k].customers ==>
              && c.need >= 0 && c.need % 500 == 0
              && c.taken + c.need == c.wanted + if c.pc.WriteNeed? then c.pc.min else 0
  {
    ReachableInv(run, k);
    forall c | c in run[k].customers
      ensures && c.need >= 0 && c.need % 500 == 0
              && c.taken + c.need == c.wanted + if c.pc.WriteNeed? then c.pc.min else 0
    {
      var i :| 0 <= i < |run[k].customers| && run[k].customers[i] == c;
      assert CustomerOk(run[k], i);
    }
  }

  /** No two customers hold the mutex of one shelf. */
  lemma ShelvesAreExclusive(run: seq<State>, k: nat, i: nat, j: nat)
    requires Behavior(run) && k < |run| && i < |run[k].customers| && j < |run[k].customers| && i != j
    ensures CustomerHolds(run[k].customers[i].pc) < SHELVES ==>
              CustomerHolds(run[k].customers[i].pc) != CustomerHolds(run[k].customers[j].pc)
  {
    ReachableInv(run, k);
    TwoCustomers(run[k], i, j);
  }

  /** No customer holds the mutex of a shelf while the loader does. */
  lemma LoaderIsAlone(run: seq<State>, k: nat, i: nat)
    requires Behavior(run) && k < |run| && i < |run[k].customers|
    ensures CustomerHolds(run[k].customers[i].pc) < SHELVES ==>
              CustomerHolds(run[k].customers[i].pc) != LoaderHolds(run[k].loader)
  {
    ReachableInv(run, k);
    CustomerAndLoader(run[k], i);
  }

  lemma {:induction false} SumAtLeast(s: seq<int>, low: int)
    requires forall i :: 0 <= i < |s| ==> s[i] >= low
    ensures Sum(s) >= low * |s|
  {
    if s != [] {
      SumAtLeast(s[1..], low);
      assert low * |s| == low + low * |s[1..]|;
    }
  }

  /** Once the loader has gone home every customer has all it wanted, and the books balance exactly. */
  lemma LoaderLeavesLast(run: seq<State>, k: nat)
    requires Behavior(run) && k < |run| && run[k].loader.Home?
    ensures forall c :: c in run[k].customers ==> c.pc.Gone? && c.taken == c.wanted
    ensures 2500 + 500 * run[k].loads == Sum(Wanted(run[0].customers)) + Sum(run[k].shelves)
  {
    ReachableInv(run, k);
    var s := run[k];
    forall i | 0 <= i < |s.customers|
      ensures s.customers[i].pc.Gone? && s.customers[i].taken == s.customers[i].wanted
    {
      assert CustomerOk(s, i);
    }
    assert Taken(s.customers) == Wanted(s.customers);
  }

  /** The program's own three customers, who want 10000, 11000 or 12000, need at least 55 loads. */
  lemma FinishedRunHadFiftyFiveLoads(run: seq<State>, k: nat)
    requires Behavior(run) && k < |run| && run[k].main.Finished?
    requires |run[0].customers| == 3
    requires forall i :: 0 <= i < 3 ==> run[0].customers[i].wanted in {10000, 11000, 12000}
    ensures run[k].loads >= 55
  {
    ReachableInv(run, k);
    LoaderLeavesLast(run, k);
    SumAtLeast(Wanted(run[0].customers), 10000);
    SumAtLeast(run[k].shelves, 0);
  }

  // ---- progress --------------------------------------------------------------------------------

  predicate StepOf(owner: Owner, a: Action) {
    match owner
    case Free => false
    case ByCustomer(i) => a.CustomerStep? && a.i == i
    case ByLoader => a.LoaderStep?
  }

  /** How many of its own steps the holder of a mutex takes up to the unlocking. */
  function StepsToUnlock(s: State, owner: Owner): nat
    requires owner.ByCustomer? ==> owner.i < |s.customers|
  {
    match owner
    case Free => 0
    case ByCustomer(i) =>
      (match s.customers[i].pc
       case Compare(_) => 5
       case ReadShelf(_, _) => 4
       case WriteShelf(_, _, _) => 3
       case WriteNeed(_, _) => 2
       case Unlock(_) => 1
       case _ => 0)
    case ByLoader => if s.loader.Read? then 3 else if s.loader.Write? then 2 else if s.loader.Release? then 1 else 0
  }

  /** Whoever holds a mutex can step, and every step of its own brings it nearer to the unlocking. */
  lemma HolderProgresses(run: seq<State>, k: nat, shelf: nat) returns (a: Action)
    requires Behavior(run) && k < |run| && shelf < SHELVES
    requires |run[k].mutexes| == SHELVES && run[k].mutexes[shelf] != Free
    ensures Enabled(run[k], a) && StepOf(run[k].mutexes[shelf], a)
    ensures var s, s', owner := run[k], Do(run[k], a), run[k].mutexes[shelf];
            && (owner.ByCustomer? ==> owner.i < |s.customers| == |s'.customers|) && |s'.mutexes| == SHELVES
            && StepsToUnlock(s', owner) == StepsToUnlock(s, owner) - 1
            && s'.mutexes[shelf] == if StepsToUnlock(s, owner) == 1 then Free else owner
  {
    ReachableInv(run, k);
    var s := run[k];
    hide Sum, Taken, Conserved, MainOk;
    match s.mutexes[shelf]
    case ByCustomer(i) =>
      assert CustomerOk(s, i);
      a := CustomerStep(i, 0);
    case ByLoader =>
      a := LoaderStep(0);
  }

  /** A customer that has not stopped can step, unless it waits for a mutex; then the holder of that mutex can. */
  lemma CustomersAreServed(run: seq<State>, k: nat, i: nat) returns (a: Action)
    requires Behavior(run) && k < |run| && i < |run[k].customers| && !run[k].customers[i].pc.Gone?
    ensures Enabled(run[k], a)
    ensures var s, pc := run[k], run[k].customers[i].pc;
            && |s.mutexes| == SHELVES
            && (StepOf(ByCustomer(i), a) || (pc.Lock? && pc.choice < SHELVES && StepOf(s.mutexes[pc.choice], a)))
  {
    ReachableInv(run, k);
    var s := run[k];
    hide Sum, Taken, Conserved, MainOk;
    assert CustomerOk(s, i);
    var pc := s.customers[i].pc;
    if pc.Lock? && s.mutexes[pc.choice] != Free {
      a := HolderProgresses(run, k, pc.choice);
    } else {
      a := CustomerStep(i, 0);
    }
  }

  /** No reachable state is stuck before the program has finished. */
  lemma NeverStuck(run: seq<State>, k: nat) returns (a: Action)
    requires Behavior(run) && k < |run| && !run[k].main.Finished?
    ensures Enabled(run[k], a)
  {
    ReachableInv(run, k);
    var s := run[k];
    if !s.loader.Home? {
      if s.loader.LockShelf? && s.mutexes[s.loader.choice] != Free {
        var i := s.mutexes[s.loader.choice].i;
        assert CustomerOk(s, i);
        a := CustomerStep(i, 0);
      } else {
        a := LoaderStep(0);
      }
    } else {
      a := MainStep;
    }
  }
}
