/**
 The echo server's list of endpoints: one counter per address and port, kept in a singly linked list
 with a tail pointer.
*/
module EndpointCounters {

  datatype Endpoint = Endpoint(ip: int, port: int)

  datatype Call = Add(endpoint: Endpoint) | SwitchOff(endpoint: Endpoint)

  /** One past the last switch-off of that endpoint, or the start of the trace. */
  function LastOff(trace: seq<Call>, e: Endpoint): (r: nat)
    ensures r <= |trace|
    ensures r > 0 ==> trace[r - 1] == SwitchOff(e)
    ensures forall i :: r <= i < |trace| ==> trace[i] != SwitchOff(e)
  {
    if trace == [] then 0
    else if trace[|trace| - 1] == SwitchOff(e) then |trace|
    else LastOff(trace[..|trace| - 1], e)
  }

  function Adds(trace: seq<Call>, e: Endpoint): nat {
    if trace == [] then 0
    else Adds(trace[..|trace| - 1], e) + if trace[|trace| - 1] == Add(e) then 1 else 0
  }

  /** The number of adds of that endpoint since it was last switched off. */
  function AddsSinceOff(trace: seq<Call>, e: Endpoint): nat {
    Adds(trace[LastOff(trace, e)..], e)
  }

  lemma AddsSnoc(trace: seq<Call>, c: Call, e: Endpoint)
    ensures Adds(trace + [c], e) == Adds(trace, e) + if c == Add(e) then 1 else 0
  {
    assert (trace + [c])[..|trace|] == trace;
  }

  lemma LastOffSnoc(trace: seq<Call>, c: Call, e: Endpoint)
    ensures LastOff(trace + [c], e) == if c == SwitchOff(e) then |trace| + 1 else LastOff(trace, e)
  {
    assert (trace + [c])[..|trace|] == trace;
  }

  lemma OneMoreCall(trace: seq<Call>, c: Call, e: Endpoint)
    ensures AddsSinceOff(trace + [c], e) ==
            if c == SwitchOff(e) then 0 else AddsSinceOff(trace, e) + if c == Add(e) then 1 else 0
  {
    LastOffSnoc(trace, c, e);
    hide LastOff;
    var from := LastOff(trace, e);
    if c != SwitchOff(e) {
      assert (trace + [c])[from..] == trace[from..] + [c];
      AddsSnoc(trace[from..], c, e);
    }
    hide Adds;
    assert (trace + [c])[|trace| + 1..] == [];
    NeverAdded([], e);
  }

  lemma {:induction false} NeverAdded(trace: seq<Call>, e: Endpoint)
    requires Add(e) !in trace
    ensures Adds(trace, e) == 0
  {
    if trace != [] {
      NeverAdded(trace[..|trace| - 1], e);
    }
  }

  /** The endpoints of a trace in the order in which they were first added. */
  function Arrivals(trace: seq<Call>): seq<Endpoint> {
    if trace == [] then [] else Arrive(Arrivals(trace[..|trace| - 1]), trace[|trace| - 1])
  }

  function Arrive(known: seq<Endpoint>, c: Call): seq<Endpoint> {
    if c.Add? && c.endpoint !in known then known + [c.endpoint] else known
  }

  lemma {:induction false} ArrivalsMean(trace: seq<Call>)
    ensures forall e :: e in Arrivals(trace) <==> Add(e) in trace
    ensures forall i, j :: 0 <= i < j < |Arrivals(trace)| ==> Arrivals(trace)[i] != Arrivals(trace)[j]
  {
    if trace != [] {
      var before := trace[..|trace| - 1];
      ArrivalsMean(before);
      assert trace == before + [trace[|trace| - 1]];
    }
  }

  function EverAdded(trace: seq<Call>): set<Endpoint> {
    set c | c in trace && c.Add? :: c.endpoint
  }

  /** The list has as many entries as there are distinct endpoints among the adds. */
  lemma {:induction false} ArrivalsCountEndpoints(trace: seq<Call>)
    ensures |Arrivals(trace)| == |EverAdded(trace)|
  {
    ArrivalsMean(trace);
    DistinctCount(Arrivals(trace));
    assert forall e :: e in EverAdded(trace) <==> Add(e) in trace;
    assert EverAdded(trace) == (set e | e in Arrivals(trace));
  }

  lemma {:induction false} DistinctCount(s: seq<Endpoint>)
    requires forall i, j :: 0 <= i < j < |s| ==> s[i] != s[j]
    ensures |set e | e in s| == |s|
  {
    if s != [] {
      DistinctCount(s[1..]);
      assert (set e | e in s) == {s[0]} + set e | e in s[1..];
    }
  }

  /** The counters agree with the trace: one per endpoint, in order of arrival. */
  ghost predicate Counted(trace: seq<Call>, keys: seq<Endpoint>, counts: seq<nat>) {
    && keys == Arrivals(trace) && |counts| == |keys|
    && forall i :: 0 <= i < |keys| ==> counts[i] == AddsSinceOff(trace, keys[i])
  }

  lemma CountNewEndpoint(trace: seq<Call>, keys: seq<Endpoint>, counts: seq<nat>, e: Endpoint)
    requires Counted(trace, keys, counts) && e !in keys
    ensures Counted(trace + [Add(e)], keys + [e], counts + [1])
    ensures AddsSinceOff(trace + [Add(e)], e) == 1
  {
    ArrivalsMean(trace);
    NeverAdded(trace[LastOff(trace, e)..], e);
    assert AddsSinceOff(trace, e) == 0;
    assert (trace + [Add(e)])[..|trace|] == trace;
    hide Adds, LastOff, AddsSinceOff, Arrivals;
    OneMoreCall(trace, Add(e), e);
    forall i | 0 <= i < |keys|
      ensures AddsSinceOff(trace + [Add(e)], keys[i]) == counts[i]
    {
      OneMoreCall(trace, Add(e), keys[i]);
    }
  }

  lemma CountKnownEndpoint(trace: seq<Call>, keys: seq<Endpoint>, counts: seq<nat>, k: nat, c: Call)
    requires Counted(trace, keys, counts) && k < |keys| && keys[k] == c.endpoint
    ensures var n := if c.Add? then counts[k] + 1 else 0;
            Counted(trace + [c], keys, counts[k := n]) && AddsSinceOff(trace + [c], c.endpoint) == n
  {
    ArrivalsMean(trace);
    assert (trace + [c])[..|trace|] == trace;
    hide Adds, LastOff, AddsSinceOff, Arrivals;
    forall i | 0 <= i < |keys|
      ensures AddsSinceOff(trace + [c], keys[i]) == if i != k then counts[i] else if c.Add? then counts[k] + 1 else 0
    {
      OneMoreCall(trace, c, keys[i]);
    }
  }

  lemma IgnoreUnknownEndpoint(trace: seq<Call>, keys: seq<Endpoint>, counts: seq<nat>, e: Endpoint)
    requires Counted(trace, keys, counts) && e !in keys
    ensures Counted(trace + [SwitchOff(e)], keys, counts)
  {
    assert (trace + [SwitchOff(e)])[..|trace|] == trace;
    hide Adds, LastOff, AddsSinceOff, Arrivals;
    forall i | 0 <= i < |keys|
      ensures AddsSinceOff(trace + [SwitchOff(e)], keys[i]) == counts[i]
    {
      OneMoreCall(trace, SwitchOff(e), keys[i]);
    }
  }

  class Node {
    const ip: int
    const port: int
    var count: nat
    var next: Node?

    constructor (ip: int, port: int)
      ensures this.ip == ip && this.port == port && count == 1 && next == null
    {
      this.ip, this.port := ip, port;
      count, next := 1, null;
    }

    ghost function Key(): Endpoint {
      Endpoint(ip, port)
    }
  }

  ghost function Keys(nodes: seq<Node>): (r: seq<Endpoint>)
    ensures |r| == |nodes| && forall i :: 0 <= i < |r| ==> r[i] == nodes[i].Key()
  {
    seq(|nodes|, i requires 0 <= i < |nodes| => nodes[i].Key())
  }

  ghost function Counts(nodes: seq<Node>): (r: seq<nat>)
    reads nodes
    ensures |r| == |nodes| && forall i :: 0 <= i < |r| ==> r[i] == nodes[i].count
  {
    seq(|nodes|, i requires 0 <= i < |nodes| reads nodes => nodes[i].count)
  }

  /** What `list_kill` does to a node. */
  datatype Event = Read(node: Node) | Free(node: Node)

  class List {
    var head: Node?
    var tail: Node?
    var size: nat
    // The listed nodes, first to last, and every call since `list_init`.
    ghost var nodes: seq<Node>
    ghost var trace: seq<Call>

    /** The links form a chain from `head` to `tail`. */
    ghost predicate Linked()
      reads this, nodes`next
    {
      && size == |nodes|
      && (forall i, j :: 0 <= i < j < |nodes| ==> nodes[i] != nodes[j])
      && (head == if nodes == [] then null else nodes[0])
      && (nodes != [] ==> tail == nodes[|nodes| - 1])
      && (forall i {:trigger nodes[i].next} :: 0 <= i < |nodes| ==>
            nodes[i].next == if i == |nodes| - 1 then null else nodes[i + 1])
    }

    /** Besides, the counters agree with the calls made so far. */
    ghost predicate Valid()
      reads this, nodes
    {
      Linked() && Counted(trace, Keys(nodes), Counts(nodes))
    }

    constructor ()
      ensures Valid() && nodes == [] && trace == []
    {
      head, tail, size := null, null, 0;
      nodes, trace := [], [];
    }

    /** No endpoint has two nodes, and `size` is the number of endpoints ever added. */
    lemma KeysAreUnique()
      requires Valid()
      ensures forall i, j :: 0 <= i < j < |nodes| ==> nodes[i].Key() != nodes[j].Key()
      ensures size == |EverAdded(trace)|
    {
      ArrivalsMean(trace);
      ArrivalsCountEndpoints(trace);
      assert forall i :: 0 <= i < |nodes| ==> nodes[i].Key() == Arrivals(trace)[i];
    }

    /** `list_find`: the node of that endpoint, or null if there is none. */
    method Find(ip: int, port: int) returns (n: Node?, ghost k: nat)
      requires Linked()
      ensures k <= |nodes|
      ensures n == if k == |nodes| then null else nodes[k]
      ensures forall i :: 0 <= i < k ==> nodes[i].Key() != Endpoint(ip, port)
      ensures n != null ==> n.Key() == Endpoint(ip, port)
    {
      n, k := head, 0;
      while n != null
        invariant k <= |nodes|
        invariant n == if k == |nodes| then null else nodes[k]
        invariant forall i :: 0 <= i < k ==> nodes[i].Key() != Endpoint(ip, port)
        decreases |nodes| - k
      {
        if n.ip == ip && n.port == port {
          break;
        }
        n, k := n.next, k + 1;
      }
    }

    /** The branch of `list_add` that links a new node behind the tail. */
    method Append(ip: int, port: int) returns (n: Node)
      requires Linked() && head != null
      modifies this`tail, this`size, this`nodes, nodes
      ensures Linked() && nodes == old(nodes) + [n] && fresh(n)
      ensures n.count == 1 && Keys(nodes) == old(Keys(nodes)) + [Endpoint(ip, port)]
      ensures Counts(nodes) == old(Counts(nodes)) + [1]
    {
      n := new Node(ip, port);
      tail.next := n;
      tail := n;
      size := size + 1;
      nodes := nodes + [n];
    }

    /** Writes the counter of node number `k`. */
    method SetCount(n: Node, ghost k: nat, count: nat)
      requires Linked() && k < |nodes| && nodes[k] == n
      modifies n`count
      ensures Linked() && n.count == count && Counts(nodes) == old(Counts(nodes))[k := count]
    {
      n.count := count;
    }

    /** `list_add`: answers how often the endpoint was added since it was last switched off, this call included. */
    method AddEndpoint(ip: int, port: int) returns (r: nat)
      requires Valid()
      modifies this, nodes
      ensures Valid() && trace == old(trace) + [Add(Endpoint(ip, port))]
      ensures r == AddsSinceOff(trace, Endpoint(ip, port))
      ensures forall x :: x in nodes ==> x in old(nodes) || fresh(x)
    {
      hide Counted, Arrivals, Adds, LastOff, AddsSinceOff, Keys, Counts, EverAdded;
      ghost var e := Endpoint(ip, port);
      ghost var keys, counts := Keys(nodes), Counts(nodes);
      ghost var before := trace;
      trace := trace + [Add(e)];
      if head == null {
        var n := new Node(ip, port);
        head, tail, size := n, n, size + 1;
        nodes := [n];
        CountNewEndpoint(before, keys, counts, e);
        assert Keys(nodes) == keys + [e] && Counts(nodes) == counts + [1];
        return n.count;
      }
      assert Linked();
      hide Linked;
      var n, k := Find(ip, port);
      if n == null {
        n := Append(ip, port);
        CountNewEndpoint(before, keys, counts, e);
        return n.count;
      }
      SetCount(n, k, n.count + 1);
      CountKnownEndpoint(before, keys, counts, k, Add(e));
      return n.count;
    }

    method SwitchOffEndpoint(ip: int, port: int)
      requires Valid()
      modifies this, nodes
      ensures Valid() && trace == old(trace) + [SwitchOff(Endpoint(ip, port))]
      ensures nodes == old(nodes)
    {
      hide Counted, Arrivals, Adds, LastOff, AddsSinceOff, Keys, Counts, EverAdded;
      ghost var e := Endpoint(ip, port);
      ghost var keys, counts := Keys(nodes), Counts(nodes);
      ghost var before := trace;
      trace := trace + [SwitchOff(e)];
      var n, k := Find(ip, port);
      if n == null {
        IgnoreUnknownEndpoint(before, keys, counts, e);
        return;
      }
      SetCount(n, k, 0);
      CountKnownEndpoint(before, keys, counts, k, SwitchOff(e));
    }

    /** `list_kill`: reads each node and then releases it, from the first to the last. */
    method Kill() returns (ghost events: seq<Event>)
      requires Valid()
      ensures |events| == 2 * |nodes|
      ensures forall i :: 0 <= i < |nodes| ==> events[2 * i] == Read(nodes[i]) && events[2 * i + 1] == Free(nodes[i])
    {
      var n := head;
      events := [];
      ghost var k := 0;
      while n != null
        invariant k <= |nodes| && |events| == 2 * k
        invariant n == if k == |nodes| then null else nodes[k]
        invariant forall i :: 0 <= i < k ==> events[2 * i] == Read(nodes[i]) && events[2 * i + 1] == Free(nodes[i])
        decreases |nodes| - k
      {
        var pn := n;
        n := n.next;
        events := events + [Read(pn), Free(pn)];
        k := k + 1;
      }
    }

    /** So every node is released, each only once, and none is read or released after its release. */
    lemma KillIsSafe(events: seq<Event>, i: nat, j: nat)
      requires Valid() && |events| == 2 * |nodes|
      requires forall k :: 0 <= k < |nodes| ==> events[2 * k] == Read(nodes[k]) && events[2 * k + 1] == Free(nodes[k])
      ensures i < |events| && events[i].Free? && i < j < |events| ==> events[j].node != events[i].node
      ensures i < |nodes| ==> Free(nodes[i]) in events
    {
      if i < |nodes| {
        assert events[2 * i + 1] == Free(nodes[i]);
      }
      if i < |events| && i < j < |events| {
        assert events[i].node == nodes[i / 2] && events[j].node == nodes[j / 2] by {
          NodeOf(events, i);
          NodeOf(events, j);
        }
      }
    }

    lemma NodeOf(events: seq<Event>, i: nat)
      requires |events| == 2 * |nodes| && i < |events|
      requires forall k :: 0 <= k < |nodes| ==> events[2 * k] == Read(nodes[k]) && events[2 * k + 1] == Free(nodes[k])
      ensures events[i] == if i % 2 == 0 then Read(nodes[i / 2]) else Free(nodes[i / 2])
    {
      assert i == 2 * (i / 2) + i % 2;
    }
  }
}
