/**
 The descriptor choreography of a shell pipeline: `pipe`, `fork`, `dup2` and `close` over
 descriptor tables.

 A table maps a descriptor to what it is open on.  A child starts with a copy of its parent's
 table.  Closing a descriptor that is not open, or duplicating one, fails without effect.
*/
module Pipeline {

  datatype File = Other(name: int) | ReadEnd(pipe: nat) | WriteEnd(pipe: nat)

  type Fds = map<int, File>

  const STDIN: int := 0
  const STDOUT: int := 1
  const STDERR: int := 2

  function Close(t: Fds, fd: int): Fds {
    t - {fd}
  }

  function Dup2(t: Fds, from: int, to: int): Fds {
    if from in t then t[to := t[from]] else t
  }

  /** The standard descriptors are open and nothing is open on one of the first `m` pipes. */
  ghost predicate CleanStart(t: Fds, m: nat) {
    && STDIN in t && STDOUT in t && STDERR in t
    && forall fd :: fd in t && !t[fd].Other? ==> t[fd].pipe >= m
  }

  /** What `pipe` guarantees of the descriptors it hands out: unused ones, one for each end. */
  ghost predicate FreshPairs(t: Fds, pipes: seq<(int, int)>) {
    && (forall j :: 0 <= j < |pipes| ==> pipes[j].0 !in t && pipes[j].1 !in t && pipes[j].0 != pipes[j].1)
    && (forall j, k :: 0 <= j < k < |pipes| ==>
          pipes[j].0 != pipes[k].0 && pipes[j].0 != pipes[k].1 && pipes[j].1 != pipes[k].0 && pipes[j].1 != pipes[k].1)
  }

  /** `fd` is an end of a pipe from number `from` on. */
  ghost predicate IsEnd(pipes: seq<(int, int)>, from: nat, fd: int) {
    exists j :: from <= j < |pipes| && (pipes[j].0 == fd || pipes[j].1 == fd)
  }

  /**
   `t` is `base` plus, of the pipes below `made`, the read ends from number `r` on and the write ends
   from number `w` on.
  */
  ghost predicate Extends(t: Fds, base: Fds, pipes: seq<(int, int)>, made: nat, r: nat, w: nat)
    requires made <= |pipes|
  {
    && (forall fd :: fd in base ==> fd in t && t[fd] == base[fd])
    && (forall fd :: fd in t ==> fd in base || IsEnd(pipes[..made], 0, fd))
    && (forall j :: 0 <= j < made ==> (pipes[j].0 in t <==> j >= r) && (j >= r ==> t[pipes[j].0] == ReadEnd(j)))
    && (forall j :: 0 <= j < made ==> (pipes[j].1 in t <==> j >= w) && (j >= w ==> t[pipes[j].1] == WriteEnd(j)))
  }

  /** What child `i` of `n` must hold: its parent's descriptors, with 0 and 1 moved onto its pipes. */
  function ChildTable(parent: Fds, i: nat, n: nat): Fds
    requires i < n
  {
    var t := if i > 0 then parent[STDIN := ReadEnd(i - 1)] else parent;
    if i + 1 < n then t[STDOUT := WriteEnd(i)] else t
  }

  /** The child's side of the fork, up to `execvp`. */
  method SetUpChild(forked: Fds, ghost parent: Fds, pipes: seq<(int, int)>, i: nat, n: nat) returns (t: Fds)
    requires i < n && |pipes| == n - 1 && CleanStart(parent, n - 1) && FreshPairs(parent, pipes)
    requires Extends(forked, parent, pipes, n - 1, if i > 0 then i - 1 else 0, i)
    ensures t == ChildTable(parent, i, n)
  {
    t := forked;
    if i > 0 {
      t := Dup2(t, pipes[i - 1].0, STDIN);
      t := Close(t, pipes[i - 1].0);
    }
    if i < n - 1 {
      t := Dup2(t, pipes[i].1, STDOUT);
      t := Close(t, pipes[i].1);
    }
    ghost var goal := ChildTable(parent, i, n);
    Redirected(forked, parent, pipes, i, n, t);
    hide Extends, ChildTable, FreshPairs, CleanStart, Within;
    var j := 0;
    while j < n - 1
      invariant 0 <= j <= n - 1
      invariant Within(t, goal, pipes, j)
    {
      CloseBoth(t, goal, pipes, j, parent);
      t := Close(t, pipes[j].0);
      t := Close(t, pipes[j].1);
      j := j + 1;
    }
    NothingLeft(t, goal, pipes);
  }

  /** `t` is `goal` plus, at most, ends of the pipes from number `j` on. */
  ghost predicate Within(t: Fds, goal: Fds, pipes: seq<(int, int)>, j: nat) {
    && (forall fd :: fd in goal ==> fd in t && t[fd] == goal[fd])
    && (forall fd :: fd in t ==> fd in goal || IsEnd(pipes, j, fd))
  }

  lemma Redirected(forked: Fds, parent: Fds, pipes: seq<(int, int)>, i: nat, n: nat, t: Fds)
    requires i < n && |pipes| == n - 1 && CleanStart(parent, n - 1) && FreshPairs(parent, pipes)
    requires Extends(forked, parent, pipes, n - 1, if i > 0 then i - 1 else 0, i)
    requires var t1 := if i > 0 then Close(Dup2(forked, pipes[i - 1].0, STDIN), pipes[i - 1].0) else forked;
             t == if i < n - 1 then Close(Dup2(t1, pipes[i].1, STDOUT), pipes[i].1) else t1
    ensures Within(t, ChildTable(parent, i, n), pipes, 0)
    ensures ChildTable(parent, i, n).Keys <= parent.Keys
  {
    assert pipes[..n - 1] == pipes;
    hide IsEnd;
  }

  lemma CloseBoth(t: Fds, goal: Fds, pipes: seq<(int, int)>, j: nat, parent: Fds)
    requires j < |pipes| && Within(t, goal, pipes, j) && FreshPairs(parent, pipes) && goal.Keys <= parent.Keys
    ensures Within(Close(Close(t, pipes[j].0), pipes[j].1), goal, pipes, j + 1)
  {
  }

  lemma NothingLeft(t: Fds, goal: Fds, pipes: seq<(int, int)>)
    requires Within(t, goal, pipes, |pipes|)
    ensures t == goal
  {
    SameTable(t, goal);
  }

  lemma SameTable(a: Fds, b: Fds)
    requires forall fd :: fd in b ==> fd in a && a[fd] == b[fd]
    requires forall fd :: fd in a ==> fd in b
    ensures a == b
  {
    assert forall fd :: fd in a.Keys <==> fd in b.Keys;
    assert forall fd :: fd in a.Keys ==> a[fd] == b[fd];
  }

  lemma PipeStep(t: Fds, base: Fds, pipes: seq<(int, int)>, i: nat)
    requires FreshPairs(base, pipes) && i < |pipes| && Extends(t, base, pipes, i, 0, 0)
    ensures Extends(t[pipes[i].0 := ReadEnd(i)][pipes[i].1 := WriteEnd(i)], base, pipes, i + 1, 0, 0)
  {
    hide IsEnd;
    var t' := t[pipes[i].0 := ReadEnd(i)][pipes[i].1 := WriteEnd(i)];
    forall fd | fd in t' ensures fd in base || IsEnd(pipes[..i + 1], 0, fd) {
      if fd == pipes[i].0 || fd == pipes[i].1 {
        NewEnd(pipes, i);
      } else if fd !in base {
        MoreEnds(pipes, i, fd);
      }
    }
  }

  lemma NewEnd(pipes: seq<(int, int)>, i: nat)
    requires i < |pipes|
    ensures IsEnd(pipes[..i + 1], 0, pipes[i].0) && IsEnd(pipes[..i + 1], 0, pipes[i].1)
  {
    assert pipes[..i + 1][i] == pipes[i];
  }

  lemma MoreEnds(pipes: seq<(int, int)>, i: nat, fd: int)
    requires i < |pipes| && IsEnd(pipes[..i], 0, fd)
    ensures IsEnd(pipes[..i + 1], 0, fd)
  {
    var j :| 0 <= j < i && (pipes[..i][j].0 == fd || pipes[..i][j].1 == fd);
    assert pipes[..i + 1][j] == pipes[..i][j];
  }

  /** Closing the next read end, or the next write end. */
  lemma CloseStep(t: Fds, base: Fds, pipes: seq<(int, int)>, m: nat, r: nat, w: nat)
    requires FreshPairs(base, pipes) && m <= |pipes| && Extends(t, base, pipes, m, r, w)
    ensures r < m ==> Extends(Close(t, pipes[r].0), base, pipes, m, r + 1, w)
    ensures w < m ==> Extends(Close(t, pipes[w].1), base, pipes, m, r, w + 1)
  {
    hide IsEnd;
  }

  /**
   `pipeline_handler`: creates the pipes, forks the children, closes everything.  `pipes` are the
   descriptors the calls of `pipe` hand out; the result is the final table of each process.
  */
  method PipelineHandler(initial: Fds, pipes: seq<(int, int)>, n: nat) returns (parent: Fds, children: seq<Fds>)
    requires n >= 2 && |pipes| == n - 1 && CleanStart(initial, n - 1) && FreshPairs(initial, pipes)
    ensures parent == initial
    ensures |children| == n && forall i :: 0 <= i < n ==> children[i] == ChildTable(initial, i, n)
  {
    hide Extends, ChildTable, FreshPairs, CleanStart, Close, IsEnd;
    parent := initial;
    var i := 0;
    ExtendsNothing(initial, pipes);
    while i < n - 1
      invariant 0 <= i <= n - 1
      invariant Extends(parent, initial, pipes, i, 0, 0)
    {
      PipeStep(parent, initial, pipes, i);
      parent := parent[pipes[i].0 := ReadEnd(i)][pipes[i].1 := WriteEnd(i)];
      i := i + 1;
    }
    children := [];
    i := 0;
    ghost var r, w := 0, 0;
    while i < n
      invariant 0 <= i <= n && r == (if i > 0 then i - 1 else 0) && w == (if i < n then i else n - 1)
      invariant Extends(parent, initial, pipes, n - 1, r, w)
      invariant |children| == i && forall k :: 0 <= k < i ==> children[k] == ChildTable(initial, k, n)
    {
      var child := SetUpChild(parent, initial, pipes, i, n);
      children := children + [child];
      if i > 0 {
        CloseStep(parent, initial, pipes, n - 1, r, w);
        parent := Close(parent, pipes[i - 1].0);
        r := r + 1;
      }
      if i < n - 1 {
        CloseStep(parent, initial, pipes, n - 1, r, w);
        parent := Close(parent, pipes[i].1);
        w := w + 1;
      }
      i := i + 1;
    }
    AllEndsClosed(parent, initial, pipes);
    i := 0;
    while i < n - 1
      invariant 0 <= i <= n - 1
      invariant parent == initial
    {
      CloseNothing(parent, pipes, i);
      parent := Close(parent, pipes[i].0);
      parent := Close(parent, pipes[i].1);
      i := i + 1;
    }
  }

  lemma ExtendsNothing(base: Fds, pipes: seq<(int, int)>)
    ensures Extends(base, base, pipes, 0, 0, 0)
  {
  }

  /** After the fork loop the parent has already closed every end, so the last loop finds nothing to close. */
  lemma AllEndsClosed(t: Fds, base: Fds, pipes: seq<(int, int)>)
    requires Extends(t, base, pipes, |pipes|, |pipes|, |pipes|)
    ensures t == base
  {
    assert pipes[..|pipes|] == pipes;
    SameTable(t, base);
  }

  lemma CloseNothing(base: Fds, pipes: seq<(int, int)>, i: nat)
    requires FreshPairs(base, pipes) && i < |pipes|
    ensures Close(base, pipes[i].0) == base && Close(base, pipes[i].1) == base
  {
  }

  // ---------------------------------------------------------------- who holds which end

  /** Child `c` holds file `f` on descriptor `fd`. */
  predicate Holds(children: seq<Fds>, c: int, fd: int, f: File) {
    0 <= c < |children| && fd in children[c] && children[c][fd] == f
  }

  /**
   Pipe j has exactly one writer, child j on descriptor 1, and exactly one reader, child j + 1 on
   descriptor 0; the parent holds neither end.
  */
  lemma OneWriterOneReader(initial: Fds, children: seq<Fds>, n: nat, j: nat)
    requires n >= 2 && CleanStart(initial, n - 1) && j < n - 1
    requires |children| == n && forall i :: 0 <= i < n ==> children[i] == ChildTable(initial, i, n)
    ensures forall c, fd :: Holds(children, c, fd, WriteEnd(j)) <==> c == j && fd == STDOUT
    ensures forall c, fd :: Holds(children, c, fd, ReadEnd(j)) <==> c == j + 1 && fd == STDIN
    ensures forall fd :: fd in initial ==> initial[fd] != WriteEnd(j) && initial[fd] != ReadEnd(j)
  {
    forall c, fd ensures Holds(children, c, fd, WriteEnd(j)) <==> c == j && fd == STDOUT {
      if 0 <= c < n {
        assert children[c] == ChildTable(initial, c, n);
      }
    }
    forall c, fd ensures Holds(children, c, fd, ReadEnd(j)) <==> c == j + 1 && fd == STDIN {
      if 0 <= c < n {
        assert children[c] == ChildTable(initial, c, n);
      }
    }
  }

  /** No child holds more descriptors than the shell had: with only 0, 1, 2 open there, a child has only these. */
  lemma NoStrayDescriptors(initial: Fds, n: nat, i: nat)
    requires CleanStart(initial, n) && i < n
    ensures ChildTable(initial, i, n).Keys == initial.Keys
    ensures i == 0 ==> ChildTable(initial, i, n)[STDIN] == initial[STDIN]
    ensures i == n - 1 ==> ChildTable(initial, i, n)[STDOUT] == initial[STDOUT]
    ensures forall fd :: fd in initial && fd != STDIN && fd != STDOUT ==> ChildTable(initial, i, n)[fd] == initial[fd]
  {
    assert initial.Keys + {STDIN} == initial.Keys && initial.Keys + {STDOUT} == initial.Keys;
  }

  /** Once the writing child is gone nobody can write to its pipe, so its reader sees the end of the data. */
  lemma ReaderSeesEnd(initial: Fds, children: seq<Fds>, n: nat, j: nat, alive: set<int>)
    requires n >= 2 && CleanStart(initial, n - 1) && j < n - 1 && j !in alive
    requires |children| == n && forall i :: 0 <= i < n ==> children[i] == ChildTable(initial, i, n)
    ensures !exists c, fd :: c in alive && Holds(children, c, fd, WriteEnd(j))
  {
    OneWriterOneReader(initial, children, n, j);
  }
}
