/**
 The spiral ("snail") matrix: four cursors close in on the centre while a counter is written.

 `Val` and `Cell` describe the finished matrix by peeling off its outer ring; they are each other's
 inverse, which makes the matrix a bijection onto 1..n*n.
*/
module Spiral {

  /** The number at row `r`, column `c` of the spiral of side `n`. */
  function Val(n: nat, r: nat, c: nat): nat
    requires r < n && c < n
  {
    if r == 0 then c + 1
    else if c == n - 1 then n + r
    else if r == n - 1 then 2 * n - 1 + (n - 1 - c)
    else if c == 0 then 3 * n - 2 + (n - 1 - r)
    else 4 * (n - 1) + Val(n - 2, r - 1, c - 1)
  }

  /** The cell that holds the number `v`. */
  function Cell(n: nat, v: nat): (cell: (nat, nat))
    requires 1 <= v <= n * n
    ensures cell.0 < n && cell.1 < n
    decreases n
  {
    if v <= n then (0, v - 1)
    else if v <= 2 * n - 1 then (v - n, n - 1)
    else if v <= 3 * n - 2 then (n - 1, 3 * n - 2 - v)
    else if v <= 4 * n - 4 then (4 * n - 3 - v, 0)
    else
      Peel(n);
      var inner := Cell(n - 2, v - 4 * (n - 1));
      (inner.0 + 1, inner.1 + 1)
  }

  lemma Peel(n: nat)
    requires n >= 2
    ensures n * n == 4 * (n - 1) + (n - 2) * (n - 2)
  {
  }

  lemma OuterRange(n: nat, r: nat, c: nat)
    requires r < n && c < n && !(0 < r < n - 1 && 0 < c < n - 1)
    ensures 1 <= Val(n, r, c) <= if n == 1 then 1 else 4 * n - 4
  {
  }

  lemma {:induction false} ValRange(n: nat, r: nat, c: nat)
    requires r < n && c < n
    ensures 1 <= Val(n, r, c) <= n * n
    ensures 0 < r < n - 1 && 0 < c < n - 1 <==> Val(n, r, c) > 4 * n - 4 && n >= 2
  {
    hide Val;
    if n >= 2 {
      Peel(n);
    }
    if 0 < r < n - 1 && 0 < c < n - 1 {
      InnerVal(n, r, c);
      ValRange(n - 2, r - 1, c - 1);
    } else {
      OuterRange(n, r, c);
      SquareOf(n - 2);
    }
  }

  lemma SquareOf(k: int)
    ensures k * k >= 0
  {
  }

  lemma {:induction false} CellOfVal(n: nat, r: nat, c: nat)
    requires r < n && c < n
    ensures 1 <= Val(n, r, c) <= n * n
    ensures Cell(n, Val(n, r, c)) == (r, c)
  {
    hide Val, Cell;
    ValRange(n, r, c);
    if 0 < r < n - 1 && 0 < c < n - 1 {
      CellOfVal(n - 2, r - 1, c - 1);
      InnerVal(n, r, c);
      InnerCell(n, Val(n - 2, r - 1, c - 1));
    } else {
      OuterCell(n, r, c);
    }
  }

  lemma InnerVal(n: nat, r: nat, c: nat)
    requires 0 < r < n - 1 && 0 < c < n - 1
    ensures Val(n, r, c) == 4 * (n - 1) + Val(n - 2, r - 1, c - 1)
  {
  }

  lemma InnerCell(n: nat, v: nat)
    requires n >= 2 && 1 <= v <= (n - 2) * (n - 2)
    ensures 1 <= 4 * (n - 1) + v <= n * n
    ensures Cell(n, 4 * (n - 1) + v) == (Cell(n - 2, v).0 + 1, Cell(n - 2, v).1 + 1)
  {
    Peel(n);
  }

  lemma NothingBelowOne(n: nat)
    ensures forall r, c :: 0 <= r < n && 0 <= c < n ==> Val(n, r, c) >= 1
  {
    forall r, c | 0 <= r < n && 0 <= c < n ensures Val(n, r, c) >= 1 {
      CellOfVal(n, r, c);
    }
  }

  lemma OuterCell(n: nat, r: nat, c: nat)
    requires r < n && c < n && (r == 0 || r == n - 1 || c == 0 || c == n - 1)
    requires 1 <= Val(n, r, c) <= n * n
    ensures Cell(n, Val(n, r, c)) == (r, c)
  {
  }

  lemma {:induction false} ValOfCell(n: nat, v: nat)
    requires 1 <= v <= n * n
    ensures Val(n, Cell(n, v).0, Cell(n, v).1) == v
    decreases n
  {
    if n >= 2 {
      Peel(n);
    }
    if n >= 2 && v > 4 * n - 4 {
      ValOfCell(n - 2, v - 4 * (n - 1));
    }
  }

  predicate SideBySide(a: (nat, nat), b: (nat, nat)) {
    || (a.0 == b.0 && (a.1 == b.1 + 1 || b.1 == a.1 + 1))
    || (a.1 == b.1 && (a.0 == b.0 + 1 || b.0 == a.0 + 1))
  }

  lemma OuterAdjacent(n: nat, v: nat)
    requires n >= 2 && 1 <= v < 4 * n - 4 && v + 1 <= n * n
    ensures SideBySide(Cell(n, v), Cell(n, v + 1))
  {
  }

  /** From the end of a ring to the start of the next one. */
  lemma InwardAdjacent(n: nat)
    requires n >= 3 && 4 * n - 3 <= n * n && 1 <= (n - 2) * (n - 2)
    ensures Cell(n, 4 * n - 4) == (1, 0) && Cell(n - 2, 1) == (0, 0)
  {
  }

  /** Consecutive numbers stand in side-adjacent cells. */
  lemma {:induction false} ConsecutiveAdjacent(n: nat, v: nat)
    requires 1 <= v < n * n
    ensures SideBySide(Cell(n, v), Cell(n, v + 1))
    decreases n
  {
    hide Cell;
    assert n >= 2;
    Peel(n);
    if v < 4 * n - 4 {
      OuterAdjacent(n, v);
    } else {
      assert n > 2;
      InnerCell(n, v + 1 - 4 * (n - 1));
      if v > 4 * n - 4 {
        ConsecutiveAdjacent(n - 2, v - 4 * (n - 1));
        InnerCell(n, v - 4 * (n - 1));
      } else {
        InwardAdjacent(n);
      }
    }
  }

  // ---------------------------------------------------------------- rings

  /** The first number of ring `k`. */
  function Start(n: nat, k: nat): nat
    requires 2 * k <= n
  {
    if k == 0 then 1 else 4 * (n - 1) + Start(n - 2, k - 1)
  }

  /** Ring k starts at its corner with 1 + 4*k*(n-k). */
  lemma {:induction false} RingStart(n: nat, k: nat)
    requires 2 * k <= n
    ensures Start(n, k) == 1 + 4 * k * (n - k)
    ensures 2 * k < n ==> Val(n, k, k) == Start(n, k)
  {
    if k > 0 {
      RingStart(n - 2, k - 1);
      RingArithmetic(n, k);
      if 2 * k < n {
        InnerVal(n, k, k);
      }
    }
    hide Val;
  }

  lemma RingArithmetic(n: nat, k: nat)
    requires 0 < k && 2 * k <= n
    ensures 4 * (n - 1) + 4 * (k - 1) * (n - 2 - (k - 1)) == 4 * k * (n - k)
  {
    assert (k - 1) * (n - k - 1) == k * (n - k) - (n - 1);
  }

  lemma {:induction false} NextRing(n: nat, k: nat)
    requires 2 * (k + 1) <= n
    ensures Start(n, k + 1) == Start(n, k) + 4 * (n - 2 * k - 1)
  {
    if k > 0 {
      NextRing(n - 2, k - 1);
    }
  }

  lemma OuterSides(n: nat, i: nat)
    requires i < n
    ensures Val(n, 0, i) == 1 + i
    ensures Val(n, i, n - 1) == n + i
    ensures 0 < n - 1 ==> Val(n, n - 1, i) == 1 + 2 * (n - 1) + (n - 1 - i)
    ensures i > 0 ==> Val(n, i, 0) == 1 + 3 * (n - 1) + (n - 1 - i) || n == 1
  {
  }

  /** The numbers on the four sides of ring `k`. */
  lemma {:induction false} Sides(n: nat, k: nat, i: nat)
    requires 2 * k < n && k <= i < n - k
    ensures var last, side := n - 1 - k, n - 2 * k - 1;
            && Val(n, k, i) == Start(n, k) + (i - k)
            && Val(n, i, last) == Start(n, k) + side + (i - k)
            && (k < last ==> Val(n, last, i) == Start(n, k) + 2 * side + (last - i))
            && (i > k ==> Val(n, i, k) == Start(n, k) + 3 * side + (last - i) || k == last)
  {
    hide Val;
    if k == 0 {
      OuterSides(n, i);
    } else {
      Sides(n - 2, k - 1, i - 1);
      hide Start;
      assert Start(n, k) == 4 * (n - 1) + Start(n - 2, k - 1) by { StartNext(n, k); }
      InnerVal(n, k, i);
      InnerVal(n, i, n - 1 - k);
      InnerVal(n, n - 1 - k, i);
      InnerVal(n, i, k);
    }
  }

  lemma StartNext(n: nat, k: nat)
    requires 0 < k && 2 * k <= n
    ensures Start(n, k) == 4 * (n - 1) + Start(n - 2, k - 1)
  {
  }

  /** Only one cell holds a given number. */
  lemma OnlyCell(n: nat, r: nat, c: nat)
    requires r < n && c < n
    ensures forall r', c' :: 0 <= r' < n && 0 <= c' < n && Val(n, r', c') == Val(n, r, c) ==> r' == r && c' == c
  {
    CellOfVal(n, r, c);
    forall r', c' | 0 <= r' < n && 0 <= c' < n && Val(n, r', c') == Val(n, r, c) ensures r' == r && c' == c {
      CellOfVal(n, r', c');
    }
  }

  /** The counter after the last ring. */
  lemma LastCount(n: nat, k: nat)
    requires n == 2 * k || n == 2 * k + 1
    ensures Start(n, k) + n % 2 == n * n + 1
  {
    RingStart(n, k);
  }

  // ---------------------------------------------------------------- the loops

  /** Every number below `cnt` is in its place. */
  ghost predicate Filled(m: array2<int>, n: nat, cnt: int)
    requires m.Length0 == m.Length1 == n
    reads m
  {
    forall r, c :: 0 <= r < n && 0 <= c < n && Val(n, r, c) < cnt ==> m[r, c] == Val(n, r, c)
  }

  /** `writes` are the cells in the order they were written. */
  ghost predicate InOrder(n: nat, writes: seq<(nat, nat)>) {
    |writes| <= n * n && forall v :: 0 <= v < |writes| ==> writes[v] == Cell(n, v + 1)
  }

  /** A complete writing order visits every cell, and visits it once. */
  lemma EachCellOnce(n: nat, writes: seq<(nat, nat)>, r: nat, c: nat)
    requires |writes| == n * n && InOrder(n, writes) && r < n && c < n
    ensures 1 <= Val(n, r, c) <= n * n && writes[Val(n, r, c) - 1] == (r, c)
    ensures forall v :: 0 <= v < |writes| && writes[v] == (r, c) ==> v == Val(n, r, c) - 1
  {
    CellOfVal(n, r, c);
    hide Val, Cell;
    forall v | 0 <= v < |writes| && writes[v] == (r, c) ensures v == Val(n, r, c) - 1 {
      ValOfCell(n, v + 1);
    }
  }

  lemma InOrderSnoc(n: nat, writes: seq<(nat, nat)>, r: nat, c: nat)
    requires InOrder(n, writes) && r < n && c < n && Val(n, r, c) == |writes| + 1
    ensures InOrder(n, writes + [(r, c)])
  {
    CellOfVal(n, r, c);
    hide Cell, Val;
  }

  /** Writes the counter into its own cell and counts on. */
  method Write(m: array2<int>, n: nat, r: nat, c: nat, cnt: int, ghost writes: seq<(nat, nat)>)
    returns (cnt': int, ghost writes': seq<(nat, nat)>)
    requires m.Length0 == m.Length1 == n && r < n && c < n && Val(n, r, c) == cnt
    requires |writes| == cnt - 1 && InOrder(n, writes) && Filled(m, n, cnt)
    modifies m
    ensures cnt' == cnt + 1
    ensures |writes'| == cnt' - 1 && InOrder(n, writes') && Filled(m, n, cnt')
  {
    hide Val, Cell;
    OnlyCell(n, r, c);
    InOrderSnoc(n, writes, r, c);
    m[r, c] := cnt;
    cnt' := cnt + 1;
    writes' := writes + [(r, c)];
  }

  method Snail(n: nat) returns (m: array2<int>, ghost writes: seq<(nat, nat)>)
    requires n >= 1
    ensures fresh(m) && m.Length0 == n && m.Length1 == n
    ensures forall r, c :: 0 <= r < n && 0 <= c < n ==> m[r, c] == Val(n, r, c)
    ensures |writes| == n * n && InOrder(n, writes)
  {
    hide Val, Cell, Start, InOrder, Filled;
    m := new int[n, n];
    writes := [];
    var cnt := 1;
    var top, bottom, left, right := 0, n - 1, 0, n - 1;
    ghost var k := 0;
    Begin(m, n);
    while top <= bottom && left <= right
      invariant top == left == k && bottom == right == n - 1 - k && 2 * k <= n + 1
      invariant cnt == CountAt(n, k)
      invariant |writes| == cnt - 1 && InOrder(n, writes) && Filled(m, n, cnt)
      decreases n - k
    {
      ghost var start, side := Start(n, k), n - 2 * k - 1;
      for i := left to right + 1
        invariant cnt == start + (i - k)
        invariant |writes| == cnt - 1 && InOrder(n, writes) && Filled(m, n, cnt)
      {
        Sides(n, k, i);
        cnt, writes := Write(m, n, top, i, cnt, writes);
      }
      top := top + 1;

      for i := top to bottom + 1
        invariant cnt == start + side + (i - k)
        invariant |writes| == cnt - 1 && InOrder(n, writes) && Filled(m, n, cnt)
      {
        Sides(n, k, i);
        cnt, writes := Write(m, n, i, right, cnt, writes);
      }
      right := right - 1;

      var i := right;
      while i >= left
        invariant k - 1 <= i <= right
        invariant cnt == start + 2 * side + (n - 1 - k - i)
        invariant |writes| == cnt - 1 && InOrder(n, writes) && Filled(m, n, cnt)
      {
        Sides(n, k, i);
        cnt, writes := Write(m, n, bottom, i, cnt, writes);
        i := i - 1;
      }
      bottom := bottom - 1;

      i := bottom;
      while i >= top
        invariant i <= bottom && (side > 0 ==> k <= i)
        invariant cnt == if side == 0 then start + 1 else start + 3 * side + (n - 1 - k - i)
        invariant |writes| == cnt - 1 && InOrder(n, writes) && Filled(m, n, cnt)
      {
        Sides(n, k, i);
        cnt, writes := Write(m, n, i, left, cnt, writes);
        i := i - 1;
      }
      left := left + 1;

      NextCount(n, k);
      k := k + 1;
    }
    Finish(m, n, k, writes);
  }

  /** The counter when ring `k` is about to be written; a ring of side 1 counts one cell. */
  ghost function CountAt(n: nat, k: nat): int
    requires 2 * k <= n + 1
  {
    if 2 * k <= n then Start(n, k) else n * n + 1
  }

  lemma NextCount(n: nat, k: nat)
    requires 2 * k < n
    ensures CountAt(n, k + 1) == if 2 * k + 1 == n then Start(n, k) + 1 else Start(n, k) + 4 * (n - 2 * k - 1)
  {
    if 2 * (k + 1) <= n {
      NextRing(n, k);
    } else {
      LastCount(n, k);
    }
  }

  lemma Begin(m: array2<int>, n: nat)
    requires m.Length0 == m.Length1 == n
    ensures CountAt(n, 0) == 1 && InOrder(n, []) && Filled(m, n, 1)
  {
    NothingBelowOne(n);
  }

  lemma Finish(m: array2<int>, n: nat, k: nat, writes: seq<(nat, nat)>)
    requires m.Length0 == m.Length1 == n && n <= 2 * k <= n + 1
    requires |writes| == CountAt(n, k) - 1 && Filled(m, n, CountAt(n, k))
    ensures forall r, c :: 0 <= r < n && 0 <= c < n ==> m[r, c] == Val(n, r, c)
    ensures |writes| == n * n
  {
    if 2 * k == n {
      LastCount(n, k);
    }
    hide Val;
    forall r, c | 0 <= r < n && 0 <= c < n ensures m[r, c] == Val(n, r, c) {
      CellOfVal(n, r, c);
    }
  }
}
