/**
 The doubly linked directory.
*/
module LinkedDirectory {
  import opened DirectorySpec
  import opened Sequences

  class Cell {
    const data: Abonent
    var prev: Cell?
    var next: Cell?

    constructor (data: Abonent, prev: Cell?)
      ensures this.data == data && this.prev == prev && next == null
    {
      this.data := data;
      this.prev := prev;
      next := null;
    }
  }

  /** The entries of a chain of cells, in order. */
  function Entries(cells: seq<Cell>): (s: seq<Abonent>)
    ensures |s| == |cells| && forall i :: 0 <= i < |s| ==> s[i] == cells[i].data
  {
    seq(|cells|, i requires 0 <= i < |cells| => cells[i].data)
  }

  lemma EntriesSnoc(cells: seq<Cell>, cell: Cell)
    ensures Entries(cells + [cell]) == Entries(cells) + [cell.data]
  {
  }

  lemma EntriesWithout(cells: seq<Cell>, k: nat)
    requires k < |cells|
    ensures Entries(Without(cells, k)) == Without(Entries(cells), k)
    ensures forall x :: x in Without(cells, k) ==> x in cells
  {
    assert forall x :: x in cells[..k] || x in cells[k + 1..] ==> x in cells;
  }

  /** `prev` and `next` are mutually inverse along a sequence of distinct cells. */
  ghost predicate Chained(cells: seq<Cell>)
    reads cells
  {
    && (forall i, j :: 0 <= i < j < |cells| ==> cells[i] != cells[j])
    && (forall i {:trigger cells[i].prev} :: 0 <= i < |cells| ==>
          cells[i].prev == if i == 0 then null else cells[i - 1])
    && (forall i {:trigger cells[i].next} :: 0 <= i < |cells| ==>
          cells[i].next == if i == |cells| - 1 then null else cells[i + 1])
  }

  /** A new last cell. */
  lemma ChainedSnoc(cells: seq<Cell>, cell: Cell)
    requires cells != [] && cell !in cells && cell.next == null && cell.prev == cells[|cells| - 1]
    requires forall i, j :: 0 <= i < j < |cells| ==> cells[i] != cells[j]
    requires forall i {:trigger cells[i].prev} :: 0 <= i < |cells| ==>
               cells[i].prev == if i == 0 then null else cells[i - 1]
    requires forall i {:trigger cells[i].next} :: 0 <= i < |cells| ==>
               cells[i].next == if i == |cells| - 1 then cell else cells[i + 1]
    ensures Chained(cells + [cell])
  {
    var more := cells + [cell];
    forall i | 0 <= i < |more|
      ensures more[i].prev == if i == 0 then null else more[i - 1]
      ensures more[i].next == if i == |more| - 1 then null else more[i + 1]
    {
      assert i < |cells| ==> more[i] == cells[i];
    }
  }

  /** When only its neighbours have been relinked around cell `k`, the others are chained. */
  lemma Unlinked(was: seq<Cell>, k: nat)
    requires k < |was| && forall i, j :: 0 <= i < j < |was| ==> was[i] != was[j]
    requires forall i {:trigger was[i].prev} :: 0 <= i < |was| && i != k && i != k + 1 ==>
               was[i].prev == if i == 0 then null else was[i - 1]
    requires forall i {:trigger was[i].next} :: 0 <= i < |was| && i != k && i != k - 1 ==>
               was[i].next == if i == |was| - 1 then null else was[i + 1]
    requires k + 1 < |was| ==> was[k + 1].prev == if k == 0 then null else was[k - 1]
    requires k > 0 ==> was[k - 1].next == if k == |was| - 1 then null else was[k + 1]
    ensures Chained(Without(was, k))
  {
    var cells := Without(was, k);
    forall i | 0 <= i < |cells|
      ensures cells[i].prev == if i == 0 then null else cells[i - 1]
      ensures cells[i].next == if i == |cells| - 1 then null else cells[i + 1]
    {
      assert cells[i] == was[if i < k then i else i + 1];
    }
  }

  class Directory {
    var head: Cell?
    var tail: Cell?
    var capacity: nat
    // The listed cells, first to last.
    ghost var cells: seq<Cell>

    /** The cells are chained; `tail` is the last one unless the list is empty. */
    ghost predicate Valid()
      reads this, cells
    {
      && capacity == |cells| <= CAPACITY
      && Chained(cells)
      && (head == if cells == [] then null else cells[0])
      && (cells != [] ==> tail == cells[|cells| - 1])
    }

    ghost function Contents(): seq<Abonent>
      reads this
    {
      Entries(cells)
    }

    constructor ()
      ensures Valid() && cells == []
    {
      capacity := 0;
      head := null;
      tail := null;
      cells := [];
    }

    /** `cell_add`; a full directory ends the program, which `ok` reports. */
    method CellAdd(abonent: Abonent) returns (ok: bool)
      requires Valid()
      modifies this, cells
      ensures Valid() && ok == (|old(cells)| < CAPACITY)
      ensures if ok
              then |cells| == |old(cells)| + 1 && cells[..|old(cells)|] == old(cells) && fresh(cells[|old(cells)|])
              else cells == old(cells)
      ensures Contents() == if ok then old(Contents()) + [abonent] else old(Contents())
    {
      if capacity == CAPACITY {
        return false;
      }
      hide Entries;
      ok := true;
      if head == null {
        var cell := new Cell(abonent, null);
        EntriesSnoc(cells, cell);
        head := cell;
        tail := cell;
        cells := cells + [cell];
      } else {
        var cell := new Cell(abonent, tail);
        tail.next := cell;
        tail := cell;
        ChainedSnoc(cells, cell);
        hide Chained;
        EntriesSnoc(cells, cell);
        cells := cells + [cell];
      }
      capacity := capacity + 1;
    }

    /** `cell_search`: the first cell with that name, or null. */
    method CellSearch(name: string) returns (cur: Cell?)
      requires Valid()
      ensures var k := FirstNamed(Contents(), name);
              cur == if k < 0 then null else cells[k]
    {
      hide IndexOf, Names;
      ghost var names := Names(Contents());
      cur := head;
      var i := 0;
      while i < capacity && cur != null
        invariant 0 <= i <= capacity
        invariant cur == if i < capacity then cells[i] else null
        invariant IndexOf(names, name, 0) == IndexOf(names, name, i)
      {
        IndexOfNext(names, name, i);
        if cur.data.name == name {
          return;
        }
        cur := cur.next;
        i := i + 1;
      }
    }

    /** `cell_remove` of nothing or of a listed cell. */
    method CellRemove(cell: Cell?, ghost k: int)
      requires Valid()
      requires if cell == null then k == -1 else 0 <= k < |cells| && cells[k] == cell
      modifies this, cells
      ensures Valid()
      ensures cells == if cell == null then old(cells) else Without(old(cells), k)
      // the last cell to go stays behind in `tail`
      ensures cell != null && cells == [] ==> head == null && tail == cell
    {
      if cell == null {
        return;
      }
      hide Without;
      ghost var was := cells;
      assert cell.prev == was[k].prev && cell.next == was[k].next;
      if head == cell {
        assert k == 0;
        if cell.next != null {
          cell.next.prev := null;
        }
        head := cell.next;
      } else if tail == cell {
        assert k == |was| - 1 > 0;
        if cell.prev != null {
          cell.prev.next := null;
        }
        tail := cell.prev;
      } else {
        assert 0 < k < |was| - 1;
        cell.next.prev := cell.prev;
        cell.prev.next := cell.next;
      }
      capacity := capacity - 1;
      Unlinked(was, k);
      hide Chained;
      cells := Without(was, k);
    }

    /** `dir_free`: visits, and releases, every cell once and forgets them all. */
    method DirFree() returns (ghost freed: seq<Cell>)
      requires Valid()
      modifies this
      ensures Valid() && cells == []
      ensures freed == old(cells) && forall i, j :: 0 <= i < j < |freed| ==> freed[i] != freed[j]
    {
      freed := [];
      var cur := head;
      var i := 0;
      while i < capacity && cur != null
        invariant 0 <= i <= capacity
        invariant cur == if i < capacity then cells[i] else null
        invariant freed == cells[..i]
      {
        var buff := cur.next;
        freed := freed + [cur];
        cur := buff;
        i := i + 1;
      }
      capacity := 0;
      head := null;
      tail := null;
      cells := [];
    }

    /** Removes what the search for a name finds, guarded against the empty directory. */
    method DeleteNamed(name: string)
      requires Valid()
      modifies this, cells
      ensures Valid() && Contents() == Apply(old(Contents()), Delete(name))
      ensures forall x :: x in cells ==> x in old(cells)
    {
      if capacity == 0 {
        return;
      }
      hide FirstNamed, Without, Valid;
      ghost var was := cells;
      var cell := CellSearch(name);
      ghost var k := FirstNamed(Contents(), name);
      CellRemove(cell, k);
      if k >= 0 {
        EntriesWithout(was, k);
      }
    }

    /** One menu command of the program: add unless full, or remove what the search finds. */
    method Execute(c: Command)
      requires Valid()
      modifies this, cells
      ensures Valid() && Contents() == Apply(old(Contents()), c)
      ensures forall x :: x in cells ==> x in old(cells) || fresh(x)
    {
      match c
      case Delete(name) => DeleteNamed(name);
      case Add(a) =>
        if capacity != CAPACITY {
          ghost var was := cells;
          var ok := CellAdd(a);
          assert forall x :: x in cells[..|was|] ==> x in was;
          assert cells == cells[..|was|] + [cells[|was|]];
        }
    }
  }
}
