/**
 The doubling array behind the chat's member and message lists.
*/
module GrowableArray {
  import opened Sequences

  datatype Entry = Entry(line: string, id: int, online: bool)

  function Ids(s: seq<Entry>): (ids: seq<int>)
    ensures |ids| == |s| && forall k {:trigger ids[k]} {:trigger s[k]} :: 0 <= k < |s| ==> ids[k] == s[k].id
  {
    seq(|s|, k requires 0 <= k < |s| => s[k].id)
  }

  /** `data_find`: the first index with that id, or -1. */
  function FirstIndex(s: seq<Entry>, id: int): (r: int)
    ensures -1 <= r < |s|
    ensures r >= 0 ==> s[r].id == id
    ensures forall k :: 0 <= k < (if r < 0 then |s| else r) ==> s[k].id != id
  {
    IndexOfMeans(Ids(s), id, 0);
    IndexOf(Ids(s), id, 0)
  }

  ghost predicate PowerOfTwo(n: nat) {
    n == 1 || (n > 1 && n % 2 == 0 && PowerOfTwo(n / 2))
  }

  class Data {
    var size: nat
    var capacity: nat
    var data: array<Entry>
    // How often Add was called, and how many entries the growths have copied.
    ghost var adds: nat
    ghost var copied: nat

    /** What holds between a growth and the addition that asked for it. */
    ghost predicate Grown()
      reads this, data
    {
      && size <= capacity == data.Length
      && PowerOfTwo(capacity)
      && copied == capacity - 1
      && size <= adds
    }

    ghost predicate Valid()
      reads this, data
    {
      Grown() && (capacity > 1 ==> capacity / 2 < adds)
    }

    ghost function Contents(): (s: seq<Entry>)
      requires Valid()
      reads this, data
    {
      data[..size]
    }

    constructor ()
      ensures Valid() && fresh(data)
      ensures Contents() == [] && adds == 0
    {
      capacity := 1;
      size := 0;
      data := new Entry[1](_ => Entry("", 0, false));
      adds, copied := 0, 0;
    }

    method Grow()
      requires Valid() && size == capacity
      modifies this`capacity, this`data, this`copied
      ensures Grown() && fresh(data) && capacity == 2 * old(capacity)
      ensures data[..size] == old(data[..size])
      ensures copied == old(copied) + old(capacity)
    {
      capacity := capacity * 2;
      var bigger := new Entry[capacity](_ => Entry("", 0, false));
      var i := 0;
      while i < size
        invariant i <= size <= data.Length && size <= bigger.Length
        invariant bigger[..i] == data[..i]
        modifies bigger
      {
        bigger[i] := data[i];
        i := i + 1;
      }
      copied := copied + size;
      data := bigger;
    }

    method Add(e: Entry)
      requires Valid()
      modifies this, data
      ensures Valid() && (data == old(data) || fresh(data))
      ensures Contents() == old(Contents()) + [e]
      ensures adds == old(adds) + 1
    {
      adds := adds + 1;
      if size == capacity {
        Grow();
      }
      data[size] := e;
      size := size + 1;
    }

    method Find(id: int) returns (r: int)
      requires Valid()
      ensures r == FirstIndex(Contents(), id)
    {
      hide IndexOf, Ids, PowerOfTwo;
      ghost var ids := Ids(Contents());
      var i := 0;
      while i < size
        invariant i <= size
        invariant IndexOf(ids, id, 0) == IndexOf(ids, id, i)
      {
        IndexOfNext(ids, id, i);
        if data[i].id == id {
          return i;
        }
        i := i + 1;
      }
      return -1;
    }

    /** The shifting loop of `data_delete`: the entries behind number `k` move up by one. */
    method RemoveAt(k: nat)
      requires Valid() && k < size
      modifies this`size, data
      ensures Valid() && data == old(data) && adds == old(adds)
      ensures Contents() == Without(old(Contents()), k)
    {
      hide PowerOfTwo, Shifted;
      var index := k;
      ghost var s := Contents();
      ShiftedFirst(s, k);
      while index < size - 1
        invariant k <= index < size
        invariant data[..size] == Shifted(s, k, index)
        modifies data
      {
        ShiftedNext(s, k, index);
        assert data[index + 1] == data[..size][index + 1];
        data[index] := data[index + 1];
        assert data[..size] == Shifted(s, k, index)[index := s[index + 1]];
        index := index + 1;
      }
      ShiftedLast(s, k);
      assert data[..size - 1] == data[..size][..size - 1];
      size := size - 1;
    }

    /** Removes exactly the first entry with that id; the entries behind it move up by one. */
    method Delete(id: int)
      requires Valid() && exists e :: e in Contents() && e.id == id
      modifies this`size, data
      ensures Valid() && data == old(data) && adds == old(adds)
      ensures var k := FirstIndex(old(Contents()), id);
              k >= 0 && Contents() == Without(old(Contents()), k)
    {
      hide FirstIndex, PowerOfTwo;
      var index := Find(id);
      RemoveAt(index);
    }

    /** The amortised bound: all growths together have copied fewer than two entries per add. */
    lemma CopiesAreAmortised()
      requires Valid()
      ensures copied == capacity - 1
      ensures adds > 0 ==> copied < 2 * adds
    {
      if capacity > 1 {
        assert capacity == 2 * (capacity / 2);
      }
    }
  }
}
