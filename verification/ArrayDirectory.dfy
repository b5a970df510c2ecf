/**
 The array directory: a hundred slots, deletion by shifting, and a search that enumerates all matches.
*/
module ArrayDirectory {
  import opened DirectorySpec
  import opened Sequences
  import LinkedDirectory

  const BLANK: Abonent := Abonent("", "", "")

  /** All indices from `from` on that hold that name, in increasing order. */
  function Matches(names: seq<string>, name: string, from: nat): seq<nat>
    requires from <= |names|
    decreases |names| - from
  {
    if from == |names| then [] else (if names[from] == name then [from] else []) + Matches(names, name, from + 1)
  }

  lemma MatchesNext(names: seq<string>, name: string, from: nat)
    requires from < |names|
    ensures Matches(names, name, from) ==
            if names[from] == name then [from] + Matches(names, name, from + 1) else Matches(names, name, from + 1)
  {
    assert [] + Matches(names, name, from + 1) == Matches(names, name, from + 1);
  }

  lemma {:induction false} IsMatch(names: seq<string>, name: string, from: nat, i: nat)
    requires from <= |names|
    ensures i in Matches(names, name, from) <==> from <= i < |names| && names[i] == name
    decreases |names| - from
  {
    if from < |names| {
      IsMatch(names, name, from + 1, i);
    }
  }

  lemma {:induction false} MatchesIncrease(names: seq<string>, name: string, from: nat, i: nat, j: nat)
    requires from <= |names| && i < j < |Matches(names, name, from)|
    ensures from <= Matches(names, name, from)[i] < Matches(names, name, from)[j]
    decreases |names| - from
  {
    MatchesNext(names, name, from);
    if names[from] != name {
      MatchesIncrease(names, name, from + 1, i, j);
    } else if i > 0 {
      MatchesIncrease(names, name, from + 1, i - 1, j - 1);
    } else {
      var rest := Matches(names, name, from + 1);
      IsMatch(names, name, from + 1, rest[j - 1]);
    }
  }

  lemma MatchesAreAllMatches(names: seq<string>, name: string, from: nat)
    requires from <= |names|
    ensures forall i: nat :: i in Matches(names, name, from) <==> from <= i < |names| && names[i] == name
    ensures var m := Matches(names, name, from); forall i, j :: 0 <= i < j < |m| ==> m[i] < m[j]
  {
    hide Matches;
    var m := Matches(names, name, from);
    forall i: nat ensures i in m <==> from <= i < |names| && names[i] == name {
      IsMatch(names, name, from, i);
    }
    forall i, j | 0 <= i < j < |m| ensures m[i] < m[j] {
      MatchesIncrease(names, name, from, i, j);
    }
  }

  /** The matches are the first match and those behind it. */
  lemma {:induction false} NextMatch(names: seq<string>, name: string, from: nat)
    requires from <= |names|
    ensures var k := IndexOf(names, name, from);
            Matches(names, name, from) == if k < 0 then [] else [k] + Matches(names, name, k + 1)
    decreases |names| - from
  {
    if from < |names| {
      MatchesNext(names, name, from);
      IndexOfNext(names, name, from);
      hide Matches, IndexOf;
      if names[from] != name {
        NextMatch(names, name, from + 1);
      }
    }
  }

  /** One turn of the search menu. */
  lemma SearchTurn(names: seq<string>, name: string, from: nat, printed: seq<nat>)
    requires from <= |names|
    ensures var k := IndexOf(names, name, from);
            printed + Matches(names, name, from) ==
            if k < 0 then printed else printed + [k] + Matches(names, name, k + 1)
  {
    NextMatch(names, name, from);
    hide Matches, IndexOf;
    var k := IndexOf(names, name, from);
    if k < 0 {
      assert printed + [] == printed;
    } else {
      assert printed + ([k] + Matches(names, name, k + 1)) == printed + [k] + Matches(names, name, k + 1);
    }
  }

  ghost predicate BlankFrom(slots: seq<Abonent>, n: nat) {
    forall i :: n <= i < |slots| ==> slots[i] == BLANK
  }

  /** Blank slots behind the entries never match a name. */
  lemma BlanksNeverMatch(slots: seq<Abonent>, n: nat, name: string)
    requires n <= |slots| && name != "" && BlankFrom(slots, n)
    ensures FirstNamed(slots, name) == FirstNamed(slots[..n], name)
    ensures Matches(Names(slots), name, 0) == Matches(Names(slots[..n]), name, 0)
  {
    var names := Names(slots);
    assert names[..n] == Names(slots[..n]);
    assert forall i :: n <= i < |names| ==> names[i] == slots[i].name;
    hide BlankFrom, Names;
    BlanksBehind(names, n, name, 0);
  }

  lemma {:induction false} BlanksBehind(names: seq<string>, n: nat, name: string, from: nat)
    requires from <= n <= |names| && name != "" && forall i :: n <= i < |names| ==> names[i] == ""
    ensures IndexOf(names, name, from) == IndexOf(names[..n], name, from)
    ensures Matches(names, name, from) == Matches(names[..n], name, from)
    decreases n - from
  {
    hide Matches, IndexOf;
    if from < n {
      BlanksBehind(names, n, name, from + 1);
      MatchesNext(names, name, from);
      MatchesNext(names[..n], name, from);
      IndexOfNext(names, name, from);
      IndexOfNext(names[..n], name, from);
    } else {
      AllBlank(names, name, n);
      AllBlank(names[..n], name, n);
    }
  }

  lemma {:induction false} AllBlank(names: seq<string>, name: string, from: nat)
    requires from <= |names| && name != "" && forall i :: from <= i < |names| ==> names[i] == ""
    ensures IndexOf(names, name, from) == -1 && Matches(names, name, from) == []
    decreases |names| - from
  {
    if from < |names| {
      AllBlank(names, name, from + 1);
    }
  }

  /** After the shift: the entries without number `k`, and blanks behind them. */
  lemma Deleted(was: seq<Abonent>, now: seq<Abonent>, k: nat, n: nat)
    requires k < n <= |was| == |now| && BlankFrom(was, n)
    requires forall i :: 0 <= i < n ==> was[i].name != ""
    requires now[..n - 1] == Without(was[..n][k := BLANK], k) && now[n - 1] == BLANK && now[n..] == was[n..]
    ensures now[..n - 1] == Without(was[..n], k) && BlankFrom(now, n - 1)
    ensures forall i :: 0 <= i < n - 1 ==> now[i].name != ""
  {
    assert forall i :: n <= i < |was| ==> now[i] == now[n..][i - n] == was[n..][i - n] == was[i];
    assert forall i :: 0 <= i < n - 1 ==> now[i] == now[..n - 1][i];
  }

  class Directory {
    var slots: array<Abonent>
    var capacity: nat

    ghost predicate Valid()
      reads this, slots
    {
      && slots.Length == CAPACITY && capacity <= CAPACITY
      && BlankFrom(slots[..], capacity)
      && (forall i :: 0 <= i < capacity ==> slots[i].name != "")
    }

    ghost function Contents(): seq<Abonent>
      requires Valid()
      reads this, slots
    {
      slots[..capacity]
    }

    constructor ()
      ensures Valid() && Contents() == [] && fresh(slots)
    {
      capacity := 0;
      slots := new Abonent[CAPACITY](_ => BLANK);
    }

    /** `find_abonent_index`: searches all hundred slots. */
    method FindIndex(name: string, from: nat) returns (r: int)
      requires slots.Length == CAPACITY && from <= CAPACITY
      ensures r == IndexOf(Names(slots[..]), name, from)
    {
      hide Names;
      ghost var names := Names(slots[..]);
      var i := from;
      while i < CAPACITY
        invariant from <= i <= CAPACITY
        invariant IndexOf(names, name, from) == IndexOf(names, name, i)
      {
        IndexOfNext(names, name, i);
        if name == slots[i].name {
          break;
        }
        i := i + 1;
      }
      if i >= CAPACITY {
        return -1;
      }
      return i;
    }

    method AddEntry(a: Abonent)
      requires Valid() && a.name != ""
      modifies this`capacity, slots
      ensures Valid() && Contents() == Apply(old(Contents()), Add(a))
    {
      if capacity == CAPACITY {
        return;
      }
      slots[capacity] := a;
      capacity := capacity + 1;
    }

    /** The tail of the delete branch: clears slot `k` and moves the later entries down by one. */
    method RemoveSlot(k: nat)
      requires Valid() && k < capacity
      modifies this`capacity, slots
      ensures Valid() && Contents() == Without(old(Contents()), k)
    {
      hide Shifted, BlankFrom;
      var index := k;
      ghost var n := capacity;
      slots[index] := BLANK;
      ghost var s := slots[..n];
      capacity := capacity - 1;
      ShiftedFirst(s, k);
      while index < capacity
        invariant k <= index <= capacity == n - 1
        invariant slots[..n] == Shifted(s, k, index)
        invariant slots[n..] == old(slots[n..])
        modifies slots
      {
        ShiftedNext(s, k, index);
        assert slots[index + 1] == slots[..n][index + 1];
        slots[index] := slots[index + 1];
        assert slots[..n] == Shifted(s, k, index)[index := s[index + 1]];
        index := index + 1;
      }
      ShiftedLast(s, k);
      slots[index] := BLANK;
      Deleted(old(slots[..]), slots[..], k, n);
    }

    method DeleteNamed(name: string)
      requires Valid() && name != ""
      modifies this`capacity, slots
      ensures Valid() && Contents() == Apply(old(Contents()), Delete(name))
    {
      hide BlankFrom, IndexOf, Names;
      if capacity == 0 {
        return;
      }
      var index := FindIndex(name, 0);
      BlanksNeverMatch(slots[..], capacity, name);
      assert slots[..][..capacity] == Contents();
      if index >= 0 {
        RemoveSlot(index);
      }
    }

    /** The search menu: prints every match in order, or says that there is none. */
    method Search(name: string) returns (printed: seq<nat>, none: bool)
      requires Valid() && name != ""
      ensures printed == Matches(Names(Contents()), name, 0)
      ensures none <==> printed == []
    {
      hide IndexOf, Matches, Names, FirstNamed;
      printed, none := [], false;
      var index := -1;
      ghost var names := Names(slots[..]);
      BlanksNeverMatch(slots[..], capacity, name);
      assert slots[..][..capacity] == Contents();
      assert Matches(names, name, 0) == Matches(Names(Contents()), name, 0);
      hide Valid;
      while true
        invariant -1 <= index < CAPACITY && !none
        invariant (index == -1) == (printed == [])
        invariant Matches(names, name, 0) == printed + Matches(names, name, index + 1)
        decreases CAPACITY - index
      {
        var buff := index;
        index := FindIndex(name, index + 1);
        SearchTurn(names, name, buff + 1, printed);
        if index > buff {
          printed := printed + [index];
          continue;
        } else if buff > index {
          break;
        } else {
          none := true;
          break;
        }
      }
    }

    method Execute(c: Command)
      requires Valid() && (if c.Add? then c.abonent.name else c.name) != ""
      modifies this`capacity, slots
      ensures Valid() && Contents() == Apply(old(Contents()), c)
    {
      match c
      case Add(a) => AddEntry(a);
      case Delete(name) => DeleteNamed(name);
    }
  }

  /** One command given to both directories. */
  method Step(a: Directory, l: LinkedDirectory.Directory, c: Command)
    requires a.Valid() && l.Valid() && a.Contents() == l.Contents()
    requires (if c.Add? then c.abonent.name else c.name) != ""
    modifies a`capacity, a.slots, l, l.cells
    ensures a.Valid() && l.Valid() && a.Contents() == l.Contents() == Apply(old(a.Contents()), c)
    ensures fresh((set x | x in l.cells) - old(set x | x in l.cells))
  {
    hide Apply, Directory.Valid, LinkedDirectory.Directory.Valid, LinkedDirectory.Entries;
    a.Execute(c);
    l.Execute(c);
  }

  /**
   The array directory and the linked directory, given the same commands with non-empty names, go on
   holding the same entries in the same order.
  */
  method RunBoth(a: Directory, l: LinkedDirectory.Directory, cs: seq<Command>)
    requires a.Valid() && l.Valid() && a.Contents() == l.Contents()
    requires forall i :: 0 <= i < |cs| ==> (if cs[i].Add? then cs[i].abonent.name else cs[i].name) != ""
    modifies a`capacity, a.slots, l, l.cells
    ensures a.Valid() && l.Valid() && a.Contents() == l.Contents() == ApplyAll(old(a.Contents()), cs)
    ensures fresh((set x | x in l.cells) - old(set x | x in l.cells))
    decreases |cs|
  {
    hide Apply, Directory.Valid, LinkedDirectory.Directory.Valid, LinkedDirectory.Entries;
    if cs != [] {
      Step(a, l, cs[0]);
      RunBoth(a, l, cs[1..]);
    }
  }
}
