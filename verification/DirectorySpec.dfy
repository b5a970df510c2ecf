/**
 What the two telephone directories have in common: a list of at most 100 entries, added at the end
 and deleted by name.
*/
module DirectorySpec {
  import opened Sequences

  datatype Abonent = Abonent(name: string, secondName: string, tel: string)

  const CAPACITY: nat := 100

  function Names(s: seq<Abonent>): (names: seq<string>)
    ensures |names| == |s| && forall k {:trigger names[k]} {:trigger s[k]} :: 0 <= k < |s| ==> names[k] == s[k].name
  {
    seq(|s|, k requires 0 <= k < |s| => s[k].name)
  }

  /** The index of the first entry with that name, or -1. */
  function FirstNamed(s: seq<Abonent>, name: string): (r: int)
    ensures -1 <= r < |s|
    ensures r >= 0 ==> s[r].name == name
    ensures forall k :: 0 <= k < (if r < 0 then |s| else r) ==> s[k].name != name
  {
    IndexOfMeans(Names(s), name, 0);
    IndexOf(Names(s), name, 0)
  }

  datatype Command = Add(abonent: Abonent) | Delete(name: string)

  /** A full directory refuses an entry; deleting an unknown name changes nothing. */
  function Apply(s: seq<Abonent>, c: Command): seq<Abonent> {
    match c
    case Add(a) => if |s| == CAPACITY then s else s + [a]
    case Delete(name) =>
      var k := FirstNamed(s, name);
      if k < 0 then s else Without(s, k)
  }

  function ApplyAll(s: seq<Abonent>, cs: seq<Command>): seq<Abonent>
    decreases |cs|
  {
    if cs == [] then s else ApplyAll(Apply(s, cs[0]), cs[1..])
  }
}
