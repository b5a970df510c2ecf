/**
 Searching for the first entry with a key, and taking one entry out of an array by moving the entries
 behind it up by one.
*/
module Sequences {

  /** The first index from `from` on that holds `key`, or -1. */
  function IndexOf<K(==)>(keys: seq<K>, key: K, from: nat): (r: int)
    requires from <= |keys|
    ensures r == -1 || from <= r < |keys|
    decreases |keys| - from
  {
    if from == |keys| then -1
    else if keys[from] == key then from
    else IndexOf(keys, key, from + 1)
  }

  lemma {:induction false} IndexOfMeans<K>(keys: seq<K>, key: K, from: nat)
    requires from <= |keys|
    ensures var r := IndexOf(keys, key, from);
            && (r >= 0 ==> keys[r] == key)
            && forall k :: from <= k < (if r < 0 then |keys| else r) ==> keys[k] != key
    decreases |keys| - from
  {
    if from < |keys| && keys[from] != key {
      IndexOfMeans(keys, key, from + 1);
    }
  }

  /** One turn of a search loop. */
  lemma IndexOfNext<K>(keys: seq<K>, key: K, from: nat)
    requires from < |keys|
    ensures IndexOf(keys, key, from) == if keys[from] == key then from else IndexOf(keys, key, from + 1)
  {
  }

  function Without<T>(s: seq<T>, k: nat): (r: seq<T>)
    requires k < |s|
    ensures |r| == |s| - 1
    ensures forall i :: 0 <= i < |r| ==> r[i] == if i < k then s[i] else s[i + 1]
  {
    s[..k] + s[k + 1..]
  }

  /** The array while the entries behind `k` move up: the hole has reached index `i`, whose entry is stale. */
  function Shifted<T>(s: seq<T>, k: nat, i: nat): (r: seq<T>)
    requires k <= i < |s|
    ensures |r| == |s|
  {
    s[..k] + s[k + 1..i + 1] + s[i..]
  }

  lemma ShiftedFirst<T>(s: seq<T>, k: nat)
    requires k < |s|
    ensures Shifted(s, k, k) == s
  {
  }

  lemma ShiftedNext<T>(s: seq<T>, k: nat, i: nat)
    requires k <= i && i + 1 < |s|
    ensures Shifted(s, k, i)[i + 1] == s[i + 1]
    ensures Shifted(s, k, i)[i := s[i + 1]] == Shifted(s, k, i + 1)
  {
  }

  lemma ShiftedLast<T>(s: seq<T>, k: nat)
    requires k < |s|
    ensures Shifted(s, k, |s| - 1)[..|s| - 1] == Without(s, k)
  {
  }
}
