/**
 * The metadata dictionary of a Map: a PHP array with string keys. PHP arrays remember
 * the order in which keys were first inserted; overwriting a key keeps its place and
 * unsetting it removes it from the order. The writer lists the entries in that order.
 */
module Metadata {
  import opened Wrappers

  /** The keys in insertion order, and the value of each key. */
  datatype Dict = Dict(keys: seq<string>, values: map<string, string>)

  ghost predicate Distinct(s: seq<string>)
  {
    forall i, j :: 0 <= i < j < |s| ==> s[i] != s[j]
  }

  /** Every key is listed exactly once, and the listed keys are the keys that have a value. */
  ghost predicate Valid(d: Dict)
  {
    Distinct(d.keys) && forall k :: k in d.values <==> k in d.keys
  }

  const Empty: Dict := Dict([], map[])

  /** `isset($metadata[$key]) ? $metadata[$key] : FALSE` */
  function Get(d: Dict, key: string): (r: Option<string>)
    ensures r.Some? <==> key in d.values
    ensures r.Some? ==> r.value == d.values[key]
  {
    if key in d.values then Some(d.values[key]) else None
  }

  /** `$metadata[$key] = $value`: overwrites in place, or appends a new key at the end. */
  function Set(d: Dict, key: string, value: string): (r: Dict)
    ensures Valid(d) ==> Valid(r)
    ensures Get(r, key) == Some(value)
    ensures forall k :: k != key ==> Get(r, k) == Get(d, k)
    ensures key in d.values ==> r.keys == d.keys
    ensures key !in d.values ==> r.keys == d.keys + [key]
  {
    if key in d.values then Dict(d.keys, d.values[key := value])
    else Dict(d.keys + [key], d.values[key := value])
  }

  /** The sequence with every occurrence of `key` left out, the rest in the same order. */
  function Without(s: seq<string>, key: string): (r: seq<string>)
    ensures forall x :: x in r <==> x in s && x != key
    ensures key !in s ==> r == s
  {
    if s == [] then []
    else if s[|s| - 1] == key then Without(s[..|s| - 1], key)
    else
      var p := Without(s[..|s| - 1], key);
      assert forall x :: x in s <==> x in s[..|s| - 1] || x == s[|s| - 1];
      assert key !in s ==> s == s[..|s| - 1] + [s[|s| - 1]];
      p + [s[|s| - 1]]
  }

  /** Leaving a key out of a list without repetitions leaves a list without repetitions. */
  lemma {:induction false} WithoutDistinct(s: seq<string>, key: string)
    requires Distinct(s)
    ensures Distinct(Without(s, key))
  {
    if s != [] {
      var n := |s| - 1;
      assert Distinct(s[..n]);
      WithoutDistinct(s[..n], key);
      if s[n] != key {
        forall j | 0 <= j < n ensures s[..n][j] != s[n] {
          assert s[..n][j] == s[j];
        }
        DistinctAppend(Without(s[..n], key), s[n]);
      }
    }
  }

  lemma DistinctAppend(s: seq<string>, x: string)
    requires Distinct(s) && x !in s
    ensures Distinct(s + [x])
  {
    forall i, j | 0 <= i < j < |s| + 1 ensures (s + [x])[i] != (s + [x])[j] {
      if j == |s| {
        assert (s + [x])[i] == s[i];
      }
    }
  }

  /** `if (isset($metadata[$key])) unset($metadata[$key])` */
  function Remove(d: Dict, key: string): (r: Dict)
    requires Valid(d)
    ensures Valid(r)
    ensures Get(r, key) == None
    ensures forall k :: k != key ==> Get(r, k) == Get(d, k)
    ensures key !in d.values ==> r == d
    ensures r.keys == Without(d.keys, key)
  {
    if key in d.values then
      WithoutDistinct(d.keys, key);
      Dict(Without(d.keys, key), d.values - {key})
    else d
  }

  /** Removing a listed key takes exactly that key out of the order and keeps the others' order. */
  lemma {:induction false} WithoutAt(s: seq<string>, i: nat)
    requires Distinct(s) && i < |s|
    ensures Without(s, s[i]) == s[..i] + s[i + 1..]
  {
    var n := |s| - 1;
    if i == n {
      assert s[i] !in s[..n];
      assert s[..i] + s[i + 1..] == s[..n];
    } else {
      WithoutAt(s[..n], i);
      assert s[..n][i] == s[i];
      assert s[..n][..i] + s[..n][i + 1..] + [s[n]] == s[..i] + s[i + 1..];
    }
  }

  /** Setting a key that was not there and removing it again gives back the same dictionary. */
  lemma RemoveUndoesNewSet(d: Dict, key: string, value: string)
    requires Valid(d) && key !in d.values
    ensures Remove(Set(d, key, value), key) == d
  {
    var s := Set(d, key, value);
    WithoutAt(s.keys, |d.keys|);
    assert s.keys[..|d.keys|] == d.keys;
    assert s.values - {key} == d.values;
  }

  /** Setting a key twice keeps only the second value, and the key keeps its first position. */
  lemma SetTwice(d: Dict, key: string, v1: string, v2: string)
    requires Valid(d)
    ensures Set(Set(d, key, v1), key, v2) == Set(d, key, v2)
  {
  }
}
