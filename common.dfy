/** Small value types and collection helpers shared by every component. */
module Common {

  /** A value that may be missing (Go's `(v, ok)` pairs and nil pointers). */
  datatype Option<+T> = None | Some(value: T)

  /** A value or the error a Go function returned beside it. */
  datatype Result<+T, +E> = Ok(value: T) | Err(error: E)

  /** Go's `v, ok := m[k]` on a map. */
  function Lookup<K, V>(m: map<K, V>, k: K): Option<V>
  {
    if k in m then Some(m[k]) else None
  }

  /** The sequence of `key(x)` for the elements `x` of `s`, in order. */
  function Project<T, K>(s: seq<T>, key: T -> K): (r: seq<K>)
    ensures |r| == |s|
    ensures forall i :: 0 <= i < |s| ==> r[i] == key(s[i])
  {
    if s == [] then [] else Project(s[..|s| - 1], key) + [key(s[|s| - 1])]
  }

  /** Projecting one more element appends its key. */
  lemma ProjectAppend<T, K>(s: seq<T>, x: T, key: T -> K)
    ensures Project(s + [x], key) == Project(s, key) + [key(x)]
  {
    assert (s + [x])[..|s|] == s;
  }

  /** Adding a new element to a set adds one occurrence to its multiset. */
  lemma MultisetAddFresh<T>(a: set<T>, x: T)
    requires x !in a
    ensures multiset(a + {x}) == multiset(a) + multiset{x}
  {
    assert forall y :: multiset(a + {x})[y] == (multiset(a) + multiset{x})[y];
  }

  /** The copy loop of `List` in both key/value tools: a fresh map with
      the same entries, built one key at a time. */
  method CopyMap<K, V>(m: map<K, V>) returns (r: map<K, V>)
    ensures r == m
  {
    r := map[];
    var rest := m.Keys;
    while rest != {}
      invariant rest <= m.Keys
      invariant r.Keys == m.Keys - rest
      invariant forall k :: k in r ==> r[k] == m[k]
      decreases |rest|
    {
      var k :| k in rest;
      r := r[k := m[k]];
      rest := rest - {k};
    }
  }
}
