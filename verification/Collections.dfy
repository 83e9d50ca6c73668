/** Sizes and keys of maps under small changes, and removal of a list of keys. */
module Collections {

  lemma FewerKeys<K, V>(m: map<K, V>, gone: set<K>)
    ensures |m - gone| <= |m|
  {
  }

  lemma SizeOfAdd<K, V>(m: map<K, V>, k: K, v: V)
    requires k !in m
    ensures |m[k := v]| == |m| + 1
  {
  }

  lemma SizeOfPut<K, V>(m: map<K, V>, k: K, v: V)
    requires k in m
    ensures |m[k := v]| == |m| && m[k := v].Keys == m.Keys
  {
  }

  lemma KeysOfAdd<K, V>(m: map<K, V>, k: K, v: V)
    ensures m[k := v].Keys == m.Keys + {k}
  {
  }

  ghost function Elements(s: seq<nat>): set<nat> { set t | t in s }

  lemma ElementsOfMore(s: seq<nat>, i: nat)
    requires i < |s|
    ensures Elements(s[..i + 1]) == Elements(s[..i]) + {s[i]}
  {
  }

  /** Removing the keys of a list goes on one by one. */
  lemma DropMore<V>(m: map<nat, V>, s: seq<nat>, i: nat)
    requires i < |s|
    ensures (m - Elements(s[..i])) - {s[i]} == m - Elements(s[..i + 1])
  {
  }
}
