/** Facts about sets and maps. */
module Collections {
  lemma Member<T>(s: set<T>) returns (x: T)
    requires |s| > 0
    ensures x in s
  {
    x :| x in s;
  }

  function Without<K(==), V>(m: map<K, V>, key: K): (r: map<K, V>)
    ensures r.Keys == m.Keys - {key} && forall k :: k in r ==> r[k] == m[k]
  {
    map k | k in m && k != key :: m[k]
  }

  /** The numbers below `n`. */
  function Upto(n: nat): (r: set<nat>)
    ensures forall i: nat :: i in r <==> i < n
  {
    if n == 0 then {} else Upto(n - 1) + {n - 1}
  }
}
