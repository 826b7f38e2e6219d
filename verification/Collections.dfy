/**
 Facts about sets and sequences that several components use.
 */
module Collections {

  ghost predicate Distinct<T>(s: seq<T>) {
    forall i, j :: 0 <= i < j < |s| ==> s[i] != s[j]
  }

  lemma SubsetSize<T>(a: set<T>, b: set<T>)
    requires a <= b
    ensures |b| == |a| + |b - a|
  {
    assert b == a + (b - a);
  }

  lemma IsUpdate<K, V>(m: map<K, V>, n: map<K, V>, key: K, v: V)
    requires key in n && n[key] == v
    requires forall k :: k != key ==> (k in n <==> k in m) && (k in m ==> n[k] == m[k])
    ensures n == m[key := v]
  {
  }

  lemma SameMap<K, V>(m: map<K, V>, n: map<K, V>)
    requires forall k :: (k in n <==> k in m) && (k in m ==> n[k] == m[k])
    ensures n == m
  {
  }
}
