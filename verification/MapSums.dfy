/** Sums of a weight over the values of a finite map. */
module MapSums {

  ghost function Pick<K, V>(m: map<K, V>): (k: K)
    requires m != map[]
    ensures k in m
  {
    var k :| k in m; k
  }

  ghost function Total<K, V>(m: map<K, V>, weight: V -> nat): nat
    decreases |m|
  {
    if m == map[] then 0 else
    var k := Pick(m);
    weight(m[k]) + Total(m - {k}, weight)
  }

  /** Taking any one key out takes out exactly its weight. */
  lemma {:induction false} TotalWithout<K, V>(m: map<K, V>, weight: V -> nat, k: K)
    requires k in m
    ensures Total(m, weight) == weight(m[k]) + Total(m - {k}, weight)
    decreases |m|
  {
    var j := Pick(m);
    if j != k {
      TotalWithout(m - {j}, weight, k);
      TotalWithout(m - {k}, weight, j);
      assert m - {j} - {k} == m - {k} - {j};
    }
  }

  lemma TotalWith<K, V>(m: map<K, V>, weight: V -> nat, k: K, v: V)
    requires k !in m
    ensures Total(m[k := v], weight) == weight(v) + Total(m, weight)
  {
    TotalWithout(m[k := v], weight, k);
    assert m[k := v] - {k} == m;
  }

  /** Maps with the same keys and the same weight at each key have the same total. */
  lemma {:induction false} TotalAgree<K, V>(m: map<K, V>, weight: V -> nat, n: map<K, V>, other: V -> nat)
    requires m.Keys == n.Keys && forall k :: k in m ==> weight(m[k]) == other(n[k])
    ensures Total(m, weight) == Total(n, other)
    decreases |m|
  {
    if m == map[] {
      assert n == map[];
    } else {
      var k := Pick(m);
      TotalWithout(n, other, k);
      TotalAgree(m - {k}, weight, n - {k}, other);
    }
  }

  lemma {:induction false} TotalAdds<K, V>(m: map<K, V>, weight: V -> nat, a: V -> nat, b: V -> nat)
    requires forall k :: k in m ==> weight(m[k]) == a(m[k]) + b(m[k])
    ensures Total(m, weight) == Total(m, a) + Total(m, b)
    decreases |m|
  {
    if m != map[] { TotalAdds(m - {Pick(m)}, weight, a, b); }
  }

  lemma {:induction false} TotalZero<K, V>(m: map<K, V>, weight: V -> nat)
    requires forall k :: k in m ==> weight(m[k]) == 0
    ensures Total(m, weight) == 0
    decreases |m|
  {
    if m != map[] { TotalZero(m - {Pick(m)}, weight); }
  }

  /** The weights of the listed keys; a key that is not there weighs nothing. */
  function Weigh<K(==), V>(m: map<K, V>, weight: V -> nat, keys: seq<K>): nat {
    if keys == [] then 0
    else (if keys[0] in m then weight(m[keys[0]]) else 0) + Weigh(m, weight, keys[1..])
  }

  lemma WeighOne<K, V>(m: map<K, V>, weight: V -> nat, k: K)
    ensures Weigh(m, weight, [k]) == if k in m then weight(m[k]) else 0
  {
    assert [k][1..] == [];
  }

  lemma {:induction false} WeighAgree<K, V>(m: map<K, V>, weight: V -> nat, n: map<K, V>, keys: seq<K>)
    requires forall k :: k in keys ==> (k in m <==> k in n) && (k in m ==> weight(m[k]) == weight(n[k]))
    ensures Weigh(m, weight, keys) == Weigh(n, weight, keys)
  {
    if keys != [] { WeighAgree(m, weight, n, keys[1..]); }
  }

  function Others<K(==), V>(m: map<K, V>, keys: seq<K>): map<K, V> { map k | k in m && k !in keys :: m[k] }

  predicate Distinct<K(==)>(keys: seq<K>) {
    forall i, j :: 0 <= i < j < |keys| ==> keys[i] != keys[j]
  }

  /** Distinct keys leave with exactly their weights and their number. */
  lemma {:induction false} TotalSplit<K, V>(m: map<K, V>, weight: V -> nat, keys: seq<K>)
    requires Distinct(keys) && forall k :: k in keys ==> k in m
    ensures Total(m, weight) == Total(Others(m, keys), weight) + Weigh(m, weight, keys)
    ensures |m| == |Others(m, keys)| + |keys|
  {
    if keys == [] {
      assert Others(m, keys) == m;
    } else {
      var k, less, rest := keys[0], m - {keys[0]}, keys[1..];
      assert forall i :: 0 <= i < |rest| ==> rest[i] == keys[i + 1];
      TotalWithout(m, weight, k);
      TotalSplit(less, weight, rest);
      WeighAgree(m, weight, less, rest);
      assert Others(less, rest) == Others(m, keys);
    }
  }
}
