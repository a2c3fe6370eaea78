/**
  PHP's ordered arrays as association lists. A PHP array keeps its keys in
  insertion order; assigning to an existing key keeps the key's position,
  assigning to a new key appends it. `Put` is `$a[$k] = $v`, `Union` is `$a + $b`.
*/
module OrderedMap {
  import opened Wrappers

  /** The keys of an association list, in order (`array_keys`). */
  function Keys<K, V>(m: seq<(K, V)>): (ks: seq<K>)
    ensures |ks| == |m|
    ensures forall i :: 0 <= i < |m| ==> ks[i] == m[i].0
  {
    seq(|m|, i requires 0 <= i < |m| => m[i].0)
  }

  /** The values of an association list, in order (`array_values`). */
  function Values<K, V>(m: seq<(K, V)>): (vs: seq<V>)
    ensures |vs| == |m|
    ensures forall i :: 0 <= i < |m| ==> vs[i] == m[i].1
  {
    seq(|m|, i requires 0 <= i < |m| => m[i].1)
  }

  /** No key occurs twice: every PHP array has this shape. */
  ghost predicate UniqueKeys<K, V>(m: seq<(K, V)>) {
    forall i, j :: 0 <= i < j < |m| ==> m[i].0 != m[j].0
  }

  /** The position of the first entry with key `k`. */
  function IndexOf<K(==), V>(m: seq<(K, V)>, k: K): (i: nat)
    requires k in Keys(m)
    ensures i < |m| && m[i].0 == k
    ensures forall j :: 0 <= j < i ==> m[j].0 != k
  {
    if m[0].0 == k then 0
    else
      assert Keys(m) == [m[0].0] + Keys(m[1..]);
      1 + IndexOf(m[1..], k)
  }

  /** `$m[$k] ?? null`: the value stored under `k`, if any. */
  function Get<K(==), V>(m: seq<(K, V)>, k: K): (r: Option<V>)
    ensures r.Some? <==> k in Keys(m)
  {
    if k in Keys(m) then Some(m[IndexOf(m, k)].1) else None
  }

  /** `$m[$k] = $v`: overwrite in place, or append a new key at the end. */
  function Put<K(==), V>(m: seq<(K, V)>, k: K, v: V): (r: seq<(K, V)>)
    ensures Keys(r) == if k in Keys(m) then Keys(m) else Keys(m) + [k]
  {
    if k in Keys(m) then m[IndexOf(m, k) := (k, v)] else m + [(k, v)]
  }

  /** `$a + $b`: keys of `a` keep their values; keys only in `b` are appended in `b`'s order. */
  function Union<K(==), V>(a: seq<(K, V)>, b: seq<(K, V)>): (r: seq<(K, V)>)
    ensures |a| <= |r| && r[..|a|] == a
    decreases |b|
  {
    if b == [] then a
    else if b[0].0 in Keys(a) then Union(a, b[1..])
    else Union(Put(a, b[0].0, b[0].1), b[1..])
  }

  /** Two lists with the same keys find every key at the same position. */
  lemma IndexOfSameKeys<K, V>(m: seq<(K, V)>, m': seq<(K, V)>, k: K)
    requires Keys(m) == Keys(m') && k in Keys(m)
    ensures IndexOf(m, k) == IndexOf(m', k)
  {
    var i, i' := IndexOf(m, k), IndexOf(m', k);
    assert Keys(m)[i] == k && Keys(m')[i'] == k;
  }

  /** Reading after writing: the written key has the new value, every other key is untouched. */
  lemma GetPut<K, V>(m: seq<(K, V)>, k: K, v: V, k': K)
    ensures Get(Put(m, k, v), k') == if k' == k then Some(v) else Get(m, k')
  {
    var r := Put(m, k, v);
    if k in Keys(m) {
      var i := IndexOf(m, k);
      if k' in Keys(m) {
        IndexOfSameKeys(m, r, k');
      }
    } else {
      assert Keys(r) == Keys(m) + [k];
      if k' == k {
        assert r[|m|].0 == k;
        var j := IndexOf(r, k);
        assert Keys(m)[..] == Keys(r)[..|m|];
      } else if k' in Keys(m) {
        var j := IndexOf(m, k');
        assert r[j] == m[j];
        var j' := IndexOf(r, k');
        assert j' < |m| ==> r[j'] == m[j'];
      }
    }
  }

  /** Writing keeps the keys distinct. */
  lemma PutUnique<K, V>(m: seq<(K, V)>, k: K, v: V)
    requires UniqueKeys(m)
    ensures UniqueKeys(Put(m, k, v))
  {
    var r := Put(m, k, v);
    forall i, j | 0 <= i < j < |r| ensures r[i].0 != r[j].0 {
      if k !in Keys(m) && j == |m| {
        assert Keys(r)[i] == Keys(m)[i];
      } else {
        assert Keys(r)[i] == Keys(m)[i] && Keys(r)[j] == Keys(m)[j];
      }
    }
  }

  /** `$a + $b` reads from `a` where `a` has the key and from `b` otherwise. */
  lemma {:induction false} GetUnion<K, V>(a: seq<(K, V)>, b: seq<(K, V)>, k: K)
    ensures Get(Union(a, b), k) == if k in Keys(a) then Get(a, k) else Get(b, k)
    decreases |b|
  {
    if b == [] {
    } else if b[0].0 in Keys(a) {
      GetUnion(a, b[1..], k);
      if k !in Keys(a) {
        assert k != b[0].0;
        GetTail(b, k);
      }
    } else {
      var a' := Put(a, b[0].0, b[0].1);
      GetUnion(a', b[1..], k);
      GetPut(a, b[0].0, b[0].1, k);
      if k != b[0].0 {
        GetTail(b, k);
      } else {
        assert IndexOf(b, k) == 0;
      }
    }
  }

  /** A key other than the head's is looked up in the tail. */
  lemma GetTail<K, V>(m: seq<(K, V)>, k: K)
    requires m != [] && m[0].0 != k
    ensures Get(m, k) == Get(m[1..], k)
  {
    assert Keys(m) == [m[0].0] + Keys(m[1..]);
    if k in Keys(m) {
      var i := IndexOf(m, k);
      var i' := IndexOf(m[1..], k);
      assert m[1..][i - 1].0 == k;
      assert i' + 1 <= i;
      assert m[i' + 1].0 == k;
    }
  }

  /** A list read at the first entry with a given key yields that entry's value. */
  lemma GetAt<K, V>(m: seq<(K, V)>, i: nat)
    requires i < |m| && forall j :: 0 <= j < i ==> m[j].0 != m[i].0
    ensures Get(m, m[i].0) == Some(m[i].1)
  {
    assert Keys(m)[i] == m[i].0;
  }

  /** A list read at its first entry's key yields that entry's value. */
  lemma GetHead<K, V>(m: seq<(K, V)>)
    requires m != []
    ensures Get(m, m[0].0) == Some(m[0].1)
  {
    assert Keys(m)[0] == m[0].0;
  }

  /** A new key in front keeps the keys distinct. */
  lemma ConsUnique<K, V>(x: (K, V), m: seq<(K, V)>)
    requires UniqueKeys(m) && x.0 !in Keys(m)
    ensures UniqueKeys([x] + m)
  {
    var r := [x] + m;
    forall i, j | 0 <= i < j < |r| ensures r[i].0 != r[j].0 {
      assert r[j] == m[j - 1] && Keys(m)[j - 1] == r[j].0;
      if i != 0 {
        assert r[i] == m[i - 1];
      }
    }
  }

  /** Appending a new key: it is found with its value, and every other key as before. */
  lemma GetSnoc<K, V>(m: seq<(K, V)>, x: (K, V), k: K)
    requires x.0 !in Keys(m)
    ensures Get(m + [x], k) == if k == x.0 then Some(x.1) else Get(m, k)
  {
    assert Put(m, x.0, x.1) == m + [x];
    GetPut(m, x.0, x.1, k);
  }

  /** The keys of `a + b` are those of either. */
  lemma UnionKeys<K, V>(a: seq<(K, V)>, b: seq<(K, V)>, k: K)
    ensures k in Keys(Union(a, b)) <==> k in Keys(a) || k in Keys(b)
  {
    GetUnion(a, b, k);
  }

  /** `$a + $b` of a list with unique keys has unique keys. */
  lemma {:induction false} UnionUnique<K, V>(a: seq<(K, V)>, b: seq<(K, V)>)
    requires UniqueKeys(a)
    ensures UniqueKeys(Union(a, b))
    decreases |b|
  {
    if b != [] {
      if b[0].0 in Keys(a) {
        UnionUnique(a, b[1..]);
      } else {
        PutUnique(a, b[0].0, b[0].1);
        UnionUnique(Put(a, b[0].0, b[0].1), b[1..]);
      }
    }
  }

  /** The keys of a prefix are the prefix of the keys. */
  lemma KeysPrefix<K, V>(m: seq<(K, V)>, n: nat)
    requires n <= |m|
    ensures Keys(m)[..n] == Keys(m[..n])
  {
  }

  /** A prefix of a list with unique keys has unique keys. */
  lemma UniquePrefix<K, V>(m: seq<(K, V)>, n: nat)
    requires UniqueKeys(m) && n <= |m|
    ensures UniqueKeys(m[..n])
  {
    var p := m[..n];
    forall a, b | 0 <= a < b < n ensures p[a].0 != p[b].0 {
      assert p[a] == m[a] && p[b] == m[b];
    }
  }

  /** In a list with unique keys, the last key is not among the others. */
  lemma UniqueLast<K, V>(m: seq<(K, V)>)
    requires m != [] && UniqueKeys(m)
    ensures m[|m| - 1].0 !in Keys(m[..|m| - 1])
  {
    var n := |m| - 1;
    forall j | 0 <= j < n ensures Keys(m[..n])[j] != m[n].0 {
      assert m[..n][j] == m[j];
    }
  }

  /** Storing a new key appends it. */
  lemma PutNew<K, V>(m: seq<(K, V)>, n: nat)
    requires n < |m| && m[n].0 !in Keys(m[..n])
    ensures Put(m[..n], m[n].0, m[n].1) == m[..n + 1]
  {
    assert m[..n + 1] == m[..n] + [m[n]];
  }
}
