/** JavaScript's `Map`: it iterates in insertion order, a key keeping its place when set again. */
module JsMap {
  import opened Wrappers

  datatype Entry<K, V> = Entry(key: K, value: V)

  type JsMap<K, V> = seq<Entry<K, V>>

  function Get<K(==), V>(m: JsMap<K, V>, k: K): Option<V> {
    if m == [] then None else if m[0].key == k then Some(m[0].value) else Get(m[1..], k)
  }

  function Set<K(==), V>(m: JsMap<K, V>, k: K, v: V): JsMap<K, V> {
    if m == [] then [Entry(k, v)]
    else if m[0].key == k then [Entry(k, v)] + m[1..]
    else [m[0]] + Set(m[1..], k, v)
  }

  function Delete<K(==), V>(m: JsMap<K, V>, k: K): JsMap<K, V> {
    if m == [] then [] else if m[0].key == k then m[1..] else [m[0]] + Delete(m[1..], k)
  }

  predicate HasKey<K(==), V>(m: JsMap<K, V>, k: K) {
    exists i :: 0 <= i < |m| && m[i].key == k
  }

  /** No key twice. */
  predicate Proper<K(==), V>(m: JsMap<K, V>) {
    forall i, j :: 0 <= i < j < |m| ==> m[i].key != m[j].key
  }

  lemma {:induction false} GetIffKey<K, V>(m: JsMap<K, V>, k: K)
    ensures Get(m, k).Some? <==> HasKey(m, k)
  {
    if m != [] {
      GetIffKey(m[1..], k);
      if HasKey(m, k) && m[0].key != k {
        var i :| 0 <= i < |m| && m[i].key == k;
        assert m[1..][i - 1].key == k;
      }
      if HasKey(m[1..], k) {
        var i :| 0 <= i < |m[1..]| && m[1..][i].key == k;
        assert m[i + 1].key == k;
      }
    }
  }

  lemma {:induction false} GetAt<K, V>(m: JsMap<K, V>, i: nat)
    requires Proper(m) && i < |m|
    ensures Get(m, m[i].key) == Some(m[i].value)
  {
    if i > 0 {
      ProperTail(m);
      assert m[1..][i - 1] == m[i];
      GetAt(m[1..], i - 1);
    }
  }

  lemma ProperTail<K, V>(m: JsMap<K, V>)
    requires Proper(m) && m != []
    ensures Proper(m[1..]) && !HasKey(m[1..], m[0].key)
  {
    forall i, j | 0 <= i < j < |m[1..]| ensures m[1..][i].key != m[1..][j].key {
      assert m[1..][i] == m[i + 1] && m[1..][j] == m[j + 1];
    }
    forall i | 0 <= i < |m[1..]| ensures m[1..][i].key != m[0].key {
      assert m[1..][i] == m[i + 1];
    }
  }

  lemma {:induction false} GetSet<K, V>(m: JsMap<K, V>, k: K, v: V, j: K)
    ensures Get(Set(m, k, v), j) == if j == k then Some(v) else Get(m, j)
  {
    if m != [] && m[0].key != k {
      GetSet(m[1..], k, v, j);
    }
  }

  lemma {:induction false} GetDelete<K, V>(m: JsMap<K, V>, k: K, j: K)
    requires Proper(m)
    ensures Get(Delete(m, k), j) == if j == k then None else Get(m, j)
  {
    if m != [] {
      ProperTail(m);
      GetIffKey(m[1..], m[0].key);
      if m[0].key != k { GetDelete(m[1..], k, j); }
    }
  }

  lemma ProperCons<K, V>(e: Entry<K, V>, m: JsMap<K, V>)
    requires Proper(m) && !HasKey(m, e.key)
    ensures Proper([e] + m)
  {
    forall i, j | 0 <= i < j < |m| + 1 ensures ([e] + m)[i].key != ([e] + m)[j].key {
      assert ([e] + m)[j] == m[j - 1];
      if i > 0 { assert ([e] + m)[i] == m[i - 1]; }
    }
  }

  lemma {:induction false} SetIsProper<K, V>(m: JsMap<K, V>, k: K, v: V)
    requires Proper(m)
    ensures Proper(Set(m, k, v))
  {
    if m != [] {
      ProperTail(m);
      if m[0].key == k {
        ProperCons(Entry(k, v), m[1..]);
      } else {
        SetIsProper(m[1..], k, v);
        GetIffKey(Set(m[1..], k, v), m[0].key);
        GetSet(m[1..], k, v, m[0].key);
        GetIffKey(m[1..], m[0].key);
        ProperCons(m[0], Set(m[1..], k, v));
      }
    }
  }

  lemma {:induction false} DeleteIsProper<K, V>(m: JsMap<K, V>, k: K)
    requires Proper(m)
    ensures Proper(Delete(m, k))
  {
    if m != [] {
      ProperTail(m);
      if m[0].key != k {
        DeleteIsProper(m[1..], k);
        GetIffKey(Delete(m[1..], k), m[0].key);
        GetDelete(m[1..], k, m[0].key);
        GetIffKey(m[1..], m[0].key);
        ProperCons(m[0], Delete(m[1..], k));
      }
    }
  }
}
