/**
 * Python dictionaries with string keys: key/value pairs kept in insertion order.
 * Lookup finds the first pair with the key; assignment replaces that pair in
 * place, or appends a new pair when the key is absent, as `d[k] = v` does.
 */
module Dicts {
  import opened Wrappers

  type Dict<V> = seq<(string, V)>

  /** The keys, in iteration order. */
  function Keys<V>(d: Dict<V>): (ks: seq<string>)
    ensures |ks| == |d|
    ensures forall i :: 0 <= i < |d| ==> ks[i] == d[i].0
  {
    if d == [] then [] else [d[0].0] + Keys(d[1..])
  }

  /** No key occurs twice: what every Python dict satisfies. */
  ghost predicate UniqueKeys<V>(d: Dict<V>) {
    forall i, j :: 0 <= i < j < |d| ==> d[i].0 != d[j].0
  }

  /** `d.get(k)`: the value of the first pair whose key is k. */
  function Get<V>(d: Dict<V>, k: string): (r: Option<V>)
    ensures r.Some? ==> (k, r.value) in d
  {
    if d == [] then None
    else if d[0].0 == k then Some(d[0].1)
    else Get(d[1..], k)
  }

  /** Lookup fails exactly for the keys the dict does not hold (`k not in d`). */
  lemma {:induction false} GetNone<V>(d: Dict<V>, k: string)
    ensures Get(d, k).None? <==> k !in Keys(d)
  {
    if d != [] {
      GetNone(d[1..], k);
      assert Keys(d) == [d[0].0] + Keys(d[1..]);
    }
  }

  /** `d[k] = v`. */
  function Put<V>(d: Dict<V>, k: string, v: V): (r: Dict<V>)
    ensures Get(r, k) == Some(v)
    ensures forall k' :: k' != k ==> Get(r, k') == Get(d, k')
  {
    if d == [] then [(k, v)]
    else if d[0].0 == k then [(k, v)] + d[1..]
    else [d[0]] + Put(d[1..], k, v)
  }

  /** Every pair of `d[k] = v` is the new pair or a pair of d. */
  lemma {:induction false} PutPairs<V>(d: Dict<V>, k: string, v: V)
    ensures forall p :: p in Put(d, k, v) ==> p == (k, v) || p in d
  {
    if d != [] && d[0].0 != k {
      PutPairs(d[1..], k, v);
    }
  }

  /** A second assignment to the same key overwrites the first. */
  lemma {:induction false} PutPut<V>(d: Dict<V>, k: string, v: V, w: V)
    ensures Put(Put(d, k, v), k, w) == Put(d, k, w)
  {
    if d != [] && d[0].0 != k {
      PutPut(d[1..], k, v, w);
    }
  }

  /** Assignment keeps the key order: an existing key stays where it is, a new one goes last. */
  lemma {:induction false} PutKeys<V>(d: Dict<V>, k: string, v: V)
    ensures k in Keys(d) ==> Keys(Put(d, k, v)) == Keys(d)
    ensures k !in Keys(d) ==> Keys(Put(d, k, v)) == Keys(d) + [k]
  {
    if d != [] && d[0].0 != k {
      PutKeys(d[1..], k, v);
      assert Keys(d) == [d[0].0] + Keys(d[1..]);
    }
  }

  /** Assigning a key the dict does not hold appends the pair. */
  lemma {:induction false} PutNew<V>(d: Dict<V>, k: string, v: V)
    requires k !in Keys(d)
    ensures Put(d, k, v) == d + [(k, v)]
  {
    if d != [] {
      assert Keys(d) == [d[0].0] + Keys(d[1..]);
      PutNew(d[1..], k, v);
      assert d == [d[0]] + d[1..];
    }
  }

  lemma PutUnique<V>(d: Dict<V>, k: string, v: V)
    requires UniqueKeys(d)
    ensures UniqueKeys(Put(d, k, v))
  {
    PutKeys(d, k, v);
    var r := Put(d, k, v);
    assert Keys(r) == Keys(d) || Keys(r) == Keys(d) + [k];
  }

  /** Lookup in a concatenation searches the left part first. */
  lemma {:induction false} GetAppend<V>(a: Dict<V>, b: Dict<V>, k: string)
    ensures Get(a + b, k) == if Get(a, k).Some? then Get(a, k) else Get(b, k)
  {
    if a == [] {
      assert a + b == b;
    } else {
      assert (a + b)[1..] == a[1..] + b;
      GetAppend(a[1..], b, k);
    }
  }

  lemma KeysSnoc<V>(d: Dict<V>, p: (string, V))
    ensures Keys(d + [p]) == Keys(d) + [p.0]
  {
    var r := d + [p];
    assert Keys(r)[|d|] == p.0;
  }

  /** Dropping the last pair of a dict with unique keys leaves unique keys without the last key. */
  lemma UniqueInit<V>(d: Dict<V>)
    requires UniqueKeys(d) && d != []
    ensures UniqueKeys(d[..|d| - 1]) && d[|d| - 1].0 !in Keys(d[..|d| - 1])
  {
    var init := d[..|d| - 1];
    forall i | 0 <= i < |init| ensures Keys(init)[i] != d[|d| - 1].0 {
      assert Keys(init)[i] == d[i].0;
    }
  }

  /** Appending a pair with a new key makes it visible and leaves every other lookup alone. */
  lemma GetSnoc<V>(d: Dict<V>, p: (string, V), k: string)
    requires p.0 !in Keys(d)
    ensures Get(d + [p], k) == if k == p.0 then Some(p.1) else Get(d, k)
  {
    GetAppend(d, [p], k);
    GetNone(d, k);
    GetNone(d, p.0);
  }

  /** Index i holds the first pair whose key is k. */
  ghost predicate FirstKeyAt<V>(d: Dict<V>, k: string, i: int) {
    0 <= i < |d| && d[i].0 == k && forall j :: 0 <= j < i ==> d[j].0 != k
  }

  /** Lookup returns the value of the FIRST pair with the key, and None when no pair has it. */
  lemma {:induction false} GetFirst<V>(d: Dict<V>, k: string)
    ensures Get(d, k).None? <==> forall i :: 0 <= i < |d| ==> d[i].0 != k
    ensures Get(d, k).Some? ==> exists i :: FirstKeyAt(d, k, i) && d[i].1 == Get(d, k).value
  {
    if d != [] && d[0].0 != k && Get(d, k).Some? {
      GetFirst(d[1..], k);
      var i :| FirstKeyAt(d[1..], k, i) && d[1..][i].1 == Get(d, k).value;
      assert d[i + 1] == d[1..][i];
      forall j | 0 <= j < i + 1 ensures d[j].0 != k {
        if j > 0 { assert d[j] == d[1..][j - 1]; }
      }
      assert FirstKeyAt(d, k, i + 1);
    } else if d != [] && d[0].0 == k {
      assert FirstKeyAt(d, k, 0);
    }
    if Get(d, k).None? {
      GetNone(d, k);
      forall i | 0 <= i < |d| ensures d[i].0 != k {
        assert Keys(d)[i] == d[i].0;
      }
    }
  }

  /** In a dict with unique keys, the value stored at an index is what lookup returns. */
  lemma {:induction false} GetAt<V>(d: Dict<V>, i: nat)
    requires UniqueKeys(d) && i < |d|
    ensures Get(d, d[i].0) == Some(d[i].1)
  {
    if i > 0 {
      GetAt(d[1..], i - 1);
    }
  }

  /** The concatenation of all values, in iteration order. */
  function ConcatValues<T>(d: Dict<seq<T>>): (r: seq<T>)
  {
    if d == [] then [] else d[0].1 + ConcatValues(d[1..])
  }

  lemma {:induction false} ConcatValuesAppend<T>(a: Dict<seq<T>>, b: Dict<seq<T>>)
    ensures ConcatValues(a + b) == ConcatValues(a) + ConcatValues(b)
  {
    if a == [] {
      assert a + b == b;
    } else {
      assert (a + b)[1..] == a[1..] + b;
      ConcatValuesAppend(a[1..], b);
    }
  }

  lemma ConcatValuesSnoc<T>(d: Dict<seq<T>>, i: nat)
    requires i < |d|
    ensures ConcatValues(d[..i + 1]) == ConcatValues(d[..i]) + d[i].1
  {
    assert d[..i + 1] == d[..i] + [d[i]];
    ConcatValuesAppend(d[..i], [d[i]]);
  }

  /** The sum of all values. */
  function SumValues(d: Dict<nat>): nat
  {
    if d == [] then 0 else d[0].1 + SumValues(d[1..])
  }

  lemma {:induction false} SumValuesPut(d: Dict<nat>, k: string, v: nat)
    ensures SumValues(Put(d, k, v)) + Get(d, k).GetOr(0) == SumValues(d) + v
  {
    if d != [] && d[0].0 != k {
      SumValuesPut(d[1..], k, v);
    }
  }
}
