/**
 * Python dictionaries with string keys, as insertion-ordered association
 * lists. `Put` is `d[k] = v` (an existing key keeps its place, a new key
 * goes last) and `Update` is `d.update(e)`.
 */
module Dicts {
  import opened Options

  type Dict<V> = seq<(string, V)>

  function Keys<V>(d: Dict<V>): (ks: seq<string>)
    ensures |ks| == |d|
    ensures forall i :: 0 <= i < |d| ==> ks[i] == d[i].0
  {
    if |d| == 0 then [] else [d[0].0] + Keys(d[1..])
  }

  /** Python's `k in d`. */
  predicate HasKey<V>(d: Dict<V>, k: string) {
    k in Keys(d)
  }

  /** Keys are pairwise distinct, as in every Python dict. */
  predicate Distinct<V>(d: Dict<V>) {
    var ks := Keys(d);
    forall i, j :: 0 <= i < j < |ks| ==> ks[i] != ks[j]
  }

  /** Python's `d.get(k)`: the value stored under `k`, if any. */
  function Get<V>(d: Dict<V>, k: string): (r: Option<V>)
    ensures r.Some? <==> HasKey(d, k)
  {
    if |d| == 0 then None
    else if d[0].0 == k then Some(d[0].1)
    else
      assert Keys(d) == [d[0].0] + Keys(d[1..]);
      Get(d[1..], k)
  }

  /** Python's `d[k] = v`. */
  function Put<V>(d: Dict<V>, k: string, v: V): (r: Dict<V>)
    ensures Get(r, k) == Some(v)
    ensures forall k' :: k' != k ==> Get(r, k') == Get(d, k')
  {
    if |d| == 0 then [(k, v)]
    else if d[0].0 == k then [(k, v)] + d[1..]
    else [d[0]] + Put(d[1..], k, v)
  }

  /** `d[k] = v` keeps the place of an existing key and appends a new one. */
  lemma {:induction false} PutKeys<V>(d: Dict<V>, k: string, v: V)
    ensures Keys(Put(d, k, v)) == if HasKey(d, k) then Keys(d) else Keys(d) + [k]
  {
    if |d| > 0 && d[0].0 != k {
      PutKeys(d[1..], k, v);
      assert Keys(d) == [d[0].0] + Keys(d[1..]);
      assert Keys(Put(d, k, v)) == [d[0].0] + Keys(Put(d[1..], k, v));
    } else if |d| > 0 {
      assert Keys(d) == [d[0].0] + Keys(d[1..]);
      assert Keys(Put(d, k, v)) == [k] + Keys(d[1..]);
    }
  }

  /** `d[k] = v` for a new key appends the entry. */
  lemma {:induction false} PutFresh<V>(d: Dict<V>, k: string, v: V)
    requires !HasKey(d, k)
    ensures Put(d, k, v) == d + [(k, v)]
    decreases |d|
  {
    if |d| > 0 {
      KeysCons(d);
      PutFresh(d[1..], k, v);
      ConsSnoc(d, (k, v));
    }
  }

  lemma KeysCons<V>(d: Dict<V>)
    requires |d| > 0
    ensures Keys(d) == [d[0].0] + Keys(d[1..])
  {
  }

  lemma ConsSnoc<T>(s: seq<T>, x: T)
    requires |s| > 0
    ensures [s[0]] + (s[1..] + [x]) == s + [x]
  {
    assert s == [s[0]] + s[1..];
  }

  /** `d[k] = v` keeps the keys distinct. */
  lemma PutDistinct<V>(d: Dict<V>, k: string, v: V)
    requires Distinct(d)
    ensures Distinct(Put(d, k, v))
  {
    PutKeys(d, k, v);
  }

  /** Python's `d.update(e)`: the entries of `e` are put in order. */
  function Update<V>(d: Dict<V>, e: Dict<V>): Dict<V>
    decreases |e|
  {
    if |e| == 0 then d else Update(Put(d, e[0].0, e[0].1), e[1..])
  }

  /** After `d.update(e)`, a key of `e` reads as in `e`; any other key reads as in `d`. */
  lemma {:induction false} UpdateGet<V>(d: Dict<V>, e: Dict<V>, k: string)
    requires Distinct(e)
    ensures Get(Update(d, e), k) == if HasKey(e, k) then Get(e, k) else Get(d, k)
    decreases |e|
  {
    if |e| > 0 {
      var d' := Put(d, e[0].0, e[0].1);
      assert Keys(e) == [e[0].0] + Keys(e[1..]);
      assert Distinct(e[1..]);
      UpdateGet(d', e[1..], k);
      assert Keys(e) == [e[0].0] + Keys(e[1..]);
      if e[0].0 == k {
        assert !HasKey(e[1..], k);
      }
    }
  }

  /** `d.update(e)` keeps the keys distinct. */
  lemma {:induction false} UpdateDistinct<V>(d: Dict<V>, e: Dict<V>)
    requires Distinct(d)
    ensures Distinct(Update(d, e))
    decreases |e|
  {
    if |e| > 0 {
      PutDistinct(d, e[0].0, e[0].1);
      UpdateDistinct(Put(d, e[0].0, e[0].1), e[1..]);
    }
  }

  /** In a dict with distinct keys, the key at position `i` reads the value there. */
  lemma {:induction false} GetAt<V>(d: Dict<V>, i: nat)
    requires Distinct(d) && i < |d|
    ensures Get(d, d[i].0) == Some(d[i].1)
  {
    if i > 0 {
      assert Keys(d) == [d[0].0] + Keys(d[1..]);
      assert Distinct(d[1..]);
      assert d[1..][i - 1] == d[i];
      GetAt(d[1..], i - 1);
    }
  }

  /** `d[k] = v` when `d[k]` already reads `v` leaves the dict as it was. */
  lemma {:induction false} PutSame<V>(d: Dict<V>, k: string, v: V)
    requires Get(d, k) == Some(v)
    ensures Put(d, k, v) == d
  {
    if d[0].0 != k {
      PutSame(d[1..], k, v);
    }
  }

  /** Updating with entries the dict already holds changes nothing. */
  lemma {:induction false} UpdateAbsorbs<V>(d: Dict<V>, e: Dict<V>)
    requires forall i :: 0 <= i < |e| ==> Get(d, e[i].0) == Some(e[i].1)
    ensures Update(d, e) == d
    decreases |e|
  {
    if |e| > 0 {
      PutSame(d, e[0].0, e[0].1);
      assert forall i :: 0 <= i < |e[1..]| ==> e[1..][i] == e[i + 1];
      UpdateAbsorbs(d, e[1..]);
    }
  }

  /** `d.update(e)` twice is `d.update(e)` once. */
  lemma UpdateTwice<V>(d: Dict<V>, e: Dict<V>)
    requires Distinct(e)
    ensures Update(Update(d, e), e) == Update(d, e)
  {
    forall i | 0 <= i < |e|
      ensures Get(Update(d, e), e[i].0) == Some(e[i].1)
    {
      UpdateGet(d, e, e[i].0);
      GetAt(e, i);
    }
    UpdateAbsorbs(Update(d, e), e);
  }

  /** Reading a one-entry dict. */
  lemma GetSingle<V>(k0: string, v0: V, k: string)
    ensures Get([(k0, v0)], k) == if k == k0 then Some(v0) else None
    ensures Distinct([(k0, v0)])
  {
    assert Keys([(k0, v0)]) == [k0];
  }

  /** `d.update({k1: v1})`. */
  lemma UpdateOneGet<V>(d: Dict<V>, k1: string, v1: V, k: string)
    ensures Get(Update(d, [(k1, v1)]), k) == if k == k1 then Some(v1) else Get(d, k)
  {
    assert Update(d, [(k1, v1)]) == Update(Put(d, k1, v1), []);
  }

  /** `d.update({k1: v1, k2: v2})` with two different keys. */
  lemma UpdateTwoGet<V>(d: Dict<V>, k1: string, v1: V, k2: string, v2: V, k: string)
    requires k1 != k2
    ensures Get(Update(d, [(k1, v1), (k2, v2)]), k) == if k == k2 then Some(v2) else if k == k1 then Some(v1) else Get(d, k)
  {
    var e := [(k1, v1), (k2, v2)];
    assert e[1..] == [(k2, v2)];
    assert Update(d, e) == Update(Put(d, k1, v1), [(k2, v2)]);
    UpdateOneGet(Put(d, k1, v1), k2, v2, k);
  }

  /** A dict literal with one entry. */
  function Single<V>(k: string, v: V): Dict<V> {
    [(k, v)]
  }
}
