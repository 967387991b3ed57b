/** `java.util.LinkedHashMap` as a value: the entries in iteration order,
 *  which is the order in which each key was first put. */
module LinkedMaps {
  import opened Wrappers

  type Linked<K, V> = seq<(K, V)>

  /** `keySet()`, in iteration order. */
  function Keys<K, V>(l: Linked<K, V>): (r: seq<K>)
    ensures |r| == |l|
    ensures forall i :: 0 <= i < |l| ==> r[i] == l[i].0
  {
    if |l| == 0 then [] else [l[0].0] + Keys(l[1..])
  }

  /** No key occurs twice. */
  ghost predicate DistinctKeys<K, V>(l: Linked<K, V>) {
    forall i, j :: 0 <= i < j < |l| ==> l[i].0 != l[j].0
  }

  /** `get(k)`: the value stored under `k`, or `null`. */
  function Get<K(==, !new), V>(l: Linked<K, V>, k: K): (r: Option<V>)
    ensures r.Some? <==> k in Keys(l)
    ensures r.Some? ==> exists i :: 0 <= i < |l| && l[i] == (k, r.value)
  {
    if |l| == 0 then None
    else if l[0].0 == k then Some(l[0].1)
    else
      var r := Get(l[1..], k);
      assert r.Some? ==> exists i :: 0 <= i < |l| - 1 && l[1..][i] == (k, r.value);
      assert Keys(l) == [l[0].0] + Keys(l[1..]);
      r
  }

  /** `put(k, v)`: a present key keeps its position and takes the new
   *  value; a new key is appended at the end. */
  function Put<K(==, !new), V>(l: Linked<K, V>, k: K, v: V): (r: Linked<K, V>)
    ensures Keys(r) == if k in Keys(l) then Keys(l) else Keys(l) + [k]
    ensures Get(r, k) == Some(v)
    ensures forall j :: j != k ==> Get(r, j) == Get(l, j)
  {
    if |l| == 0 then [(k, v)]
    else if l[0].0 == k then
      assert Keys(l) == [k] + Keys(l[1..]);
      var r := [(k, v)] + l[1..];
      assert r[1..] == l[1..];
      r
    else
      var rest := Put(l[1..], k, v);
      var r := [l[0]] + rest;
      assert r[1..] == rest;
      assert Keys(l) == [l[0].0] + Keys(l[1..]);
      assert Keys(r) == [l[0].0] + Keys(rest);
      r
  }

  /** The entries of `es` put one after another into `l`. */
  function PutAll<K(==, !new), V>(l: Linked<K, V>, es: seq<(K, V)>): Linked<K, V> {
    if |es| == 0 then l
    else Put(PutAll(l, es[..|es| - 1]), es[|es| - 1].0, es[|es| - 1].1)
  }

  /** The value of the last entry of `es` with key `k`. */
  function LastValue<K(==, !new), V>(es: seq<(K, V)>, k: K): (r: Option<V>)
    ensures r.Some? ==> exists i :: 0 <= i < |es| && es[i] == (k, r.value)
                                    && forall j :: i < j < |es| ==> es[j].0 != k
    ensures r.None? ==> forall i :: 0 <= i < |es| ==> es[i].0 != k
  {
    if |es| == 0 then None
    else if es[|es| - 1].0 == k then Some(es[|es| - 1].1)
    else LastValue(es[..|es| - 1], k)
  }

  /** `ks` with every repetition of an earlier element dropped. */
  function FirstOccurrences<K(==, !new)>(ks: seq<K>): (r: seq<K>)
    ensures forall x :: x in r <==> x in ks
  {
    if |ks| == 0 then []
    else
      var p := FirstOccurrences(ks[..|ks| - 1]);
      assert forall x :: x in ks <==> x in ks[..|ks| - 1] || x == ks[|ks| - 1];
      if ks[|ks| - 1] in p then p else p + [ks[|ks| - 1]]
  }

  /** Putting entries into an empty map: each key ends up with the value
   *  of its last entry ... */
  lemma {:induction false} PutAllGet<K(!new), V>(es: seq<(K, V)>, k: K)
    ensures Get(PutAll([], es), k) == LastValue(es, k)
  {
    if |es| > 0 {
      PutAllGet(es[..|es| - 1], k);
    }
  }

  /** ... and at the position of its first entry. */
  lemma {:induction false} PutAllKeys<K(!new), V>(es: seq<(K, V)>)
    ensures Keys(PutAll([], es)) == FirstOccurrences(Keys(es))
  {
    if |es| > 0 {
      var init := es[..|es| - 1];
      PutAllKeys(init);
      assert Keys(es)[..|es| - 1] == Keys(init);
    }
  }

  /** Putting pairwise different keys keeps them all, in order. */
  lemma {:induction false} FirstOccurrencesDistinct<K(!new)>(ks: seq<K>)
    requires forall i, j :: 0 <= i < j < |ks| ==> ks[i] != ks[j]
    ensures FirstOccurrences(ks) == ks
  {
    if |ks| > 0 {
      var init := ks[..|ks| - 1];
      FirstOccurrencesDistinct(init);
      assert ks == init + [ks[|ks| - 1]];
    }
  }

  /** `getOrDefault(k, d)`. */
  function GetOrDefault<K(==, !new), V>(l: Linked<K, V>, k: K, d: V): (r: V)
    ensures k !in Keys(l) ==> r == d
    ensures k in Keys(l) ==> Some(r) == Get(l, k)
  {
    match Get(l, k)
    case None => d
    case Some(v) => v
  }
}
