/** Grouped sums over a long-form table of (key, amount) entries: one bucket per key. */
module Grouping {
  import opened Sequences

  /** An amount filed under a key: an input entry, or one bucket of the grouped result. */
  datatype Keyed<K> = Keyed(key: K, amount: real)

  /** The sum of all amounts. */
  function Total<K>(es: seq<Keyed<K>>): real {
    if es == [] then 0.0 else es[0].amount + Total(es[1..])
  }

  /** The sum of the amounts filed under `k`, and of no others. */
  function SumFor<K(==)>(es: seq<Keyed<K>>, k: K): real {
    if es == [] then 0.0 else (if es[0].key == k then es[0].amount else 0.0) + SumFor(es[1..], k)
  }

  /** The key column. */
  function KeysIn<K>(es: seq<Keyed<K>>): (ks: seq<K>)
    ensures |ks| == |es|
  {
    seq(|es|, i requires 0 <= i < |es| => es[i].key)
  }

  /** Every key replaced by its image under `f`, amounts unchanged. */
  function MapKeys<K, L>(es: seq<Keyed<K>>, f: K -> L): (out: seq<Keyed<L>>)
    ensures |out| == |es|
  {
    if es == [] then [] else [Keyed(f(es[0].key), es[0].amount)] + MapKeys(es[1..], f)
  }

  /** Each key that occurs, once, in order of first occurrence. */
  function DistinctKeys<K(==)>(es: seq<Keyed<K>>): (ks: seq<K>)
    ensures Distinct(ks)
    ensures forall i :: 0 <= i < |ks| ==> ks[i] in KeysIn(es)
    ensures forall i :: 0 <= i < |es| ==> es[i].key in ks
  {
    if es == [] then []
    else
      var init := es[..|es| - 1];
      var ks := DistinctKeys(init);
      var k := es[|es| - 1].key;
      assert forall i :: 0 <= i < |init| ==> KeysIn(init)[i] == KeysIn(es)[i];
      assert forall x :: x in KeysIn(init) ==> x in KeysIn(es);
      assert KeysIn(es)[|es| - 1] == k;
      if k in ks then ks else ks + [k]
  }

  /** One bucket per key of `ks`, holding the sum of the amounts filed under it. */
  function Buckets<K(==)>(es: seq<Keyed<K>>, ks: seq<K>): (g: seq<Keyed<K>>)
    ensures |g| == |ks|
  {
    seq(|ks|, i requires 0 <= i < |ks| => Keyed(ks[i], SumFor(es, ks[i])))
  }

  /** The grouped sum: one bucket for each key that occurs and for no other, no key twice, each
      bucket holding the sum of exactly the entries filed under its key. */
  function GroupSum<K(==)>(es: seq<Keyed<K>>): (g: seq<Keyed<K>>)
    ensures Distinct(KeysIn(g))
    ensures forall i :: 0 <= i < |g| ==> g[i].key in KeysIn(es)
    ensures forall i :: 0 <= i < |es| ==> es[i].key in KeysIn(g)
    ensures forall i :: 0 <= i < |g| ==> g[i].amount == SumFor(es, g[i].key)
  {
    var ks := DistinctKeys(es);
    var g := Buckets(es, ks);
    assert KeysIn(g) == ks;
    g
  }

  lemma {:induction false} BucketsOfNothing<K, L>(ks: seq<K>, f: K -> L, l: L)
    ensures SumFor(MapKeys(Buckets([], ks), f), l) == 0.0
  {
    if ks != [] {
      BucketsOfNothing(ks[1..], f, l);
      assert Buckets([], ks)[1..] == Buckets([], ks[1..]);
    }
  }

  /** How one more entry changes the buckets over distinct keys, seen through `f`. */
  lemma {:induction false} BucketsSplit<K, L>(e: Keyed<K>, rest: seq<Keyed<K>>, ks: seq<K>, f: K -> L, l: L)
    requires Distinct(ks)
    ensures SumFor(MapKeys(Buckets([e] + rest, ks), f), l)
         == (if e.key in ks && f(e.key) == l then e.amount else 0.0) + SumFor(MapKeys(Buckets(rest, ks), f), l)
  {
    if ks != [] {
      var es := [e] + rest;
      assert es[0] == e && es[1..] == rest;
      assert Buckets(es, ks)[1..] == Buckets(es, ks[1..]);
      assert Buckets(rest, ks)[1..] == Buckets(rest, ks[1..]);
      assert Distinct(ks[1..]);
      BucketsSplit(e, rest, ks[1..], f, l);
      assert e.key in ks <==> e.key == ks[0] || e.key in ks[1..];
      assert ks[0] !in ks[1..];
    }
  }

  /** Summing the buckets whose keys map to `l` is summing the entries whose keys map to `l`. */
  lemma {:induction false} RegroupBuckets<K, L>(es: seq<Keyed<K>>, ks: seq<K>, f: K -> L, l: L)
    requires Distinct(ks)
    requires forall i :: 0 <= i < |es| ==> es[i].key in ks
    ensures SumFor(MapKeys(Buckets(es, ks), f), l) == SumFor(MapKeys(es, f), l)
  {
    if es == [] {
      BucketsOfNothing(ks, f, l);
    } else {
      assert es == [es[0]] + es[1..];
      BucketsSplit(es[0], es[1..], ks, f, l);
      RegroupBuckets(es[1..], ks, f, l);
    }
  }

  /** Regrouping the buckets by a coarser key `f` gives the same sums as grouping the entries
      by that coarser key directly. */
  lemma GroupSumRegroups<K, L>(es: seq<Keyed<K>>, f: K -> L, l: L)
    ensures SumFor(MapKeys(GroupSum(es), f), l) == SumFor(MapKeys(es, f), l)
  {
    RegroupBuckets(es, DistinctKeys(es), f, l);
  }

  lemma {:induction false} SumForConstantKey<K, L>(es: seq<Keyed<K>>, f: K -> L, l: L)
    requires forall k :: f(k) == l
    ensures SumFor(MapKeys(es, f), l) == Total(es)
  {
    if es != [] {
      SumForConstantKey(es[1..], f, l);
    }
  }

  /** Grouping neither loses nor double-counts an amount: the buckets add up to the total. */
  lemma GroupSumConserves<K>(es: seq<Keyed<K>>)
    ensures Total(GroupSum(es)) == Total(es)
  {
    var f := (k: K) => 0;
    SumForConstantKey(GroupSum(es), f, 0);
    SumForConstantKey(es, f, 0);
    GroupSumRegroups(es, f, 0);
  }
}
