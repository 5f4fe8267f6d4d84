/**
 * Grouped sums, as every summary builds them with a Python dict:
 *
 *     for x in xs: key = ...; if key not in d: d[key] = 0; d[key] += amount
 *
 * The input is the list of (key, amount) pairs the loop visits; the dict is an
 * insertion-ordered list of distinct keys with a total and a count per key.
 */
module Grouping {

  predicate Distinct<K(==,!new)>(ks: seq<K>) {
    forall i, j :: 0 <= i < j < |ks| ==> ks[i] != ks[j]
  }

  /** The sum of the amounts of the pairs with key k. */
  function Total<K(==,!new)>(ps: seq<(K, real)>, k: K): real {
    if ps == [] then 0.0
    else Total(ps[..|ps| - 1], k) + (if ps[|ps| - 1].0 == k then ps[|ps| - 1].1 else 0.0)
  }

  /** The number of pairs with key k. */
  function Count<K(==,!new)>(ps: seq<(K, real)>, k: K): nat {
    if ps == [] then 0
    else Count(ps[..|ps| - 1], k) + (if ps[|ps| - 1].0 == k then 1 else 0)
  }

  /** The sum of all amounts. */
  function SumAmounts<K(==,!new)>(ps: seq<(K, real)>): real {
    if ps == [] then 0.0 else SumAmounts(ps[..|ps| - 1]) + ps[|ps| - 1].1
  }

  /** Whether some pair has key k. */
  predicate HasKey<K(==,!new)>(ps: seq<(K, real)>, k: K) {
    exists i :: 0 <= i < |ps| && ps[i].0 == k
  }

  /**
   * The dict's keys in iteration order, which is the order in which each key
   * first occurs: every key exactly once.
   */
  function Keys<K(==,!new)>(ps: seq<(K, real)>): (ks: seq<K>)
    ensures Distinct(ks)
    ensures forall k :: k in ks <==> HasKey(ps, k)
  {
    if ps == [] then []
    else
      var prefix := ps[..|ps| - 1];
      var ks := Keys(prefix);
      assert forall k :: HasKey(ps, k) <==> HasKey(prefix, k) || ps[|ps| - 1].0 == k by {
        forall k | HasKey(ps, k) ensures HasKey(prefix, k) || ps[|ps| - 1].0 == k {
          var i :| 0 <= i < |ps| && ps[i].0 == k;
          if i < |ps| - 1 { assert prefix[i].0 == k; }
        }
        forall k | HasKey(prefix, k) ensures HasKey(ps, k) {
          var i :| 0 <= i < |prefix| && prefix[i].0 == k;
          assert ps[i].0 == k;
        }
      }
      if ps[|ps| - 1].0 in ks then ks else ks + [ps[|ps| - 1].0]
  }

  /** A key that never occurs has total 0 and count 0: `d.get(key, 0)`. */
  lemma {:induction false} AbsentKey<K(!new)>(ps: seq<(K, real)>, k: K)
    requires k !in Keys(ps)
    ensures Total(ps, k) == 0.0 && Count(ps, k) == 0
  {
    if ps != [] {
      var prefix := ps[..|ps| - 1];
      assert ps[|ps| - 1].0 != k && k !in Keys(prefix);
      AbsentKey(prefix, k);
    }
  }

  /** The sum of the totals of the listed keys. */
  function SumTotals<K(==,!new)>(ks: seq<K>, ps: seq<(K, real)>): real {
    if ks == [] then 0.0 else SumTotals(ks[..|ks| - 1], ps) + Total(ps, ks[|ks| - 1])
  }

  /** The sum of the counts of the listed keys. */
  function SumCounts<K(==,!new)>(ks: seq<K>, ps: seq<(K, real)>): nat {
    if ks == [] then 0 else SumCounts(ks[..|ks| - 1], ps) + Count(ps, ks[|ks| - 1])
  }

  /** Appending a pair raises the totals of distinct keys by its amount once, if its key is listed. */
  lemma {:induction false} SumTotalsAppend<K(!new)>(ks: seq<K>, ps: seq<(K, real)>, p: (K, real))
    requires Distinct(ks)
    ensures SumTotals(ks, ps + [p]) == SumTotals(ks, ps) + (if p.0 in ks then p.1 else 0.0)
    ensures SumCounts(ks, ps + [p]) == SumCounts(ks, ps) + (if p.0 in ks then 1 else 0)
  {
    if ks != [] {
      var prefix := ks[..|ks| - 1];
      assert (ps + [p])[..|ps + [p]| - 1] == ps;
      SumTotalsAppend(prefix, ps, p);
      assert p.0 in ks <==> p.0 in prefix || p.0 == ks[|ks| - 1];
      assert p.0 == ks[|ks| - 1] ==> p.0 !in prefix;
    }
  }

  /**
   * Conservation: the per-key totals add up to the sum of all amounts, and
   * the per-key counts to the number of pairs.
   */
  lemma {:induction false} Conservation<K(!new)>(ps: seq<(K, real)>)
    ensures SumTotals(Keys(ps), ps) == SumAmounts(ps)
    ensures SumCounts(Keys(ps), ps) == |ps|
  {
    if ps != [] {
      var prefix := ps[..|ps| - 1];
      var p := ps[|ps| - 1];
      assert ps == prefix + [p];
      Conservation(prefix);
      SumTotalsAppend(Keys(prefix), prefix, p);
      if p.0 !in Keys(prefix) {
        AbsentKey(prefix, p.0);
        assert Keys(ps) == Keys(prefix) + [p.0];
        assert Keys(ps)[..|Keys(ps)| - 1] == Keys(prefix);
      }
    }
  }

  /**
   * The accumulation loop. Returns the dict's keys in insertion order, the
   * dict of totals, the dict of counts, and the running total of all amounts.
   */
  method Tally<K(==,!new)>(ps: seq<(K, real)>) returns (keys: seq<K>, totals: map<K, real>, counts: map<K, nat>, sum: real)
    ensures keys == Keys(ps)
    ensures forall k :: k in totals <==> k in keys
    ensures forall k :: k in counts <==> k in keys
    ensures forall k :: k in totals ==> totals[k] == Total(ps, k)
    ensures forall k :: k in counts ==> counts[k] == Count(ps, k)
    ensures sum == SumAmounts(ps)
  {
    keys, totals, counts, sum := [], map[], map[], 0.0;
    var i := 0;
    while i < |ps|
      invariant 0 <= i <= |ps|
      invariant keys == Keys(ps[..i])
      invariant forall k :: k in totals <==> k in keys
      invariant forall k :: k in counts <==> k in keys
      invariant forall k :: k in totals ==> totals[k] == Total(ps[..i], k)
      invariant forall k :: k in counts ==> counts[k] == Count(ps[..i], k)
      invariant sum == SumAmounts(ps[..i])
    {
      var (k, amount) := ps[i];
      assert ps[..i + 1][..i] == ps[..i];
      if k !in totals {
        keys := keys + [k];
        AbsentKey(ps[..i], k);
        totals := totals[k := 0.0];
        counts := counts[k := 0];
      }
      totals := totals[k := totals[k] + amount];
      counts := counts[k := counts[k] + 1];
      sum := sum + amount;
      i := i + 1;
    }
    assert ps[..i] == ps;
  }
}
