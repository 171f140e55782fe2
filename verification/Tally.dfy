/** Counting what a table holds: every entry of a map carries a multiset, and the tally is their sum.
    Conservation laws ("each handle is attached somewhere exactly once, or was answered") are stated with it. */
module Tally {

  ghost function Sum<K(!new), V>(m: map<K, multiset<V>>): multiset<V>
    decreases |m|
  {
    if m == map[] then multiset{} else
      var k :| k in m;
      m[k] + Sum(m - {k})
  }

  lemma SomeKey<K(!new), V>(m: map<K, V>) returns (k: K)
    requires m != map[]
    ensures k in m
  {
    k :| k in m;
  }

  /** The sum does not depend on which entry is taken out first. */
  lemma {:induction false} SumRemove<K(!new), V>(m: map<K, multiset<V>>, k: K)
    requires k in m
    ensures Sum(m) == m[k] + Sum(m - {k})
    decreases |m|
  {
    var first :| first in m && Sum(m) == m[first] + Sum(m - {first});
    if first != k {
      SumRemove(m - {first}, k);
      SumRemove(m - {k}, first);
      assert m - {first} - {k} == m - {k} - {first};
    }
  }

  lemma SumUpdate<K(!new), V>(m: map<K, multiset<V>>, k: K, v: multiset<V>)
    ensures Sum(m[k := v]) == v + Sum(m - {k})
    ensures k !in m ==> Sum(m[k := v]) == v + Sum(m)
    ensures k in m ==> Sum(m[k := v]) + m[k] == v + Sum(m)
  {
    SumRemove(m[k := v], k);
    assert m[k := v] - {k} == m - {k};
    if k in m {
      SumRemove(m, k);
    } else {
      assert m - {k} == m;
    }
  }

  /** The entries of `m` whose keys are in `keys`. */
  function Only<K, V>(m: map<K, V>, keys: set<K>): map<K, V> {
    map k | k in m && k in keys :: m[k]
  }

  lemma OnlyStep<K, V>(m: map<K, V>, out: set<K>, k: K)
    requires k in m
    ensures k in out ==> Only(m, out) - {k} == Only(m - {k}, out) && m - out == m - {k} - out
    ensures k !in out ==> Only(m, out) == Only(m - {k}, out) && m - out - {k} == m - {k} - out
  {
  }

  /** Taking a set of entries out splits the sum in two. */
  lemma {:induction false} SumSplit<K(!new), V>(m: map<K, multiset<V>>, out: set<K>)
    ensures Sum(m) == Sum(Only(m, out)) + Sum(m - out)
    decreases |m|
  {
    if m == map[] {
      assert Only(m, out) == map[] && m - out == map[];
    } else {
      var k :| k in m;
      SumRemove(m, k);
      SumSplit(m - {k}, out);
      OnlyStep(m, out, k);
      if k in out {
        SumRemove(Only(m, out), k);
      } else {
        SumRemove(m - out, k);
      }
    }
  }

  lemma AppendedOne<T>(e: T)
    ensures [] + [e] == [e] && [e][1..] == []
  {
  }

  /** One more at the end of a sequence that has a first. */
  lemma AppendedRest<T>(s: seq<T>, e: T)
    requires s != []
    ensures (s + [e])[0] == s[0] && (s + [e])[1..] == s[1..] + [e]
  {
  }

  /** Something is in a multiset that is not empty. */
  lemma SomeOf<V>(m: multiset<V>) returns (v: V)
    requires m != multiset{}
    ensures v in m
  {
    v :| v in m;
  }

  /** What one entry holds is in the tally. */
  lemma SumHas<K(!new), V>(m: map<K, multiset<V>>, k: K)
    requires k in m
    ensures m[k] <= Sum(m)
  {
    SumRemove(m, k);
  }
}
