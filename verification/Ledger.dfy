// Counting block references: multisets summed over the entries of a map.

module Ledger {

  /** The union, with multiplicity, of everything that the keys of `m` hold. */
  ghost function Sum<K, B>(m: map<K, multiset<B>>): multiset<B>
    decreases |m|
  {
    if m == map[] then multiset{}
    else
      var k :| k in m;
      assert |m - {k}| < |m| by { RemoveShrinks(m, k); }
      m[k] + Sum(m - {k})
  }

  lemma RemoveShrinks<K, V>(m: map<K, V>, k: K)
    requires k in m
    ensures |m - {k}| == |m| - 1
  {
    assert (m - {k}).Keys == m.Keys - {k};
    assert |m.Keys| == |m| && |(m - {k}).Keys| == |m - {k}|;
  }

  /** Any key can be split off, not just the one the definition picks. */
  lemma {:induction false} Split<K, B>(m: map<K, multiset<B>>, k: K)
    requires k in m
    ensures Sum(m) == m[k] + Sum(m - {k})
    decreases |m|
  {
    var c :| c in m && Sum(m) == m[c] + Sum(m - {c});
    if c != k {
      RemoveShrinks(m, c);
      Split(m - {c}, k);
      RemoveShrinks(m, k);
      Split(m - {k}, c);
      assert m - {c} - {k} == m - {k} - {c};
    }
  }

  /** Replacing what one key holds changes the sum by exactly that difference. */
  lemma Replace<K, B>(m: map<K, multiset<B>>, k: K, held: multiset<B>)
    requires k in m
    ensures Sum(m[k := held]) + m[k] == Sum(m) + held
  {
    Split(m, k);
    Split(m[k := held], k);
    assert m[k := held] - {k} == m - {k};
  }

  lemma Insert<K, B>(m: map<K, multiset<B>>, k: K, held: multiset<B>)
    requires k !in m
    ensures Sum(m[k := held]) == Sum(m) + held
  {
    Split(m[k := held], k);
    assert m[k := held] - {k} == m;
  }

  lemma AtLeastOne<K, B>(m: map<K, multiset<B>>, k: K, b: B)
    requires k in m
    ensures m[k][b] <= Sum(m)[b]
  {
    Split(m, k);
  }

  lemma AtLeastTwo<K, B>(m: map<K, multiset<B>>, k: K, l: K, b: B)
    requires k in m && l in m && k != l
    ensures m[k][b] + m[l][b] <= Sum(m)[b]
  {
    Split(m, k);
    AtLeastOne(m - {k}, l, b);
  }
}
