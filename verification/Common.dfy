// Small vocabulary shared by every module.

module Common {

  datatype Option<+T> = None | Some(value: T)

  function Get<K, V>(m: map<K, V>, k: K): Option<V> {
    if k in m then Some(m[k]) else None
  }

  predicate Distinct<T(==)>(s: seq<T>) {
    forall i, j :: 0 <= i < j < |s| ==> s[i] != s[j]
  }

  /** `ids` lists the members of `keys` once each, in some order: a snapshot of a dictionary. */
  ghost predicate Enumerates<K>(ids: seq<K>, keys: set<K>) {
    && (forall i, j :: 0 <= i < j < |ids| ==> ids[i] != ids[j])
    && (forall k :: k in keys ==> k in ids)
    && (forall i :: 0 <= i < |ids| ==> ids[i] in keys)
  }

  /** Ceiling division: how many blocks cover `n` tokens. */
  function CeilDiv(n: nat, d: nat): (q: nat)
    requires d > 0
    ensures q * d >= n
    ensures q * d < n + d
  {
    (n + d - 1) / d
  }

  lemma MulMonotone(a: int, b: int, d: nat)
    requires a <= b
    ensures a * d <= b * d
  {
    var e := b - a;
    assert b * d == (a + e) * d == a * d + e * d;
  }

  /** A quotient is pinned down by its bracket. */
  lemma QuotientUnique(n: nat, d: nat, q: nat)
    requires d > 0 && q * d <= n < (q + 1) * d
    ensures n / d == q && n % d == n - q * d
  {
    var p := n / d;
    assert p * d <= n < (p + 1) * d;
    if p < q { MulMonotone(p + 1, q, d); }
    if q < p { MulMonotone(q + 1, p, d); }
  }

  lemma DivModUnique(q: nat, d: nat, m: nat)
    requires m < d
    ensures (q * d + m) / d == q && (q * d + m) % d == m
  {
    assert (q + 1) * d == q * d + d;
    QuotientUnique(q * d + m, d, q);
  }

  lemma Rebuild(i: nat, d: nat)
    requires d > 0
    ensures i == i / d * d + i % d
  {
  }

  /** A pair is recovered from its packed value. */
  lemma PairUnique(x: nat, a: nat, y: nat, b: nat, d: nat)
    requires a < d && b < d && x * d + a == y * d + b
    ensures x == y && a == b
  {
    DivModUnique(x, d, a);
    DivModUnique(y, d, b);
  }

  /** Numbers with the same quotient and remainder are the same, and different pairs pack differently. */
  lemma DivModPins(i: nat, j: nat, d: nat)
    requires d > 0 && i / d == j / d && i % d == j % d
    ensures i == j
  {
    Rebuild(i, d);
    Rebuild(j, d);
  }

  lemma PackApart(x: nat, a: nat, y: nat, b: nat, d: nat)
    requires a < d && b < d && (x != y || a != b)
    ensures x * d + a != y * d + b
  {
    if x * d + a == y * d + b { PairUnique(x, a, y, b, d); }
  }

  lemma MulAssociative(x: int, y: int, z: int)
    ensures (x * y) * z == x * (y * z)
  {
  }

  lemma MulDistributes(x: int, y: int, z: int)
    ensures (x + y) * z == x * z + y * z
  {
  }

  lemma DivBelow(i: nat, d: nat, q: nat)
    requires d > 0 && i < q * d
    ensures i / d < q
  {
    var p := i / d;
    assert p * d <= i;
    if q <= p { MulMonotone(q, p, d); }
  }

  lemma CeilDivLeast(n: nat, d: nat, k: nat)
    requires d > 0
    ensures n <= k * d <==> CeilDiv(n, d) <= k
  {
    var q := CeilDiv(n, d);
    if k < q {
      MulMonotone(k, q - 1, d);
      assert (q - 1) * d == q * d - d;
    } else {
      MulMonotone(q, k, d);
    }
  }
}
