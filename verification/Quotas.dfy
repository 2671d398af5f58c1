// Integer quotas of the V3 policy: how many tokens each middle segment keeps.

module Quotas {
  import opened Common

  /** The accepted inputs of a selection. */
  datatype Split = Split(n: nat, budget: nat, prefix: nat, recent: nat, segments: nat)
  {
    predicate Valid() {
      0 < budget <= n && prefix + recent <= budget && 0 < segments
    }

    function Middle(): nat
      requires Valid()
    {
      n - prefix - recent
    }

    function Evict(): (e: nat)
      requires Valid()
      ensures e <= Middle()
    {
      n - budget
    }

    /** Where segment `s` starts, counted from the end of the prefix. */
    function Cut(s: nat): nat
      requires Valid()
    {
      Middle() * s / segments
    }

    /** Evictions owed by the first `x` middle tokens. */
    function Evicted(x: nat): nat
      requires Valid() && Middle() > 0
    {
      Evict() * x / Middle()
    }

    function Width(s: nat): int
      requires Valid()
    {
      Cut(s + 1) - Cut(s)
    }

    /** What segment `s` keeps; an empty middle keeps nothing. */
    function Quota(s: nat): int
      requires Valid()
    {
      if Middle() == 0 then 0 else Width(s) - (Evicted(Cut(s + 1)) - Evicted(Cut(s)))
    }

    function Quotas(s: nat): int
      requires Valid()
    {
      if s == 0 then 0 else Quotas(s - 1) + Quota(s - 1)
    }
  }

  lemma FloorMonotone(a: nat, b: nat, d: nat)
    requires d > 0 && a <= b
    ensures a / d <= b / d
  {
    var q, r := a / d, b / d;
    assert q * d <= a;
    assert (r + 1) * d == r * d + d > b;
    if r < q { MulMonotone(r + 1, q, d); }
  }

  /** The bracket of a floored quotient. */
  lemma FloorBracket(a: nat, d: nat)
    requires d > 0
    ensures a / d * d <= a < a / d * d + d
  {
  }

  lemma CutFacts(p: Split, s: nat)
    requires p.Valid()
    ensures p.Cut(0) == 0 && p.Cut(p.segments) == p.Middle() && p.Cut(s) <= p.Cut(s + 1)
    ensures s <= p.segments ==> p.Cut(s) <= p.Middle()
  {
    var m, g := p.Middle(), p.segments;
    assert m * 0 / g == 0;
    DivModUnique(m, g, 0);
    MulMonotone(s, s + 1, m);
    assert m * s <= m * (s + 1);
    FloorMonotone(m * s, m * (s + 1), g);
    if s <= g {
      MulMonotone(s, g, m);
      assert m * s <= m * g;
      FloorMonotone(m * s, m * g, g);
    }
  }

  /** A floored quotient grows by the proportional share of what is added, within one. */
  lemma FloorGrowth(a: nat, b: nat, d: nat)
    requires d > 0
    ensures a / d <= (a + b) / d
    ensures -(d as int) < ((a + b) / d - a / d) * d - b < d
  {
    FloorMonotone(a, a + b, d);
    FloorBracket(a, d);
    FloorBracket(a + b, d);
    var low, high := a / d, (a + b) / d;
    assert (high - low) * d == high * d - low * d;
  }

  lemma FloorGrowthAtMost(a: nat, b: nat, d: nat, c: nat)
    requires d > 0 && b <= c * d
    ensures (a + b) / d - a / d <= c
  {
    FloorGrowth(a, b, d);
    var growth := (a + b) / d - a / d;
    assert (c + 1) * d == c * d + d;
    if growth > c { MulMonotone(c + 1, growth, d); }
  }

  /** The segments cover the middle and differ in width from an even share by less than one. */
  lemma SegmentsEven(p: Split, s: nat)
    requires p.Valid()
    ensures p.Cut(0) == 0 && p.Cut(p.segments) == p.n - p.prefix - p.recent
    ensures p.Cut(s + 1) == p.Cut(s) + p.Width(s)
    ensures -(p.segments as int) < p.Width(s) * p.segments - (p.n - p.prefix - p.recent) < p.segments
  {
    CutFacts(p, s);
    assert p.Middle() * (s + 1) == p.Middle() * s + p.Middle();
    FloorGrowth(p.Middle() * s, p.Middle(), p.segments);
  }

  lemma ShareBetween(e: nat, m: nat, x: nat, d: nat)
    requires e <= m && m > 0
    ensures 0 <= e * (x + d) / m - e * x / m <= d
    ensures -(m as int) < (e * (x + d) / m - e * x / m) * m - e * d < m
  {
    MulDistributes(x, d, e);
    MulMonotone(e, m, d);
    FloorGrowth(e * x, e * d, m);
    FloorGrowthAtMost(e * x, e * d, m, d);
  }

  /** Evictions between two cuts: never negative, never more than the tokens there, and within one of
      the proportional share. */
  lemma EvictedBetween(p: Split, x: nat, y: nat)
    requires p.Valid() && p.Middle() > 0 && x <= y
    ensures 0 <= p.Evicted(y) - p.Evicted(x) <= y - x
    ensures -(p.Middle() as int) < (p.Evicted(y) - p.Evicted(x)) * p.Middle() - p.Evict() * (y - x) < p.Middle()
  {
    ShareBetween(p.Evict(), p.Middle(), x, y - x);
  }

  /** Every segment keeps between nothing and all of its tokens, and evicts within one of its
      proportional share. */
  lemma QuotaBounds(p: Split, s: nat)
    requires p.Valid() && s < p.segments
    ensures 0 <= p.Quota(s) <= p.Width(s)
    ensures p.Middle() > 0 ==>
      -(p.Middle() as int) < (p.Width(s) - p.Quota(s)) * p.Middle() - p.Evict() * p.Width(s) < p.Middle()
  {
    CutFacts(p, s);
    CutFacts(p, s + 1);
    if p.Middle() == 0 {
      CutFacts(p, 0);
      assert p.Cut(s) == 0 && p.Cut(s + 1) == 0;
    } else {
      EvictedBetween(p, p.Cut(s), p.Cut(s + 1));
    }
  }

  /** The quotas of the first segments telescope. */
  lemma {:induction false} QuotasTelescope(p: Split, s: nat)
    requires p.Valid() && s <= p.segments && p.Middle() > 0
    ensures p.Quotas(s) == p.Cut(s) - p.Evicted(p.Cut(s))
  {
    if s == 0 {
      CutFacts(p, 0);
      assert p.Evict() * 0 / p.Middle() == 0;
    } else {
      QuotasTelescope(p, s - 1);
    }
  }

  lemma {:induction false} NoMiddle(p: Split, s: nat)
    requires p.Valid() && p.Middle() == 0
    ensures p.Quotas(s) == 0
  {
    if s > 0 { NoMiddle(p, s - 1); }
  }

  /** The total is exact: with both windows it is the budget. */
  lemma QuotasExact(p: Split)
    requires p.Valid()
    ensures p.prefix + p.Quotas(p.segments) + p.recent == p.budget
  {
    if p.Middle() == 0 {
      NoMiddle(p, p.segments);
    } else {
      QuotasTelescope(p, p.segments);
      CutFacts(p, p.segments);
      DivModUnique(p.Evict(), p.Middle(), 0);
    }
  }

  /** Segments of equal width have quotas that differ by at most one. */
  lemma EqualWidthQuotas(p: Split, s: nat, t: nat)
    requires p.Valid() && s < p.segments && t < p.segments && p.Width(s) == p.Width(t)
    ensures -1 <= p.Quota(s) - p.Quota(t) <= 1
  {
    if p.Middle() > 0 {
      CutFacts(p, s);
      CutFacts(p, t);
      EvictedBetween(p, p.Cut(s), p.Cut(s + 1));
      EvictedBetween(p, p.Cut(t), p.Cut(t + 1));
      var m, d := p.Middle(), p.Quota(s) - p.Quota(t);
      var es, et := p.Width(s) - p.Quota(s), p.Width(t) - p.Quota(t);
      assert (et - es) * m == et * m - es * m;
      assert -2 * m < d * m < 2 * m;
      if d >= 2 { MulMonotone(2, d, m); }
      if d <= -2 { MulMonotone(d, -2, m); }
    }
  }

  lemma {:induction false} QuotasMonotone(p: Split, s: nat, t: nat)
    requires p.Valid() && s <= t <= p.segments
    ensures 0 <= p.Quotas(s) <= p.Quotas(t)
    decreases t
  {
    if t > 0 {
      QuotaBounds(p, t - 1);
      if s < t { QuotasMonotone(p, s, t - 1); } else { QuotasMonotone(p, s - 1, t - 1); }
    }
  }
}
