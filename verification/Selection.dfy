// Token selection, `select_keep_indices`: the per-segment mask loop and the batched fast path.

module Selection {
  import opened Common
  import opened Quotas
  import opened Ranking
  import opened V3Policy

  datatype Policy = Global | V3 | Other

  datatype SelectionError =
    | BadBudget | NegativeWindow | WindowsExceedBudget | BadSegments | UnknownPolicy
    | TooFewSlots | WrongCount

  datatype Result = Ok(keep: seq<nat>) | Err(error: SelectionError)

  // ---------------------------------------------------------------- host primitives

  function TopSeqIn(o: Order, lo: nat, hi: nat, k: nat): (t: seq<nat>)
    requires o.Valid() && lo <= hi <= |o.scores| && k <= hi - lo
    ensures |t| == k && Distinct(t) && forall i :: i in t ==> lo <= i < hi
  {
    WindowSize(lo, hi);
    TopSeqFacts(o, Window(lo, hi), k);
    TopSeq(o, Window(lo, hi), k)
  }

  function TopIn(o: Order, lo: nat, hi: nat, k: nat): set<nat>
    requires o.Valid() && lo <= hi <= |o.scores| && k <= hi - lo
  {
    set i | i in TopSeqIn(o, lo, hi, k)
  }

  /** `torch.topk` on a slice, as offsets into it. Only the sorted form promises an order. */
  method TopK(o: Order, lo: nat, hi: nat, k: nat, sorted: bool) returns (local: seq<nat>)
    requires o.Valid() && lo <= hi <= |o.scores| && k <= hi - lo
    ensures |local| == k && Distinct(local) && forall r :: 0 <= r < k ==> local[r] < hi - lo
    ensures forall x: nat :: x in local <==> lo + x in TopIn(o, lo, hi, k)
    ensures sorted ==> forall r :: 0 <= r < k ==> lo + local[r] == TopSeqIn(o, lo, hi, k)[r]
  {
    var t := TopSeqIn(o, lo, hi, k);
    assert forall r :: 0 <= r < k ==> t[r] in t;
    local := seq(k, r requires 0 <= r < k => t[r] - lo);
    forall x: nat ensures x in local <==> lo + x in t {
      if lo + x in t {
        var r :| 0 <= r < k && t[r] == lo + x;
        assert local[r] == x;
      }
    }
  }

  // ---------------------------------------------------------------- the per-segment loop

  /** What the first `s` segments have marked, with the protected windows. */
  ghost predicate Marked(o: Order, p: Split, s: nat, i: nat)
    requires Fits(o, p)
  {
    i < p.prefix || i >= p.n - p.recent || exists t: nat :: t < s && InSegment(o, p, t, i)
  }

  lemma NothingMarked(o: Order, p: Split)
    requires Fits(o, p)
    ensures forall i: nat :: Marked(o, p, 0, i) <==> i < p.prefix || i >= p.n - p.recent
  {
  }

  lemma MarkedNext(o: Order, p: Split, s: nat, i: nat)
    requires Fits(o, p) && s < p.segments
    ensures Marked(o, p, s + 1, i) <==> Marked(o, p, s, i) || i in Segment(o, p, s)
  {
    assert i in Segment(o, p, s) <==> InSegment(o, p, s, i);
  }

  lemma MarkedAll(o: Order, p: Split, i: nat)
    requires Fits(o, p) && i < p.n
    ensures Marked(o, p, p.segments, i) <==> i in Kept(o, p)
  {
    hide Segment;
    assert i in Window(0, p.n);
    assert Keeps(o, p, i) <==> Marked(o, p, p.segments, i);
  }

  lemma MarkedSelects(o: Order, p: Split, marked: set<nat>)
    requires Fits(o, p) && forall i: nat :: i < p.n ==> (i in marked <==> Marked(o, p, p.segments, i))
    ensures Members(marked, 0, p.n) == V3Policy.Selection(o, p) && |V3Policy.Selection(o, p)| == p.budget
  {
    hide Marked, Kept;
    forall i: nat | i < p.n ensures i in marked <==> i in Kept(o, p) { MarkedAll(o, p, i); }
    MembersWindow(marked, Kept(o, p), 0, p.n);
    SelectionEnds(o, p);
  }

  /** One segment: keep its quota of best tokens, with the shortcuts for nothing and for everything. */
  method MarkSegment(o: Order, p: Split, s: nat, mask: array<bool>)
    requires Fits(o, p) && s < p.segments && mask.Length == p.n
    modifies mask
    ensures forall i :: 0 <= i < p.n ==> (mask[i] <==> old(mask[i]) || i in Segment(o, p, s))
  {
    var middle, evict := p.n - p.prefix - p.recent, p.n - p.budget;
    SegmentFits(p, s);
    SegmentFacts(o, p, s);
    var start, stop := p.prefix + middle * s / p.segments, p.prefix + middle * (s + 1) / p.segments;
    if stop - start == 0 {
      return;
    }
    CutFacts(p, s + 1);
    var before, after := evict * (start - p.prefix) / middle, evict * (stop - p.prefix) / middle;
    var keep := stop - start - (after - before);
    assert keep == p.Quota(s);
    if keep <= 0 {
      return;
    }
    if keep == stop - start {
      forall i | start <= i < stop {
        mask[i] := true;
      }
      return;
    }
    var local := TopK(o, start, stop, keep, false);
    forall i: nat | start <= i < stop && i - start in local {
      mask[i] := true;
    }
    forall i: nat | i < p.n ensures mask[i] <==> old(mask[i]) || i in Segment(o, p, s) {
      if start <= i < stop { assert i - start in local <==> start + (i - start) in TopIn(o, start, stop, keep); }
    }
  }

  /** The V3 branch: mask, mark segment by segment, list what is marked. */
  method SelectV3(o: Order, p: Split) returns (r: Result)
    requires Fits(o, p)
    ensures r == Ok(V3Policy.Selection(o, p))
  {
    var middle, evict := p.n - p.prefix - p.recent, p.n - p.budget;
    if evict > middle {
      return Err(TooFewSlots);
    }
    hide Marked, Members, Segment, Split.Cut, Split.Quota;
    NothingMarked(o, p);
    var mask := new bool[p.n](i => i < p.prefix || i >= p.n - p.recent);
    for s := 0 to p.segments
      invariant forall i: nat :: i < p.n ==> (mask[i] <==> Marked(o, p, s, i))
    {
      MarkSegment(o, p, s, mask);
      forall i: nat | i < p.n ensures mask[i] <==> Marked(o, p, s + 1, i) { MarkedNext(o, p, s, i); }
    }
    var marked := set i: nat | i < p.n && mask[i];
    var selected := Members(marked, 0, p.n);
    MarkedSelects(o, p, marked);
    if |selected| != p.budget {
      return Err(WrongCount);
    }
    r := Ok(selected);
  }

  // ---------------------------------------------------------------- the batched plan

  datatype BatchedPlan = BatchedPlan(width: nat, maxQuota: nat, sortedTopk: bool, quotas: seq<nat>, offsets: seq<nat>)

  function SumTo(q: seq<nat>, s: nat): nat
    requires s <= |q|
  {
    if s == 0 then 0 else SumTo(q, s - 1) + q[s - 1]
  }

  function MaxOf(q: seq<nat>): (m: nat)
    requires |q| > 0
    ensures m in q && forall i :: 0 <= i < |q| ==> q[i] <= m
  {
    if |q| == 1 then q[0] else if q[0] >= MaxOf(q[1..]) then q[0] else MaxOf(q[1..])
  }

  function MinOf(q: seq<nat>): (m: nat)
    requires |q| > 0
    ensures m in q && forall i :: 0 <= i < |q| ==> q[i] >= m
  {
    if |q| == 1 then q[0] else if q[0] <= MinOf(q[1..]) then q[0] else MinOf(q[1..])
  }

  function RawQuota(p: Split, width: nat, s: nat): int
    requires p.Valid() && p.Middle() > 0
  {
    width - p.Evict() * ((s + 1) * width) / p.Middle() + p.Evict() * (s * width) / p.Middle()
  }

  /** `_v3_batched_plan`. */
  function PlanV3(p: Split): Option<BatchedPlan>
    requires p.Valid()
  {
    if p.Middle() == 0 || p.Middle() % p.segments != 0 then None
    else
      var width := p.Middle() / p.segments;
      if exists s :: 0 <= s < p.segments && RawQuota(p, width, s) <= 0 then None
      else
        var quotas := seq(p.segments, s requires 0 <= s < p.segments => RawQuota(p, width, s) as nat);
        Some(BatchedPlan(width, MaxOf(quotas), MinOf(quotas) != MaxOf(quotas), quotas,
                         seq(p.segments, s requires 0 <= s < p.segments => p.prefix + SumTo(quotas, s))))
  }

  lemma EqualCuts(p: Split, s: nat)
    requires p.Valid() && p.Middle() > 0 && p.Middle() % p.segments == 0
    ensures p.Cut(s) == s * (p.Middle() / p.segments)
    ensures p.Width(s) == p.Middle() / p.segments
  {
    var w := p.Middle() / p.segments;
    assert p.Middle() == w * p.segments;
    forall t: nat ensures p.Cut(t) == t * w {
      assert p.Middle() * t == (t * w) * p.segments;
      DivModUnique(t * w, p.segments, 0);
    }
    assert (s + 1) * w == s * w + w;
  }

  /** The cached plan's numbers are the loop's. */
  ghost predicate PlanMatches(p: Split, plan: BatchedPlan, s: nat)
    requires p.Valid() && s < p.segments && |plan.quotas| == |plan.offsets| == p.segments
  {
    && p.Width(s) == plan.width && Start(p, s) == p.prefix + s * plan.width
    && plan.quotas[s] == p.Quota(s) && 0 < plan.quotas[s] <= plan.maxQuota <= plan.width
    && plan.offsets[s] == p.prefix + p.Quotas(s)
    && (!plan.sortedTopk ==> plan.quotas[s] == plan.maxQuota)
  }

  lemma {:induction false} SumMatches(p: Split, q: seq<nat>, s: nat)
    requires p.Valid() && |q| == p.segments && s <= |q|
    requires forall t :: 0 <= t < |q| ==> q[t] == p.Quota(t)
    ensures SumTo(q, s) == p.Quotas(s)
  {
    if s > 0 { SumMatches(p, q, s - 1); }
  }

  lemma PlanFacts(p: Split)
    requires p.Valid() && PlanV3(p).Some?
    ensures var plan := PlanV3(p).value;
      && |plan.quotas| == |plan.offsets| == p.segments
      && forall s :: 0 <= s < p.segments ==> PlanMatches(p, plan, s)
  {
    hide Split.Quota, Split.Cut, MaxOf, MinOf;
    var plan := PlanV3(p).value;
    forall s: nat | s < p.segments ensures plan.quotas[s] == p.Quota(s) && plan.quotas[s] <= plan.width { RawIsQuota(p, s); }
    forall s: nat | s < p.segments ensures PlanMatches(p, plan, s) {
      EqualCuts(p, s);
      SumMatches(p, plan.quotas, s);
      assert plan.maxQuota in plan.quotas;
    }
  }

  /** The batched path applies exactly to a nonempty middle in equal segments that all keep something. */
  lemma PlanExists(p: Split)
    requires p.Valid()
    ensures PlanV3(p).Some? <==> p.Middle() > 0 && p.Middle() % p.segments == 0 && forall s: nat :: s < p.segments ==> p.Quota(s) > 0
  {
    hide Split.Quota, Split.Cut, MaxOf, MinOf, RawQuota;
    if p.Middle() > 0 && p.Middle() % p.segments == 0 {
      forall s: nat | s < p.segments ensures RawQuota(p, p.Middle() / p.segments, s) == p.Quota(s) { RawIsQuota(p, s); }
    }
  }

  lemma RawIsQuota(p: Split, s: nat)
    requires p.Valid() && p.Middle() > 0 && p.Middle() % p.segments == 0 && s < p.segments
    ensures RawQuota(p, p.Middle() / p.segments, s) == p.Quota(s) <= p.Middle() / p.segments
  {
    EqualCuts(p, s);
    EqualCuts(p, s + 1);
    QuotaBounds(p, s);
  }

  // ---------------------------------------------------------------- one batched row

  function Repeat(x: int, n: nat): (r: seq<int>)
    ensures |r| == n && forall i :: 0 <= i < n ==> r[i] == x
  {
    seq(n, i requires 0 <= i < n => x)
  }

  /** The first `q` ranks are the top `q`: a longer sorted list only appends, and an unsorted one is not
      cut. */
  lemma FrontIsTop(o: Order, lo: nat, hi: nat, q: nat, k: nat, sorted: bool, ranked: seq<nat>)
    requires o.Valid() && lo <= hi <= |o.scores| && q <= k <= hi - lo && |ranked| == k
    requires forall x: nat :: x in ranked <==> lo + x in TopIn(o, lo, hi, k)
    requires sorted ==> forall r :: 0 <= r < k ==> lo + ranked[r] == TopSeqIn(o, lo, hi, k)[r]
    requires !sorted ==> q == k
    ensures forall x: nat :: x in ranked[..q] <==> lo + x in TopIn(o, lo, hi, q)
  {
    if sorted {
      WindowSize(lo, hi);
      TopSeqPrefix(o, Window(lo, hi), q, k);
      var t, front := TopSeqIn(o, lo, hi, q), ranked[..q];
      assert forall r :: 0 <= r < q ==> lo + front[r] == t[r];
      forall x: nat ensures x in front <==> lo + x in t {
        if lo + x in t {
          var r :| 0 <= r < q && t[r] == lo + x;
          assert front[r] == x;
        }
      }
    } else {
      assert ranked[..q] == ranked;
    }
  }

  function Lowered(row: seq<nat>, lo: nat): (r: seq<int>)
    ensures |r| == |row| && forall i :: 0 <= i < |row| ==> r[i] == row[i] - lo
  {
    seq(|row|, i requires 0 <= i < |row| => row[i] - lo)
  }

  lemma LoweredMembers(t: set<nat>, lo: nat, hi: nat, front: seq<nat>)
    requires Distinct(front) && t <= Window(lo, hi) && forall x: nat :: x in front <==> lo + x in t
    ensures var low := Lowered(Members(t, lo, hi), lo);
      && Ascending(Members(t, lo, hi)) && (forall i :: 0 <= i < |low| ==> 0 <= low[i] < hi - lo)
      && Distinct(low) && forall x: int :: x in front <==> x in low
  {
    var m, low := Members(t, lo, hi), Lowered(Members(t, lo, hi), lo);
    MembersFacts(t, lo, hi);
    assert forall i :: 0 <= i < |m| ==> m[i] in m;
    forall x: int ensures x in front <==> x in low {
      if x in front {
        var i :| 0 <= i < |m| && m[i] == lo + x;
        assert low[i] == x;
      }
      if x in low {
        var i :| 0 <= i < |low| && low[i] == x;
        assert m[i] == lo + x;
      }
    }
  }

  /** Padding with the segment width and sorting puts the kept tokens first, ascending. */
  lemma PaddedRow(t: set<nat>, lo: nat, hi: nat, front: seq<nat>, extra: nat)
    requires lo <= hi && Distinct(front) && t <= Window(lo, hi) && forall x: nat :: x in front <==> lo + x in t
    ensures |Members(t, lo, hi)| == |front|
    ensures Sort(front + Repeat(hi - lo, extra)) == Lowered(Members(t, lo, hi), lo) + Repeat(hi - lo, extra)
  {
    hide Sort, Members, Lowered, Repeat;
    var low, tail := Lowered(Members(t, lo, hi), lo), Repeat(hi - lo, extra);
    LoweredMembers(t, lo, hi, front);
    SameMembers(front, low);
    assert multiset(front + tail) == multiset(low + tail);
    SortedUnique(Sort(front + tail), low + tail);
  }

  lemma SameMembers(a: seq<int>, b: seq<int>)
    requires Distinct(a) && Distinct(b) && forall x :: x in a <==> x in b
    ensures multiset(a) == multiset(b) && |a| == |b|
  {
    DistinctMultiset(a, b);
    assert |multiset(a)| == |a| && |multiset(b)| == |b|;
  }

  /** What the row's ranks become once padded and sorted. */
  lemma RowChosen(o: Order, p: Split, plan: BatchedPlan, s: nat, ranked: seq<nat>, chosen: seq<int>)
    requires Fits(o, p) && s < p.segments && |plan.quotas| == |plan.offsets| == p.segments && PlanMatches(p, plan, s)
    requires |ranked| == plan.maxQuota && Distinct(ranked)
    requires Start(p, s) + plan.width == Start(p, s + 1) <= p.n
    requires forall x: nat :: x in ranked <==> Start(p, s) + x in TopIn(o, Start(p, s), Start(p, s + 1), plan.maxQuota)
    requires plan.sortedTopk ==>
      forall r :: 0 <= r < |ranked| ==> Start(p, s) + ranked[r] == TopSeqIn(o, Start(p, s), Start(p, s + 1), plan.maxQuota)[r]
    requires chosen == ranked[..plan.quotas[s]] + Repeat(plan.width, plan.maxQuota - plan.quotas[s])
    ensures |Row(o, p, s)| == plan.quotas[s]
    ensures Sort(chosen) == Lowered(Row(o, p, s), Start(p, s)) + Repeat(plan.width, plan.maxQuota - plan.quotas[s])
  {
    hide Sort, Split.Cut, Split.Quota, Members, TopIn, TopSeqIn;
    var lo, hi, q := Start(p, s), Start(p, s + 1), plan.quotas[s];
    FrontIsTop(o, lo, hi, q, plan.maxQuota, plan.sortedTopk, ranked);
    SegmentIsTop(o, p, s);
    SegmentFacts(o, p, s);
    PaddedRow(Segment(o, p, s), lo, hi, ranked[..q], plan.maxQuota - q);
  }

  lemma SegmentIsTop(o: Order, p: Split, s: nat)
    requires Fits(o, p) && s < p.segments
    ensures Start(p, s) <= Start(p, s + 1) <= p.n && 0 <= p.Quota(s) <= Start(p, s + 1) - Start(p, s)
    ensures TopIn(o, Start(p, s), Start(p, s + 1), p.Quota(s)) == Segment(o, p, s)
  {
    SegmentFits(p, s);
  }

  /** One row of `torch.where` and `torch.sort`, moved to its segment. */
  method ChooseRow(o: Order, p: Split, plan: BatchedPlan, s: nat) returns (row: seq<int>)
    requires Fits(o, p) && s < p.segments && |plan.quotas| == |plan.offsets| == p.segments && PlanMatches(p, plan, s)
    ensures |row| == plan.maxQuota && |Row(o, p, s)| == plan.quotas[s]
    ensures forall r :: 0 <= r < plan.quotas[s] ==> row[r] == Row(o, p, s)[r]
  {
    hide Sort, Split.Cut, Split.Quota, Row, TopIn, TopSeqIn;
    var lo, q := p.prefix + s * plan.width, plan.quotas[s];
    SegmentIsTop(o, p, s);
    assert lo == Start(p, s) && lo + plan.width == Start(p, s + 1);
    var ranked := TopK(o, lo, lo + plan.width, plan.maxQuota, plan.sortedTopk);
    var chosen: seq<int> := seq(plan.maxQuota, r requires 0 <= r < plan.maxQuota => if r < q then ranked[r] else plan.width);
    assert chosen == ranked[..q] + Repeat(plan.width, plan.maxQuota - q);
    RowChosen(o, p, plan, s, ranked, chosen);
    var sorted := Sort(chosen);
    row := seq(plan.maxQuota, r requires 0 <= r < plan.maxQuota && plan.maxQuota <= |sorted| => sorted[r] + lo);
  }

  // ---------------------------------------------------------------- the scatter

  /** Every target below the recent window belongs to one entry of one segment. */
  lemma {:induction false} FindEntry(p: Split, s: nat, t: nat) returns (u: nat, r: nat)
    requires p.Valid() && s <= p.segments && t < p.Quotas(s)
    ensures u < s && r < p.Quota(u) && t == p.Quotas(u) + r
    decreases s
  {
    QuotasMonotone(p, s - 1, s);
    if t < p.Quotas(s - 1) {
      u, r := FindEntry(p, s - 1, t);
    } else {
      u, r := s - 1, t - p.Quotas(s - 1);
    }
  }

  /** A rank that its segment keeps. */
  predicate Entry(plan: BatchedPlan, s: nat, r: nat) {
    s < |plan.quotas| == |plan.offsets| && r < plan.quotas[s]
  }

  /** Scatters in any order: padded ranks all collide on slot zero, every other slot ends as expected. */
  method Scatter(p: Split, plan: BatchedPlan, chosen: seq<seq<int>>, ghost expected: seq<nat>) returns (result: array<int>)
    requires p.Valid() && |plan.quotas| == |plan.offsets| == |chosen| == p.segments && |expected| == p.budget
    requires forall s :: 0 <= s < p.segments ==> plan.quotas[s] <= plan.maxQuota == |chosen[s]|
    requires forall s: nat, r: nat :: Entry(plan, s, r) ==>
      plan.offsets[s] + r < p.budget && chosen[s][r] == expected[plan.offsets[s] + r]
    ensures fresh(result) && result.Length == p.budget
    ensures forall s: nat, r: nat :: Entry(plan, s, r) && plan.offsets[s] + r > 0 ==>
      result[plan.offsets[s] + r] == expected[plan.offsets[s] + r]
  {
    result := new int[p.budget];
    ghost var done: set<nat> := {};
    var todo := set s: nat, r: nat | s < p.segments && r < plan.maxQuota :: (s, r);
    ghost var all := todo;
    while todo != {}
      invariant todo <= all
      invariant forall t :: t in done ==> t < p.budget && result[t] == expected[t]
      invariant forall s: nat, r: nat :: Entry(plan, s, r) && (s, r) !in todo && plan.offsets[s] + r > 0 ==> plan.offsets[s] + r in done
    {
      var pair :| pair in todo;
      var s, r := pair.0, pair.1;
      var target := if r < plan.quotas[s] then r + plan.offsets[s] else 0;
      assert r < plan.quotas[s] ==> Entry(plan, s, r);
      result[target] := chosen[s][r];
      if target > 0 { done := done + {target}; } else { done := done - {0}; }
      todo := todo - {pair};
    }
  }

  predicate RowFits(plan: BatchedPlan, s: nat, row: seq<int>, expected: seq<nat>)
    requires s < |plan.quotas| == |plan.offsets|
  {
    forall r: nat :: r < plan.quotas[s] ==> FitsAt(plan, s, row, expected, r)
  }

  predicate FitsAt(plan: BatchedPlan, s: nat, row: seq<int>, expected: seq<nat>, r: nat)
    requires s < |plan.quotas| == |plan.offsets|
  {
    r < |row| && plan.offsets[s] + r < |expected| && row[r] == expected[plan.offsets[s] + r]
  }

  /** Every row of the batch, chosen and sorted. */
  method ChooseRows(o: Order, p: Split, plan: BatchedPlan) returns (chosen: seq<seq<int>>)
    requires Fits(o, p) && |plan.quotas| == |plan.offsets| == p.segments
    requires forall s :: 0 <= s < p.segments ==> PlanMatches(p, plan, s)
    ensures |chosen| == p.segments
    ensures forall s :: 0 <= s < p.segments ==> |chosen[s]| == plan.maxQuota && RowFits(plan, s, chosen[s], V3Policy.Selection(o, p))
  {
    hide V3Policy.Selection;
    chosen := [];
    for s := 0 to p.segments
      invariant |chosen| == s
      invariant forall t :: 0 <= t < s ==> |chosen[t]| == plan.maxQuota && RowFits(plan, t, chosen[t], V3Policy.Selection(o, p))
    {
      assert PlanMatches(p, plan, s);
      var row := ChooseRow(o, p, plan, s);
      RowLands(o, p, plan, s, row);
      chosen := chosen + [row];
    }
  }

  lemma RowLands(o: Order, p: Split, plan: BatchedPlan, s: nat, row: seq<int>)
    requires Fits(o, p) && s < p.segments && |plan.quotas| == |plan.offsets| == p.segments && PlanMatches(p, plan, s)
    requires |row| == plan.maxQuota && |Row(o, p, s)| == plan.quotas[s]
    requires forall r :: 0 <= r < plan.quotas[s] ==> row[r] == Row(o, p, s)[r]
    ensures RowFits(plan, s, row, V3Policy.Selection(o, p))
  {
    hide V3Policy.Selection, Row, Split.Quota;
    forall r: nat | r < plan.quotas[s] ensures FitsAt(plan, s, row, V3Policy.Selection(o, p), r) {
      SelectionAt(o, p, s, r);
    }
  }

  /** The repaired result is the expected list: both windows, slot zero, and every scattered entry. */
  lemma RepairedEverywhere(p: Split, plan: BatchedPlan, result: seq<int>, expected: seq<nat>)
    requires p.Valid() && |plan.quotas| == |plan.offsets| == p.segments
    requires forall t :: 0 <= t < p.segments ==> PlanMatches(p, plan, t)
    requires |result| == |expected| == p.budget == p.prefix + p.Quotas(p.segments) + p.recent
    requires forall i :: 0 <= i < p.prefix || p.budget - p.recent <= i < p.budget ==> result[i] == expected[i]
    requires forall s: nat, r: nat :: Entry(plan, s, r) && plan.offsets[s] + r > 0 ==>
      plan.offsets[s] + r < p.budget && result[plan.offsets[s] + r] == expected[plan.offsets[s] + r]
    requires result[0] == expected[0]
    ensures result == expected
  {
    forall t: nat | t < p.budget ensures result[t] == expected[t] {
      if p.prefix <= t < p.budget - p.recent && t > 0 {
        var s, r := FindEntry(p, p.segments, t - p.prefix);
        assert PlanMatches(p, plan, s);
        assert Entry(plan, s, r) && plan.offsets[s] + r == t;
      }
    }
  }

  /** `_select_v3_batched`: whenever it applies it returns exactly the loop's list. */
  method SelectV3Batched(o: Order, p: Split) returns (result: Option<seq<int>>)
    requires Fits(o, p)
    ensures result.Some? <==> p.Middle() > 0 && p.Middle() % p.segments == 0 && forall s: nat :: s < p.segments ==> p.Quota(s) > 0
    ensures result.Some? ==> result.value == V3Policy.Selection(o, p)
  {
    PlanExists(p);
    hide V3Policy.Selection, PlanV3, PlanMatches, RowFits, Split.Quota, Split.Quotas;
    var found := PlanV3(p);
    if found.None? {
      return None;
    }
    var plan := found.value;
    PlanFacts(p);
    ghost var expected := V3Policy.Selection(o, p);
    SelectionEnds(o, p);
    QuotasExact(p);
    var chosen := ChooseRows(o, p, plan);
    EntriesLand(p, plan, chosen, expected);
    var slots := Scatter(p, plan, chosen, expected);
    ZeroEntry(p, plan);
    Repair(p, slots, chosen[0][0]);
    RepairedEverywhere(p, plan, slots[..], expected);
    result := Some(slots[..]);
  }

  lemma EntriesLand(p: Split, plan: BatchedPlan, chosen: seq<seq<int>>, expected: seq<nat>)
    requires p.Valid() && |plan.quotas| == |plan.offsets| == |chosen| == p.segments && |expected| == p.budget
    requires forall s :: 0 <= s < p.segments ==> PlanMatches(p, plan, s)
    requires forall s :: 0 <= s < p.segments ==> |chosen[s]| == plan.maxQuota && RowFits(plan, s, chosen[s], expected)
    ensures forall s :: 0 <= s < p.segments ==> plan.quotas[s] <= plan.maxQuota == |chosen[s]|
    ensures forall s: nat, r: nat :: Entry(plan, s, r) ==>
      plan.offsets[s] + r < p.budget && chosen[s][r] == expected[plan.offsets[s] + r]
  {
    hide Split.Cut, Split.Quota, Split.Quotas;
    forall s | 0 <= s < p.segments ensures plan.quotas[s] <= plan.maxQuota { assert PlanMatches(p, plan, s); }
    forall s: nat, r: nat | Entry(plan, s, r) ensures plan.offsets[s] + r < p.budget && chosen[s][r] == expected[plan.offsets[s] + r] {
      assert RowFits(plan, s, chosen[s], expected);
      assert FitsAt(plan, s, chosen[s], expected, r);
    }
  }

  /** Restores slot zero after the collisions, and writes both protected windows. */
  method Repair(p: Split, slots: array<int>, first: int)
    requires p.Valid() && slots.Length == p.budget
    modifies slots
    ensures forall i :: 0 <= i < p.prefix ==> slots[i] == i
    ensures forall i :: p.budget - p.recent <= i < p.budget ==> slots[i] == p.n - p.budget + i
    ensures p.prefix == 0 && p.recent < p.budget ==> slots[0] == first
    ensures forall i :: 1 <= i && p.prefix <= i < p.budget - p.recent ==> slots[i] == old(slots[i])
  {
    if p.prefix > 0 {
      forall i | 0 <= i < p.prefix {
        slots[i] := i;
      }
    } else {
      slots[0] := first;
    }
    forall i | p.budget - p.recent <= i < p.budget {
      slots[i] := p.n - p.budget + i;
    }
  }

  /** Without a prefix, slot zero is the first entry of the first segment. */
  lemma ZeroEntry(p: Split, plan: BatchedPlan)
    requires p.Valid() && |plan.quotas| == |plan.offsets| == p.segments
    requires forall t :: 0 <= t < p.segments ==> PlanMatches(p, plan, t)
    ensures Entry(plan, 0, 0) && plan.offsets[0] == p.prefix && p.prefix + p.recent < p.budget
  {
    assert PlanMatches(p, plan, 0);
    assert p.Quotas(1) == p.Quotas(0) + p.Quota(0) > 0;
    QuotasMonotone(p, 1, p.segments);
    QuotasExact(p);
  }

  // ---------------------------------------------------------------- the entry point

  function Rejects(n: nat, budget: int, prefix: int, recent: int, segments: int): Option<SelectionError> {
    if budget <= 0 || budget > n then Some(BadBudget)
    else if prefix < 0 || recent < 0 then Some(NegativeWindow)
    else if prefix + recent > budget then Some(WindowsExceedBudget)
    else if segments <= 0 then Some(BadSegments)
    else None
  }

  /** Sorting a list of distinct indices lists them in ascending order. */
  lemma SortIsMembers(selected: seq<nat>, t: set<nat>, n: nat)
    requires Distinct(selected) && t <= Window(0, n) && forall x: nat :: x in selected <==> x in t
    ensures Sort(selected) == Members(t, 0, n)
  {
    var m: seq<int> := Members(t, 0, n);
    MembersFacts(t, 0, n);
    SameMembers(selected, m);
    SortedUnique(Sort(selected), m);
  }

  /** The global branch: one top-k over all tokens with the protected ones lifted to positive infinity. */
  method SelectGlobal(o: Order, p: Split) returns (selected: seq<nat>)
    requires Fits(o, p)
    ensures selected == GlobalSelection(o, p)
  {
    var ranked := Protect(o, p);
    var top := TopK(ranked, 0, p.n, p.budget, false);
    GlobalFacts(o, p);
    assert forall x: nat :: x in top <==> x in GlobalTop(o, p) by {
      assert forall x: nat :: x in top <==> 0 + x in TopIn(ranked, 0, p.n, p.budget);
    }
    SortIsMembers(top, GlobalTop(o, p), p.n);
    selected := Sort(top);
  }

  /** `select_keep_indices`: the only errors are the rejected inputs; neither internal error can occur, and
      the accelerator's batched path changes nothing. */
  method SelectKeepIndices(o: Order, budget: int, protectedPrefix: int, protectedRecent: int, segments: int,
                           policy: Policy, npu: bool) returns (r: Result)
    requires o.Valid()
    ensures (0 < budget <= |o.scores| && protectedPrefix >= 0 && protectedRecent >= 0
        && protectedPrefix + protectedRecent <= budget && segments > 0 && policy != Other) <==> r.Ok?
    ensures r == Err(BadBudget) <==> !(0 < budget <= |o.scores|)
    ensures r == Err(NegativeWindow) ==> protectedPrefix < 0 || protectedRecent < 0
    ensures r == Err(WindowsExceedBudget) ==> protectedPrefix >= 0 && protectedRecent >= 0 && protectedPrefix + protectedRecent > budget
    ensures r == Err(BadSegments) ==> segments <= 0
    ensures r == Err(UnknownPolicy) ==> policy == Other
    ensures var reason := Rejects(|o.scores|, budget, protectedPrefix, protectedRecent, segments);
      if reason.Some? then r == Err(reason.value)
      else
        var p := Split(|o.scores|, budget, protectedPrefix, protectedRecent, segments);
        match policy
        case Global => r == Ok(GlobalSelection(o, p))
        case V3 => r == Ok(V3Policy.Selection(o, p))
        case Other => r == Err(UnknownPolicy)
  {
    hide V3Policy.Selection, GlobalSelection, PlanV3;
    var n := |o.scores|;
    if budget <= 0 || budget > n {
      return Err(BadBudget);
    }
    if protectedPrefix < 0 || protectedRecent < 0 {
      return Err(NegativeWindow);
    }
    if protectedPrefix + protectedRecent > budget {
      return Err(WindowsExceedBudget);
    }
    if segments <= 0 {
      return Err(BadSegments);
    }
    var prefix := if protectedPrefix < n then protectedPrefix else n;
    var recent := if protectedRecent < n - prefix then protectedRecent else n - prefix;
    var p := Split(n, budget, prefix, recent, segments);
    match policy {
      case Global =>
        var selected := SelectGlobal(o, p);
        r := Ok(selected);
      case Other =>
        r := Err(UnknownPolicy);
      case V3 =>
        if npu {
          var batched := SelectV3Batched(o, p);
          if batched.Some? {
            return Ok(batched.value);
          }
        }
        r := SelectV3(o, p);
    }
  }
}
