// What the V3 policy keeps, as a set, and where each kept index lands in the ascending list.

module V3Policy {
  import opened Common
  import opened Quotas
  import opened Ranking
  import opened Dispatch

  /** Inputs that agree: one score and one tie-break per token. */
  predicate Fits(o: Order, p: Split) {
    o.Valid() && p.Valid() && |o.scores| == p.n
  }

  function Start(p: Split, s: nat): nat
    requires p.Valid()
  {
    p.prefix + p.Cut(s)
  }

  lemma {:induction false} CutsMonotone(p: Split, s: nat, t: nat)
    requires p.Valid() && s <= t
    ensures p.Cut(s) <= p.Cut(t)
    decreases t
  {
    if s < t {
      CutsMonotone(p, s, t - 1);
      CutFacts(p, t - 1);
    }
  }

  lemma SegmentFits(p: Split, s: nat)
    requires p.Valid() && s < p.segments
    ensures Start(p, s) <= Start(p, s + 1) <= p.n - p.recent
    ensures 0 <= p.Quota(s) <= |Window(Start(p, s), Start(p, s + 1))| == p.Width(s)
    ensures Window(Start(p, s), Start(p, s + 1)) <= Window(0, p.n)
  {
    CutFacts(p, s);
    CutFacts(p, s + 1);
    QuotaBounds(p, s);
    WindowSize(Start(p, s), Start(p, s + 1));
  }

  /** The tokens that segment `s` keeps: as many of its best as its quota says. */
  ghost function Segment(o: Order, p: Split, s: nat): set<nat>
    requires Fits(o, p) && s < p.segments
  {
    SegmentFits(p, s);
    Top(o, Window(Start(p, s), Start(p, s + 1)), p.Quota(s))
  }

  ghost predicate InSegment(o: Order, p: Split, s: nat, i: nat)
    requires Fits(o, p)
  {
    s < p.segments && i in Segment(o, p, s)
  }

  ghost predicate Keeps(o: Order, p: Split, i: nat)
    requires Fits(o, p)
  {
    i < p.prefix || i >= p.n - p.recent || exists s :: InSegment(o, p, s, i)
  }

  ghost function Kept(o: Order, p: Split): set<nat>
    requires Fits(o, p)
  {
    set i | i in Window(0, p.n) && Keeps(o, p, i)
  }

  /** The V3 policy's answer. */
  ghost function Selection(o: Order, p: Split): seq<nat>
    requires Fits(o, p)
  {
    Members(Kept(o, p), 0, p.n)
  }

  // ---------------------------------------------------------------- one segment

  lemma SegmentFacts(o: Order, p: Split, s: nat)
    requires Fits(o, p) && s < p.segments
    ensures var w, k := Window(Start(p, s), Start(p, s + 1)), Segment(o, p, s);
      && k <= w && |k| == p.Quota(s) && (p.Quota(s) == p.Width(s) ==> k == w)
      && (forall i, j :: i in k && j in w - k ==> i < p.n && j < p.n && !Less(o.scores[i], o.scores[j]))
  {
    SegmentFits(p, s);
    TopFacts(o, Window(Start(p, s), Start(p, s + 1)), p.Quota(s));
  }

  /** Inside its window, what is kept is what its segment keeps. */
  lemma KeptInWindow(o: Order, p: Split, s: nat, i: nat)
    requires Fits(o, p) && s < p.segments && Start(p, s) <= i < Start(p, s + 1)
    ensures i in Kept(o, p) <==> i in Segment(o, p, s)
  {
    hide Segment, Split.Cut, Split.Quota;
    SegmentFits(p, s);
    assert i in Window(0, p.n);
    if Keeps(o, p, i) {
      var t :| InSegment(o, p, t, i);
      OnlySegment(o, p, s, t, i);
    }
    assert i in Segment(o, p, s) ==> InSegment(o, p, s, i);
  }

  lemma OnlySegment(o: Order, p: Split, s: nat, t: nat, i: nat)
    requires Fits(o, p) && s < p.segments && Start(p, s) <= i < Start(p, s + 1) && InSegment(o, p, t, i)
    ensures t == s
  {
    hide Split.Cut, Split.Quota, Segment;
    SegmentFacts(o, p, t);
    if t < s { CutsMonotone(p, t + 1, s); }
    if s < t { CutsMonotone(p, s + 1, t); }
  }

  /** The kept tokens of one segment, ascending. */
  ghost function Row(o: Order, p: Split, s: nat): seq<nat>
    requires Fits(o, p) && s < p.segments
  {
    Members(Segment(o, p, s), Start(p, s), Start(p, s + 1))
  }

  lemma RowFacts(o: Order, p: Split, s: nat)
    requires Fits(o, p) && s < p.segments
    ensures |Row(o, p, s)| == p.Quota(s)
    ensures Members(Kept(o, p), Start(p, s), Start(p, s + 1)) == Row(o, p, s)
  {
    SegmentFacts(o, p, s);
    MembersCount(Segment(o, p, s), Start(p, s), Start(p, s + 1));
    forall i: nat | Start(p, s) <= i < Start(p, s + 1) ensures i in Kept(o, p) <==> i in Segment(o, p, s) {
      KeptInWindow(o, p, s, i);
    }
    MembersWindow(Kept(o, p), Segment(o, p, s), Start(p, s), Start(p, s + 1));
  }

  // ---------------------------------------------------------------- the layout of the answer

  lemma PrefixKept(o: Order, p: Split)
    requires Fits(o, p)
    ensures |Members(Kept(o, p), 0, p.prefix)| == p.prefix
    ensures forall i :: 0 <= i < p.prefix ==> Members(Kept(o, p), 0, p.prefix)[i] == i
  {
    forall i: nat | 0 <= i < p.prefix ensures i in Kept(o, p) { assert i in Window(0, p.n); }
    MembersAll(Kept(o, p), 0, p.prefix);
  }

  lemma RecentKept(o: Order, p: Split)
    requires Fits(o, p)
    ensures |Members(Kept(o, p), p.n - p.recent, p.n)| == p.recent
    ensures var m := Members(Kept(o, p), p.n - p.recent, p.n);
      forall i :: 0 <= i < p.recent ==> m[i] == p.n - p.recent + i
  {
    forall i: nat | p.n - p.recent <= i < p.n ensures i in Kept(o, p) { assert i in Window(0, p.n); }
    MembersAll(Kept(o, p), p.n - p.recent, p.n);
  }

  /** Before segment `s` come the prefix and the quotas of the earlier segments. */
  lemma {:induction false} CountBefore(o: Order, p: Split, s: nat)
    requires Fits(o, p) && s <= p.segments
    ensures |Members(Kept(o, p), 0, Start(p, s))| == p.prefix + p.Quotas(s)
  {
    if s == 0 {
      CutFacts(p, 0);
      PrefixKept(o, p);
    } else {
      hide Split.Cut, Split.Quota, Members;
      CountBefore(o, p, s - 1);
      SegmentFits(p, s - 1);
      RowFacts(o, p, s - 1);
      MembersSplit(Kept(o, p), 0, Start(p, s - 1), Start(p, s));
    }
  }

  /** The middle ends where the recent window starts. */
  lemma AllSegments(p: Split)
    requires p.Valid()
    ensures Start(p, p.segments) == p.n - p.recent
  {
    CutFacts(p, p.segments);
  }

  lemma SelectionSplit(o: Order, p: Split, s: nat)
    requires Fits(o, p) && s < p.segments
    ensures Selection(o, p) == Members(Kept(o, p), 0, Start(p, s)) + Row(o, p, s) + Members(Kept(o, p), Start(p, s + 1), p.n)
  {
    SegmentFits(p, s);
    RowFacts(o, p, s);
    MembersSplit(Kept(o, p), 0, Start(p, s), p.n);
    MembersSplit(Kept(o, p), Start(p, s), Start(p, s + 1), p.n);
  }

  /** Entry `r` of segment `s` lands right after everything before it. */
  lemma SelectionAt(o: Order, p: Split, s: nat, r: nat)
    requires Fits(o, p) && s < p.segments && r < p.Quota(s)
    ensures 0 <= p.Quotas(s)
    ensures p.prefix + p.Quotas(s) + r < |Selection(o, p)| && r < |Row(o, p, s)|
    ensures Selection(o, p)[p.prefix + p.Quotas(s) + r] == Row(o, p, s)[r]
  {
    CountBefore(o, p, s);
    RowFacts(o, p, s);
    SelectionSplit(o, p, s);
    QuotasMonotone(p, s, s);
  }

  lemma SelectionEnds(o: Order, p: Split)
    requires Fits(o, p)
    ensures |Selection(o, p)| == p.budget
    ensures forall i :: 0 <= i < p.prefix ==> Selection(o, p)[i] == i
    ensures forall i :: p.budget - p.recent <= i < p.budget ==> Selection(o, p)[i] == p.n - p.budget + i
  {
    var k := Kept(o, p);
    AllSegments(p);
    CountBefore(o, p, p.segments);
    QuotasExact(p);
    RecentKept(o, p);
    PrefixKept(o, p);
    MembersSplit(k, 0, Start(p, p.segments), p.n);
    MembersSplit(k, 0, p.prefix, p.n);
    var front := Members(k, 0, Start(p, p.segments));
    assert |front| == p.budget - p.recent;
    forall i | p.budget - p.recent <= i < p.budget ensures Selection(o, p)[i] == p.n - p.budget + i {
      assert Selection(o, p)[i] == Members(k, p.n - p.recent, p.n)[i - |front|];
    }
  }

  /** For every accepted input the answer is strictly increasing, in range, exactly as long as the budget,
      and starts and ends with the protected windows. */
  lemma SelectionGood(o: Order, p: Split)
    requires Fits(o, p)
    ensures GoodKeep(Selection(o, p), p.n, p.budget, p.prefix, p.recent)
  {
    SelectionEnds(o, p);
    MembersFacts(Kept(o, p), 0, p.n);
    forall i | 0 <= i < |Selection(o, p)| ensures Selection(o, p)[i] < p.n {
      assert Selection(o, p)[i] in Selection(o, p);
    }
  }

  /** Each segment keeps its top scores: nothing it evicts scores above anything it keeps. */
  lemma SelectionTop(o: Order, p: Split, s: nat, i: nat, j: nat)
    requires Fits(o, p) && s < p.segments
    requires Start(p, s) <= i < Start(p, s + 1) && Start(p, s) <= j < Start(p, s + 1)
    requires i in Selection(o, p) && j !in Selection(o, p)
    ensures i < p.n && j < p.n && !Less(o.scores[i], o.scores[j])
    ensures o.scores[i].Finite? && o.scores[j].Finite? ==> o.scores[i].v >= o.scores[j].v
    ensures (o.scores[j].PosInf? ==> o.scores[i].PosInf?) && (o.scores[i].NegInf? ==> o.scores[j].NegInf?)
  {
    SegmentFits(p, s);
    MembersFacts(Kept(o, p), 0, p.n);
    KeptInWindow(o, p, s, i);
    KeptInWindow(o, p, s, j);
    SegmentFacts(o, p, s);
  }

  // ---------------------------------------------------------------- the global policy

  /** The global policy overwrites protected scores with positive infinity. */
  function Protect(o: Order, p: Split): Order
    requires Fits(o, p)
  {
    Order(seq(p.n, i requires 0 <= i < p.n => if i < p.prefix || i >= p.n - p.recent then PosInf else o.scores[i]), o.ties)
  }

  function GlobalTop(o: Order, p: Split): set<nat>
    requires Fits(o, p)
  {
    WindowSize(0, p.n);
    Top(Protect(o, p), Window(0, p.n), p.budget)
  }

  function GlobalSelection(o: Order, p: Split): seq<nat>
    requires Fits(o, p)
  {
    Members(GlobalTop(o, p), 0, p.n)
  }

  predicate Protected(p: Split, i: nat) {
    i < p.n && (i < p.prefix || i + p.recent >= p.n)
  }

  /** The tokens that compete with the protected ones: unprotected, yet scored positive infinity. */
  ghost function Rivals(o: Order, p: Split): set<nat>
    requires Fits(o, p)
  {
    set i | i in Window(0, p.n) && !Protected(p, i) && o.scores[i] == PosInf
  }

  lemma GlobalFacts(o: Order, p: Split)
    requires Fits(o, p)
    ensures |GlobalTop(o, p)| == |GlobalSelection(o, p)| == p.budget && Ascending(GlobalSelection(o, p))
    ensures forall i :: i in GlobalSelection(o, p) <==> i in GlobalTop(o, p)
    ensures forall i :: i in GlobalTop(o, p) ==> i < p.n
    ensures forall i: nat, j: nat :: i in GlobalTop(o, p) && j < p.n && j !in GlobalTop(o, p) ==> i < p.n && Protect(o, p).Above(i, j)
  {
    WindowSize(0, p.n);
    TopFacts(Protect(o, p), Window(0, p.n), p.budget);
    TopSeqFacts(Protect(o, p), Window(0, p.n), p.budget);
    MembersCount(GlobalTop(o, p), 0, p.n);
    MembersFacts(GlobalTop(o, p), 0, p.n);
  }

  /** Among the unprotected tokens the global policy keeps the best: nothing it evicts was scored above
      anything it keeps. */
  lemma GlobalKeepsBest(o: Order, p: Split, i: nat, j: nat)
    requires Fits(o, p) && i in GlobalSelection(o, p) && !Protected(p, i) && j < p.n && j !in GlobalSelection(o, p)
    ensures i < p.n
    ensures o.scores[i].Finite? && o.scores[j].Finite? ==> o.scores[i].v >= o.scores[j].v
    ensures (o.scores[j].PosInf? ==> o.scores[i].PosInf?) && (o.scores[i].NegInf? ==> o.scores[j].NegInf?)
  {
    GlobalFacts(o, p);
    assert Protect(o, p).Above(i, j);
  }

  ghost function Shielded(p: Split): set<nat> {
    set i | i in Window(0, p.n) && Protected(p, i)
  }

  lemma ShieldedSize(p: Split)
    requires p.Valid()
    ensures |Shielded(p)| == p.prefix + p.recent
  {
    hide Window;
    WindowSize(0, p.prefix);
    WindowSize(p.n - p.recent, p.n);
    assert Shielded(p) == Window(0, p.prefix) + Window(p.n - p.recent, p.n);
    DisjointSize(Window(0, p.prefix), Window(p.n - p.recent, p.n));
  }

  lemma DisjointSize<T>(a: set<T>, b: set<T>)
    requires a !! b
    ensures |a + b| == |a| + |b|
  {
  }

  /** The protected tokens and their rivals: all of them end up at positive infinity. */
  ghost function Contenders(o: Order, p: Split): set<nat>
    requires Fits(o, p)
  {
    Shielded(p) + Rivals(o, p)
  }

  lemma ContendersMeet(o: Order, p: Split)
    requires Fits(o, p)
    ensures forall i: nat :: i in Contenders(o, p) <==> i < p.n && Protect(o, p).scores[i] == PosInf
  {
    forall i: nat | i < p.n ensures i in Contenders(o, p) <==> Protect(o, p).scores[i] == PosInf {
      assert i in Window(0, p.n);
    }
  }

  lemma ContendersSize(o: Order, p: Split)
    requires Fits(o, p)
    ensures |Contenders(o, p)| == p.prefix + p.recent + |Rivals(o, p)|
    ensures forall i: nat :: i in Contenders(o, p) <==> i < p.n && Protect(o, p).scores[i] == PosInf
  {
    ContendersMeet(o, p);
    hide Protect, Fits, Window;
    ShieldedSize(p);
    DisjointSize(Shielded(p), Rivals(o, p));
  }

  lemma SizeMonotone<T>(a: set<T>, b: set<T>)
    requires a <= b
    ensures |a| <= |b|
  {
    assert |b - a| == |b| - |a|;
  }

  /** With room for every contender no protected token is lost, whatever the tie-breaking. */
  lemma GlobalProtects(o: Order, p: Split, i: nat)
    requires Fits(o, p) && Protected(p, i)
    requires |Rivals(o, p)| + p.prefix + p.recent <= p.budget
    ensures i in GlobalTop(o, p)
  {
    GlobalFacts(o, p);
    ContendersSize(o, p);
    var t, c := GlobalTop(o, p), Contenders(o, p);
    assert i in c;
    if i !in t {
      forall j | j in t ensures j in c - {i} {
        assert Protect(o, p).Above(j, i);
      }
      SizeMonotone(t, c - {i});
    }
  }

  /** A tie-breaking order that puts token `i` last. */
  function LastTies(n: nat, i: nat): (ties: seq<int>)
    requires i < n
    ensures |ties| == n && Distinct(ties)
  {
    seq(n, j requires 0 <= j < n => if j == i then -1 else j)
  }

  /** Without room, the order that ranks a protected token last among its equals loses it. */
  lemma GlobalLoses(o: Order, p: Split, i: nat)
    requires Fits(o, p) && Protected(p, i)
    requires |Rivals(o, p)| + p.prefix + p.recent > p.budget
    ensures i !in GlobalTop(Order(o.scores, LastTies(p.n, i)), p)
  {
    var q := Order(o.scores, LastTies(p.n, i));
    GlobalFacts(q, p);
    ContendersSize(q, p);
    assert Rivals(q, p) == Rivals(o, p);
    var t, c := GlobalTop(q, p), Contenders(q, p);
    if i in t {
      forall j | j in c ensures j in t {
        assert !Protect(q, p).Above(i, j);
      }
      SizeMonotone(c, t);
    }
  }

  /** Exactly when the global policy keeps both protected windows under every tie-breaking order: nothing
      is protected, or the budget has room for every unprotected token scored positive infinity too. */
  lemma GlobalProtectsExactly(o: Order, p: Split)
    requires Fits(o, p)
    ensures (forall ties, i :: |ties| == p.n && Distinct(ties) && Protected(p, i) ==> i in GlobalTop(Order(o.scores, ties), p))
      <==> (p.prefix + p.recent == 0 || |Rivals(o, p)| + p.prefix + p.recent <= p.budget)
  {
    if p.prefix + p.recent == 0 {
    } else if |Rivals(o, p)| + p.prefix + p.recent <= p.budget {
      forall ties, i | |ties| == p.n && Distinct(ties) && Protected(p, i) ensures i in GlobalTop(Order(o.scores, ties), p) {
        assert Rivals(Order(o.scores, ties), p) == Rivals(o, p);
        GlobalProtects(Order(o.scores, ties), p, i);
      }
    } else {
      var i: nat := if p.prefix > 0 then 0 else p.n - 1;
      assert Protected(p, i);
      GlobalLoses(o, p, i);
    }
  }

  /** With room, and so always after sanitising, the global policy meets the same contract as V3. */
  lemma GlobalGood(o: Order, p: Split)
    requires Fits(o, p) && |Rivals(o, p)| + p.prefix + p.recent <= p.budget
    ensures GoodKeep(GlobalSelection(o, p), p.n, p.budget, p.prefix, p.recent)
  {
    GlobalFacts(o, p);
    var t := GlobalTop(o, p);
    forall i: nat | Protected(p, i) ensures i in t { GlobalProtects(o, p, i); }
    MembersGood(t, p);
  }

  /** An ascending list of the right size that contains both windows starts and ends with them. */
  lemma MembersGood(t: set<nat>, p: Split)
    requires p.Valid() && |Members(t, 0, p.n)| == p.budget && forall i: nat :: Protected(p, i) ==> i in t
    ensures GoodKeep(Members(t, 0, p.n), p.n, p.budget, p.prefix, p.recent)
  {
    hide Members, Window;
    var g, middle := Members(t, 0, p.n), p.n - p.recent;
    MembersFacts(t, 0, p.n);
    forall i | 0 <= i < |g| ensures g[i] < p.n { assert g[i] in g; }
    MembersSplit(t, 0, p.prefix, p.n);
    MembersAll(t, 0, p.prefix);
    MembersSplit(t, 0, middle, p.n);
    forall i: nat | middle <= i < p.n ensures i in t { assert Protected(p, i); }
    MembersAll(t, middle, p.n);
    forall i | p.budget - p.recent <= i < p.budget ensures g[i] == p.n - p.budget + i {
      assert g[i] == Members(t, middle, p.n)[i - |Members(t, 0, middle)|];
    }
  }

  lemma SanitisedHasNoRivals(o: Order, p: Split)
    requires Fits(o, p) && forall i :: 0 <= i < p.n ==> o.scores[i] != PosInf
    ensures Rivals(o, p) == {}
  {
  }
}
