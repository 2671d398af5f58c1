// Scores, top-k under any tie-breaking order, and ascending index lists.

module Ranking {
  import opened Common

  datatype Score = NegInf | Finite(v: real) | PosInf

  predicate Less(a: Score, b: Score) {
    match (a, b)
    case (NegInf, NegInf) => false
    case (NegInf, _) => true
    case (Finite(x), Finite(y)) => x < y
    case (Finite(_), PosInf) => true
    case (_, _) => false
  }

  /** `nan_to_num_`: nothing above a large finite score; a NaN, given as `None`, counts as the lowest. */
  function Sanitised(raw: Option<Score>): (s: Score)
    ensures s != PosInf
    ensures raw.Some? && raw.value.Finite? ==> s == raw.value
  {
    match raw
    case None => NegInf
    case Some(PosInf) => Finite(1.0e30)
    case Some(s) => s
  }

  /** Scores with a tie-breaking order: together a total order on the token indices. */
  datatype Order = Order(scores: seq<Score>, ties: seq<int>)
  {
    predicate Valid() {
      |scores| == |ties| && Distinct(ties)
    }

    predicate Above(i: nat, j: nat)
      requires i < |scores| == |ties| && j < |scores|
    {
      Less(scores[j], scores[i]) || (scores[i] == scores[j] && ties[i] > ties[j])
    }
  }

  lemma AboveTotal(o: Order, i: nat, j: nat)
    requires o.Valid() && i < |o.scores| && j < |o.scores| && i != j
    ensures o.Above(i, j) <==> !o.Above(j, i)
  {
    if i < j { assert o.ties[i] != o.ties[j]; } else { assert o.ties[j] != o.ties[i]; }
  }

  lemma AboveTransitive(o: Order, i: nat, j: nat, k: nat)
    requires o.Valid() && i < |o.scores| && j < |o.scores| && k < |o.scores|
    requires o.Above(i, j) && o.Above(j, k)
    ensures o.Above(i, k)
  {
  }

  // ---------------------------------------------------------------- index windows

  predicate AtLeast(lo: nat, i: nat) {
    lo <= i
  }

  function Window(lo: nat, hi: nat): (w: set<nat>)
    ensures forall i :: i in w <==> lo <= i < hi
  {
    set i: nat | i < hi && AtLeast(lo, i)
  }

  lemma {:induction false} WindowSize(lo: nat, hi: nat)
    requires lo <= hi
    ensures |Window(lo, hi)| == hi - lo
    decreases hi
  {
    if lo < hi {
      WindowSize(lo, hi - 1);
      assert Window(lo, hi) == Window(lo, hi - 1) + {hi - 1};
    } else {
      assert Window(lo, hi) == {};
    }
  }

  // ---------------------------------------------------------------- top-k

  lemma {:induction false} BestExists(o: Order, s: set<nat>) returns (b: nat)
    requires o.Valid() && s != {} && s <= Window(0, |o.scores|)
    ensures b in s && forall j :: j in s && j != b ==> o.Above(b, j)
    decreases |s|
  {
    assert forall j :: j in s ==> j < |o.scores|;
    var x :| x in s;
    if s == {x} {
      b := x;
    } else {
      var y := BestExists(o, s - {x});
      AboveTotal(o, x, y);
      b := if o.Above(x, y) then x else y;
      if b == x {
        forall j | j in s && j != x && j != y ensures o.Above(x, j) { AboveTransitive(o, x, y, j); }
      }
    }
  }

  /** The highest index of a nonempty set. */
  function Best(o: Order, s: set<nat>): (b: nat)
    requires o.Valid() && s != {} && s <= Window(0, |o.scores|)
    ensures b in s && forall j :: j in s && j != b ==> o.Above(b, j)
  {
    assert forall j :: j in s ==> j < |o.scores|;
    assert exists b :: b in s && forall j :: j in s && j != b ==> o.Above(b, j) by { var b := BestExists(o, s); }
    assert forall i, j :: i in s && j in s && i != j ==> (o.Above(i, j) <==> !o.Above(j, i)) by {
      forall i, j | i in s && j in s && i != j ensures o.Above(i, j) <==> !o.Above(j, i) { AboveTotal(o, i, j); }
    }
    var b :| b in s && forall j :: j in s && j != b ==> o.Above(b, j);
    b
  }

  /** `topk(sorted=True)`: the `k` highest indices of `s`, best first. */
  function TopSeq(o: Order, s: set<nat>, k: nat): seq<nat>
    requires o.Valid() && s <= Window(0, |o.scores|) && k <= |s|
    decreases k
  {
    if k == 0 then [] else [Best(o, s)] + TopSeq(o, s - {Best(o, s)}, k - 1)
  }

  /** As many as asked for, distinct, from the set, and above everything left behind. */
  lemma {:induction false} TopSeqFacts(o: Order, s: set<nat>, k: nat)
    requires o.Valid() && s <= Window(0, |o.scores|) && k <= |s|
    ensures var t := TopSeq(o, s, k);
      && |t| == k && Distinct(t) && (forall i :: i in t ==> i in s && i < |o.scores|)
      && (forall i, j :: i in t && j in s && j !in t ==> j < |o.scores| && o.Above(i, j))
    decreases k
  {
    assert forall j :: j in s ==> j < |o.scores|;
    if k > 0 {
      var b := Best(o, s);
      TopSeqFacts(o, s - {b}, k - 1);
      assert b !in TopSeq(o, s - {b}, k - 1);
    }
  }

  /** Asking for more only appends. */
  lemma {:induction false} TopSeqPrefix(o: Order, s: set<nat>, k: nat, l: nat)
    requires o.Valid() && s <= Window(0, |o.scores|) && k <= l <= |s|
    ensures |TopSeq(o, s, l)| == l && TopSeq(o, s, l)[..k] == TopSeq(o, s, k)
    decreases k
  {
    TopSeqFacts(o, s, l);
    if k > 0 {
      var b := Best(o, s);
      TopSeqPrefix(o, s - {b}, k - 1, l - 1);
    }
  }

  /** The set that top-k keeps, whatever order it reports it in. */
  function Top(o: Order, s: set<nat>, k: nat): set<nat>
    requires o.Valid() && s <= Window(0, |o.scores|) && k <= |s|
  {
    set i | i in TopSeq(o, s, k)
  }

  lemma {:induction false} DistinctSize<T>(t: seq<T>)
    requires Distinct(t)
    ensures |set x | x in t| == |t|
  {
    if t != [] {
      var last, front := t[|t| - 1], t[..|t| - 1];
      DistinctSize(front);
      assert t == front + [last];
      assert (set x | x in t) == (set x | x in front) + {last};
      assert last !in front;
    }
  }

  /** The kept set has exactly `k` members, all scoring at least as much as what it leaves behind. */
  lemma TopFacts(o: Order, s: set<nat>, k: nat)
    requires o.Valid() && s <= Window(0, |o.scores|) && k <= |s|
    ensures var t := Top(o, s, k);
      && t <= s && |t| == k && (k == |s| ==> t == s)
      && (forall i, j :: i in t && j in s - t ==> i < |o.scores| && j < |o.scores| && !Less(o.scores[i], o.scores[j]))
  {
    TopSeqFacts(o, s, k);
    DistinctSize(TopSeq(o, s, k));
    var t := Top(o, s, k);
    if k == |s| { SubsetSame(t, s); }
    forall i, j | i in t && j in s - t ensures i < |o.scores| && j < |o.scores| && !Less(o.scores[i], o.scores[j]) {
      assert o.Above(i, j);
    }
  }

  lemma SubsetSame<T>(a: set<T>, b: set<T>)
    requires a <= b && |a| == |b|
    ensures a == b
  {
    assert |b - a| == |b| - |a|;
  }

  /** Two lists of distinct values with the same members have the same multiset. */
  lemma DistinctMultiset(a: seq<int>, b: seq<int>)
    requires Distinct(a) && Distinct(b) && forall x :: x in a <==> x in b
    ensures multiset(a) == multiset(b)
  {
    forall x: int ensures multiset(a)[x] == multiset(b)[x] {
      DistinctCount(a, x);
      DistinctCount(b, x);
    }
  }

  lemma {:induction false} DistinctCount(a: seq<int>, x: int)
    requires Distinct(a)
    ensures multiset(a)[x] == if x in a then 1 else 0
  {
    if a != [] {
      var front, last := a[..|a| - 1], a[|a| - 1];
      assert a == front + [last];
      assert last !in front;
      DistinctCount(front, x);
    }
  }

  // ---------------------------------------------------------------- sorting

  predicate Sorted(xs: seq<int>) {
    forall i, j :: 0 <= i < j < |xs| ==> xs[i] <= xs[j]
  }

  function Insert(x: int, xs: seq<int>): seq<int> {
    if xs == [] || x <= xs[0] then [x] + xs else [xs[0]] + Insert(x, xs[1..])
  }

  lemma {:induction false} InsertMultiset(x: int, xs: seq<int>)
    ensures multiset(Insert(x, xs)) == multiset(xs) + multiset{x}
  {
    if xs != [] && x > xs[0] {
      InsertMultiset(x, xs[1..]);
      assert xs == [xs[0]] + xs[1..];
    }
  }

  lemma HeadLeast(xs: seq<int>, x: int)
    requires Sorted(xs) && x in multiset(xs)
    ensures xs != [] && xs[0] <= x
  {
    assert x in xs;
  }

  lemma SortedTail(xs: seq<int>)
    requires Sorted(xs) && xs != []
    ensures Sorted(xs[1..]) && multiset(xs[1..]) == multiset(xs) - multiset{xs[0]}
  {
    assert xs == [xs[0]] + xs[1..];
  }

  lemma ConsSorted(x: int, xs: seq<int>)
    requires Sorted(xs) && xs != [] && x <= xs[0]
    ensures Sorted([x] + xs)
  {
  }

  lemma {:induction false} InsertSorted(x: int, xs: seq<int>)
    requires Sorted(xs)
    ensures Sorted(Insert(x, xs))
  {
    if xs != [] && x > xs[0] {
      SortedTail(xs);
      InsertSorted(x, xs[1..]);
      var tail := Insert(x, xs[1..]);
      assert tail[0] == x || (|xs| > 1 && tail[0] == xs[1]);
      ConsSorted(xs[0], tail);
    }
  }

  /** `torch.sort`. */
  function Sort(xs: seq<int>): (r: seq<int>)
    ensures Sorted(r) && multiset(r) == multiset(xs)
  {
    if xs == [] then []
    else
      assert xs == [xs[0]] + xs[1..];
      InsertSorted(xs[0], Sort(xs[1..]));
      InsertMultiset(xs[0], Sort(xs[1..]));
      Insert(xs[0], Sort(xs[1..]))
  }

  lemma HeadsEqual(a: seq<int>, b: seq<int>)
    requires Sorted(a) && Sorted(b) && multiset(a) == multiset(b) && a != []
    ensures b != [] && a[0] == b[0] && multiset(a[1..]) == multiset(b[1..])
    ensures Sorted(a[1..]) && Sorted(b[1..])
  {
    hide Sorted;
    assert a[0] in multiset(a);
    HeadLeast(b, a[0]);
    assert b[0] in multiset(b);
    HeadLeast(a, b[0]);
    SortedTail(a);
    SortedTail(b);
  }

  lemma ConsEqual<T>(a: seq<T>, b: seq<T>)
    requires a != [] && b != [] && a[0] == b[0] && a[1..] == b[1..]
    ensures a == b
  {
    assert a == [a[0]] + a[1..] && b == [b[0]] + b[1..];
  }

  /** A sorted list is determined by its multiset. */
  lemma {:induction false} SortedUnique(a: seq<int>, b: seq<int>)
    requires Sorted(a) && Sorted(b) && multiset(a) == multiset(b)
    ensures a == b
  {
    hide Sorted;
    if a != [] {
      HeadsEqual(a, b);
      SortedUnique(a[1..], b[1..]);
      ConsEqual(a, b);
    } else {
      assert |multiset(b)| == |b|;
    }
  }

  // ---------------------------------------------------------------- ascending lists

  /** `nonzero`: the members of `s` in `[lo, hi)`, ascending. */
  function Members(s: set<nat>, lo: nat, hi: nat): seq<nat>
    decreases hi
  {
    if hi <= lo then [] else Members(s, lo, hi - 1) + if hi - 1 in s then [hi - 1] else []
  }

  lemma {:induction false} MembersFacts(s: set<nat>, lo: nat, hi: nat)
    ensures var m := Members(s, lo, hi);
      && (forall i, j :: 0 <= i < j < |m| ==> m[i] < m[j])
      && (forall i :: i in m <==> i in s && lo <= i < hi)
    decreases hi
  {
    if lo < hi {
      MembersFacts(s, lo, hi - 1);
      var front, m := Members(s, lo, hi - 1), Members(s, lo, hi);
      forall i, j | 0 <= i < j < |m| ensures m[i] < m[j] {
        if j == |front| { assert front[i] in front; }
      }
    }
  }

  lemma {:induction false} MembersSplit(s: set<nat>, lo: nat, mid: nat, hi: nat)
    requires lo <= mid <= hi
    ensures Members(s, lo, hi) == Members(s, lo, mid) + Members(s, mid, hi)
    decreases hi
  {
    if mid < hi { MembersSplit(s, lo, mid, hi - 1); }
  }

  /** Only the members inside the window matter. */
  lemma {:induction false} MembersWindow(s: set<nat>, t: set<nat>, lo: nat, hi: nat)
    requires forall i :: lo <= i < hi ==> (i in s <==> i in t)
    ensures Members(s, lo, hi) == Members(t, lo, hi)
    decreases hi
  {
    if lo < hi { MembersWindow(s, t, lo, hi - 1); }
  }

  lemma {:induction false} MembersCount(s: set<nat>, lo: nat, hi: nat)
    requires s <= Window(lo, hi)
    ensures |Members(s, lo, hi)| == |s|
    decreases hi
  {
    if lo < hi {
      var t := s - {hi - 1};
      assert t <= Window(lo, hi - 1);
      MembersCount(t, lo, hi - 1);
      MembersWindow(s, t, lo, hi - 1);
    } else {
      assert s == {};
    }
  }

  /** A full window lists itself. */
  lemma {:induction false} MembersAll(s: set<nat>, lo: nat, hi: nat)
    requires lo <= hi && forall i :: lo <= i < hi ==> i in s
    ensures |Members(s, lo, hi)| == hi - lo && forall i :: 0 <= i < hi - lo ==> Members(s, lo, hi)[i] == lo + i
    decreases hi
  {
    if lo < hi { MembersAll(s, lo, hi - 1); }
  }

  predicate Ascending(xs: seq<nat>) {
    forall i, j :: 0 <= i < j < |xs| ==> xs[i] < xs[j]
  }
}
