// Rejected drafts leave no trace: what a sequence of speculative batches computes.

module SpecRollback {
  import opened SpecConv

  // ---------------------------------------------------------------- one batch after another

  /** A batch of drafts for one sequence, and how many of them turned out accepted. */
  datatype Draft = Draft(tokens: seq<Token>, accepted: nat)

  predicate Acceptable(cv: Conv, capacity: nat, d: Draft) {
    1 <= d.accepted <= |d.tokens| && !CopyFails(RollingLength(cv.width, |d.tokens|), capacity)
  }

  lemma RollbackFits(cv: Conv, prior: seq<Token>, capacity: nat, d: Draft)
    requires cv.Valid() && |prior| == cv.width - 1 <= capacity && Acceptable(cv, capacity, d)
    ensures |Rolling(prior, d.tokens)| == RollingLength(cv.width, |d.tokens|)
    ensures d.accepted - 1 + cv.width - 1 <= capacity && d.accepted - 1 + cv.width - 1 <= RollingLength(cv.width, |d.tokens|)
    ensures cv.width > 1 ==> RollingLength(cv.width, |d.tokens|) <= capacity
  {
    CopyFits(cv.width, capacity, |d.tokens|);
  }

  lemma RolledAt(prior: seq<Token>, state: seq<Token>, tokens: seq<Token>, i: nat)
    requires prior != [] && |Rolling(prior, tokens)| <= |state| && i < |prior| - 1 + |tokens|
    ensures Rolled(prior, state, tokens)[i] == (prior + tokens)[i + 1]
  {
  }

  /** The state is re-entered inside what was written, at the tail of what was accepted. */
  lemma RollbackStep(cv: Conv, prior: seq<Token>, state: seq<Token>, d: Draft)
    requires cv.Valid() && |prior| == cv.width - 1 <= |state| && Acceptable(cv, |state|, d)
    ensures |Rolling(prior, d.tokens)| == RollingLength(cv.width, |d.tokens|)
    ensures d.accepted - 1 + cv.width - 1 <= |state| && d.accepted - 1 + cv.width - 1 <= RollingLength(cv.width, |d.tokens|)
    ensures Prior(cv, Rolled(prior, state, d.tokens), d.accepted) == (prior + d.tokens[..d.accepted])[d.accepted..]
  {
    hide CopyFails, Rolling, Rolled, RollingLength, Conv.Valid;
    RollbackFits(cv, prior, |state|, d);
    var a, w := d.accepted, cv.width;
    var window, tail := Prior(cv, Rolled(prior, state, d.tokens), a), (prior + d.tokens[..a])[a..];
    forall i | 0 <= i < w - 1 ensures window[i] == tail[i] {
      RolledAt(prior, state, d.tokens, a - 1 + i);
    }
    assert |window| == |tail|;
  }

  ghost predicate AllAcceptable(cv: Conv, capacity: nat, ds: seq<Draft>) {
    forall k :: 0 <= k < |ds| ==> Acceptable(cv, capacity, ds[k])
  }

  /** The accepted token stream after the first `k` batches, with its initial context. */
  ghost function Stream(context: seq<Token>, ds: seq<Draft>, k: nat): (s: seq<Token>)
    requires k <= |ds| && forall i :: 0 <= i < |ds| ==> ds[i].accepted <= |ds[i].tokens|
    ensures |s| >= |context|
  {
    if k == 0 then context else Stream(context, ds, k - 1) + ds[k - 1].tokens[..ds[k - 1].accepted]
  }

  /** How many drafts the call before batch `k` accepted. */
  function Entry(first: nat, ds: seq<Draft>, k: nat): nat
    requires k <= |ds|
  {
    if k == 0 then first else ds[k - 1].accepted
  }

  /** The state before batch `k`, and what that batch writes to the output. */
  ghost function StateBefore(cv: Conv, state: seq<Token>, first: nat, ds: seq<Draft>, k: nat): (s: seq<Token>)
    requires cv.Valid() && k <= |ds| && AllAcceptable(cv, |state|, ds)
    requires 1 <= first && first - 1 + cv.width - 1 <= |state|
    ensures |s| == |state|
  {
    if k == 0 then state
    else
      var had := StateBefore(cv, state, first, ds, k - 1);
      EntryFits(cv, |state|, first, ds, k - 1);
      assert Acceptable(cv, |state|, ds[k - 1]);
      Rolled(Prior(cv, had, Entry(first, ds, k - 1)), had, ds[k - 1].tokens)
  }

  lemma EntryFits(cv: Conv, capacity: nat, first: nat, ds: seq<Draft>, k: nat)
    requires cv.Valid() && k <= |ds| && AllAcceptable(cv, capacity, ds)
    requires 1 <= first && first - 1 + cv.width - 1 <= capacity
    ensures 1 <= Entry(first, ds, k) && Entry(first, ds, k) - 1 + cv.width - 1 <= capacity
  {
    if k > 0 {
      assert Acceptable(cv, capacity, ds[k - 1]);
      CopyFits(cv.width, capacity, |ds[k - 1].tokens|);
    }
  }

  ghost function BatchOutputs(cv: Conv, state: seq<Token>, first: nat, ds: seq<Draft>, k: nat): (out: seq<Token>)
    requires cv.Valid() && k < |ds| && AllAcceptable(cv, |state|, ds)
    requires 1 <= first && first - 1 + cv.width - 1 <= |state|
    ensures |out| == |ds[k].tokens|
  {
    EntryFits(cv, |state|, first, ds, k);
    Outputs(cv, Prior(cv, StateBefore(cv, state, first, ds, k), Entry(first, ds, k)), ds[k].tokens)
  }

  function Last(s: seq<Token>, n: nat): seq<Token>
    requires n <= |s|
  {
    s[|s| - n..]
  }

  lemma LastAppend(s: seq<Token>, t: seq<Token>, n: nat)
    requires n <= |s|
    ensures Last(s + t, n) == (Last(s, n) + t)[|t|..]
  {
  }

  lemma AcceptedWithin(cv: Conv, capacity: nat, ds: seq<Draft>)
    requires AllAcceptable(cv, capacity, ds)
    ensures forall i :: 0 <= i < |ds| ==> ds[i].accepted <= |ds[i].tokens|
  {
    assert forall i :: 0 <= i < |ds| ==> Acceptable(cv, capacity, ds[i]);
  }

  lemma StateNext(cv: Conv, state: seq<Token>, first: nat, ds: seq<Draft>, k: nat)
    requires cv.Valid() && 0 < k <= |ds| && AllAcceptable(cv, |state|, ds)
    requires 1 <= first && first - 1 + cv.width - 1 <= |state|
    ensures 1 <= Entry(first, ds, k - 1) && Entry(first, ds, k - 1) - 1 + cv.width - 1 <= |state|
    ensures var had := StateBefore(cv, state, first, ds, k - 1);
      StateBefore(cv, state, first, ds, k) == Rolled(Prior(cv, had, Entry(first, ds, k - 1)), had, ds[k - 1].tokens)
  {
    EntryFits(cv, |state|, first, ds, k - 1);
  }

  lemma StreamNext(context: seq<Token>, ds: seq<Draft>, k: nat)
    requires 0 < k <= |ds| && forall i :: 0 <= i < |ds| ==> ds[i].accepted <= |ds[i].tokens|
    ensures Stream(context, ds, k) == Stream(context, ds, k - 1) + ds[k - 1].tokens[..ds[k - 1].accepted]
  {
  }

  lemma WindowNext(cv: Conv, had: seq<Token>, entry: nat, d: Draft, s: seq<Token>)
    requires cv.Valid() && 1 <= entry && entry - 1 + cv.width - 1 <= |had| && Acceptable(cv, |had|, d) && cv.width - 1 <= |s|
    requires Prior(cv, had, entry) == Last(s, cv.width - 1)
    ensures d.accepted - 1 + cv.width - 1 <= |had|
    ensures Prior(cv, Rolled(Prior(cv, had, entry), had, d.tokens), d.accepted) == Last(s + d.tokens[..d.accepted], cv.width - 1)
  {
    hide Rolled, Prior, Last, CopyFails, RollingLength;
    RollbackStep(cv, Prior(cv, had, entry), had, d);
    LastAppend(s, d.tokens[..d.accepted], cv.width - 1);
  }

  /** Before every batch, the window it enters with is the last accepted tokens of the stream. */
  lemma {:induction false} WindowIsAcceptedTail(cv: Conv, state: seq<Token>, first: nat, ds: seq<Draft>, k: nat)
    requires cv.Valid() && k <= |ds| && AllAcceptable(cv, |state|, ds)
    requires 1 <= first && first - 1 + cv.width - 1 <= |state|
    ensures forall i :: 0 <= i < |ds| ==> ds[i].accepted <= |ds[i].tokens|
    ensures 1 <= Entry(first, ds, k) && Entry(first, ds, k) - 1 + cv.width - 1 <= |state|
    ensures Prior(cv, StateBefore(cv, state, first, ds, k), Entry(first, ds, k))
      == Last(Stream(Prior(cv, state, first), ds, k), cv.width - 1)
  {
    AcceptedWithin(cv, |state|, ds);
    EntryFits(cv, |state|, first, ds, k);
    if k > 0 {
      hide Acceptable, Outputs, Rolled, Prior, Last, CopyFails, RollingLength, StateBefore, Stream;
      WindowIsAcceptedTail(cv, state, first, ds, k - 1);
      EntryFits(cv, |state|, first, ds, k - 1);
      assert Acceptable(cv, |state|, ds[k - 1]);
      StateNext(cv, state, first, ds, k);
      StreamNext(Prior(cv, state, first), ds, k);
      WindowNext(cv, StateBefore(cv, state, first, ds, k - 1), Entry(first, ds, k - 1), ds[k - 1],
                 Stream(Prior(cv, state, first), ds, k - 1));
    }
  }

  // ---------------------------------------------------------------- the plain causal convolution

  /** The plain causal convolution at position `p` of a token stream. */
  function Causal(cv: Conv, s: seq<Token>, p: nat): Token
    requires cv.Valid() && cv.width - 1 <= p < |s|
  {
    Respond(cv, s[p + 1 - cv.width..p + 1])
  }

  lemma WindowOf(s: seq<Token>, tokens: seq<Token>, w: nat, j: nat)
    requires 0 < w && w - 1 <= |s| && j < |tokens|
    ensures (Last(s, w - 1) + tokens)[j..j + w] == (s + tokens)[|s| + j + 1 - w..|s| + j + 1]
  {
  }

  /** Every output, accepted or not, is the causal convolution over the accepted stream and the drafts
      before it. */
  lemma OutputsAreCausal(cv: Conv, state: seq<Token>, first: nat, ds: seq<Draft>, k: nat, j: nat)
    requires cv.Valid() && k < |ds| && AllAcceptable(cv, |state|, ds) && j < |ds[k].tokens|
    requires 1 <= first && first - 1 + cv.width - 1 <= |state|
    ensures forall i :: 0 <= i < |ds| ==> ds[i].accepted <= |ds[i].tokens|
    ensures var s := Stream(Prior(cv, state, first), ds, k);
      BatchOutputs(cv, state, first, ds, k)[j] == Causal(cv, s + ds[k].tokens, |s| + j)
  {
    hide Acceptable, StateBefore, Stream, Prior, Respond, Last;
    WindowIsAcceptedTail(cv, state, first, ds, k);
    WindowOf(Stream(Prior(cv, state, first), ds, k), ds[k].tokens, cv.width, j);
  }

  /** The stream only grows. */
  lemma {:induction false} StreamGrows(context: seq<Token>, ds: seq<Draft>, k: nat, l: nat)
    requires k <= l <= |ds| && forall i :: 0 <= i < |ds| ==> ds[i].accepted <= |ds[i].tokens|
    ensures Stream(context, ds, k) <= Stream(context, ds, l)
    decreases l
  {
    if k < l { StreamGrows(context, ds, k, l - 1); }
  }

  lemma SameWindow(final: seq<Token>, s: seq<Token>, tokens: seq<Token>, n: nat, p: nat, w: nat)
    requires n <= |tokens| && s + tokens[..n] <= final && |s| <= p < |s| + n && w <= p + 1
    ensures p < |final| && final[p] == tokens[p - |s|]
    ensures final[p + 1 - w..p + 1] == (s + tokens)[p + 1 - w..p + 1]
  {
    var near := s + tokens[..n];
    assert near[p] == tokens[p - |s|];
    assert forall i :: 0 <= i < |near| ==> final[i] == near[i] == (s + tokens)[i];
  }

  /** An accepted token's output is the plain causal convolution over the final accepted stream, as if the
      rejected drafts of every batch had never been computed. */
  lemma SpeculationInvisible(cv: Conv, state: seq<Token>, first: nat, ds: seq<Draft>, k: nat, j: nat)
    requires cv.Valid() && k < |ds| && AllAcceptable(cv, |state|, ds) && j < ds[k].accepted
    requires 1 <= first && first - 1 + cv.width - 1 <= |state|
    ensures forall i :: 0 <= i < |ds| ==> ds[i].accepted <= |ds[i].tokens|
    ensures j < |ds[k].tokens|
    ensures var context := Prior(cv, state, first);
      var final, p := Stream(context, ds, |ds|), |Stream(context, ds, k)| + j;
      && p < |final| && final[p] == ds[k].tokens[j]
      && BatchOutputs(cv, state, first, ds, k)[j] == Causal(cv, final, p)
  {
    hide BatchOutputs, Prior, Respond;
    assert Acceptable(cv, |state|, ds[k]);
    OutputsAreCausal(cv, state, first, ds, k, j);
    var context := Prior(cv, state, first);
    var s, final := Stream(context, ds, k), Stream(context, ds, |ds|);
    StreamGrows(context, ds, k + 1, |ds|);
    var p := |s| + j;
    assert Stream(context, ds, k + 1) == s + ds[k].tokens[..ds[k].accepted];
    SameWindow(final, s, ds[k].tokens, ds[k].accepted, p, cv.width);
  }

  // ---------------------------------------------------------------- rows do not interfere

  ghost predicate DistinctCaches(rows: seq<Row>, pad: int) {
    forall i, j :: 0 <= i < j < |rows| && !Skipped(rows[i], pad) && !Skipped(rows[j], pad) ==> rows[i].cache != rows[j].cache
  }

  /** A slot that no row of a stretch uses keeps its state over that stretch. */
  lemma {:induction false} SlotKept(cv: Conv, x: seq<Token>, rows: seq<Row>, pad: int, capacity: nat, states: seq<seq<Token>>,
                                    lo: nat, hi: nat, slot: nat)
    requires cv.Valid() && lo <= hi <= |rows| && slot < |states| && forall s :: 0 <= s < |states| ==> |states[s]| == capacity
    requires forall i :: 0 <= i < hi ==> Fine(cv, x, pad, capacity, |states|, rows[i])
    requires forall i :: lo <= i < hi ==> Skipped(rows[i], pad) || rows[i].cache != slot
    ensures States(cv, x, rows, pad, capacity, states, hi)[slot] == States(cv, x, rows, pad, capacity, states, lo)[slot]
    decreases hi
  {
    hide RowRaises, RowTokens, Rolled, Prior;
    if lo < hi { SlotKept(cv, x, rows, pad, capacity, states, lo, hi - 1, slot); }
  }

  lemma CacheApart(rows: seq<Row>, pad: int, i: nat, j: nat)
    requires DistinctCaches(rows, pad) && i < |rows| && j < |rows| && i != j && !Skipped(rows[i], pad)
    ensures Skipped(rows[j], pad) || rows[j].cache != rows[i].cache
  {
  }

  lemma FineIs(cv: Conv, x: seq<Token>, pad: int, capacity: nat, slots: nat, row: Row)
    requires Fine(cv, x, pad, capacity, slots, row) && !Skipped(row, pad)
    ensures !RowRaises(cv, x, capacity, slots, row)
  {
  }

  lemma StatesAtStart(cv: Conv, x: seq<Token>, rows: seq<Row>, pad: int, capacity: nat, states: seq<seq<Token>>)
    requires cv.Valid() && forall s :: 0 <= s < |states| ==> |states[s]| == capacity
    ensures States(cv, x, rows, pad, capacity, states, 0) == states
  {
  }

  /** With distinct slots, each active row reads the state its slot had before the call and leaves the
      rolled one; every slot no active row names is untouched. */
  lemma RowsIndependent(cv: Conv, x: seq<Token>, rows: seq<Row>, pad: int, capacity: nat, states: seq<seq<Token>>, i: nat)
    requires cv.Valid() && i < |rows| && forall s :: 0 <= s < |states| ==> |states[s]| == capacity
    requires forall j :: 0 <= j < |rows| ==> Fine(cv, x, pad, capacity, |states|, rows[j])
    requires DistinctCaches(rows, pad) && !Skipped(rows[i], pad)
    ensures Fine(cv, x, pad, capacity, |states|, rows[i]) && rows[i].cache >= 0
    ensures States(cv, x, rows, pad, capacity, states, i)[rows[i].cache] == states[rows[i].cache]
    ensures States(cv, x, rows, pad, capacity, states, |rows|)[rows[i].cache]
      == Rolled(Prior(cv, states[rows[i].cache], rows[i].accepted), states[rows[i].cache], RowTokens(x, rows[i]))
  {
    hide DistinctCaches, Rolled, Prior, RowTokens, RowRaises, States, Written, Outputs, Skipped, Conv.Valid, Fine, Clamp;
    FineIs(cv, x, pad, capacity, |states|, rows[i]);
    RowInRange(cv, x, capacity, |states|, rows[i]);
    OthersElsewhere(rows, pad, i);
    RowNext(cv, x, rows, pad, capacity, states, i);
    StatesAtStart(cv, x, rows, pad, capacity, states);
    SlotKept(cv, x, rows, pad, capacity, states, 0, i, rows[i].cache);
    SlotKept(cv, x, rows, pad, capacity, states, i + 1, |rows|, rows[i].cache);
  }

  lemma OthersElsewhere(rows: seq<Row>, pad: int, i: nat)
    requires DistinctCaches(rows, pad) && i < |rows| && !Skipped(rows[i], pad)
    ensures forall j :: 0 <= j < |rows| && j != i ==> Skipped(rows[j], pad) || rows[j].cache != rows[i].cache
  {
    forall j | 0 <= j < |rows| && j != i ensures Skipped(rows[j], pad) || rows[j].cache != rows[i].cache { CacheApart(rows, pad, i, j); }
  }

  lemma RowSkipped(cv: Conv, x: seq<Token>, rows: seq<Row>, pad: int, capacity: nat, states: seq<seq<Token>>, i: nat)
    requires cv.Valid() && i < |rows| && forall s :: 0 <= s < |states| ==> |states[s]| == capacity
    requires forall j :: 0 <= j < i ==> Fine(cv, x, pad, capacity, |states|, rows[j])
    requires Skipped(rows[i], pad)
    ensures forall j :: 0 <= j < i + 1 ==> Fine(cv, x, pad, capacity, |states|, rows[j])
    ensures Written(cv, x, rows, pad, capacity, states, i + 1) == Written(cv, x, rows, pad, capacity, states, i)
  {
  }

  /** Output positions beyond the first rows' spans are still the input. */
  lemma {:induction false} OutputKept(cv: Conv, x: seq<Token>, rows: seq<Row>, pad: int, capacity: nat, states: seq<seq<Token>>,
                                      lo: nat, hi: nat, t: nat)
    requires cv.Valid() && lo <= hi <= |rows| && t < |x| && forall s :: 0 <= s < |states| ==> |states[s]| == capacity
    requires forall i :: 0 <= i < hi ==> Fine(cv, x, pad, capacity, |states|, rows[i])
    requires forall i :: lo <= i < hi ==> Skipped(rows[i], pad) || t < rows[i].start || rows[i].end <= t
    ensures Written(cv, x, rows, pad, capacity, states, hi)[t] == Written(cv, x, rows, pad, capacity, states, lo)[t]
    decreases hi
  {
    hide RowRaises, RowTokens, Rolled, Prior, Outputs, States, Written;
    if lo < hi {
      OutputKept(cv, x, rows, pad, capacity, states, lo, hi - 1, t);
      assert Fine(cv, x, pad, capacity, |states|, rows[hi - 1]);
      if Skipped(rows[hi - 1], pad) {
        RowSkipped(cv, x, rows, pad, capacity, states, hi - 1);
      } else {
        RowInRange(cv, x, capacity, |states|, rows[hi - 1]);
        RowNext(cv, x, rows, pad, capacity, states, hi - 1);
      }
    }
  }

  ghost predicate OrderedSpans(rows: seq<Row>, n: nat) {
    && (forall i :: 0 <= i < |rows| ==> 0 <= rows[i].start <= rows[i].end <= n)
    && forall i, j :: 0 <= i < j < |rows| ==> rows[i].end <= rows[j].start
  }

  /** With distinct slots and ordered spans, a row's outputs depend on its own tokens and its own slot's
      state before the call, and a position outside every active row keeps its input. */
  lemma RowOutputs(cv: Conv, x: seq<Token>, rows: seq<Row>, pad: int, capacity: nat, states: seq<seq<Token>>, i: nat, j: nat)
    requires cv.Valid() && i < |rows| && forall s :: 0 <= s < |states| ==> |states[s]| == capacity
    requires forall l :: 0 <= l < |rows| ==> Fine(cv, x, pad, capacity, |states|, rows[l])
    requires DistinctCaches(rows, pad) && OrderedSpans(rows, |x|) && !Skipped(rows[i], pad) && j < rows[i].end - rows[i].start
    ensures Fine(cv, x, pad, capacity, |states|, rows[i]) && rows[i].cache >= 0
    ensures Written(cv, x, rows, pad, capacity, states, |rows|)[rows[i].start + j]
      == Outputs(cv, Prior(cv, states[rows[i].cache], rows[i].accepted), RowTokens(x, rows[i]))[j]
  {
    hide Prior, Outputs, Rolled, Written;
    RowsIndependent(cv, x, rows, pad, capacity, states, i);
    var t: nat := rows[i].start + j;
    forall l | i + 1 <= l < |rows| ensures t < rows[l].start { assert rows[i].end <= rows[l].start; }
    OutputKept(cv, x, rows, pad, capacity, states, i + 1, |rows|, t);
    RowWritten(cv, x, rows, pad, capacity, states, i, j);
  }

  /** Right after its own turn, a row's span holds its outputs. */
  lemma RowWritten(cv: Conv, x: seq<Token>, rows: seq<Row>, pad: int, capacity: nat, states: seq<seq<Token>>, i: nat, j: nat)
    requires cv.Valid() && i < |rows| && forall s :: 0 <= s < |states| ==> |states[s]| == capacity
    requires forall l :: 0 <= l < |rows| ==> Fine(cv, x, pad, capacity, |states|, rows[l])
    requires !Skipped(rows[i], pad) && j < rows[i].end - rows[i].start && rows[i].end <= |x|
    ensures Fine(cv, x, pad, capacity, |states|, rows[i]) && rows[i].cache >= 0
    ensures Written(cv, x, rows, pad, capacity, states, i + 1)[rows[i].start + j]
      == Outputs(cv, Prior(cv, States(cv, x, rows, pad, capacity, states, i)[rows[i].cache], rows[i].accepted), RowTokens(x, rows[i]))[j]
  {
    hide Prior, Outputs, Rolled, States, RowRaises, Written;
    FineIs(cv, x, pad, capacity, |states|, rows[i]);
    RowInRange(cv, x, capacity, |states|, rows[i]);
    RowNext(cv, x, rows, pad, capacity, states, i);
  }
}
