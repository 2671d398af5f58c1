// The speculative rolling convolution: rows of drafts against a state that is advanced past all of them
// and re-entered at the accepted offset.

module SpecConv {
  import opened Common

  /** One token: a value per feature. */
  type Token = seq<real>

  /** A depthwise convolution of `width` taps, its optional bias, and the activation it ends with. */
  datatype Conv = Conv(width: nat, features: nat, weight: seq<seq<real>>, bias: Option<seq<real>>, activate: real -> real)
  {
    predicate Valid() {
      && width > 0 && |weight| == features && (forall d :: 0 <= d < features ==> |weight[d]| == width)
      && (bias.Some? ==> |bias.value| == features)
    }
  }

  function Dot(taps: seq<real>, window: seq<Token>, d: nat, k: nat): real
    requires k <= |taps| && k <= |window|
  {
    if k == 0 then 0.0
    else Dot(taps, window, d, k - 1) + taps[k - 1] * (if d < |window[k - 1]| then window[k - 1][d] else 0.0)
  }

  /** The response to one full window of tokens, feature by feature. */
  function Respond(cv: Conv, window: seq<Token>): Token
    requires cv.Valid() && |window| == cv.width
  {
    seq(cv.features, d requires 0 <= d < cv.features =>
      cv.activate(Dot(cv.weight[d], window, d, cv.width) + if cv.bias.Some? then cv.bias.value[d] else 0.0))
  }

  /** Taps are matched to tokens in order: a kernel that is one at a single tap picks that token. */
  lemma {:induction false} ImpulsePicks(taps: seq<real>, window: seq<Token>, d: nat, tap: nat, k: nat)
    requires k <= |taps| == |window| && tap < |taps| && d < |window[tap]|
    requires forall i :: 0 <= i < |taps| ==> taps[i] == if i == tap then 1.0 else 0.0
    ensures Dot(taps, window, d, k) == if tap < k then window[tap][d] else 0.0
  {
    if k > 0 { ImpulsePicks(taps, window, d, tap, k - 1); }
  }

  /** The response adds up over kernels, so that single taps determine it. */
  lemma {:induction false} TapsAddUp(a: seq<real>, b: seq<real>, sum: seq<real>, window: seq<Token>, d: nat, k: nat)
    requires k <= |a| == |b| == |sum| == |window| && forall i :: 0 <= i < |a| ==> sum[i] == a[i] + b[i]
    ensures Dot(sum, window, d, k) == Dot(a, window, d, k) + Dot(b, window, d, k)
  {
    if k > 0 {
      TapsAddUp(a, b, sum, window, d, k - 1);
      var x := if d < |window[k - 1]| then window[k - 1][d] else 0.0;
      assert sum[k - 1] * x == a[k - 1] * x + b[k - 1] * x;
    }
  }

  // ---------------------------------------------------------------- one row

  /** A row of the batch: its token span, cache slot, and how many of its slot's last drafts were accepted. */
  datatype Row = Row(start: int, end: int, cache: int, accepted: int)

  function Clamp(n: nat, i: nat): nat {
    if i < n then i else n
  }

  function RowTokens(x: seq<Token>, row: Row): seq<Token>
    requires 0 <= row.start <= row.end
  {
    x[Clamp(|x|, row.start)..Clamp(|x|, row.end)]
  }

  predicate Skipped(row: Row, pad: int) {
    row.cache == pad || row.end == row.start
  }

  /** The explicit span check of `causal_conv1d_spec_reference`, for a state of `capacity` columns and `slots` rows. */
  predicate SpanInvalid(width: nat, capacity: nat, slots: nat, row: Row) {
    || row.start < 0 || row.end < row.start
    || row.cache < 0 || row.cache >= slots
    || row.accepted - 1 < 0
    || row.accepted - 1 + width - 1 > capacity
    || width - 2 + row.end - row.start > capacity
  }

  function RollingLength(width: nat, n: nat): nat {
    (if width >= 2 then width - 2 else 0) + n
  }

  /** Copying this many columns into the front of a state of `capacity` columns: a single column spreads
      over any number of columns, none included; otherwise they must all fit. */
  predicate CopyFails(columns: nat, capacity: nat) {
    columns > capacity && columns != 1
  }

  /** A row stops the call: the span check, a span without tokens, or a state too short for the copy. */
  predicate RowRaises(cv: Conv, x: seq<Token>, capacity: nat, slots: nat, row: Row) {
    || SpanInvalid(cv.width, capacity, slots, row)
    || RowTokens(x, row) == []
    || CopyFails(RollingLength(cv.width, |RowTokens(x, row)|), capacity)
  }

  /** The row is skipped, or goes through. */
  predicate Fine(cv: Conv, x: seq<Token>, pad: int, capacity: nat, slots: nat, row: Row) {
    Skipped(row, pad) || !RowRaises(cv, x, capacity, slots, row)
  }

  function Prior(cv: Conv, state: seq<Token>, accepted: nat): (prior: seq<Token>)
    requires cv.width > 0 && accepted > 0 && accepted - 1 + cv.width - 1 <= |state|
    ensures |prior| == cv.width - 1
  {
    state[accepted - 1..accepted - 1 + cv.width - 1]
  }

  function Outputs(cv: Conv, prior: seq<Token>, tokens: seq<Token>): (out: seq<Token>)
    requires cv.Valid() && |prior| == cv.width - 1
    ensures |out| == |tokens|
  {
    seq(|tokens|, i requires 0 <= i < |tokens| => Respond(cv, (prior + tokens)[i..i + cv.width]))
  }

  function Rolling(prior: seq<Token>, tokens: seq<Token>): seq<Token> {
    (if prior == [] then [] else prior[1..]) + tokens
  }

  /** The state after the row: the rolled window and every draft, then whatever was beyond them. A state
      without columns has nothing to store. */
  function Rolled(prior: seq<Token>, state: seq<Token>, tokens: seq<Token>): (rolled: seq<Token>)
    ensures |rolled| == |state|
  {
    var rolling := Rolling(prior, tokens);
    if |rolling| <= |state| then rolling + state[|rolling|..] else state
  }

  /** With more than one tap the span check covers the copy; with one tap it is short by one column, which
      only a state that has columns notices. */
  lemma WidthOneEdge(width: nat, capacity: nat, n: nat)
    requires width > 0 && width - 1 <= capacity
    ensures (width - 2 + n <= capacity && CopyFails(RollingLength(width, n), capacity)) <==>
            (width == 1 && n == capacity + 1 && capacity > 0)
  {
  }

  /** Exactly which rows go through: the window is inside the state, the span meets the input, and the
      rolled window fits; with one tap the rolled window of a longest span does not. */
  lemma RowGoesThroughExactly(cv: Conv, x: seq<Token>, capacity: nat, slots: nat, row: Row)
    requires cv.Valid()
    ensures !RowRaises(cv, x, capacity, slots, row) <==>
      && 0 <= row.cache < slots
      && 0 <= row.start < row.end && row.start < |x|
      && 1 <= row.accepted <= capacity - cv.width + 2
      && row.end - row.start <= capacity - cv.width + 2
      && (cv.width == 1 && 0 < capacity ==> row.end - row.start <= capacity || |x| - row.start <= capacity)
  {
  }

  const ONE_TAP := Conv(1, 1, [[1.0]], None, x => x)

  /** One tap, one column, two tokens: the span check lets the row pass, and the copy fails. */
  lemma OneTapFails(x: seq<Token>)
    requires |x| == 2
    ensures var row := Row(0, 2, 0, 1);
      ONE_TAP.Valid() && !SpanInvalid(1, 1, 1, row) && RowTokens(x, row) == x && CopyFails(RollingLength(1, 2), 1)
      && RowRaises(ONE_TAP, x, 1, 1, row)
  {
    assert x[Clamp(2, 0)..Clamp(2, 2)] == x;
  }

  /** A copy that goes through fits, but for a single column that meets a state without columns. */
  lemma CopyFits(width: nat, capacity: nat, n: nat)
    requires width > 0 && width - 1 <= capacity && n > 0 && !CopyFails(RollingLength(width, n), capacity)
    ensures RollingLength(width, n) <= capacity || (width == 1 && n == 1 && capacity == 0)
  {
  }

  // ---------------------------------------------------------------- the whole call

  /** The states and the output after the first `k` rows. */
  function States(cv: Conv, x: seq<Token>, rows: seq<Row>, pad: int, capacity: nat, states: seq<seq<Token>>, k: nat): (r: seq<seq<Token>>)
    requires cv.Valid() && k <= |rows| && forall s :: 0 <= s < |states| ==> |states[s]| == capacity
    requires forall i :: 0 <= i < k ==> Fine(cv, x, pad, capacity, |states|, rows[i])
    ensures |r| == |states| && forall s :: 0 <= s < |r| ==> |r[s]| == capacity
  {
    if k == 0 then states
    else
      assert Fine(cv, x, pad, capacity, |states|, rows[k - 1]);
      var had, row := States(cv, x, rows, pad, capacity, states, k - 1), rows[k - 1];
      if Skipped(row, pad) then had
      else had[row.cache := Rolled(Prior(cv, had[row.cache], row.accepted), had[row.cache], RowTokens(x, row))]
  }

  function Written(cv: Conv, x: seq<Token>, rows: seq<Row>, pad: int, capacity: nat, states: seq<seq<Token>>, k: nat): (out: seq<Token>)
    requires cv.Valid() && k <= |rows| && forall s :: 0 <= s < |states| ==> |states[s]| == capacity
    requires forall i :: 0 <= i < k ==> Fine(cv, x, pad, capacity, |states|, rows[i])
    ensures |out| == |x|
  {
    if k == 0 then x
    else
      assert Fine(cv, x, pad, capacity, |states|, rows[k - 1]);
      var had, row := Written(cv, x, rows, pad, capacity, states, k - 1), rows[k - 1];
      if Skipped(row, pad) then had
      else
        var state := States(cv, x, rows, pad, capacity, states, k - 1)[row.cache];
        had[..Clamp(|x|, row.start)] + Outputs(cv, Prior(cv, state, row.accepted), RowTokens(x, row)) + had[Clamp(|x|, row.end)..]
  }

  function RowAt(boundaries: seq<int>, caches: seq<int>, accepted: seq<int>, i: nat): Row
    requires i < |caches| == |accepted| && |boundaries| == |caches| + 1
  {
    Row(boundaries[i], boundaries[i + 1], caches[i], accepted[i])
  }

  function RowsOf(boundaries: seq<int>, caches: seq<int>, accepted: seq<int>): (rows: seq<Row>)
    requires |caches| == |accepted| && |boundaries| == |caches| + 1
    ensures |rows| == |caches| && forall i :: 0 <= i < |rows| ==> rows[i] == RowAt(boundaries, caches, accepted, i)
  {
    seq(|caches|, i requires 0 <= i < |caches| => RowAt(boundaries, caches, accepted, i))
  }

  /** `causal_conv1d_spec_reference` on matching shapes: in place over the output and the states, row by
      row; rows that pad or are empty keep their input and their state. */
  method CausalConv1dSpec(cv: Conv, output: array<Token>, x: seq<Token>, states: array<seq<Token>>, capacity: nat,
                          boundaries: seq<int>, caches: seq<int>, accepted: seq<int>, pad: int) returns (ok: bool)
    requires cv.Valid() && output.Length == |x|
    requires forall s :: 0 <= s < states.Length ==> |states[s]| == capacity
    requires |caches| == |accepted| && |boundaries| == |caches| + 1
    modifies output, states
    ensures ok <==>
      && cv.width - 1 <= capacity
      && boundaries[0] == 0 && boundaries[|caches|] == |x|
      && forall i :: 0 <= i < |caches| ==>
           Fine(cv, x, pad, capacity, states.Length, RowAt(boundaries, caches, accepted, i))
    ensures ok ==>
      var rows := RowsOf(boundaries, caches, accepted);
      && states[..] == States(cv, x, rows, pad, capacity, old(states[..]), |rows|)
      && output[..] == Written(cv, x, rows, pad, capacity, old(states[..]), |rows|)
  {
    hide RowRaises, Rolled, Prior, Outputs, RowTokens, Skipped;
    if capacity < cv.width - 1 || boundaries[0] != 0 || boundaries[|caches|] != |x| {
      return false;
    }
    ghost var rows, before := RowsOf(boundaries, caches, accepted), states[..];
    forall t | 0 <= t < |x| {
      output[t] := x[t];
    }
    for i := 0 to |caches|
      invariant forall j :: 0 <= j < i ==> Fine(cv, x, pad, capacity, states.Length, rows[j])
      invariant states[..] == States(cv, x, rows, pad, capacity, before, i)
      invariant output[..] == Written(cv, x, rows, pad, capacity, before, i)
    {
      var row := RowAt(boundaries, caches, accepted, i);
      assert row == rows[i];
      if Skipped(row, pad) {
        continue;
      }
      if RowRaises(cv, x, capacity, states.Length, row) {
        return false;
      }
      RowInRange(cv, x, capacity, states.Length, row);
      ConvolveRow(cv, output, x, states, row);
      RowNext(cv, x, rows, pad, capacity, before, i);
    }
    ok := true;
  }

  lemma RowInRange(cv: Conv, x: seq<Token>, capacity: nat, slots: nat, row: Row)
    requires !RowRaises(cv, x, capacity, slots, row)
    ensures 0 <= row.cache < slots && 0 <= row.start <= row.end
    ensures row.accepted > 0 && row.accepted - 1 + cv.width - 1 <= capacity
  {
    hide RowTokens, CopyFails;
  }

  /** What one more active row adds. */
  lemma RowNext(cv: Conv, x: seq<Token>, rows: seq<Row>, pad: int, capacity: nat, states: seq<seq<Token>>, i: nat)
    requires cv.Valid() && i < |rows| && forall s :: 0 <= s < |states| ==> |states[s]| == capacity
    requires forall j :: 0 <= j < i ==> Fine(cv, x, pad, capacity, |states|, rows[j])
    requires !Skipped(rows[i], pad) && !RowRaises(cv, x, capacity, |states|, rows[i])
    ensures forall j :: 0 <= j < i + 1 ==> Fine(cv, x, pad, capacity, |states|, rows[j])
    ensures var had, row := States(cv, x, rows, pad, capacity, states, i), rows[i];
      && 0 <= row.cache < |had|
      && States(cv, x, rows, pad, capacity, states, i + 1)
         == had[row.cache := Rolled(Prior(cv, had[row.cache], row.accepted), had[row.cache], RowTokens(x, row))]
      && Written(cv, x, rows, pad, capacity, states, i + 1)
         == Written(cv, x, rows, pad, capacity, states, i)[..Clamp(|x|, row.start)]
            + Outputs(cv, Prior(cv, had[row.cache], row.accepted), RowTokens(x, row))
            + Written(cv, x, rows, pad, capacity, states, i)[Clamp(|x|, row.end)..]
  {
    hide Rolled, Prior, Outputs;
    assert Fine(cv, x, pad, capacity, |states|, rows[i]);
  }

  /** One active row. */
  method ConvolveRow(cv: Conv, output: array<Token>, x: seq<Token>, states: array<seq<Token>>, row: Row)
    requires cv.Valid() && output.Length == |x|
    requires 0 <= row.cache < states.Length && !RowRaises(cv, x, |states[row.cache]|, states.Length, row)
    modifies output, states
    ensures states[..] == old(states[..])[row.cache :=
      Rolled(Prior(cv, old(states[row.cache]), row.accepted), old(states[row.cache]), RowTokens(x, row))]
    ensures output[..] == old(output[..Clamp(|x|, row.start)])
      + Outputs(cv, Prior(cv, old(states[row.cache]), row.accepted), RowTokens(x, row)) + old(output[Clamp(|x|, row.end)..])
  {
    hide RowRaises, CopyFails, Respond, Dot, RollingLength;
    RowInRange(cv, x, |states[row.cache]|, states.Length, row);
    var state := states[row.cache];
    var prior := Prior(cv, state, row.accepted);
    var tokens := RowTokens(x, row);
    var joined := prior + tokens;
    var start := Clamp(|x|, row.start);
    forall i | start <= i < start + |tokens| {
      output[i] := Respond(cv, joined[i - start..i - start + cv.width]);
    }
    var rolling := Rolling(prior, tokens);
    if |rolling| <= |state| {
      states[row.cache] := rolling + state[|rolling|..];
    }
  }
}
