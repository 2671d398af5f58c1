// What one output of the convolution is, feature by feature, on the outputs of whole calls.

module ConvMeaning {
  import opened Sums
  import opened SpecConv
  import opened SpecRollback

  /** The tokens that a row's convolution runs over: the window it enters with, then its own. */
  function Joined(cv: Conv, state: seq<Token>, row: Row, x: seq<Token>): (joined: seq<Token>)
    requires cv.width > 0 && row.accepted > 0 && row.accepted - 1 + cv.width - 1 <= |state|
    requires 0 <= row.start <= row.end <= |x|
    ensures |joined| == cv.width - 1 + row.end - row.start
  {
    state[row.accepted - 1..row.accepted - 1 + cv.width - 1] + x[row.start..row.end]
  }

  predicate Wide(tokens: seq<Token>, features: nat) {
    forall i :: 0 <= i < |tokens| ==> |tokens[i]| == features
  }

  /** One feature's products: its own kernel against its own values in the window that starts at `t`. */
  function Products(cv: Conv, joined: seq<Token>, t: nat, d: nat): nat -> real {
    (k: nat) => if d < |cv.weight| && k < |cv.weight[d]| && t + k < |joined| && d < |joined[t + k]|
                then cv.weight[d][k] * joined[t + k][d] else 0.0
  }

  lemma {:induction false} DotIsSum(cv: Conv, joined: seq<Token>, t: nat, d: nat, k: nat)
    requires cv.Valid() && k <= cv.width && t + cv.width <= |joined| && d < cv.features && Wide(joined, cv.features)
    ensures Dot(cv.weight[d], joined[t..t + cv.width], d, k) == Sum(k, Products(cv, joined, t, d))
  {
    if k > 0 { DotIsSum(cv, joined, t, d, k - 1); }
  }

  /** One output: per feature, the activation of the sum of its own kernel's products plus its own bias. */
  lemma ResponseMeans(cv: Conv, joined: seq<Token>, t: nat)
    requires cv.Valid() && t + cv.width <= |joined| && Wide(joined, cv.features)
    ensures var y := Respond(cv, joined[t..t + cv.width]);
      && |y| == cv.features
      && forall d: nat :: d < cv.features ==>
           y[d] == cv.activate(Sum(cv.width, Products(cv, joined, t, d)) + if cv.bias.Some? then cv.bias.value[d] else 0.0)
  {
    forall d: nat | d < cv.features
      ensures Respond(cv, joined[t..t + cv.width])[d]
        == cv.activate(Sum(cv.width, Products(cv, joined, t, d)) + if cv.bias.Some? then cv.bias.value[d] else 0.0)
    {
      DotIsSum(cv, joined, t, d, cv.width);
    }
  }

  /** In a whole call with distinct slots and ordered spans, output `t` of an active row is, per feature, the
      activation of that feature's kernel against the joined tokens `t .. t + width`, plus its bias. */
  lemma OutputMeans(cv: Conv, x: seq<Token>, rows: seq<Row>, pad: int, capacity: nat, states: seq<seq<Token>>, i: nat, t: nat, d: nat)
    requires cv.Valid() && i < |rows| && forall s :: 0 <= s < |states| ==> |states[s]| == capacity && Wide(states[s], cv.features)
    requires forall l :: 0 <= l < |rows| ==> Fine(cv, x, pad, capacity, |states|, rows[l])
    requires DistinctCaches(rows, pad) && OrderedSpans(rows, |x|) && Wide(x, cv.features)
    requires !Skipped(rows[i], pad) && t < rows[i].end - rows[i].start && d < cv.features
    ensures 0 <= rows[i].cache < |states| && rows[i].accepted > 0 && rows[i].accepted - 1 + cv.width - 1 <= capacity
    ensures var y := Written(cv, x, rows, pad, capacity, states, |rows|)[rows[i].start + t];
      && |y| == cv.features
      && y[d] == cv.activate(Sum(cv.width, Products(cv, Joined(cv, states[rows[i].cache], rows[i], x), t, d))
                             + if cv.bias.Some? then cv.bias.value[d] else 0.0)
  {
    hide Respond, Written, States, Dot, Products;
    assert Fine(cv, x, pad, capacity, |states|, rows[i]);
    RowInRange(cv, x, capacity, |states|, rows[i]);
    RowOutputs(cv, x, rows, pad, capacity, states, i, t);
    var joined := Joined(cv, states[rows[i].cache], rows[i], x);
    assert RowTokens(x, rows[i]) == x[rows[i].start..rows[i].end];
    assert Prior(cv, states[rows[i].cache], rows[i].accepted) + RowTokens(x, rows[i]) == joined;
    ResponseMeans(cv, joined, t);
  }

  /** A kernel that is one at tap `j` of feature `f` and zero elsewhere lets feature `f` of output `t` through
      from the joined token `t + j`, and leaves every other feature its bias. */
  lemma ImpulseOutput(cv: Conv, x: seq<Token>, rows: seq<Row>, pad: int, capacity: nat, states: seq<seq<Token>>,
                      i: nat, t: nat, d: nat, f: nat, j: nat)
    requires cv.Valid() && i < |rows| && forall s :: 0 <= s < |states| ==> |states[s]| == capacity && Wide(states[s], cv.features)
    requires forall l :: 0 <= l < |rows| ==> Fine(cv, x, pad, capacity, |states|, rows[l])
    requires DistinctCaches(rows, pad) && OrderedSpans(rows, |x|) && Wide(x, cv.features)
    requires !Skipped(rows[i], pad) && t < rows[i].end - rows[i].start && d < cv.features && j < cv.width
    requires forall e, k :: 0 <= e < cv.features && 0 <= k < cv.width ==> cv.weight[e][k] == if e == f && k == j then 1.0 else 0.0
    ensures 0 <= rows[i].cache < |states| && rows[i].accepted > 0 && rows[i].accepted - 1 + cv.width - 1 <= capacity
    ensures Wide(Joined(cv, states[rows[i].cache], rows[i], x), cv.features)
    ensures var y, bias := Written(cv, x, rows, pad, capacity, states, |rows|)[rows[i].start + t],
        if cv.bias.Some? then cv.bias.value[d] else 0.0;
      && d < |y|
      && y[d] == cv.activate(if d == f then Joined(cv, states[rows[i].cache], rows[i], x)[t + j][d] + bias else bias)
  {
    hide Written, Sum, Wide;
    OutputMeans(cv, x, rows, pad, capacity, states, i, t, d);
    var joined := Joined(cv, states[rows[i].cache], rows[i], x);
    JoinedWide(cv, states[rows[i].cache], rows[i], x);
    ImpulseSum(cv, joined, t, d, f, j);
  }

  lemma JoinedWide(cv: Conv, state: seq<Token>, row: Row, x: seq<Token>)
    requires cv.width > 0 && row.accepted > 0 && row.accepted - 1 + cv.width - 1 <= |state|
    requires 0 <= row.start <= row.end <= |x| && Wide(state, cv.features) && Wide(x, cv.features)
    ensures Wide(Joined(cv, state, row, x), cv.features)
  {
  }

  lemma ImpulseSum(cv: Conv, joined: seq<Token>, t: nat, d: nat, f: nat, j: nat)
    requires cv.Valid() && t + cv.width <= |joined| && Wide(joined, cv.features) && d < cv.features && j < cv.width
    requires forall e, k :: 0 <= e < cv.features && 0 <= k < cv.width ==> cv.weight[e][k] == if e == f && k == j then 1.0 else 0.0
    ensures Sum(cv.width, Products(cv, joined, t, d)) == if d == f then joined[t + j][d] else 0.0
  {
    var products := Products(cv, joined, t, d);
    forall k: nat | k < cv.width ensures products(k) == if d == f && k == j then joined[t + k][d] else 0.0 {
      assert cv.weight[d][k] == if d == f && k == j then 1.0 else 0.0;
    }
    if d == f { SumImpulse(cv.width, products, j); } else { SumZero(cv.width, products); }
  }

  /** Before the bias and the activation the outputs add up over kernels, so that impulses determine them. */
  lemma KernelsAddUp(a: Conv, b: Conv, sum: Conv, joined: seq<Token>, t: nat, d: nat)
    requires a.Valid() && b.Valid() && sum.Valid() && a.width == b.width == sum.width && a.features == b.features == sum.features
    requires t + sum.width <= |joined| && Wide(joined, sum.features) && d < sum.features
    requires forall e, k :: 0 <= e < sum.features && 0 <= k < sum.width ==> sum.weight[e][k] == a.weight[e][k] + b.weight[e][k]
    ensures Sum(sum.width, Products(sum, joined, t, d))
      == Sum(sum.width, Products(a, joined, t, d)) + Sum(sum.width, Products(b, joined, t, d))
  {
    var n, f, g, h := sum.width, Products(a, joined, t, d), Products(b, joined, t, d), Products(sum, joined, t, d);
    forall k: nat | k < n ensures h(k) == f(k) + g(k) {
      Distributed(a.weight[d][k], b.weight[d][k], joined[t + k][d]);
      assert sum.weight[d][k] == a.weight[d][k] + b.weight[d][k];
    }
    SumAdds(n, f, g, h);
  }

  lemma Distributed(a: real, b: real, x: real)
    ensures (a + b) * x == a * x + b * x
  {
  }

  /** The plain causal convolution at a position is the same formula on the stream's latest tokens. */
  lemma CausalMeans(cv: Conv, stream: seq<Token>, p: nat, d: nat)
    requires cv.Valid() && cv.width - 1 <= p < |stream| && Wide(stream, cv.features) && d < cv.features
    ensures |Causal(cv, stream, p)| == cv.features
    ensures Causal(cv, stream, p)[d]
      == cv.activate(Sum(cv.width, Products(cv, stream, p + 1 - cv.width, d)) + if cv.bias.Some? then cv.bias.value[d] else 0.0)
  {
    ResponseMeans(cv, stream, p + 1 - cv.width);
  }
}
