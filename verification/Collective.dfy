// Reducing head, layer and rank scores: one collective over stored layers against one per layer.

module Collective {
  import opened Common
  import opened Sums

  // ---------------------------------------------------------------- maxima

  function Max(a: real, b: real): real {
    if a >= b then a else b
  }

  function MaxOver(n: nat, f: nat -> real): real
    requires n > 0
  {
    if n == 1 then f(0) else Max(MaxOver(n - 1, f), f(n - 1))
  }

  lemma {:induction false} MaxEqual(n: nat, f: nat -> real, g: nat -> real)
    requires n > 0 && forall i: nat :: i < n ==> f(i) == g(i)
    ensures MaxOver(n, f) == MaxOver(n, g)
  {
    if n > 1 { MaxEqual(n - 1, f, g); }
  }

  /** It is the maximum: reached, and never exceeded. */
  lemma {:induction false} MaxIs(n: nat, f: nat -> real)
    requires n > 0
    ensures (exists i: nat :: i < n && f(i) == MaxOver(n, f)) && forall i: nat :: i < n ==> f(i) <= MaxOver(n, f)
  {
    if n > 1 {
      MaxIs(n - 1, f);
      var i: nat :| i < n - 1 && f(i) == MaxOver(n - 1, f);
      assert f(if MaxOver(n, f) == f(n - 1) then n - 1 else i) == MaxOver(n, f);
    } else {
      assert f(0) == MaxOver(n, f);
    }
  }

  // ---------------------------------------------------------------- one layer on one rank

  datatype Roots = Roots(sqrt: real -> real, rsqrt: real -> real)
  {
    predicate Inverse(x: real) {
      sqrt(x) != 0.0 && rsqrt(x) == 1.0 / sqrt(x)
    }

    /** The only law used: the reciprocal root of a positive number. */
    ghost predicate Laws() {
      forall x :: x > 0.0 ==> Inverse(x)
    }
  }

  /** Raw head scores of every rank and layer, with their per-head statistics. */
  datatype Inputs = Inputs(ranks: nat, layers: nat, heads: nat, tokens: nat,
                           raw: (nat, nat, nat, nat) -> real, mean: (nat, nat, nat) -> real, variance: (nat, nat, nat) -> real)
  {
    predicate Valid() {
      ranks > 0 && layers > 0 && heads > 0
    }
  }

  function Floored(v: real): (r: real)
    ensures r > 0.0
  {
    if v >= 0.000001 then v else 0.000001
  }

  /** `normalize_head_scores`. */
  function Normalised(ro: Roots, score: real, mean: real, variance: real): real
    requires ro.Laws()
  {
    assert ro.Inverse(Floored(variance));
    (score - mean) / ro.sqrt(Floored(variance))
  }

  function Head(ro: Roots, in_: Inputs, rank: nat, layer: nat, token: nat): nat -> real
    requires ro.Laws()
  {
    (h: nat) => Normalised(ro, in_.raw(rank, layer, h, token), in_.mean(rank, layer, h), in_.variance(rank, layer, h))
  }

  /** One layer's score of a token on one rank: the best of its normalised heads. */
  function LayerScore(ro: Roots, in_: Inputs, rank: nat, layer: nat, token: nat): real
    requires ro.Laws() && in_.Valid()
  {
    MaxOver(in_.heads, Head(ro, in_, rank, layer, token))
  }

  function Scaled(x: real, factor: real): real {
    x * factor
  }

  /** The kernel's lane: normalised through the reciprocal root, minus infinity past the last head. */
  function KernelLane(ro: Roots, in_: Inputs, rank: nat, layer: nat, token: nat, h: nat): Option<real> {
    if h < in_.heads
    then Some(Scaled(in_.raw(rank, layer, h, token) - in_.mean(rank, layer, h), ro.rsqrt(Floored(in_.variance(rank, layer, h)))))
    else None
  }

  function LaneMax(ro: Roots, in_: Inputs, rank: nat, layer: nat, token: nat, lanes: nat): Option<real> {
    if lanes == 0 then None
    else
      var front, last := LaneMax(ro, in_, rank, layer, token, lanes - 1), KernelLane(ro, in_, rank, layer, token, lanes - 1);
      if front.None? then last else if last.None? then front else Some(Max(front.value, last.value))
  }

  lemma DivideIsMultiply(x: real, y: real, inverse: real)
    requires y != 0.0 && inverse == 1.0 / y
    ensures Scaled(x, inverse) == x / y
  {
    assert x * (1.0 / y) == x / y;
  }

  /** The fused lane is the plain normalisation. */
  lemma LaneMatches(ro: Roots, in_: Inputs, rank: nat, layer: nat, token: nat, h: nat)
    requires ro.Laws() && in_.Valid() && h < in_.heads
    ensures KernelLane(ro, in_, rank, layer, token, h) == Some(Head(ro, in_, rank, layer, token)(h))
  {
    var v, x := Floored(in_.variance(rank, layer, h)), in_.raw(rank, layer, h, token) - in_.mean(rank, layer, h);
    assert ro.Inverse(v);
    hide Scaled;
    DivideIsMultiply(x, ro.sqrt(v), ro.rsqrt(v));
    assert Head(ro, in_, rank, layer, token)(h) == x / ro.sqrt(v);
  }

  /** The kernel's maximum over padded lanes is the plain maximum over heads. */
  lemma {:induction false} LanesMatch(ro: Roots, in_: Inputs, rank: nat, layer: nat, token: nat, lanes: nat)
    requires ro.Laws() && in_.Valid() && lanes > 0
    ensures LaneMax(ro, in_, rank, layer, token, lanes)
      == Some(MaxOver(if lanes < in_.heads then lanes else in_.heads, Head(ro, in_, rank, layer, token)))
  {
    hide Head, KernelLane, Roots.Laws;
    if lanes > 1 { LanesMatch(ro, in_, rank, layer, token, lanes - 1); }
    if lanes <= in_.heads {
      LaneMatches(ro, in_, rank, layer, token, lanes - 1);
    } else {
      LanePadding(ro, in_, rank, layer, token, lanes - 1);
    }
  }

  lemma LanePadding(ro: Roots, in_: Inputs, rank: nat, layer: nat, token: nat, h: nat)
    requires h >= in_.heads
    ensures KernelLane(ro, in_, rank, layer, token, h) == None
  {
  }

  // ---------------------------------------------------------------- what every path owes

  function RankScores(ro: Roots, in_: Inputs, layer: nat, token: nat): nat -> real
    requires ro.Laws() && in_.Valid()
  {
    (r: nat) => LayerScore(ro, in_, r, layer, token)
  }

  /** A layer's score of a token across all ranks. */
  function Agreed(ro: Roots, in_: Inputs, token: nat): nat -> real
    requires ro.Laws() && in_.Valid()
  {
    (l: nat) => MaxOver(in_.ranks, RankScores(ro, in_, l, token))
  }

  /** The aggregated score of a token: the layers' mean or maximum. It does not mention a rank. */
  function Aggregated(ro: Roots, in_: Inputs, mean: bool, token: nat): real
    requires ro.Laws() && in_.Valid()
  {
    if mean then Sum(in_.layers, Agreed(ro, in_, token)) / in_.layers as real
    else MaxOver(in_.layers, Agreed(ro, in_, token))
  }

  /** A normalised head score is the distance to the head's mean in standard deviations, with variances below
      one millionth raised to it. */
  lemma HeadMeans(ro: Roots, in_: Inputs, rank: nat, layer: nat, token: nat, h: nat)
    requires ro.Laws()
    ensures var v := in_.variance(rank, layer, h);
      var deviation := ro.sqrt(if v > 0.000001 then v else 0.000001);
      && deviation != 0.0
      && Head(ro, in_, rank, layer, token)(h) * deviation == in_.raw(rank, layer, h, token) - in_.mean(rank, layer, h)
  {
    var v := Floored(in_.variance(rank, layer, h));
    assert ro.Inverse(v);
    DivideBack(in_.raw(rank, layer, h, token) - in_.mean(rank, layer, h), ro.sqrt(v));
  }

  lemma DivideBack(x: real, y: real)
    requires y != 0.0
    ensures x / y * y == x
  {
  }

  /** A layer's score across ranks is that of some head on some rank, and no head on any rank has more. */
  lemma AgreedIsBest(ro: Roots, in_: Inputs, token: nat, layer: nat)
    requires ro.Laws() && in_.Valid()
    ensures exists r: nat, h: nat :: r < in_.ranks && h < in_.heads && Head(ro, in_, r, layer, token)(h) == Agreed(ro, in_, token)(layer)
    ensures forall r: nat, h: nat :: r < in_.ranks && h < in_.heads ==> Head(ro, in_, r, layer, token)(h) <= Agreed(ro, in_, token)(layer)
  {
    hide Head, MaxOver, Roots.Laws;
    var scores := RankScores(ro, in_, layer, token);
    MaxIs(in_.ranks, scores);
    forall r: nat | r < in_.ranks
      ensures forall h: nat :: h < in_.heads ==> Head(ro, in_, r, layer, token)(h) <= scores(r)
    {
      MaxIs(in_.heads, Head(ro, in_, r, layer, token));
    }
    var best: nat :| best < in_.ranks && scores(best) == MaxOver(in_.ranks, scores);
    MaxIs(in_.heads, Head(ro, in_, best, layer, token));
    var h: nat :| h < in_.heads && Head(ro, in_, best, layer, token)(h) == scores(best);
    assert Head(ro, in_, best, layer, token)(h) == Agreed(ro, in_, token)(layer);
    forall r: nat | r < in_.ranks ensures scores(r) <= Agreed(ro, in_, token)(layer) { }
  }

  /** Under the maximum the aggregated score is that of some head of some layer on some rank, and no head of
      any layer on any rank has more. */
  lemma AggregatedIsBest(ro: Roots, in_: Inputs, token: nat)
    requires ro.Laws() && in_.Valid()
    ensures exists r: nat, l: nat, h: nat :: (
      r < in_.ranks && l < in_.layers && h < in_.heads && Head(ro, in_, r, l, token)(h) == Aggregated(ro, in_, false, token))
    ensures forall r: nat, l: nat, h: nat :: r < in_.ranks && l < in_.layers && h < in_.heads ==>
      Head(ro, in_, r, l, token)(h) <= Aggregated(ro, in_, false, token)
  {
    hide Head, Agreed, MaxOver, Roots.Laws;
    var layers := Agreed(ro, in_, token);
    MaxIs(in_.layers, layers);
    forall r: nat, l: nat, h: nat | r < in_.ranks && l < in_.layers && h < in_.heads
      ensures Head(ro, in_, r, l, token)(h) <= Aggregated(ro, in_, false, token)
    {
      AgreedIsBest(ro, in_, token, l);
      assert layers(l) <= MaxOver(in_.layers, layers);
    }
    var best: nat :| best < in_.layers && layers(best) == MaxOver(in_.layers, layers);
    AgreedIsBest(ro, in_, token, best);
    var r: nat, h: nat :| r < in_.ranks && h < in_.heads && Head(ro, in_, r, best, token)(h) == layers(best);
    assert Head(ro, in_, r, best, token)(h) == Aggregated(ro, in_, false, token);
  }

  function Moved(f: nat -> real, g: nat -> real): nat -> real {
    (l: nat) => g(l) - f(l)
  }

  /** Under the mean, moving one layer's score moves the aggregated score by that layer's share. */
  lemma MeanMovesByShare(ro: Roots, a: Inputs, b: Inputs, token: nat, layer: nat)
    requires ro.Laws() && a.Valid() && b.Valid() && a.layers == b.layers && layer < a.layers
    requires forall l: nat :: l < a.layers && l != layer ==> Agreed(ro, a, token)(l) == Agreed(ro, b, token)(l)
    ensures (Aggregated(ro, b, true, token) - Aggregated(ro, a, true, token)) * a.layers as real
      == Agreed(ro, b, token)(layer) - Agreed(ro, a, token)(layer)
  {
    hide Agreed, Roots.Laws;
    var n, f, g := a.layers, Agreed(ro, a, token), Agreed(ro, b, token);
    SumAdds(n, f, Moved(f, g), g);
    SumImpulse(n, Moved(f, g), layer);
    DivideBack(Sum(n, f), n as real);
    DivideBack(Sum(n, g), n as real);
    Shares(Sum(n, f) / n as real, Sum(n, g) / n as real, n as real);
  }

  /** Under the mean, layers that agree on a score aggregate to it. */
  lemma MeanOfEqual(ro: Roots, in_: Inputs, token: nat, c: real)
    requires ro.Laws() && in_.Valid()
    requires forall l: nat :: l < in_.layers ==> Agreed(ro, in_, token)(l) == c
    ensures Aggregated(ro, in_, true, token) == c
  {
    hide Agreed, Roots.Laws;
    SumConstant(in_.layers, Agreed(ro, in_, token), c);
    MultipleOver(in_.layers as real, c);
  }

  lemma Shares(x: real, y: real, n: real)
    ensures (y - x) * n == y * n - x * n
  {
  }

  lemma MultipleOver(n: real, c: real)
    requires n != 0.0
    ensures n * c / n == c
  {
  }

  /** The layers before the last step of the reduction. */
  function Running(ro: Roots, in_: Inputs, mean: bool, token: nat, layers: nat): real
    requires ro.Laws() && in_.Valid() && layers > 0
  {
    if mean then Sum(layers, Agreed(ro, in_, token)) else MaxOver(layers, Agreed(ro, in_, token))
  }

  function Accumulate(mean: bool, first: bool, previous: real, layer: real): real {
    if first then layer else if mean then previous + layer else Max(previous, layer)
  }

  lemma RunningStep(ro: Roots, in_: Inputs, mean: bool, token: nat, layer: nat)
    requires ro.Laws() && in_.Valid()
    ensures Running(ro, in_, mean, token, layer + 1)
      == Accumulate(mean, layer == 0, if layer == 0 then 0.0 else Running(ro, in_, mean, token, layer), Agreed(ro, in_, token)(layer))
  {
    hide Agreed;
    if layer == 0 { assert Sum(0, Agreed(ro, in_, token)) == 0.0; }
  }

  // ---------------------------------------------------------------- the collective

  function Across(had: (nat, nat) -> real, e: nat): nat -> real {
    (r: nat) => had(r, e)
  }

  /** `all_reduce(MAX)` on a flat buffer: every rank ends with the maximum over ranks of each element. */
  method AllReduceMax(buffer: array2<real>, count: nat, ghost had: (nat, nat) -> real)
    requires 0 < buffer.Length0 && count <= buffer.Length1
    requires forall r: nat, e: nat :: r < buffer.Length0 && e < count ==> buffer[r, e] == had(r, e)
    modifies buffer
    ensures forall r: nat, e: nat :: r < buffer.Length0 && e < count ==> buffer[r, e] == MaxOver(buffer.Length0, Across(had, e))
  {
    for e := 0 to count
      invariant forall r: nat, d: nat :: r < buffer.Length0 && d < e ==> buffer[r, d] == MaxOver(buffer.Length0, Across(had, d))
      invariant forall r: nat, d: nat :: r < buffer.Length0 && e <= d < count ==> buffer[r, d] == had(r, d)
    {
      var best := buffer[0, e];
      for r := 1 to buffer.Length0
        invariant best == MaxOver(r, Across(had, e))
      {
        best := Max(best, buffer[r, e]);
      }
      for r := 0 to buffer.Length0
        invariant forall q: nat :: q < r ==> buffer[q, e] == best
        invariant forall q: nat, d: nat :: q < buffer.Length0 && d < e ==> buffer[q, d] == MaxOver(buffer.Length0, Across(had, d))
        invariant forall q: nat, d: nat :: q < buffer.Length0 && e < d < count ==> buffer[q, d] == had(q, d)
      {
        buffer[r, e] := best;
      }
    }
  }

  // ---------------------------------------------------------------- the three paths

  ghost predicate AllAggregated(ro: Roots, in_: Inputs, mean: bool, out: array2<real>)
    requires ro.Laws() && in_.Valid() && out.Length0 == in_.ranks && out.Length1 == in_.tokens
    reads out
  {
    forall r: nat, t: nat :: r < in_.ranks && t < in_.tokens ==> out[r, t] == Aggregated(ro, in_, mean, t)
  }

  /** The layer and token of a flattened element. */
  lemma Flattened(layer: nat, tokens: nat, t: nat, layers: nat)
    requires t < tokens && layer < layers
    ensures layer * tokens + t < layers * tokens
    ensures (layer * tokens + t) / tokens == layer && (layer * tokens + t) % tokens == t
  {
    DivModUnique(layer, tokens, t);
    MulMonotone(layer + 1, layers, tokens);
    MulDistributes(layer, 1, tokens);
  }

  function Stored(ro: Roots, in_: Inputs): (nat, nat) -> real
    requires ro.Laws() && in_.Valid()
  {
    (r: nat, e: nat) => if in_.tokens > 0 then LayerScore(ro, in_, r, e / in_.tokens, e % in_.tokens) else 0.0
  }

  /** The layer loop with deferred reduction: each layer's scores go to its own stretch of the buffer. */
  method StoreLayers(ro: Roots, in_: Inputs, lanes: nat, stored: array2<real>)
    requires ro.Laws() && in_.Valid() && in_.heads <= lanes
    requires stored.Length0 == in_.ranks && in_.layers * in_.tokens <= stored.Length1
    modifies stored
    ensures forall r: nat, e: nat :: r < in_.ranks && e < in_.layers * in_.tokens ==> stored[r, e] == Stored(ro, in_)(r, e)
  {
    hide LayerScore, Roots.Laws, LaneMax;
    var count := in_.layers * in_.tokens;
    for e := 0 to count
      invariant forall r: nat, d: nat :: r < in_.ranks && d < e ==> stored[r, d] == Stored(ro, in_)(r, d)
    {
      for r := 0 to in_.ranks
        invariant forall q: nat, d: nat :: q < in_.ranks && d < e ==> stored[q, d] == Stored(ro, in_)(q, d)
        invariant forall q: nat :: q < r ==> stored[q, e] == Stored(ro, in_)(q, e)
      {
        assert in_.tokens > 0 by { assert in_.tokens == 0 ==> count == 0; }
        KernelLayer(ro, in_, r, e / in_.tokens, e % in_.tokens, lanes);
        stored[r, e] := LaneMax(ro, in_, r, e / in_.tokens, e % in_.tokens, lanes).value;
      }
    }
  }

  /** `torch.sum` or `torch.amax` over the stored layers of one rank, and the division for the mean. */
  method ReduceLayers(ro: Roots, in_: Inputs, mean: bool, stored: array2<real>, r: nat, t: nat) returns (total: real)
    requires ro.Laws() && in_.Valid() && r < in_.ranks && t < in_.tokens
    requires stored.Length0 == in_.ranks && in_.layers * in_.tokens <= stored.Length1
    requires forall l: nat :: l < in_.layers ==> HoldsAgreed(ro, in_, stored, r, l, t)
    ensures total == Aggregated(ro, in_, mean, t)
  {
    hide LayerScore, Roots.Laws, Agreed;
    total := 0.0;
    for l := 0 to in_.layers
      invariant l > 0 ==> total == Running(ro, in_, mean, t, l)
    {
      assert HoldsAgreed(ro, in_, stored, r, l, t);
      RunningStep(ro, in_, mean, t, l);
      total := Accumulate(mean, l == 0, total, stored[r, l * in_.tokens + t]);
    }
    if mean {
      total := total / in_.layers as real;
    }
  }

  ghost predicate HoldsAgreed(ro: Roots, in_: Inputs, stored: array2<real>, r: nat, l: nat, t: nat)
    requires ro.Laws() && in_.Valid() && r < stored.Length0
    reads stored
  {
    l * in_.tokens + t < stored.Length1 && stored[r, l * in_.tokens + t] == Agreed(ro, in_, t)(l)
  }

  /** Stores every layer's scores, runs one collective over all of them, then reduces over layers. */
  method AggregateStored(ro: Roots, in_: Inputs, mean: bool, lanes: nat, stored: array2<real>, out: array2<real>)
    requires ro.Laws() && in_.Valid() && in_.heads <= lanes && stored != out
    requires stored.Length0 == out.Length0 == in_.ranks && out.Length1 == in_.tokens
    requires in_.layers * in_.tokens <= stored.Length1
    modifies stored, out
    ensures AllAggregated(ro, in_, mean, out)
  {
    hide LayerScore, Roots.Laws, Agreed, Stored, Aggregated;
    StoreLayers(ro, in_, lanes, stored);
    AllReduceMax(stored, in_.layers * in_.tokens, Stored(ro, in_));
    forall r: nat, l: nat, t: nat | r < in_.ranks && l < in_.layers && t < in_.tokens ensures HoldsAgreed(ro, in_, stored, r, l, t) {
      StoredAt(ro, in_, l, t);
    }
    ReduceAll(ro, in_, mean, stored, out);
  }

  method ReduceAll(ro: Roots, in_: Inputs, mean: bool, stored: array2<real>, out: array2<real>)
    requires ro.Laws() && in_.Valid() && stored != out
    requires stored.Length0 == out.Length0 == in_.ranks && out.Length1 == in_.tokens
    requires in_.layers * in_.tokens <= stored.Length1
    requires forall r: nat, l: nat, t: nat :: r < in_.ranks && l < in_.layers && t < in_.tokens ==> HoldsAgreed(ro, in_, stored, r, l, t)
    modifies out
    ensures AllAggregated(ro, in_, mean, out)
  {
    hide LayerScore, Roots.Laws, Agreed, Aggregated, HoldsAgreed;
    for r := 0 to in_.ranks
      invariant forall q: nat, t: nat :: q < r && t < in_.tokens ==> out[q, t] == Aggregated(ro, in_, mean, t)
    {
      for t := 0 to in_.tokens
        invariant forall q: nat, u: nat :: q < r && u < in_.tokens ==> out[q, u] == Aggregated(ro, in_, mean, u)
        invariant forall u: nat :: u < t ==> out[r, u] == Aggregated(ro, in_, mean, u)
      {
        var total := ReduceLayers(ro, in_, mean, stored, r, t);
        out[r, t] := total;
      }
    }
  }

  lemma KernelLayer(ro: Roots, in_: Inputs, rank: nat, layer: nat, token: nat, lanes: nat)
    requires ro.Laws() && in_.Valid() && in_.heads <= lanes
    ensures LaneMax(ro, in_, rank, layer, token, lanes) == Some(LayerScore(ro, in_, rank, layer, token))
  {
    LanesMatch(ro, in_, rank, layer, token, lanes);
  }

  /** A flattened element of the one collective is its layer's own collective. */
  lemma StoredAt(ro: Roots, in_: Inputs, layer: nat, token: nat)
    requires ro.Laws() && in_.Valid() && layer < in_.layers && token < in_.tokens
    ensures layer * in_.tokens + token < in_.layers * in_.tokens
    ensures MaxOver(in_.ranks, Across(Stored(ro, in_), layer * in_.tokens + token)) == Agreed(ro, in_, token)(layer)
  {
    hide LayerScore, Roots.Laws;
    Flattened(layer, in_.tokens, token, in_.layers);
    var f, g := Across(Stored(ro, in_), layer * in_.tokens + token), RankScores(ro, in_, layer, token);
    forall r: nat | r < in_.ranks ensures f(r) == g(r) {}
    MaxEqual(in_.ranks, f, g);
  }

  function LayerOf(ro: Roots, in_: Inputs, layer: nat): (nat, nat) -> real
    requires ro.Laws() && in_.Valid()
  {
    (r: nat, t: nat) => LayerScore(ro, in_, r, layer, t)
  }

  /** One collective per layer, accumulating as the layers come. */
  method AggregatePerLayer(ro: Roots, in_: Inputs, mean: bool, scores: array2<real>, out: array2<real>)
    requires ro.Laws() && in_.Valid() && scores != out
    requires scores.Length0 == out.Length0 == in_.ranks && scores.Length1 == out.Length1 == in_.tokens
    modifies scores, out
    ensures AllAggregated(ro, in_, mean, out)
  {
    hide LayerScore, Roots.Laws;
    for l := 0 to in_.layers
      invariant l > 0 ==> forall r: nat, t: nat :: r < in_.ranks && t < in_.tokens ==> out[r, t] == Running(ro, in_, mean, t, l)
    {
      forall r: nat, t: nat | r < in_.ranks && t < in_.tokens {
        scores[r, t] := LayerScore(ro, in_, r, l, t);
      }
      AllReduceMax(scores, in_.tokens, LayerOf(ro, in_, l));
      forall t: nat | t < in_.tokens
        ensures MaxOver(in_.ranks, Across(LayerOf(ro, in_, l), t)) == Agreed(ro, in_, t)(l)
      {
        MaxEqual(in_.ranks, Across(LayerOf(ro, in_, l), t), RankScores(ro, in_, l, t));
        RunningStep(ro, in_, mean, t, l);
      }
      forall t: nat | t < in_.tokens ensures Running(ro, in_, mean, t, l + 1)
        == Accumulate(mean, l == 0, if l == 0 then 0.0 else Running(ro, in_, mean, t, l), Agreed(ro, in_, t)(l))
      {
        RunningStep(ro, in_, mean, t, l);
      }
      forall r: nat, t: nat | r < in_.ranks && t < in_.tokens {
        out[r, t] := Accumulate(mean, l == 0, out[r, t], scores[r, t]);
      }
    }
    if mean {
      forall r: nat, t: nat | r < in_.ranks && t < in_.tokens {
        out[r, t] := out[r, t] / in_.layers as real;
      }
    }
  }

  /** Without tensor parallelism there is no collective, and one rank still gets the same scores. */
  method AggregateAlone(ro: Roots, in_: Inputs, mean: bool, lanes: nat, out: array2<real>)
    requires ro.Laws() && in_.Valid() && in_.ranks == 1 && in_.heads <= lanes
    requires out.Length0 == 1 && out.Length1 == in_.tokens
    modifies out
    ensures AllAggregated(ro, in_, mean, out)
  {
    hide LayerScore, Roots.Laws, LaneMax;
    for l := 0 to in_.layers
      invariant l > 0 ==> forall t: nat :: t < in_.tokens ==> out[0, t] == Running(ro, in_, mean, t, l)
    {
      for t := 0 to in_.tokens
        invariant l > 0 ==> forall u: nat :: t <= u < in_.tokens ==> out[0, u] == Running(ro, in_, mean, u, l)
        invariant forall u: nat :: u < t ==> out[0, u] == Running(ro, in_, mean, u, l + 1)
      {
        KernelLayer(ro, in_, 0, l, t, lanes);
        RunningStep(ro, in_, mean, t, l);
        out[0, t] := Accumulate(mean, l == 0, out[0, t], LaneMax(ro, in_, 0, l, t, lanes).value);
      }
    }
    if mean {
      forall t: nat | t < in_.tokens {
        out[0, t] := out[0, t] / in_.layers as real;
      }
    }
  }
}
