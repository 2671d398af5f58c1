// The fused scoring kernel over paged storage: masked lanes, tiles, precomputed coefficients, and the
// chunked reference it replaces.

module ScoringKernel {
  import opened Common
  import opened Sums
  import opened Paging
  import opened Scoring

  /** Key storage by address, with the strides of a `[blocks, tokens, heads, dim]` tensor. */
  datatype KeyCache = KeyCache(data: int -> real, blockStride: nat, tokenStride: nat, headStride: nat, size: nat)

  /** Where `_gather_slots` reads a flattened slot: one flat view when pages are not padded. */
  function SlotAddress(c: KeyCache, slot: nat): int
    requires c.size > 0
  {
    if c.blockStride == c.size * c.tokenStride then slot * c.tokenStride
    else slot / c.size * c.blockStride + slot % c.size * c.tokenStride
  }

  /** The key that the reference gathers for token `t`. */
  function GatheredKey(c: KeyCache, ids: seq<nat>, t: nat, kvHead: nat): Key
    requires c.size > 0 && t / c.size < |ids|
  {
    (d: nat) => c.data(SlotAddress(c, TokenSlot(ids, t, c.size)) + kvHead * c.headStride + d)
  }

  /** The key that the kernel addresses through the block table. */
  function PagedKey(c: KeyCache, ids: seq<nat>, t: nat, kvHead: nat): Key
    requires c.size > 0 && t / c.size < |ids|
  {
    (d: nat) => c.data(ids[t / c.size] * c.blockStride + (t - t / c.size * c.size) * c.tokenStride + kvHead * c.headStride + d)
  }

  lemma AddressesAgree(c: KeyCache, id: nat, o: nat)
    requires o < c.size
    ensures SlotAddress(c, id * c.size + o) == id * c.blockStride + o * c.tokenStride
  {
    DivModUnique(id, c.size, o);
    if c.blockStride == c.size * c.tokenStride {
      MulDistributes(id * c.size, o, c.tokenStride);
      MulAssociative(id, c.size, c.tokenStride);
    }
  }

  /** Both address the same elements. */
  lemma KeysAgree(c: KeyCache, ids: seq<nat>, t: nat, kvHead: nat, d: nat)
    requires c.size > 0 && t / c.size < |ids|
    ensures GatheredKey(c, ids, t, kvHead)(d) == PagedKey(c, ids, t, kvHead)(d)
  {
    hide SlotAddress;
    var id, o := ids[t / c.size], t % c.size;
    Rebuild(t, c.size);
    assert t - t / c.size * c.size == o;
    AddressesAgree(c, id, o);
    assert TokenSlot(ids, t, c.size) == id * c.size + o;
    assert SlotAddress(c, TokenSlot(ids, t, c.size)) + kvHead * c.headStride + d
        == id * c.blockStride + (t - t / c.size * c.size) * c.tokenStride + kvHead * c.headStride + d;
  }

  // ---------------------------------------------------------------- precomputed coefficients

  datatype Coefficients = Coefficients(scale: seq<real>, extra: seq<real>, phaseCos: seq<real>, phaseSin: seq<real>)

  /** What binding the model runner and preparing the phases leave in the workspaces. */
  ghost predicate Prepared(tr: Trig, st: Stats, round: real, offsets: seq<real>, co: Coefficients)
    requires st.Valid() && offsets != []
  {
    && |co.scale| == |co.extra| == st.heads * st.frequencies && |co.phaseCos| == |co.phaseSin| == st.frequencies
    && (forall i :: 0 <= i < |co.scale| ==> co.scale[i] == tr.sqrt(st.scaleSq[i]))
    && (forall i :: 0 <= i < |co.extra| ==>
          co.extra[i] == st.qAbs[i] - tr.sqrt(NormSquared(st.qReal[i], st.qImag[i]) + 0.00000001))
    && (forall f: nat :: f < st.frequencies ==> (
          && co.phaseCos[f] == PhaseCos(tr, round, Omega(st, f), OffsetCos(tr, st, offsets, f), OffsetSin(tr, st, offsets, f))
          && co.phaseSin[f] == PhaseSin(tr, round, Omega(st, f), OffsetCos(tr, st, offsets, f), OffsetSin(tr, st, offsets, f))))
  }

  /** The half of the coefficients that binding the model runner stores with a layer. */
  datatype Bound = Bound(scale: seq<real>, extra: seq<real>, offsetCos: seq<real>, offsetSin: seq<real>)

  ghost predicate BoundTo(tr: Trig, st: Stats, offsets: seq<real>, b: Bound)
    requires st.Valid() && offsets != []
  {
    && |b.scale| == |b.extra| == st.heads * st.frequencies && |b.offsetCos| == |b.offsetSin| == st.frequencies
    && (forall i :: 0 <= i < |b.scale| ==> b.scale[i] == tr.sqrt(st.scaleSq[i]))
    && (forall i :: 0 <= i < |b.extra| ==>
          b.extra[i] == st.qAbs[i] - tr.sqrt(NormSquared(st.qReal[i], st.qImag[i]) + 0.00000001))
    && (forall f: nat :: f < st.frequencies ==>
          b.offsetCos[f] == OffsetCos(tr, st, offsets, f) && b.offsetSin[f] == OffsetSin(tr, st, offsets, f))
  }

  lemma NoOffsets(tr: Trig, offsets: seq<real>, w: real)
    ensures CosSum(tr, offsets[|offsets|..], 0.0, w) == 0.0 && SinSum(tr, offsets[|offsets|..], 0.0, w) == 0.0
    ensures offsets[0..] == offsets
  {
  }

  /** The sums over the last offsets, extended by one in front. */
  lemma OneMoreOffset(tr: Trig, offsets: seq<real>, k: nat, w: real)
    requires 0 < k <= |offsets|
    ensures CosSum(tr, offsets[k - 1..], 0.0, w) == tr.cos(offsets[k - 1] * w) + CosSum(tr, offsets[k..], 0.0, w)
    ensures SinSum(tr, offsets[k - 1..], 0.0, w) == tr.sin(offsets[k - 1] * w) + SinSum(tr, offsets[k..], 0.0, w)
  {
    assert offsets[k - 1..][1..] == offsets[k..];
    assert Angle(offsets[k - 1], 0.0, w) == offsets[k - 1] * w;
  }

  /** The means of one frequency's phase factors over all offsets. */
  method MeanPhases(tr: Trig, offsets: seq<real>, w: real) returns (cosine: real, sine: real)
    requires offsets != []
    ensures cosine == CosSum(tr, offsets, 0.0, w) / |offsets| as real
    ensures sine == SinSum(tr, offsets, 0.0, w) / |offsets| as real
  {
    hide CosSum, SinSum;
    cosine, sine := 0.0, 0.0;
    var k := |offsets|;
    NoOffsets(tr, offsets, w);
    while k > 0
      invariant 0 <= k <= |offsets|
      invariant cosine == CosSum(tr, offsets[k..], 0.0, w) && sine == SinSum(tr, offsets[k..], 0.0, w)
    {
      OneMoreOffset(tr, offsets, k, w);
      var angle := offsets[k - 1] * w;
      cosine, sine := tr.cos(angle) + cosine, tr.sin(angle) + sine;
      k := k - 1;
    }
    cosine, sine := cosine / |offsets| as real, sine / |offsets| as real;
  }

  /** The mean phases of every frequency. */
  method BindPhases(tr: Trig, st: Stats, offsets: seq<real>) returns (offsetCos: seq<real>, offsetSin: seq<real>)
    requires st.Valid() && offsets != []
    ensures |offsetCos| == |offsetSin| == st.frequencies
    ensures forall f: nat :: f < st.frequencies ==>
      offsetCos[f] == OffsetCos(tr, st, offsets, f) && offsetSin[f] == OffsetSin(tr, st, offsets, f)
  {
    hide CosSum, SinSum;
    offsetCos, offsetSin := [], [];
    for f := 0 to st.frequencies
      invariant |offsetCos| == |offsetSin| == f
      invariant forall g: nat :: g < f ==>
        offsetCos[g] == OffsetCos(tr, st, offsets, g) && offsetSin[g] == OffsetSin(tr, st, offsets, g)
    {
      var cosine, sine := MeanPhases(tr, offsets, st.omega[f]);
      offsetCos, offsetSin := offsetCos + [cosine], offsetSin + [sine];
    }
  }

  /** The coefficients that `bind_model_runner` computes for one layer. */
  method BindLayer(tr: Trig, st: Stats, offsets: seq<real>) returns (b: Bound)
    requires st.Valid() && offsets != []
    ensures BoundTo(tr, st, offsets, b)
  {
    hide OffsetCos, OffsetSin;
    var n := |st.scaleSq|;
    var scale := seq(n, i requires 0 <= i < n => tr.sqrt(st.scaleSq[i]));
    var meanAbs := seq(n, i requires 0 <= i < n => tr.sqrt(NormSquared(st.qReal[i], st.qImag[i]) + 0.00000001));
    var extra := seq(n, i requires 0 <= i < n => st.qAbs[i] - meanAbs[i]);
    var offsetCos, offsetSin := BindPhases(tr, st, offsets);
    b := Bound(scale, extra, offsetCos, offsetSin);
  }

  // ---------------------------------------------------------------- one program lane

  /** Masked key loads: lanes past the frequency count read zero. */
  function LaneReal(st: Stats, key: Key, f: nat): real {
    if f < st.frequencies then RealPart(st, key, f) else 0.0
  }

  function LaneImag(st: Stats, key: Key, f: nat): real {
    if f < st.frequencies then ImagPart(st, key, f) else 0.0
  }

  function KernelPhase(st: Stats, co: Coefficients, head: nat, key: Key): nat -> real {
    (f: nat) =>
      var qr, qi := Lane(st.qReal, st.frequencies, head, f), Lane(st.qImag, st.frequencies, head, f);
      var kr, ki := LaneReal(st, key, f), LaneImag(st, key, f);
      Lane(co.scale, st.frequencies, head, f)
      * (ProductReal(qr, qi, kr, ki) * Lane(co.phaseCos, st.frequencies, 0, f)
         - ProductImag(qr, qi, kr, ki) * Lane(co.phaseSin, st.frequencies, 0, f))
  }

  function KernelMagnitudeAt(tr: Trig, st: Stats, co: Coefficients, head: nat, key: Key, f: nat): real {
    MagnitudeOf(tr.sqrt(NormSquared(LaneReal(st, key, f), LaneImag(st, key, f))),
                Lane(co.extra, st.frequencies, head, f), Lane(co.scale, st.frequencies, head, f))
  }

  function KernelMagnitude(tr: Trig, st: Stats, co: Coefficients, head: nat, key: Key): nat -> real {
    (f: nat) => KernelMagnitudeAt(tr, st, co, head, key, f)
  }

  function KernelPass(st: Stats, head: nat, key: Key): nat -> real {
    (p: nat) => (if p < st.pass then key(2 * st.frequencies + p) else 0.0) * Lane(st.qPass, st.pass, head, p)
  }

  /** The kernel's score of one token, over `blockF` frequency lanes and `blockP` pass lanes. */
  function KernelScore(tr: Trig, st: Stats, co: Coefficients, head: nat, key: Key, blockF: nat, blockP: nat): real {
    Sum(blockF, KernelPhase(st, co, head, key)) + Sum(blockF, KernelMagnitude(tr, st, co, head, key))
    + if st.pass > 0 then Sum(blockP, KernelPass(st, head, key)) else 0.0
  }

  lemma LaneIndex(values: seq<real>, width: nat, heads: nat, head: nat, i: nat)
    requires |values| == heads * width && head < heads && i < width
    ensures head * width + i < |values| && Lane(values, width, head, i) == values[head * width + i]
  {
    MulMonotone(head + 1, heads, width);
    MulDistributes(head, 1, width);
  }

  /** The stored coefficients are the reference's. */
  lemma CoefficientsMatch(tr: Trig, st: Stats, round: real, offsets: seq<real>, co: Coefficients, head: nat, f: nat)
    requires st.Valid() && offsets != [] && tr.Laws() && Prepared(tr, st, round, offsets, co)
    requires head < st.heads && f < st.frequencies
    ensures Lane(co.scale, st.frequencies, head, f) == Scale(tr, st, head, f)
    ensures Lane(co.extra, st.frequencies, head, f) == Lane(st.qAbs, st.frequencies, head, f) - MeanAbs(tr, st, head, f)
    ensures Lane(co.phaseCos, st.frequencies, 0, f) == MeanCos(tr, st, round, offsets, f)
    ensures Lane(co.phaseSin, st.frequencies, 0, f) == MeanSin(tr, st, round, offsets, f)
  {
    hide PhaseCos, PhaseSin, MeanCos, MeanSin, Trig.Laws, OffsetCos, OffsetSin, NormSquared;
    LaneIndex(co.scale, st.frequencies, st.heads, head, f);
    LaneIndex(co.extra, st.frequencies, st.heads, head, f);
    LaneIndex(st.qAbs, st.frequencies, st.heads, head, f);
    LaneIndex(st.qReal, st.frequencies, st.heads, head, f);
    LaneIndex(st.qImag, st.frequencies, st.heads, head, f);
    LaneIndex(st.scaleSq, st.frequencies, st.heads, head, f);
    PhasesMatch(tr, st, round, offsets, f);
  }

  /** A token's kernel score is its reference score, however many lanes the tile pads to. */
  lemma KernelMatches(tr: Trig, st: Stats, round: real, offsets: seq<real>, co: Coefficients, head: nat, key: Key, same: Key,
                      blockF: nat, blockP: nat)
    requires st.Valid() && offsets != [] && tr.Laws() && Prepared(tr, st, round, offsets, co)
    requires head < st.heads && st.frequencies <= blockF && st.pass <= blockP
    requires forall d: nat :: same(d) == key(d)
    ensures KernelScore(tr, st, co, head, key, blockF, blockP) == Reference(tr, st, head, same, round, offsets)
  {
    PhasePart(tr, st, round, offsets, co, head, key, same, blockF);
    MagnitudePart(tr, st, round, offsets, co, head, key, same, blockF);
    PassPart(st, head, key, same, blockP);
  }

  lemma PhasePart(tr: Trig, st: Stats, round: real, offsets: seq<real>, co: Coefficients, head: nat, key: Key, same: Key, blockF: nat)
    requires st.Valid() && offsets != [] && tr.Laws() && Prepared(tr, st, round, offsets, co)
    requires head < st.heads && st.frequencies <= blockF && forall d: nat :: same(d) == key(d)
    ensures Sum(blockF, KernelPhase(st, co, head, key)) == Sum(st.frequencies, PhaseTerms(tr, st, head, same, round, offsets))
  {
    hide Prepared, Trig.Laws, MeanCos, MeanSin, Scale, ProductReal, ProductImag;
    var terms, wanted := KernelPhase(st, co, head, key), PhaseTerms(tr, st, head, same, round, offsets);
    forall f: nat | st.frequencies <= f < blockF ensures terms(f) == 0.0 { MaskedLane(st, co, head, f); }
    forall f: nat | f < st.frequencies ensures terms(f) == wanted(f) { CoefficientsMatch(tr, st, round, offsets, co, head, f); }
    SumPadded(st.frequencies, blockF, terms);
    SumEqual(st.frequencies, terms, wanted);
  }

  lemma MaskedLane(st: Stats, co: Coefficients, head: nat, f: nat)
    requires st.frequencies <= f
    ensures Lane(co.scale, st.frequencies, head, f) == 0.0 && Lane(co.extra, st.frequencies, head, f) == 0.0
  {
  }

  lemma NoMagnitude(tr: Trig, st: Stats, co: Coefficients, head: nat, key: Key, f: nat)
    requires st.frequencies <= f
    ensures KernelMagnitudeAt(tr, st, co, head, key, f) == 0.0
  {
    MaskedLane(st, co, head, f);
  }

  lemma MagnitudeAt(tr: Trig, st: Stats, round: real, offsets: seq<real>, co: Coefficients, head: nat, key: Key, same: Key, f: nat)
    requires st.Valid() && offsets != [] && tr.Laws() && Prepared(tr, st, round, offsets, co)
    requires head < st.heads && f < st.frequencies && forall d: nat :: same(d) == key(d)
    ensures KernelMagnitudeAt(tr, st, co, head, key, f) == MagnitudeTerm(tr, st, head, same, f)
  {
    hide Prepared, Trig.Laws, MeanCos, MeanSin, Scale, MeanAbs, NormSquared, MagnitudeOf, Lane;
    CoefficientsMatch(tr, st, round, offsets, co, head, f);
    assert LaneReal(st, key, f) == RealPart(st, same, f);
    assert LaneImag(st, key, f) == ImagPart(st, same, f);
  }

  lemma MagnitudePart(tr: Trig, st: Stats, round: real, offsets: seq<real>, co: Coefficients, head: nat, key: Key, same: Key, blockF: nat)
    requires st.Valid() && offsets != [] && tr.Laws() && Prepared(tr, st, round, offsets, co)
    requires head < st.heads && st.frequencies <= blockF && forall d: nat :: same(d) == key(d)
    ensures Sum(blockF, KernelMagnitude(tr, st, co, head, key)) == Sum(st.frequencies, MagnitudeTerms(tr, st, head, same))
  {
    hide Prepared, Trig.Laws, KernelMagnitudeAt, MagnitudeTerm;
    var terms, wanted := KernelMagnitude(tr, st, co, head, key), MagnitudeTerms(tr, st, head, same);
    forall f: nat | st.frequencies <= f < blockF ensures terms(f) == 0.0 { NoMagnitude(tr, st, co, head, key, f); }
    forall f: nat | f < st.frequencies ensures terms(f) == wanted(f) { MagnitudeAt(tr, st, round, offsets, co, head, key, same, f); }
    SumPadded(st.frequencies, blockF, terms);
    SumEqual(st.frequencies, terms, wanted);
  }

  lemma PassPart(st: Stats, head: nat, key: Key, same: Key, blockP: nat)
    requires st.pass <= blockP && forall d: nat :: same(d) == key(d)
    ensures Sum(blockP, KernelPass(st, head, key)) == Sum(st.pass, PassTerms(st, head, same))
  {
    var terms, wanted := KernelPass(st, head, key), PassTerms(st, head, same);
    forall p: nat | p < st.pass ensures terms(p) == wanted(p) {
      assert same(2 * st.frequencies + p) == key(2 * st.frequencies + p);
    }
    SumPadded(st.pass, blockP, terms);
    SumEqual(st.pass, terms, wanted);
  }

  // ---------------------------------------------------------------- the grids

  /** The score every path owes for one query head and token. */
  function Owed(tr: Trig, st: Stats, c: KeyCache, ids: seq<nat>, head: nat, t: nat, round: real, offsets: seq<real>): real
    requires st.Valid() && c.size > 0 && t / c.size < |ids| && offsets != []
  {
    Reference(tr, st, head, GatheredKey(c, ids, t, head / st.group), round, offsets)
  }

  predicate Covered(c: KeyCache, ids: seq<nat>, n: nat) {
    c.size > 0 && forall t: nat :: t < n ==> t / c.size < |ids|
  }

  /** The first `heads` rows are scored. */
  ghost predicate RowsScored(tr: Trig, st: Stats, c: KeyCache, ids: seq<nat>, n: nat, round: real, offsets: seq<real>,
                             out: array2<real>, heads: nat)
    requires st.Valid() && Covered(c, ids, n) && offsets != []
    requires heads <= out.Length0 && n <= out.Length1
    reads out
  {
    forall h: nat, t: nat :: h < heads && t < n ==> out[h, t] == Owed(tr, st, c, ids, h, t, round, offsets)
  }

  /** `_prepare_mean_phase_kernel`: tiles of 256 lanes, the last one masked. */
  method PrepareMeanPhases(tr: Trig, round: real, omega: seq<real>, offsetCos: seq<real>, offsetSin: seq<real>)
    returns (phaseCos: array<real>, phaseSin: array<real>)
    requires |omega| == |offsetCos| == |offsetSin|
    ensures fresh(phaseCos) && fresh(phaseSin) && phaseCos.Length == phaseSin.Length == |omega|
    ensures forall i :: 0 <= i < |omega| ==>
      phaseCos[i] == PhaseCos(tr, round, omega[i], offsetCos[i], offsetSin[i])
      && phaseSin[i] == PhaseSin(tr, round, omega[i], offsetCos[i], offsetSin[i])
  {
    var n := |omega|;
    phaseCos, phaseSin := new real[n], new real[n];
    for tile := 0 to CeilDiv(n, 256)
      invariant forall i :: 0 <= i < n && i < tile * 256 ==>
        phaseCos[i] == PhaseCos(tr, round, omega[i], offsetCos[i], offsetSin[i])
        && phaseSin[i] == PhaseSin(tr, round, omega[i], offsetCos[i], offsetSin[i])
    {
      for lane := 0 to 256
        invariant forall i :: 0 <= i < n && i < tile * 256 + lane ==>
          phaseCos[i] == PhaseCos(tr, round, omega[i], offsetCos[i], offsetSin[i])
          && phaseSin[i] == PhaseSin(tr, round, omega[i], offsetCos[i], offsetSin[i])
      {
        var i := tile * 256 + lane;
        if i < n {
          phaseCos[i] := PhaseCos(tr, round, omega[i], offsetCos[i], offsetSin[i]);
          phaseSin[i] := PhaseSin(tr, round, omega[i], offsetCos[i], offsetSin[i]);
        }
      }
    }
  }

  /** A round's coefficients: what binding stored, with the phases prepared for the round. */
  method PrepareRound(tr: Trig, st: Stats, ghost offsets: seq<real>, b: Bound, round: real) returns (co: Coefficients)
    requires st.Valid() && offsets != [] && BoundTo(tr, st, offsets, b)
    ensures Prepared(tr, st, round, offsets, co)
  {
    hide PhaseCos, PhaseSin, OffsetCos, OffsetSin;
    var phaseCos, phaseSin := PrepareMeanPhases(tr, round, st.omega, b.offsetCos, b.offsetSin);
    co := Coefficients(b.scale, b.extra, phaseCos[..], phaseSin[..]);
  }

  /** Binding, preparing and scoring in sequence leave the reference scores, with nothing assumed about the
      coefficients in between. */
  method ScoreLayer(tr: Trig, st: Stats, offsets: seq<real>, round: real, c: KeyCache, ids: seq<nat>, n: nat,
                    blockF: nat, blockP: nat, out: array2<real>)
    requires st.Valid() && offsets != [] && tr.Laws()
    requires st.frequencies <= blockF && st.pass <= blockP && Covered(c, ids, n)
    requires st.heads == out.Length0 && n <= out.Length1
    modifies out
    ensures RowsScored(tr, st, c, ids, n, round, offsets, out, st.heads)
    ensures forall h, t :: 0 <= h < out.Length0 && n <= t < out.Length1 ==> out[h, t] == old(out[h, t])
  {
    var b := BindLayer(tr, st, offsets);
    var co := PrepareRound(tr, st, offsets, b, round);
    ScorePagedKeysMean(tr, st, co, c, ids, n, blockF, blockP, out, round, offsets);
  }

  /** `_score_paged_keys_mean_kernel`: one program per query head and tile of 16 tokens. It owes, and
      stores, exactly the reference scores. */
  method ScorePagedKeysMean(tr: Trig, st: Stats, co: Coefficients, c: KeyCache, ids: seq<nat>, n: nat, blockF: nat, blockP: nat,
                            out: array2<real>, ghost round: real, ghost offsets: seq<real>)
    requires st.Valid() && offsets != [] && tr.Laws() && Prepared(tr, st, round, offsets, co)
    requires st.frequencies <= blockF && st.pass <= blockP && Covered(c, ids, n)
    requires st.heads == out.Length0 && n <= out.Length1
    modifies out
    ensures RowsScored(tr, st, c, ids, n, round, offsets, out, st.heads)
    ensures forall h, t :: 0 <= h < out.Length0 && n <= t < out.Length1 ==> out[h, t] == old(out[h, t])
  {
    hide Owed, KernelScore, Prepared, Trig.Laws;
    for head := 0 to st.heads
      invariant RowsScored(tr, st, c, ids, n, round, offsets, out, head)
      invariant forall h, t :: 0 <= h < out.Length0 && n <= t < out.Length1 ==> out[h, t] == old(out[h, t])
    {
      for tile := 0 to CeilDiv(n, 16)
        invariant RowsScored(tr, st, c, ids, n, round, offsets, out, head)
        invariant forall t: nat :: t < n && t < tile * 16 ==> out[head, t] == Owed(tr, st, c, ids, head, t, round, offsets)
        invariant forall h, t :: 0 <= h < out.Length0 && n <= t < out.Length1 ==> out[h, t] == old(out[h, t])
      {
        for lane := 0 to 16
          invariant RowsScored(tr, st, c, ids, n, round, offsets, out, head)
          invariant forall t: nat :: t < n && t < tile * 16 + lane ==> out[head, t] == Owed(tr, st, c, ids, head, t, round, offsets)
          invariant forall h, t :: 0 <= h < out.Length0 && n <= t < out.Length1 ==> out[h, t] == old(out[h, t])
        {
          var t := tile * 16 + lane;
          if t < n {
            out[head, t] := KernelScore(tr, st, co, head, PagedKey(c, ids, t, head / st.group), blockF, blockP);
            LaneOwed(tr, st, co, c, ids, head, t, blockF, blockP, round, offsets);
          }
        }
      }
    }
  }

  lemma LaneOwed(tr: Trig, st: Stats, co: Coefficients, c: KeyCache, ids: seq<nat>, head: nat, t: nat, blockF: nat, blockP: nat,
                 round: real, offsets: seq<real>)
    requires st.Valid() && offsets != [] && tr.Laws() && Prepared(tr, st, round, offsets, co)
    requires st.frequencies <= blockF && st.pass <= blockP && head < st.heads && c.size > 0 && t / c.size < |ids|
    ensures KernelScore(tr, st, co, head, PagedKey(c, ids, t, head / st.group), blockF, blockP) == Owed(tr, st, c, ids, head, t, round, offsets)
  {
    hide KernelScore, Reference, Prepared, Trig.Laws;
    var key, same := PagedKey(c, ids, t, head / st.group), GatheredKey(c, ids, t, head / st.group);
    forall d: nat ensures same(d) == key(d) { KeysAgree(c, ids, t, head / st.group, d); }
    KernelMatches(tr, st, round, offsets, co, head, key, same, blockF, blockP);
  }

  /** The path without the kernel: the same scores chunk by chunk, so that the chunk size is invisible. */
  method ScoreChunks(tr: Trig, st: Stats, c: KeyCache, ids: seq<nat>, n: nat, chunk: nat, round: real, offsets: seq<real>, out: array2<real>)
    requires st.Valid() && offsets != [] && Covered(c, ids, n) && chunk > 0
    requires st.heads == out.Length0 && n <= out.Length1
    modifies out
    ensures RowsScored(tr, st, c, ids, n, round, offsets, out, st.heads)
    ensures forall h, t :: 0 <= h < out.Length0 && n <= t < out.Length1 ==> out[h, t] == old(out[h, t])
  {
    hide Reference;
    var start := 0;
    while start < n
      invariant 0 <= start
      invariant forall h: nat, t: nat :: h < st.heads && t < n && t < start ==> out[h, t] == Owed(tr, st, c, ids, h, t, round, offsets)
      invariant forall h, t :: 0 <= h < out.Length0 && n <= t < out.Length1 ==> out[h, t] == old(out[h, t])
    {
      var count := if chunk < n - start then chunk else n - start;
      forall h: nat, t: nat | h < st.heads && start <= t < start + count {
        out[h, t] := Reference(tr, st, h, GatheredKey(c, ids, t, h / st.group), round, offsets);
      }
      start := start + chunk;
    }
  }
}
