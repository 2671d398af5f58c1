// Scoring cached keys: the fused paged kernel against the plain reference, in real arithmetic.

module Scoring {
  import opened Sums

  /** Cosine, sine and square root, of which only the angle-addition laws are used. */
  datatype Trig = Trig(cos: real -> real, sin: real -> real, sqrt: real -> real)
  {
    predicate Adds(a: real, b: real) {
      && cos(a + b) == cos(a) * cos(b) - sin(a) * sin(b)
      && sin(a + b) == sin(a) * cos(b) + cos(a) * sin(b)
    }

    ghost predicate Laws() {
      forall a, b :: Adds(a, b)
    }
  }

  /** One layer's calibration: per frequency, and per query head (flattened) and frequency. */
  datatype Stats = Stats(heads: nat, group: nat, frequencies: nat, pass: nat, interleaved: bool, omega: seq<real>,
                         qReal: seq<real>, qImag: seq<real>, qAbs: seq<real>, scaleSq: seq<real>, qPass: seq<real>)
  {
    predicate Valid() {
      && 0 < group && |omega| == frequencies
      && |qReal| == |qImag| == |qAbs| == |scaleSq| == heads * frequencies
      && |qPass| == heads * pass
    }
  }

  /** A masked load: lanes past the row read zero. */
  function Lane(values: seq<real>, width: nat, row: nat, i: nat): real {
    if i < width && row * width + i < |values| then values[row * width + i] else 0.0
  }

  /** A cached key: its value in every dimension. */
  type Key = nat -> real

  function RealPart(st: Stats, key: Key, f: nat): real {
    if st.interleaved then key(2 * f) else key(f)
  }

  function ImagPart(st: Stats, key: Key, f: nat): real {
    if st.interleaved then key(2 * f + 1) else key(f + st.frequencies)
  }

  function ProductReal(qr: real, qi: real, kr: real, ki: real): real {
    qr * kr + qi * ki
  }

  function ProductImag(qr: real, qi: real, kr: real, ki: real): real {
    qi * kr - qr * ki
  }

  function NormSquared(a: real, b: real): real {
    a * a + b * b
  }

  function MagnitudeOf(norm: real, coefficient: real, scale: real): real {
    norm * coefficient * scale
  }

  // ---------------------------------------------------------------- the reference

  function Angle(offset: real, shift: real, w: real): real {
    (offset + shift) * w
  }

  /** Sums of the phase factors over all offsets, for one frequency. */
  function CosSum(tr: Trig, offsets: seq<real>, shift: real, w: real): real {
    if offsets == [] then 0.0 else tr.cos(Angle(offsets[0], shift, w)) + CosSum(tr, offsets[1..], shift, w)
  }

  function SinSum(tr: Trig, offsets: seq<real>, shift: real, w: real): real {
    if offsets == [] then 0.0 else tr.sin(Angle(offsets[0], shift, w)) + SinSum(tr, offsets[1..], shift, w)
  }

  function Scale(tr: Trig, st: Stats, head: nat, f: nat): real {
    tr.sqrt(Lane(st.scaleSq, st.frequencies, head, f))
  }

  function MeanAbs(tr: Trig, st: Stats, head: nat, f: nat): real {
    var qr, qi := Lane(st.qReal, st.frequencies, head, f), Lane(st.qImag, st.frequencies, head, f);
    tr.sqrt(NormSquared(qr, qi) + 0.00000001)
  }

  /** One frequency's phase term for given cosine and sine factors. */
  function PhaseTerm(tr: Trig, st: Stats, head: nat, key: Key, cosine: real, sine: real, f: nat): real {
    var qr, qi := Lane(st.qReal, st.frequencies, head, f), Lane(st.qImag, st.frequencies, head, f);
    var kr, ki := RealPart(st, key, f), ImagPart(st, key, f);
    Scale(tr, st, head, f) * (ProductReal(qr, qi, kr, ki) * cosine - ProductImag(qr, qi, kr, ki) * sine)
  }

  function MagnitudeTerm(tr: Trig, st: Stats, head: nat, key: Key, f: nat): real {
    var kr, ki := RealPart(st, key, f), ImagPart(st, key, f);
    MagnitudeOf(tr.sqrt(NormSquared(kr, ki)), Lane(st.qAbs, st.frequencies, head, f) - MeanAbs(tr, st, head, f), Scale(tr, st, head, f))
  }

  function PassTerm(st: Stats, head: nat, key: Key, p: nat): real {
    Lane(st.qPass, st.pass, head, p) * key(2 * st.frequencies + p)
  }

  function Omega(st: Stats, f: nat): real {
    if f < |st.omega| then st.omega[f] else 0.0
  }

  function MeanCos(tr: Trig, st: Stats, round: real, offsets: seq<real>, f: nat): real
    requires offsets != []
  {
    CosSum(tr, offsets, round, Omega(st, f)) / |offsets| as real
  }

  function MeanSin(tr: Trig, st: Stats, round: real, offsets: seq<real>, f: nat): real
    requires offsets != []
  {
    SinSum(tr, offsets, round, Omega(st, f)) / |offsets| as real
  }

  function PhaseTerms(tr: Trig, st: Stats, head: nat, key: Key, round: real, offsets: seq<real>): nat -> real
    requires offsets != []
  {
    (f: nat) => PhaseTerm(tr, st, head, key, MeanCos(tr, st, round, offsets, f), MeanSin(tr, st, round, offsets, f), f)
  }

  function MagnitudeTerms(tr: Trig, st: Stats, head: nat, key: Key): nat -> real {
    (f: nat) => MagnitudeTerm(tr, st, head, key, f)
  }

  function PassTerms(st: Stats, head: nat, key: Key): nat -> real {
    (p: nat) => PassTerm(st, head, key, p)
  }

  /** `score_post_rope_keys` with mean aggregation, for one query head and one key. */
  function Reference(tr: Trig, st: Stats, head: nat, key: Key, round: real, offsets: seq<real>): real
    requires offsets != []
  {
    Sum(st.frequencies, PhaseTerms(tr, st, head, key, round, offsets))
    + Sum(st.frequencies, MagnitudeTerms(tr, st, head, key))
    + if st.pass > 0 then Sum(st.pass, PassTerms(st, head, key)) else 0.0
  }

  // ---------------------------------------------------------------- precomputed phases

  /** The offset half of the phase means, fixed when the model runner is bound. */
  function OffsetCos(tr: Trig, st: Stats, offsets: seq<real>, f: nat): real
    requires offsets != []
  {
    CosSum(tr, offsets, 0.0, Omega(st, f)) / |offsets| as real
  }

  function OffsetSin(tr: Trig, st: Stats, offsets: seq<real>, f: nat): real
    requires offsets != []
  {
    SinSum(tr, offsets, 0.0, Omega(st, f)) / |offsets| as real
  }

  lemma AddAngles(tr: Trig, o: real, r: real, w: real)
    requires tr.Laws()
    ensures tr.cos(Angle(o, r, w)) == tr.cos(Angle(0.0, r, w)) * tr.cos(Angle(o, 0.0, w)) - tr.sin(Angle(0.0, r, w)) * tr.sin(Angle(o, 0.0, w))
    ensures tr.sin(Angle(o, r, w)) == tr.sin(Angle(0.0, r, w)) * tr.cos(Angle(o, 0.0, w)) + tr.cos(Angle(0.0, r, w)) * tr.sin(Angle(o, 0.0, w))
  {
    assert tr.Adds(Angle(0.0, r, w), Angle(o, 0.0, w));
    assert Angle(o, r, w) == Angle(0.0, r, w) + Angle(o, 0.0, w);
  }

  lemma Collect(c: real, s: real, x: real, y: real, restX: real, restY: real)
    ensures (c * x - s * y) + (c * restX - s * restY) == c * (x + restX) - s * (y + restY)
    ensures (s * x + c * y) + (s * restX + c * restY) == s * (x + restX) + c * (y + restY)
  {
    assert c * (x + restX) == c * x + c * restX && s * (y + restY) == s * y + s * restY;
    assert s * (x + restX) == s * x + s * restX && c * (y + restY) == c * y + c * restY;
  }

  /** Shifting every offset rotates both sums by the shift's angle. */
  lemma {:induction false} SumsRotate(tr: Trig, offsets: seq<real>, r: real, w: real)
    requires tr.Laws()
    ensures var c, s := tr.cos(Angle(0.0, r, w)), tr.sin(Angle(0.0, r, w));
      && CosSum(tr, offsets, r, w) == c * CosSum(tr, offsets, 0.0, w) - s * SinSum(tr, offsets, 0.0, w)
      && SinSum(tr, offsets, r, w) == s * CosSum(tr, offsets, 0.0, w) + c * SinSum(tr, offsets, 0.0, w)
  {
    hide Angle;
    if offsets != [] {
      var o, rest := offsets[0], offsets[1..];
      AddAngles(tr, o, r, w);
      SumsRotate(tr, rest, r, w);
      Collect(tr.cos(Angle(0.0, r, w)), tr.sin(Angle(0.0, r, w)), tr.cos(Angle(o, 0.0, w)), tr.sin(Angle(o, 0.0, w)),
              CosSum(tr, rest, 0.0, w), SinSum(tr, rest, 0.0, w));
    }
  }

  lemma DivideCombines(c: real, s: real, x: real, y: real, n: real)
    requires n != 0.0
    ensures (c * x - s * y) / n == c * (x / n) - s * (y / n)
    ensures (s * x + c * y) / n == s * (x / n) + c * (y / n)
  {
    var u, v := x / n, y / n;
    assert x == u * n && y == v * n;
    assert c * x - s * y == (c * u - s * v) * n;
    assert s * x + c * y == (s * u + c * v) * n;
  }

  /** `_prepare_mean_phase_kernel`, per layer and frequency. */
  function PhaseCos(tr: Trig, round: real, omega: real, offsetCos: real, offsetSin: real): real {
    tr.cos(Angle(0.0, round, omega)) * offsetCos - tr.sin(Angle(0.0, round, omega)) * offsetSin
  }

  function PhaseSin(tr: Trig, round: real, omega: real, offsetCos: real, offsetSin: real): real {
    tr.sin(Angle(0.0, round, omega)) * offsetCos + tr.cos(Angle(0.0, round, omega)) * offsetSin
  }

  /** Rotating the precomputed offset means by the round's own angle gives the reference's means. */
  lemma PhasesMatch(tr: Trig, st: Stats, round: real, offsets: seq<real>, f: nat)
    requires tr.Laws() && offsets != []
    ensures PhaseCos(tr, round, Omega(st, f), OffsetCos(tr, st, offsets, f), OffsetSin(tr, st, offsets, f)) == MeanCos(tr, st, round, offsets, f)
    ensures PhaseSin(tr, round, Omega(st, f), OffsetCos(tr, st, offsets, f), OffsetSin(tr, st, offsets, f)) == MeanSin(tr, st, round, offsets, f)
  {
    hide CosSum, SinSum, Angle, Trig.Laws;
    var w, n := Omega(st, f), |offsets| as real;
    SumsRotate(tr, offsets, round, w);
    DivideCombines(tr.cos(Angle(0.0, round, w)), tr.sin(Angle(0.0, round, w)),
                   CosSum(tr, offsets, 0.0, w), SinSum(tr, offsets, 0.0, w), n);
  }
}
