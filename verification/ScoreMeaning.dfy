// What a score is: the expected attention of a calibrated future query to a cached key, as plane rotations.

module ScoreMeaning {
  import opened Common
  import opened Sums
  import opened Scoring
  import opened ScoringKernel
  import opened ScoringOffsets

  /** Cosine is even and sine is odd. */
  ghost predicate Symmetric(tr: Trig) {
    forall x :: tr.cos(-x) == tr.cos(x) && tr.sin(-x) == -tr.sin(x)
  }

  /** A sequence of plane vectors in polar form: length and angle per frequency. */
  datatype Polar = Polar(length: nat -> real, angle: nat -> real)

  /** Where a head's value for one frequency, or one plain dimension, stands in a flattened row. */
  function Place(width: nat, head: nat, i: nat): nat {
    head * width + i
  }

  /** The head's mean query in polar form. */
  ghost predicate QueryIs(tr: Trig, st: Stats, head: nat, q: Polar)
    requires st.Valid() && head < st.heads
  {
    forall f: nat :: f < st.frequencies ==>
      && Place(st.frequencies, head, f) < |st.qReal|
      && st.qReal[Place(st.frequencies, head, f)] == q.length(f) * tr.cos(q.angle(f))
      && st.qImag[Place(st.frequencies, head, f)] == q.length(f) * tr.sin(q.angle(f))
  }

  /** The rotated dimensions of a key in polar form: neighbouring dimensions in the interleaved layout, and
      otherwise a dimension of the first half with its partner in the second. */
  predicate KeyIsAt(tr: Trig, st: Stats, key: Key, k: Polar, f: nat) {
    var x, y := k.length(f) * tr.cos(k.angle(f)), k.length(f) * tr.sin(k.angle(f));
    if st.interleaved then key(2 * f) == x && key(2 * f + 1) == y else key(f) == x && key(st.frequencies + f) == y
  }

  ghost predicate KeyIs(tr: Trig, st: Stats, key: Key, k: Polar) {
    forall f: nat :: f < st.frequencies ==> KeyIsAt(tr, st, key, k, f)
  }

  // ---------------------------------------------------------------- what the three parts should be

  function Entry(values: seq<real>, i: nat): real {
    if i < |values| then values[i] else 0.0
  }

  /** The query's angle to the key once the query has moved on by `shift` positions. */
  function AngleAt(st: Stats, q: Polar, k: Polar, f: nat, shift: real): real {
    q.angle(f) - k.angle(f) + shift * Entry(st.omega, f)
  }

  function Turned(tr: Trig, st: Stats, q: Polar, k: Polar, f: nat, shift: real): real {
    tr.cos(AngleAt(st, q, k, f, shift))
  }

  function TurnedAt(tr: Trig, st: Stats, q: Polar, k: Polar, f: nat, round: real, offsets: seq<real>): nat -> real {
    (o: nat) => if o < |offsets| then Turned(tr, st, q, k, f, round + offsets[o]) else 0.0
  }

  /** The mean over the future offsets. */
  function MeanTurned(tr: Trig, st: Stats, q: Polar, k: Polar, f: nat, round: real, offsets: seq<real>): real
    requires offsets != []
  {
    Sum(|offsets|, TurnedAt(tr, st, q, k, f, round, offsets)) / |offsets| as real
  }

  function MeanTurnedBy(tr: Trig, st: Stats, q: Polar, k: Polar, round: real, offsets: seq<real>): nat -> real
    requires offsets != []
  {
    (f: nat) => MeanTurned(tr, st, q, k, f, round, offsets)
  }

  function TurnedBy(tr: Trig, st: Stats, q: Polar, k: Polar, shift: real): nat -> real {
    (f: nat) => Turned(tr, st, q, k, f, shift)
  }

  function SquaredLength(x: real, y: real): real {
    x * x + y * y
  }

  function Product3(a: real, b: real, c: real): real {
    a * b * c
  }

  function PhasePart(tr: Trig, st: Stats, head: nat, q: Polar, k: Polar, f: nat, turned: real): real {
    Product3(tr.sqrt(Entry(st.scaleSq, Place(st.frequencies, head, f))), q.length(f) * k.length(f), turned)
  }

  function PhasePartAt(tr: Trig, st: Stats, head: nat, q: Polar, k: Polar, turned: nat -> real): nat -> real {
    (f: nat) => PhasePart(tr, st, head, q, k, f, turned(f))
  }

  /** The length of the key's plane vector against what the mean query's length leaves out. */
  function LengthTerm(tr: Trig, st: Stats, head: nat, key: Key, f: nat): real {
    var i := Place(st.frequencies, head, f);
    var x, y := if st.interleaved then key(2 * f) else key(f), if st.interleaved then key(2 * f + 1) else key(st.frequencies + f);
    var a, b := Entry(st.qReal, i), Entry(st.qImag, i);
    Product3(tr.sqrt(SquaredLength(x, y)), Entry(st.qAbs, i) - tr.sqrt(SquaredLength(a, b) + 0.00000001), tr.sqrt(Entry(st.scaleSq, i)))
  }

  function LengthPartAt(tr: Trig, st: Stats, head: nat, key: Key): nat -> real {
    (f: nat) => LengthTerm(tr, st, head, key, f)
  }

  /** The dimensions that no rotation touches: a plain inner product. */
  function PlainPartAt(st: Stats, head: nat, key: Key): nat -> real {
    (p: nat) => Entry(st.qPass, Place(st.pass, head, p)) * key(2 * st.frequencies + p)
  }

  // ---------------------------------------------------------------- rotations

  lemma Difference(tr: Trig, a: real, b: real)
    requires tr.Laws() && Symmetric(tr)
    ensures tr.cos(a - b) == tr.cos(a) * tr.cos(b) + tr.sin(a) * tr.sin(b)
    ensures tr.sin(a - b) == tr.sin(a) * tr.cos(b) - tr.cos(a) * tr.sin(b)
  {
    assert tr.Adds(a, -b);
    assert a - b == a + -b;
    assert tr.cos(-b) == tr.cos(b) && tr.sin(-b) == -tr.sin(b);
  }

  lemma RealFactor(x: real, y: real, ca: real, sa: real, cb: real, sb: real)
    ensures (x * ca) * (y * cb) + (x * sa) * (y * sb) == (x * y) * (ca * cb + sa * sb)
  {
    assert (x * ca) * (y * cb) == (x * y) * (ca * cb);
    assert (x * sa) * (y * sb) == (x * y) * (sa * sb);
  }

  lemma ImagFactor(x: real, y: real, ca: real, sa: real, cb: real, sb: real)
    ensures (x * sa) * (y * cb) - (x * ca) * (y * sb) == (x * y) * (sa * cb - ca * sb)
  {
    assert (x * sa) * (y * cb) == (x * y) * (sa * cb);
    assert (x * ca) * (y * sb) == (x * y) * (ca * sb);
  }

  lemma PullOut(xy: real, c: real, s: real, u: real, v: real)
    ensures (xy * c) * u - (xy * s) * v == xy * (c * u - s * v)
  {
    assert (xy * c) * u == xy * (c * u);
    assert (xy * s) * v == xy * (s * v);
  }

  /** What a pair of factors makes of an angle. */
  function TurnBy(tr: Trig, angle: real, u: real, v: real): real {
    tr.cos(angle) * u - tr.sin(angle) * v
  }

  /** The two products against any pair of factors are one rotated product. */
  lemma Rotated(tr: Trig, x: real, a: real, y: real, b: real, qr: real, qi: real, kr: real, ki: real, u: real, v: real)
    requires tr.Laws() && Symmetric(tr)
    requires qr == x * tr.cos(a) && qi == x * tr.sin(a) && kr == y * tr.cos(b) && ki == y * tr.sin(b)
    ensures ProductReal(qr, qi, kr, ki) * u - ProductImag(qr, qi, kr, ki) * v == (x * y) * TurnBy(tr, a - b, u, v)
  {
    hide Trig.Laws, Symmetric;
    Difference(tr, a, b);
    RealFactor(x, y, tr.cos(a), tr.sin(a), tr.cos(b), tr.sin(b));
    ImagFactor(x, y, tr.cos(a), tr.sin(a), tr.cos(b), tr.sin(b));
    PullOut(x * y, tr.cos(a - b), tr.sin(a - b), u, v);
  }

  lemma TurnNothing(tr: Trig, angle: real)
    ensures TurnBy(tr, angle, 0.0, 0.0) == 0.0
  {
  }

  lemma TurnAdds(tr: Trig, angle: real, x: real, y: real, u: real, v: real)
    ensures TurnBy(tr, angle, x + u, y + v) == TurnBy(tr, angle, x, y) + TurnBy(tr, angle, u, v)
  {
    var c, s := tr.cos(angle), tr.sin(angle);
    assert c * (x + u) == c * x + c * u && s * (y + v) == s * y + s * v;
  }

  /** Summed over the offsets, the factors turn the angle by the sum of the offsets' turns. */
  lemma {:induction false} SumsTurn(tr: Trig, st: Stats, q: Polar, k: Polar, f: nat, round: real, offsets: seq<real>)
    requires tr.Laws()
    ensures TurnBy(tr, q.angle(f) - k.angle(f), CosSum(tr, offsets, round, Omega(st, f)), SinSum(tr, offsets, round, Omega(st, f)))
      == Sum(|offsets|, TurnedAt(tr, st, q, k, f, round, offsets))
    decreases |offsets|
  {
    hide Trig.Laws, Angle, Turned, TurnBy;
    var d, w, n := q.angle(f) - k.angle(f), Omega(st, f), |offsets|;
    if n > 0 {
      hide CosSum, SinSum;
      var front, last := offsets[..n - 1], offsets[n - 1];
      SumsSnoc(tr, front, last, round, w);
      assert offsets == front + [last];
      SumsTurn(tr, st, q, k, f, round, front);
      SumEqual(n - 1, TurnedAt(tr, st, q, k, f, round, front), TurnedAt(tr, st, q, k, f, round, offsets));
      OneTurn(tr, st, q, k, f, round, last);
      TurnAdds(tr, d, CosSum(tr, front, round, w), SinSum(tr, front, round, w), tr.cos(Angle(last, round, w)), tr.sin(Angle(last, round, w)));
      assert TurnedAt(tr, st, q, k, f, round, offsets)(n - 1) == Turned(tr, st, q, k, f, round + last);
    } else {
      TurnNothing(tr, d);
    }
  }

  lemma OneTurn(tr: Trig, st: Stats, q: Polar, k: Polar, f: nat, round: real, o: real)
    requires tr.Laws()
    ensures TurnBy(tr, q.angle(f) - k.angle(f), tr.cos(Angle(o, round, Omega(st, f))), tr.sin(Angle(o, round, Omega(st, f))))
      == Turned(tr, st, q, k, f, round + o)
  {
    var d, turn := q.angle(f) - k.angle(f), Angle(o, round, Omega(st, f));
    AddedCosine(tr, d, turn);
    TurnedAngle(tr, st, q, k, f, round, o, d + turn);
  }

  lemma AddedCosine(tr: Trig, a: real, b: real)
    requires tr.Laws()
    ensures tr.cos(a + b) == tr.cos(a) * tr.cos(b) - tr.sin(a) * tr.sin(b)
  {
    assert tr.Adds(a, b);
  }

  lemma TurnedAngle(tr: Trig, st: Stats, q: Polar, k: Polar, f: nat, round: real, o: real, angle: real)
    requires angle == q.angle(f) - k.angle(f) + Angle(o, round, Omega(st, f))
    ensures Turned(tr, st, q, k, f, round + o) == tr.cos(angle)
  {
    var w, shift := Omega(st, f), round + o;
    assert w == Entry(st.omega, f);
    assert Angle(o, round, w) == shift * w;
    assert AngleAt(st, q, k, f, shift) == angle;
  }

  lemma {:induction false} SumsSnoc(tr: Trig, front: seq<real>, last: real, shift: real, w: real)
    ensures CosSum(tr, front + [last], shift, w) == CosSum(tr, front, shift, w) + tr.cos(Angle(last, shift, w))
    ensures SinSum(tr, front + [last], shift, w) == SinSum(tr, front, shift, w) + tr.sin(Angle(last, shift, w))
    decreases |front|
  {
    hide Angle;
    if front == [] {
      assert ([] + [last])[1..] == [];
    } else {
      assert (front + [last])[1..] == front[1..] + [last];
      SumsSnoc(tr, front[1..], last, shift, w);
    }
  }

  // ---------------------------------------------------------------- the parts of the reference

  /** The layouts name the same pair of dimensions. */
  lemma KeyPair(st: Stats, key: Key, f: nat)
    ensures RealPart(st, key, f) == if st.interleaved then key(2 * f) else key(f)
    ensures ImagPart(st, key, f) == if st.interleaved then key(2 * f + 1) else key(st.frequencies + f)
  {
    assert f + st.frequencies == st.frequencies + f;
  }

  lemma EntryOf(values: seq<real>, width: nat, heads: nat, head: nat, i: nat)
    requires |values| == heads * width && head < heads && i < width
    ensures Place(width, head, i) < |values| && Lane(values, width, head, i) == values[Place(width, head, i)] == Entry(values, Place(width, head, i))
  {
    LaneIndex(values, width, heads, head, i);
  }

  lemma Entries(st: Stats, head: nat, f: nat)
    requires st.Valid() && head < st.heads && f < st.frequencies
    ensures var i := Place(st.frequencies, head, f);
      && i < |st.qReal| == |st.qImag| && Entry(st.qReal, i) == st.qReal[i] && Entry(st.qImag, i) == st.qImag[i]
      && Lane(st.qReal, st.frequencies, head, f) == Entry(st.qReal, i) && Lane(st.qImag, st.frequencies, head, f) == Entry(st.qImag, i)
      && Lane(st.qAbs, st.frequencies, head, f) == Entry(st.qAbs, i) && Lane(st.scaleSq, st.frequencies, head, f) == Entry(st.scaleSq, i)
  {
    hide Lane, Entry, Place;
    EntryOf(st.qReal, st.frequencies, st.heads, head, f);
    EntryOf(st.qImag, st.frequencies, st.heads, head, f);
    EntryOf(st.qAbs, st.frequencies, st.heads, head, f);
    EntryOf(st.scaleSq, st.frequencies, st.heads, head, f);
  }

  /** One frequency's term for any factors is a rotated product of lengths. */
  lemma PhaseTermMeans(tr: Trig, st: Stats, head: nat, key: Key, q: Polar, k: Polar, u: real, v: real, f: nat)
    requires tr.Laws() && Symmetric(tr) && st.Valid() && head < st.heads && f < st.frequencies
    requires QueryIs(tr, st, head, q) && KeyIs(tr, st, key, k)
    ensures PhaseTerm(tr, st, head, key, u, v, f) == PhasePart(tr, st, head, q, k, f, TurnBy(tr, q.angle(f) - k.angle(f), u, v))
  {
    hide Trig.Laws, Symmetric, ProductReal, ProductImag, QueryIs, KeyIs, Lane, RealPart, ImagPart, PhasePart;
    Plane(tr, st, head, key, q, k, f);
    Entries(st, head, f);
    var scale := Scale(tr, st, head, f);
    assert scale == tr.sqrt(Entry(st.scaleSq, Place(st.frequencies, head, f)));
    var qr, qi := Lane(st.qReal, st.frequencies, head, f), Lane(st.qImag, st.frequencies, head, f);
    var kr, ki := RealPart(st, key, f), ImagPart(st, key, f);
    assert PhaseTerm(tr, st, head, key, u, v, f) == scale * (ProductReal(qr, qi, kr, ki) * u - ProductImag(qr, qi, kr, ki) * v);
    hide TurnBy;
    var turned := TurnBy(tr, q.angle(f) - k.angle(f), u, v);
    Rotated(tr, q.length(f), q.angle(f), k.length(f), k.angle(f), qr, qi, kr, ki, u, v);
    SameFactor(scale, ProductReal(qr, qi, kr, ki) * u - ProductImag(qr, qi, kr, ki) * v, (q.length(f) * k.length(f)) * turned);
    PartIs(tr, st, head, q, k, f, scale, turned);
  }

  lemma Plane(tr: Trig, st: Stats, head: nat, key: Key, q: Polar, k: Polar, f: nat)
    requires st.Valid() && head < st.heads && f < st.frequencies && QueryIs(tr, st, head, q) && KeyIs(tr, st, key, k)
    ensures Lane(st.qReal, st.frequencies, head, f) == q.length(f) * tr.cos(q.angle(f))
    ensures Lane(st.qImag, st.frequencies, head, f) == q.length(f) * tr.sin(q.angle(f))
    ensures RealPart(st, key, f) == k.length(f) * tr.cos(k.angle(f)) && ImagPart(st, key, f) == k.length(f) * tr.sin(k.angle(f))
  {
    assert KeyIsAt(tr, st, key, k, f);
    KeyPair(st, key, f);
    Entries(st, head, f);
  }

  lemma SameFactor(a: real, b: real, c: real)
    requires b == c
    ensures a * b == a * c
  {
  }

  lemma PartIs(tr: Trig, st: Stats, head: nat, q: Polar, k: Polar, f: nat, scale: real, turned: real)
    requires scale == tr.sqrt(Entry(st.scaleSq, Place(st.frequencies, head, f)))
    ensures PhasePart(tr, st, head, q, k, f, turned) == scale * ((q.length(f) * k.length(f)) * turned)
  {
    Regrouped(scale, q.length(f) * k.length(f), turned);
  }

  lemma Regrouped(a: real, b: real, c: real)
    ensures a * b * c == a * (b * c)
  {
  }

  lemma MeanTurns(tr: Trig, st: Stats, q: Polar, k: Polar, f: nat, round: real, offsets: seq<real>)
    requires tr.Laws() && offsets != []
    ensures TurnBy(tr, q.angle(f) - k.angle(f), MeanCos(tr, st, round, offsets, f), MeanSin(tr, st, round, offsets, f))
      == MeanTurned(tr, st, q, k, f, round, offsets)
  {
    hide CosSum, SinSum, Trig.Laws, Sum;
    var d, w := q.angle(f) - k.angle(f), Omega(st, f);
    SumsTurn(tr, st, q, k, f, round, offsets);
    DivideCombines(tr.cos(d), tr.sin(d), CosSum(tr, offsets, round, w), SinSum(tr, offsets, round, w), |offsets| as real);
  }

  lemma LengthAt(tr: Trig, st: Stats, head: nat, key: Key, f: nat)
    requires st.Valid() && head < st.heads && f < st.frequencies
    ensures MagnitudeTerm(tr, st, head, key, f) == LengthTerm(tr, st, head, key, f)
  {
    hide Lane, RealPart, ImagPart, Entry;
    KeyPair(st, key, f);
    Entries(st, head, f);
    var i := Place(st.frequencies, head, f);
    var x, y := RealPart(st, key, f), ImagPart(st, key, f);
    var a, b := Entry(st.qReal, i), Entry(st.qImag, i);
    SameLength(x, y);
    SameLength(a, b);
    hide SquaredLength, NormSquared;
    SameProduct(tr.sqrt(SquaredLength(x, y)), Entry(st.qAbs, i) - tr.sqrt(SquaredLength(a, b) + 0.00000001), tr.sqrt(Entry(st.scaleSq, i)));
    hide MagnitudeOf, Product3;
  }

  lemma SameLength(x: real, y: real)
    ensures NormSquared(x, y) == SquaredLength(x, y)
  {
  }

  lemma SameProduct(a: real, b: real, c: real)
    ensures MagnitudeOf(a, b, c) == Product3(a, b, c)
  {
  }

  lemma LengthMeans(tr: Trig, st: Stats, head: nat, key: Key)
    requires st.Valid() && head < st.heads
    ensures Sum(st.frequencies, MagnitudeTerms(tr, st, head, key)) == Sum(st.frequencies, LengthPartAt(tr, st, head, key))
  {
    hide MagnitudeTerm, LengthTerm;
    forall f: nat | f < st.frequencies ensures MagnitudeTerms(tr, st, head, key)(f) == LengthPartAt(tr, st, head, key)(f) {
      LengthAt(tr, st, head, key, f);
    }
    SumEqual(st.frequencies, MagnitudeTerms(tr, st, head, key), LengthPartAt(tr, st, head, key));
  }

  lemma PlainMeans(st: Stats, head: nat, key: Key)
    requires st.Valid() && head < st.heads
    ensures Sum(st.pass, PassTerms(st, head, key)) == Sum(st.pass, PlainPartAt(st, head, key))
  {
    forall p: nat | p < st.pass ensures PassTerms(st, head, key)(p) == PlainPartAt(st, head, key)(p) {
      EntryOf(st.qPass, st.pass, st.heads, head, p);
    }
    SumEqual(st.pass, PassTerms(st, head, key), PlainPartAt(st, head, key));
  }

  // ---------------------------------------------------------------- what a score is

  /** The mean-aggregated score of a key, for a mean query and a key given as plane vectors: per frequency the
      product of the lengths with the mean cosine of the angle between the key and the query moved on to each
      future offset, then the length part, then the plain inner product of the unrotated dimensions. */
  lemma ScoreMeans(tr: Trig, st: Stats, head: nat, key: Key, round: real, offsets: seq<real>, q: Polar, k: Polar)
    requires tr.Laws() && Symmetric(tr) && st.Valid() && head < st.heads && offsets != []
    requires QueryIs(tr, st, head, q) && KeyIs(tr, st, key, k)
    ensures Reference(tr, st, head, key, round, offsets)
      == Sum(st.frequencies, PhasePartAt(tr, st, head, q, k, MeanTurnedBy(tr, st, q, k, round, offsets)))
         + Sum(st.frequencies, LengthPartAt(tr, st, head, key))
         + Sum(st.pass, PlainPartAt(st, head, key))
  {
    hide Trig.Laws, Symmetric, QueryIs, KeyIs, MeanCos, MeanSin, MeanTurned, PhaseTerm, PhasePart, TurnBy, MagnitudeTerms, LengthPartAt;
    var got, wanted := PhaseTerms(tr, st, head, key, round, offsets),
      PhasePartAt(tr, st, head, q, k, MeanTurnedBy(tr, st, q, k, round, offsets));
    forall f: nat | f < st.frequencies ensures got(f) == wanted(f) {
      PhaseTermMeans(tr, st, head, key, q, k, MeanCos(tr, st, round, offsets, f), MeanSin(tr, st, round, offsets, f), f);
      MeanTurns(tr, st, q, k, f, round, offsets);
    }
    SumEqual(st.frequencies, got, wanted);
    LengthMeans(tr, st, head, key);
    PlainMeans(st, head, key);
  }

  /** The same at a single offset, which the maximum aggregation compares. */
  lemma OffsetScoreMeans(tr: Trig, st: Stats, head: nat, key: Key, round: real, offset: real, q: Polar, k: Polar)
    requires tr.Laws() && Symmetric(tr) && st.Valid() && head < st.heads
    requires QueryIs(tr, st, head, q) && KeyIs(tr, st, key, k)
    ensures OffsetScore(tr, st, head, key, round, offset) + FixedScore(tr, st, head, key)
      == Sum(st.frequencies, PhasePartAt(tr, st, head, q, k, TurnedBy(tr, st, q, k, round + offset)))
         + Sum(st.frequencies, LengthPartAt(tr, st, head, key))
         + Sum(st.pass, PlainPartAt(st, head, key))
  {
    hide Trig.Laws, Symmetric, QueryIs, KeyIs, PhaseTerm, PhasePart, MagnitudeTerms, LengthPartAt, Turned, TurnBy;
    var got, wanted := OffsetTerms(tr, st, head, key, round, offset),
      PhasePartAt(tr, st, head, q, k, TurnedBy(tr, st, q, k, round + offset));
    forall f: nat | f < st.frequencies ensures got(f) == wanted(f) {
      PhaseTermMeans(tr, st, head, key, q, k, tr.cos(Angle(offset, round, Omega(st, f))), tr.sin(Angle(offset, round, Omega(st, f))), f);
      OneTurn(tr, st, q, k, f, round, offset);
    }
    SumEqual(st.frequencies, got, wanted);
    LengthMeans(tr, st, head, key);
    PlainMeans(st, head, key);
  }

  // ---------------------------------------------------------------- which key is scored

  /** The gathered key of a token is its row of the cache tensor: page, place in the page, head, dimension. */
  lemma KeyElement(c: KeyCache, ids: seq<nat>, t: nat, kvHead: nat, d: nat)
    requires c.size > 0 && t / c.size < |ids|
    ensures GatheredKey(c, ids, t, kvHead)(d)
      == c.data(ids[t / c.size] * c.blockStride + t % c.size * c.tokenStride + kvHead * c.headStride + d)
  {
    hide SlotAddress;
    KeysAgree(c, ids, t, kvHead, d);
    Rebuild(t, c.size);
    assert t - t / c.size * c.size == t % c.size;
  }

  /** Query heads share key heads in consecutive groups. */
  lemma HeadsShareKeys(tr: Trig, st: Stats, c: KeyCache, ids: seq<nat>, kvHead: nat, g: nat, t: nat, round: real, offsets: seq<real>)
    requires st.Valid() && g < st.group && c.size > 0 && t / c.size < |ids| && offsets != []
    ensures Owed(tr, st, c, ids, kvHead * st.group + g, t, round, offsets)
      == Reference(tr, st, kvHead * st.group + g, GatheredKey(c, ids, t, kvHead), round, offsets)
  {
    DivModUnique(kvHead, st.group, g);
  }
}
