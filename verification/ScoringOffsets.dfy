// Future-query offsets, and the aggregation that takes the best of them instead of their mean.

module ScoringOffsets {
  import opened Common
  import opened Sums
  import opened Scoring

  /** `build_geometric_offsets`: all powers of two up to the maximum, in order, and no other offset. */
  method BuildGeometricOffsets(maximum: int) returns (ok: bool, offsets: seq<real>)
    ensures ok <==> maximum >= 1
    ensures ok ==> |offsets| > 0 && offsets[0] == 1.0
    ensures ok ==> forall i :: 1 <= i < |offsets| ==> offsets[i] == 2.0 * offsets[i - 1]
    ensures ok ==> offsets[|offsets| - 1] <= maximum as real < 2.0 * offsets[|offsets| - 1]
  {
    ok, offsets := maximum >= 1, [];
    if !ok {
      return;
    }
    var value := 1;
    while value <= maximum
      invariant value >= 1
      invariant if |offsets| == 0 then value == 1
        else offsets[0] == 1.0 && value as real == 2.0 * offsets[|offsets| - 1] && offsets[|offsets| - 1] <= maximum as real
      invariant forall i :: 1 <= i < |offsets| ==> offsets[i] == 2.0 * offsets[i - 1]
      decreases maximum - value
    {
      offsets := offsets + [value as real];
      value := value * 2;
    }
  }

  function OffsetTerms(tr: Trig, st: Stats, head: nat, key: Key, round: real, offset: real): nat -> real {
    (f: nat) => PhaseTerm(tr, st, head, key, tr.cos(Angle(offset, round, Omega(st, f))), tr.sin(Angle(offset, round, Omega(st, f))), f)
  }

  /** The phase score at one future offset. */
  function OffsetScore(tr: Trig, st: Stats, head: nat, key: Key, round: real, offset: real): real {
    Sum(st.frequencies, OffsetTerms(tr, st, head, key, round, offset))
  }

  /** The part of a score that does not depend on the offset. */
  function FixedScore(tr: Trig, st: Stats, head: nat, key: Key): real {
    Sum(st.frequencies, MagnitudeTerms(tr, st, head, key)) + if st.pass > 0 then Sum(st.pass, PassTerms(st, head, key)) else 0.0
  }

  /** The `max` branch of `score_post_rope_keys`: the best offset's score, reached and never exceeded. */
  method ScoreBestOffset(tr: Trig, st: Stats, head: nat, key: Key, round: real, offsets: seq<real>) returns (score: Option<real>)
    ensures score.None? <==> offsets == []
    ensures score.Some? ==>
      && (exists o :: o in offsets && score.value == OffsetScore(tr, st, head, key, round, o) + FixedScore(tr, st, head, key))
      && (forall o :: o in offsets ==> OffsetScore(tr, st, head, key, round, o) + FixedScore(tr, st, head, key) <= score.value)
  {
    hide OffsetScore, FixedScore;
    if offsets == [] {
      return None;
    }
    var best, at := OffsetScore(tr, st, head, key, round, offsets[0]), offsets[0];
    for i := 1 to |offsets|
      invariant at in offsets && best == OffsetScore(tr, st, head, key, round, at)
      invariant forall j :: 0 <= j < i ==> OffsetScore(tr, st, head, key, round, offsets[j]) <= best
    {
      var candidate := OffsetScore(tr, st, head, key, round, offsets[i]);
      if candidate > best {
        best, at := candidate, offsets[i];
      }
    }
    score := Some(best + FixedScore(tr, st, head, key));
  }

  /** With a single offset the two aggregations agree. */
  lemma OneOffsetAgrees(tr: Trig, st: Stats, head: nat, key: Key, round: real, offset: real)
    ensures OffsetScore(tr, st, head, key, round, offset) + FixedScore(tr, st, head, key) == Reference(tr, st, head, key, round, [offset])
  {
    hide PhaseTerm, Angle;
    var one, mean := OffsetTerms(tr, st, head, key, round, offset), PhaseTerms(tr, st, head, key, round, [offset]);
    forall f: nat | f < st.frequencies ensures one(f) == mean(f) {
      assert CosSum(tr, [offset][1..], round, Omega(st, f)) == 0.0 && SinSum(tr, [offset][1..], round, Omega(st, f)) == 0.0;
    }
    SumEqual(st.frequencies, one, mean);
  }
}
