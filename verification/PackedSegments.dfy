// Packed variable-length sequences: segments, their state chunks, and the kernel's walk over them.

module PackedSegments {
  import opened Common

  /** One launch of the output kernel: a batch row, a token span, and the first state chunk of the span. */
  datatype Segment = Segment(batch: nat, start: nat, length: nat, base: nat)

  datatype PackError =
    | IndicesWithoutOffsets | BatchNotOne | NotCovering | Decreasing | WrongIndexCount | WrongIndices

  datatype Packed = Ok(segments: seq<Segment>) | Err(error: PackError)

  // ---------------------------------------------------------------- what packing means

  predicate Nondecreasing(offsets: seq<int>) {
    forall i :: 0 <= i < |offsets| - 1 ==> offsets[i] <= offsets[i + 1]
  }

  /** Offsets that cover `total` tokens exactly. */
  predicate Covering(offsets: seq<int>, total: nat) {
    |offsets| >= 2 && offsets[0] == 0 && offsets[|offsets| - 1] == total && Nondecreasing(offsets)
  }

  lemma {:induction false} OffsetsOrdered(offsets: seq<int>, i: nat, j: nat)
    requires Nondecreasing(offsets) && i <= j < |offsets|
    ensures offsets[i] <= offsets[j]
    decreases j
  {
    if i < j { OffsetsOrdered(offsets, i, j - 1); }
  }

  lemma OffsetsInRange(offsets: seq<int>, total: nat, i: nat)
    requires Covering(offsets, total) && i < |offsets|
    ensures 0 <= offsets[i] <= total
  {
    OffsetsOrdered(offsets, 0, i);
    OffsetsOrdered(offsets, i, |offsets| - 1);
  }

  function Length(offsets: seq<int>, k: nat): nat
    requires Nondecreasing(offsets) && k + 1 < |offsets|
  {
    offsets[k + 1] - offsets[k]
  }

  /** State chunks of segment `k`, and of the first `k` segments. */
  function Chunks(offsets: seq<int>, blockT: nat, k: nat): nat
    requires blockT > 0 && Nondecreasing(offsets) && k + 1 < |offsets|
  {
    CeilDiv(Length(offsets, k), blockT)
  }

  function Base(offsets: seq<int>, blockT: nat, k: nat): nat
    requires blockT > 0 && Nondecreasing(offsets) && k < |offsets|
  {
    if k == 0 then 0 else Base(offsets, blockT, k - 1) + Chunks(offsets, blockT, k - 1)
  }

  function SegmentAt(offsets: seq<int>, blockT: nat, total: nat, k: nat): Segment
    requires blockT > 0 && Covering(offsets, total) && k + 1 < |offsets|
  {
    OffsetsInRange(offsets, total, k);
    Segment(0, offsets[k], Length(offsets, k), Base(offsets, blockT, k))
  }

  /** Nonempty segments before segment `k`: the dense sequence label. */
  function Dense(offsets: seq<int>, k: nat): nat
    requires Nondecreasing(offsets) && k < |offsets|
  {
    if k == 0 then 0 else Dense(offsets, k - 1) + if Length(offsets, k - 1) > 0 then 1 else 0
  }

  ghost predicate HoldsTokens(offsets: seq<int>, i: nat) {
    i + 1 < |offsets| && offsets[i] < offsets[i + 1]
  }

  /** The segments before segment `k` that hold tokens. */
  ghost function Filled(offsets: seq<int>, k: nat): set<nat> {
    set i: nat | i < k && HoldsTokens(offsets, i)
  }

  lemma FilledNext(offsets: seq<int>, k: nat)
    ensures k !in Filled(offsets, k)
    ensures Filled(offsets, k + 1) == if HoldsTokens(offsets, k) then Filled(offsets, k) + {k} else Filled(offsets, k)
  {
  }

  /** The dense label of a segment is their number. */
  lemma {:induction false} DenseCounts(offsets: seq<int>, k: nat)
    requires Nondecreasing(offsets) && k < |offsets|
    ensures Dense(offsets, k) == |Filled(offsets, k)|
  {
    if k > 0 {
      DenseCounts(offsets, k - 1);
      FilledNext(offsets, k - 1);
      hide Filled;
    }
  }

  lemma {:induction false} BaseMonotone(offsets: seq<int>, blockT: nat, i: nat, j: nat)
    requires blockT > 0 && Nondecreasing(offsets) && i <= j < |offsets|
    ensures Base(offsets, blockT, i) <= Base(offsets, blockT, j)
    decreases j
  {
    if i < j { BaseMonotone(offsets, blockT, i, j - 1); }
  }

  // ---------------------------------------------------------------- the loop

  /** `_segments` on a packed batch, before the indices are compared. */
  method Pack(offsets: seq<int>, blockT: nat, total: nat) returns (segments: seq<Segment>, chunks: nat)
    requires blockT > 0 && Covering(offsets, total)
    ensures |segments| == |offsets| - 1 && forall k :: 0 <= k < |segments| ==> segments[k] == SegmentAt(offsets, blockT, total, k)
    ensures chunks == Base(offsets, blockT, |offsets| - 1)
  {
    segments, chunks := [], 0;
    for k := 0 to |offsets| - 1
      invariant |segments| == k && forall j :: 0 <= j < k ==> segments[j] == SegmentAt(offsets, blockT, total, j)
      invariant chunks == Base(offsets, blockT, k)
    {
      OffsetsInRange(offsets, total, k);
      segments := segments + [Segment(0, offsets[k], offsets[k + 1] - offsets[k], chunks)];
      chunks := chunks + CeilDiv(offsets[k + 1] - offsets[k], blockT);
    }
  }

  /** The labels of one segment's chunks, as the flat list carries them. */
  function LabelRun(mark: int, n: nat): (run: seq<int>)
    ensures |run| == 2 * n && forall c :: 0 <= c < n ==> run[2 * c] == mark && run[2 * c + 1] == c
  {
    if n == 0 then [] else LabelRun(mark, n - 1) + [mark, n - 1]
  }

  /** The flat labels of the first `k` segments. */
  function Labels(offsets: seq<int>, blockT: nat, k: nat): (flat: seq<int>)
    requires blockT > 0 && Nondecreasing(offsets) && k < |offsets|
    ensures |flat| == 2 * Base(offsets, blockT, k)
  {
    if k == 0 then []
    else Labels(offsets, blockT, k - 1) + LabelRun(Dense(offsets, k - 1), Chunks(offsets, blockT, k - 1))
  }

  /** The inner loop: one segment's chunks. */
  method AppendRun(before: seq<int>, mark: int, chunks: nat) returns (flat: seq<int>)
    ensures flat == before + LabelRun(mark, chunks)
  {
    flat := before;
    for chunk := 0 to chunks
      invariant flat == before + LabelRun(mark, chunk)
    {
      flat := flat + [mark, chunk];
    }
  }

  /** The list that `_segments` builds over the nonempty segments only. */
  method ExpectedIndices(offsets: seq<int>, blockT: nat, total: nat, segments: seq<Segment>) returns (flat: seq<int>)
    requires blockT > 0 && Covering(offsets, total)
    requires |segments| == |offsets| - 1 && forall k :: 0 <= k < |segments| ==> segments[k] == SegmentAt(offsets, blockT, total, k)
    ensures flat == Labels(offsets, blockT, |segments|)
  {
    flat := [];
    var mark := 0;
    for k := 0 to |segments|
      invariant flat == Labels(offsets, blockT, k) && mark == Dense(offsets, k)
    {
      if segments[k].length > 0 {
        flat := AppendRun(flat, mark, CeilDiv(segments[k].length, blockT));
        mark := mark + 1;
      } else {
        NoChunks(blockT);
      }
    }
  }

  lemma NoChunks(blockT: nat)
    requires blockT > 0
    ensures CeilDiv(0, blockT) == 0
  {
    DivBelow(blockT - 1, blockT, 1);
  }

  /** `_segments`: which inputs are accepted, and what each accepted one returns. */
  method Segments(batch: nat, total: nat, blockT: nat, offsets: Option<seq<int>>, indices: Option<seq<int>>) returns (r: Packed)
    requires blockT > 0
    ensures offsets.None? ==>
      r == if indices.Some? then Err(IndicesWithoutOffsets) else Ok(seq(batch, b requires 0 <= b < batch => Segment(b, 0, total, 0)))
    ensures offsets.Some? && batch != 1 ==> r == Err(BatchNotOne)
    ensures offsets.Some? && batch == 1 ==>
      var cu := offsets.value;
      && (r == Err(NotCovering) <==> |cu| < 2 || cu[0] != 0 || cu[|cu| - 1] != total)
      && (r == Err(Decreasing) <==> 2 <= |cu| && cu[0] == 0 && cu[|cu| - 1] == total && exists i :: 0 < i < |cu| && cu[i - 1] > cu[i])
      && (Covering(cu, total) <==> r != Err(NotCovering) && r != Err(Decreasing))
    ensures offsets.Some? && batch == 1 && Covering(offsets.value, total) ==>
      var n := |offsets.value| - 1;
      && (r.Ok? <==> (indices.None? || indices.value == Labels(offsets.value, blockT, n)))
      && (r.Err? ==> r.error == if |indices.value| != 2 * Base(offsets.value, blockT, n) then WrongIndexCount else WrongIndices)
      && (r.Ok? ==> |r.segments| == n && forall k :: 0 <= k < n ==> r.segments[k] == SegmentAt(offsets.value, blockT, total, k))
  {
    hide Labels, Base, SegmentAt, CeilDiv;
    if offsets.None? {
      if indices.Some? {
        return Err(IndicesWithoutOffsets);
      }
      var rows := seq(batch, b requires 0 <= b < batch => Segment(b, 0, total, 0));
      return Ok(rows);
    }
    if batch != 1 {
      return Err(BatchNotOne);
    }
    var cu := offsets.value;
    if |cu| < 2 || cu[0] != 0 || cu[|cu| - 1] != total {
      return Err(NotCovering);
    }
    if exists i :: 0 < i < |cu| && cu[i - 1] > cu[i] {
      return Err(Decreasing);
    }
    var segments, chunks := Pack(cu, blockT, total);
    if indices.Some? {
      if |indices.value| != 2 * chunks {
        return Err(WrongIndexCount);
      }
      var expected := ExpectedIndices(cu, blockT, total, segments);
      if indices.value != expected {
        return Err(WrongIndices);
      }
    }
    r := Ok(segments);
  }

  // ---------------------------------------------------------------- tokens are covered once

  predicate Holds(s: Segment, batch: nat, t: nat) {
    s.batch == batch && s.start <= t < s.start + s.length
  }

  lemma {:induction false} FindSegment(offsets: seq<int>, total: nat, t: nat, hi: nat) returns (k: nat)
    requires Covering(offsets, total) && hi < |offsets| && t < offsets[hi]
    ensures k < hi && offsets[k] <= t < offsets[k + 1]
    decreases hi
  {
    if t < offsets[hi - 1] {
      k := FindSegment(offsets, total, t, hi - 1);
    } else {
      k := hi - 1;
    }
  }

  /** Every token lies in one segment and no other. */
  lemma TokensCoveredOnce(offsets: seq<int>, blockT: nat, total: nat, t: nat) returns (k: nat)
    requires blockT > 0 && Covering(offsets, total) && t < total
    ensures k + 1 < |offsets| && Holds(SegmentAt(offsets, blockT, total, k), 0, t)
    ensures forall j: nat :: j + 1 < |offsets| && Holds(SegmentAt(offsets, blockT, total, j), 0, t) ==> j == k
  {
    k := FindSegment(offsets, total, t, |offsets| - 1);
    forall j: nat | j + 1 < |offsets| && Holds(SegmentAt(offsets, blockT, total, j), 0, t) ensures j == k {
      if j < k { OffsetsOrdered(offsets, j + 1, k); }
      if k < j { OffsetsOrdered(offsets, k + 1, j); }
    }
  }

  // ---------------------------------------------------------------- chunks are enumerated once

  predicate Reads(offsets: seq<int>, blockT: nat, k: nat, chunk: nat, c: nat)
    requires blockT > 0 && Nondecreasing(offsets)
  {
    k + 1 < |offsets| && chunk < Chunks(offsets, blockT, k) && Base(offsets, blockT, k) + chunk == c
  }

  lemma {:induction false} FindChunk(offsets: seq<int>, blockT: nat, c: nat, hi: nat) returns (k: nat, chunk: nat)
    requires blockT > 0 && Nondecreasing(offsets) && hi < |offsets| && c < Base(offsets, blockT, hi)
    ensures k < hi && Reads(offsets, blockT, k, chunk, c)
    decreases hi
  {
    if c < Base(offsets, blockT, hi - 1) {
      k, chunk := FindChunk(offsets, blockT, c, hi - 1);
    } else {
      k, chunk := hi - 1, c - Base(offsets, blockT, hi - 1);
    }
  }

  /** The (segment, chunk) pairs are exactly the state chunks below the total, each once. */
  lemma ChunksEnumeratedOnce(offsets: seq<int>, blockT: nat, total: nat, c: nat)
    requires blockT > 0 && Covering(offsets, total)
    ensures (exists k: nat, chunk: nat :: Reads(offsets, blockT, k, chunk, c)) <==> c < Base(offsets, blockT, |offsets| - 1)
    ensures forall k: nat, chunk: nat, j: nat, other: nat ::
      Reads(offsets, blockT, k, chunk, c) && Reads(offsets, blockT, j, other, c) ==> k == j && chunk == other
  {
    if c < Base(offsets, blockT, |offsets| - 1) { var k, chunk := FindChunk(offsets, blockT, c, |offsets| - 1); }
    forall k: nat, chunk: nat | Reads(offsets, blockT, k, chunk, c) ensures c < Base(offsets, blockT, |offsets| - 1) {
      ReadBelow(offsets, blockT, k, chunk, c, |offsets| - 1);
    }
    forall k: nat, chunk: nat, j: nat, other: nat | Reads(offsets, blockT, k, chunk, c) && Reads(offsets, blockT, j, other, c)
      ensures k == j && chunk == other
    {
      if k < j { ReadBelow(offsets, blockT, k, chunk, c, j); }
      if j < k { ReadBelow(offsets, blockT, j, other, c, k); }
    }
  }

  lemma ReadBelow(offsets: seq<int>, blockT: nat, k: nat, chunk: nat, c: nat, j: nat)
    requires blockT > 0 && Nondecreasing(offsets) && Reads(offsets, blockT, k, chunk, c) && k < j < |offsets|
    ensures c < Base(offsets, blockT, j)
  {
    BaseMonotone(offsets, blockT, k + 1, j);
  }

  /** The accepted labelling: chunk `c` carries the dense label of its segment and its place in it. */
  lemma {:induction false} LabelsMean(offsets: seq<int>, blockT: nat, hi: nat, k: nat, chunk: nat, c: nat)
    requires blockT > 0 && Nondecreasing(offsets) && hi < |offsets| && k < hi && Reads(offsets, blockT, k, chunk, c)
    ensures c < Base(offsets, blockT, hi)
    ensures Labels(offsets, blockT, hi)[2 * c] == Dense(offsets, k) && Labels(offsets, blockT, hi)[2 * c + 1] == chunk
    decreases hi
  {
    hide CeilDiv, Nondecreasing, LabelRun;
    ReadBelow(offsets, blockT, k, chunk, c, hi);
    var front, run := Labels(offsets, blockT, hi - 1), LabelRun(Dense(offsets, hi - 1), Chunks(offsets, blockT, hi - 1));
    assert Labels(offsets, blockT, hi) == front + run;
    if k < hi - 1 {
      LabelsMean(offsets, blockT, hi - 1, k, chunk, c);
      assert (front + run)[2 * c] == front[2 * c] && (front + run)[2 * c + 1] == front[2 * c + 1];
    } else {
      assert 2 * c == |front| + 2 * chunk;
      assert (front + run)[2 * c] == run[2 * chunk] && (front + run)[2 * c + 1] == run[2 * chunk + 1];
    }
  }

  // ---------------------------------------------------------------- the state bound

  function Needed(segments: seq<Segment>, blockT: nat): nat
    requires blockT > 0
  {
    if segments == [] then 0
    else
      var rest, last := Needed(segments[..|segments| - 1], blockT), segments[|segments| - 1];
      var here := last.base + CeilDiv(last.length, blockT);
      if rest >= here then rest else here
  }

  predicate ReadsChunk(segments: seq<Segment>, blockT: nat, i: nat, chunk: nat)
    requires blockT > 0
  {
    i < |segments| && chunk < CeilDiv(segments[i].length, blockT)
  }

  lemma {:induction false} NeededBounds(segments: seq<Segment>, blockT: nat, i: nat)
    requires blockT > 0 && i < |segments|
    ensures segments[i].base + CeilDiv(segments[i].length, blockT) <= Needed(segments, blockT)
  {
    var front := segments[..|segments| - 1];
    if i < |front| {
      assert front[i] == segments[i];
      NeededBounds(front, blockT, i);
    }
  }

  lemma {:induction false} NeededReached(segments: seq<Segment>, blockT: nat)
    requires blockT > 0 && Needed(segments, blockT) > 0
    ensures exists i :: 0 <= i < |segments| && segments[i].base + CeilDiv(segments[i].length, blockT) == Needed(segments, blockT)
  {
    var front, last := segments[..|segments| - 1], |segments| - 1;
    if segments[last].base + CeilDiv(segments[last].length, blockT) < Needed(segments, blockT) {
      NeededReached(front, blockT);
      var i :| 0 <= i < |front| && front[i].base + CeilDiv(front[i].length, blockT) == Needed(front, blockT);
      assert segments[i] == front[i];
    }
  }

  /** The validation bound: every state read of every launch stays in range. */
  lemma StateReadsInRange(segments: seq<Segment>, blockT: nat, stateChunks: nat, i: nat, chunk: nat)
    requires blockT > 0 && Needed(segments, blockT) <= stateChunks && ReadsChunk(segments, blockT, i, chunk)
    ensures segments[i].base + chunk < stateChunks
  {
    NeededBounds(segments, blockT, i);
  }

  /** On packed input the bound is the exact number of chunks, so a smaller state would be overrun. */
  lemma PackedNeeds(offsets: seq<int>, blockT: nat, total: nat, segments: seq<Segment>)
    requires blockT > 0 && Covering(offsets, total)
    requires |segments| == |offsets| - 1 && forall k :: 0 <= k < |segments| ==> segments[k] == SegmentAt(offsets, blockT, total, k)
    ensures Needed(segments, blockT) == Base(offsets, blockT, |segments|)
  {
    var last := |segments| - 1;
    NeededBounds(segments, blockT, last);
    assert segments[last] == SegmentAt(offsets, blockT, total, last);
    if Needed(segments, blockT) > 0 {
      NeededReached(segments, blockT);
      var i :| 0 <= i < |segments| && segments[i].base + CeilDiv(segments[i].length, blockT) == Needed(segments, blockT);
      assert segments[i] == SegmentAt(offsets, blockT, total, i);
      BaseMonotone(offsets, blockT, i + 1, |segments|);
    }
  }

  // ---------------------------------------------------------------- the kernel's walk

  /** No two segments hold the same token of the same row. */
  ghost predicate Disjoint(segments: seq<Segment>) {
    forall i, j, b: nat, t: nat :: 0 <= i < j < |segments| && Holds(segments[i], b, t) ==> !Holds(segments[j], b, t)
  }

  ghost predicate HeldBefore(segments: seq<Segment>, k: nat, b: nat, t: nat)
    requires k <= |segments|
  {
    exists i :: 0 <= i < k && Holds(segments[i], b, t)
  }

  /** Every token of every row is held by some segment. */
  ghost predicate Complete(segments: seq<Segment>, batch: nat, total: nat) {
    forall b: nat, t: nat :: b < batch && t < total ==> HeldBefore(segments, |segments|, b, t)
  }

  /** The launches of `_run`, chunk by chunk and row by row: each output element is stored exactly once,
      and each state chunk read exists. */
  method WalkSegments(segments: seq<Segment>, blockT: nat, batch: nat, total: nat, stateChunks: nat) returns (stores: array2<nat>)
    requires blockT > 0 && Needed(segments, blockT) <= stateChunks
    requires Disjoint(segments) && Complete(segments, batch, total)
    requires forall i :: 0 <= i < |segments| ==> segments[i].batch < batch && segments[i].start + segments[i].length <= total
    ensures fresh(stores) && stores.Length0 == batch && stores.Length1 == total
    ensures forall b, t :: 0 <= b < batch && 0 <= t < total ==> stores[b, t] == 1
  {
    stores := new nat[batch, total]((_, _) => 0);
    for k := 0 to |segments|
      invariant forall b: nat, t: nat :: b < batch && t < total ==> stores[b, t] == if HeldBefore(segments, k, b, t) then 1 else 0
    {
      forall b: nat, t: nat ensures HeldBefore(segments, k + 1, b, t) <==> HeldBefore(segments, k, b, t) || Holds(segments[k], b, t) {}
      if segments[k].length == 0 {
        continue;
      }
      WalkSegment(segments, k, blockT, stateChunks, stores);
    }
    forall b: nat, t: nat | b < batch && t < total ensures stores[b, t] == 1 { assert HeldBefore(segments, |segments|, b, t); }
  }

  /** One launch: the tiles of a segment, the last one cut by the boundary check. */
  method WalkSegment(segments: seq<Segment>, k: nat, blockT: nat, stateChunks: nat, stores: array2<nat>)
    requires blockT > 0 && k < |segments| && Needed(segments, blockT) <= stateChunks && Disjoint(segments)
    requires segments[k].batch < stores.Length0 && segments[k].start + segments[k].length <= stores.Length1
    requires forall t: nat :: Holds(segments[k], segments[k].batch, t) ==> stores[segments[k].batch, t] == 0
    modifies stores
    ensures forall b: nat, t: nat :: b < stores.Length0 && t < stores.Length1 ==>
      stores[b, t] == if Holds(segments[k], b, t) then 1 else old(stores[b, t])
  {
    var s := segments[k];
    for chunk := 0 to CeilDiv(s.length, blockT)
      invariant forall b: nat, t: nat :: b < stores.Length0 && t < stores.Length1 ==>
        stores[b, t] == if Holds(s, b, t) && t < s.start + chunk * blockT then 1 else old(stores[b, t])
    {
      StateReadsInRange(segments, blockT, stateChunks, k, chunk);
      assert s.base + chunk < stateChunks;
      var first := s.start + chunk * blockT;
      for row := 0 to blockT
        invariant forall b: nat, t: nat :: b < stores.Length0 && t < stores.Length1 ==>
          stores[b, t] == if Holds(s, b, t) && t < first + row then 1 else old(stores[b, t])
      {
        if chunk * blockT + row < s.length {
          stores[s.batch, first + row] := stores[s.batch, first + row] + 1;
        }
      }
      MulDistributes(chunk, 1, blockT);
    }
  }

  /** Accepted packed input satisfies what the walk needs. */
  lemma PackedWalks(offsets: seq<int>, blockT: nat, total: nat, segments: seq<Segment>)
    requires blockT > 0 && Covering(offsets, total)
    requires |segments| == |offsets| - 1 && forall k :: 0 <= k < |segments| ==> segments[k] == SegmentAt(offsets, blockT, total, k)
    ensures Disjoint(segments) && Complete(segments, 1, total)
    ensures forall i :: 0 <= i < |segments| ==> segments[i].batch < 1 && segments[i].start + segments[i].length <= total
  {
    forall i, j, b: nat, t: nat | 0 <= i < j < |segments| && Holds(segments[i], b, t) ensures !Holds(segments[j], b, t) {
      OffsetsOrdered(offsets, i + 1, j);
    }
    forall b: nat, t: nat | b < 1 && t < total ensures HeldBefore(segments, |segments|, b, t) {
      var k := TokensCoveredOnce(offsets, blockT, total, t);
      assert Holds(segments[k], b, t);
    }
    forall i | 0 <= i < |segments| ensures segments[i].batch < 1 && segments[i].start + segments[i].length <= total {
      OffsetsInRange(offsets, total, i + 1);
    }
  }

  /** So does the unpacked form, one segment per batch row. */
  lemma BatchWalks(batch: nat, total: nat, segments: seq<Segment>)
    requires segments == seq(batch, b requires 0 <= b < batch => Segment(b, 0, total, 0))
    ensures Disjoint(segments) && Complete(segments, batch, total)
    ensures forall i :: 0 <= i < |segments| ==> segments[i].batch < batch && segments[i].start + segments[i].length <= total
  {
    forall b: nat, t: nat | b < batch && t < total ensures HeldBefore(segments, |segments|, b, t) {
      assert Holds(segments[b], b, t);
    }
  }
}
