// Any number of calls, any number of rows: each sequence sees only its own accepted tokens.

module SpecCalls {
  import opened SpecConv
  import opened SpecRollback

  /** One call of the convolution: its packed input, its rows and its padding index. */
  datatype Call = Call(x: seq<Token>, rows: seq<Row>, pad: int)

  /** The call goes through, and its rows have their own spans and their own slots. */
  ghost predicate GoesThrough(cv: Conv, capacity: nat, slots: nat, call: Call) {
    && (forall i :: 0 <= i < |call.rows| ==> Fine(cv, call.x, call.pad, capacity, slots, call.rows[i]))
    && DistinctCaches(call.rows, call.pad) && OrderedSpans(call.rows, |call.x|)
  }

  /** A packed batch has ordered spans: each row ends where the next one starts. */
  lemma PackedSpans(boundaries: seq<int>, caches: seq<int>, accepted: seq<int>, n: nat)
    requires |caches| == |accepted| && |boundaries| == |caches| + 1
    requires boundaries[0] == 0 && boundaries[|caches|] == n
    requires forall i, j :: 0 <= i <= j < |boundaries| ==> boundaries[i] <= boundaries[j]
    ensures OrderedSpans(RowsOf(boundaries, caches, accepted), n)
  {
    var rows := RowsOf(boundaries, caches, accepted);
    forall i | 0 <= i < |rows| ensures 0 <= rows[i].start <= rows[i].end <= n {
      assert boundaries[0] <= boundaries[i] <= boundaries[i + 1] <= boundaries[|caches|];
    }
    forall i, j | 0 <= i < j < |rows| ensures rows[i].end <= rows[j].start {
      assert boundaries[i + 1] <= boundaries[j];
    }
  }

  /** What the host promises besides: row boundaries in order, and a slot of its own for every row that is not
      padding. */
  predicate Packed(boundaries: seq<int>, caches: seq<int>, pad: int) {
    && (forall i, j :: 0 <= i <= j < |boundaries| ==> boundaries[i] <= boundaries[j])
    && forall i, j :: 0 <= i < j < |caches| && caches[i] != pad ==> caches[i] != caches[j]
  }

  /** A packed call that the convolution accepts is one that the theorems below are about. */
  lemma AcceptedGoesThrough(cv: Conv, x: seq<Token>, capacity: nat, slots: nat,
                            boundaries: seq<int>, caches: seq<int>, accepted: seq<int>, pad: int)
    requires |caches| == |accepted| && |boundaries| == |caches| + 1 && Packed(boundaries, caches, pad)
    requires boundaries[0] == 0 && boundaries[|caches|] == |x|
    requires forall i :: 0 <= i < |caches| ==> Fine(cv, x, pad, capacity, slots, RowAt(boundaries, caches, accepted, i))
    ensures GoesThrough(cv, capacity, slots, Call(x, RowsOf(boundaries, caches, accepted), pad))
  {
    hide Fine;
    PackedSpans(boundaries, caches, accepted, |x|);
  }

  ghost predicate AllGoThrough(cv: Conv, capacity: nat, slots: nat, calls: seq<Call>) {
    forall k :: 0 <= k < |calls| ==> GoesThrough(cv, capacity, slots, calls[k])
  }

  predicate Shaped(capacity: nat, states: seq<seq<Token>>) {
    forall s :: 0 <= s < |states| ==> |states[s]| == capacity
  }

  /** The states that call `k` meets. */
  ghost function StatesBefore(cv: Conv, capacity: nat, states: seq<seq<Token>>, calls: seq<Call>, k: nat): (r: seq<seq<Token>>)
    requires cv.Valid() && Shaped(capacity, states) && AllGoThrough(cv, capacity, |states|, calls) && k <= |calls|
    ensures |r| == |states| && Shaped(capacity, r)
  {
    if k == 0 then states
    else
      var had, call := StatesBefore(cv, capacity, states, calls, k - 1), calls[k - 1];
      assert GoesThrough(cv, capacity, |states|, call);
      States(cv, call.x, call.rows, call.pad, capacity, had, |call.rows|)
  }

  /** What call `k` leaves in its output. */
  ghost function OutputOf(cv: Conv, capacity: nat, states: seq<seq<Token>>, calls: seq<Call>, k: nat): (out: seq<Token>)
    requires cv.Valid() && Shaped(capacity, states) && AllGoThrough(cv, capacity, |states|, calls) && k < |calls|
    ensures |out| == |calls[k].x|
  {
    assert GoesThrough(cv, capacity, |states|, calls[k]);
    Written(cv, calls[k].x, calls[k].rows, calls[k].pad, capacity, StatesBefore(cv, capacity, states, calls, k), |calls[k].rows|)
  }

  // ---------------------------------------------------------------- one slot's history

  predicate Uses(call: Call, i: nat, slot: nat) {
    i < |call.rows| && !Skipped(call.rows[i], call.pad) && call.rows[i].cache == slot
  }

  ghost predicate Used(call: Call, slot: nat) {
    exists i: nat :: Uses(call, i, slot)
  }

  /** A slot that no call has used yet, or one with the stream accepted so far and its latest drafts, whose
      fate the next call on the slot tells. */
  datatype Trace = Fresh | Open(stream: seq<Token>, drafts: seq<Token>)

  /** The accepted stream once the next call has told how many of the latest drafts were accepted. */
  function Enter(cv: Conv, state: seq<Token>, t: Trace, accepted: int): seq<Token>
    requires cv.Valid()
  {
    match t
    case Fresh => if accepted > 0 && accepted - 1 + cv.width - 1 <= |state| then Prior(cv, state, accepted) else []
    case Open(stream, drafts) => stream + if 0 <= accepted <= |drafts| then drafts[..accepted] else []
  }

  ghost function TraceBefore(cv: Conv, capacity: nat, states: seq<seq<Token>>, calls: seq<Call>, slot: nat, k: nat): Trace
    requires cv.Valid() && AllGoThrough(cv, capacity, |states|, calls) && slot < |states| && k <= |calls|
  {
    if k == 0 then Fresh
    else
      var t, call := TraceBefore(cv, capacity, states, calls, slot, k - 1), calls[k - 1];
      assert GoesThrough(cv, capacity, |states|, call);
      if Used(call, slot) then
        var i: nat :| Uses(call, i, slot);
        Open(Enter(cv, states[slot], t, call.rows[i].accepted), RowTokens(call.x, call.rows[i]))
      else t
  }

  /** No call claims more accepted tokens than the slot's previous call had drafts. */
  ghost predicate ClaimsDrafts(cv: Conv, capacity: nat, states: seq<seq<Token>>, calls: seq<Call>, slot: nat)
    requires cv.Valid() && AllGoThrough(cv, capacity, |states|, calls) && slot < |states|
  {
    forall k, i :: 0 <= k < |calls| && 0 <= i && Uses(calls[k], i, slot) ==>
      var t := TraceBefore(cv, capacity, states, calls, slot, k);
      t.Open? ==> calls[k].rows[i].accepted <= |t.drafts|
  }

  lemma UsesUnique(call: Call, i: nat, j: nat, slot: nat)
    requires DistinctCaches(call.rows, call.pad) && Uses(call, i, slot) && Uses(call, j, slot)
    ensures i == j
  {
  }

  /** A call on the slot opens its trace anew. */
  lemma TraceNext(cv: Conv, capacity: nat, states: seq<seq<Token>>, calls: seq<Call>, slot: nat, k: nat, i: nat)
    requires cv.Valid() && AllGoThrough(cv, capacity, |states|, calls) && slot < |states| && k < |calls| && Uses(calls[k], i, slot)
    ensures 0 <= calls[k].rows[i].start <= calls[k].rows[i].end <= |calls[k].x|
    ensures TraceBefore(cv, capacity, states, calls, slot, k + 1) ==
      Open(Enter(cv, states[slot], TraceBefore(cv, capacity, states, calls, slot, k), calls[k].rows[i].accepted),
           RowTokens(calls[k].x, calls[k].rows[i]))
  {
    hide Enter, RowTokens, Fine, Uses, DistinctCaches;
    assert GoesThrough(cv, capacity, |states|, calls[k]);
    InRows(calls[k], i, slot);
    forall j: nat | Uses(calls[k], j, slot) ensures j == i { UsesUnique(calls[k], i, j, slot); }
  }

  lemma InRows(call: Call, i: nat, slot: nat)
    requires Uses(call, i, slot)
    ensures i < |call.rows|
  {
  }

  // ---------------------------------------------------------------- the window each call enters with

  /** Entering the state after `a` accepted drafts reads the tail of the stream they make. */
  ghost predicate WindowAt(cv: Conv, state: seq<Token>, stream: seq<Token>, drafts: seq<Token>, a: nat)
    requires cv.Valid() && cv.width - 1 <= |stream| && 1 <= a <= |drafts|
  {
    a - 1 + cv.width - 1 <= |state| && Prior(cv, state, a) == Last(stream + drafts[..a], cv.width - 1)
  }

  /** The slot's state holds, for every possible accepted count, the tail of the stream it would make. */
  ghost predicate Sound(cv: Conv, capacity: nat, initial: seq<Token>, state: seq<Token>, t: Trace)
    requires cv.Valid() && |state| == capacity
  {
    match t
    case Fresh => state == initial
    case Open(stream, drafts) =>
      && cv.width - 1 <= |stream|
      && forall a: nat :: 1 <= a <= |drafts| ==> WindowAt(cv, state, stream, drafts, a)
  }

  /** So a row that goes through enters with the tail of its accepted stream. */
  lemma EnterWindow(cv: Conv, capacity: nat, initial: seq<Token>, state: seq<Token>, t: Trace, accepted: int)
    requires cv.Valid() && |state| == capacity && Sound(cv, capacity, initial, state, t)
    requires accepted > 0 && accepted - 1 + cv.width - 1 <= capacity && (t.Open? ==> accepted <= |t.drafts|)
    ensures cv.width - 1 <= |Enter(cv, initial, t, accepted)|
    ensures Prior(cv, state, accepted) == Last(Enter(cv, initial, t, accepted), cv.width - 1)
  {
    match t
    case Fresh =>
      var prior := Prior(cv, state, accepted);
      assert Enter(cv, initial, t, accepted) == prior;
      assert Last(prior, cv.width - 1) == prior;
    case Open(stream, drafts) =>
      var a: nat := accepted;
      assert Enter(cv, initial, t, accepted) == stream + drafts[..a];
      assert WindowAt(cv, state, stream, drafts, a);
  }

  /** Rolling a row keeps the history sound. */
  lemma RollSound(cv: Conv, capacity: nat, initial: seq<Token>, state: seq<Token>, stream: seq<Token>, accepted: nat, tokens: seq<Token>)
    requires cv.Valid() && |state| == capacity && accepted > 0 && accepted - 1 + cv.width - 1 <= capacity
    requires cv.width - 1 <= |stream| && Prior(cv, state, accepted) == Last(stream, cv.width - 1)
    requires tokens != [] && !CopyFails(RollingLength(cv.width, |tokens|), capacity)
    ensures Sound(cv, capacity, initial, Rolled(Prior(cv, state, accepted), state, tokens), Open(stream, tokens))
  {
    hide Prior, Rolled, CopyFails, RollingLength, Last;
    var prior := Prior(cv, state, accepted);
    forall a: nat | 1 <= a <= |tokens| ensures WindowAt(cv, Rolled(prior, state, tokens), stream, tokens, a) {
      RollbackStep(cv, prior, state, Draft(tokens, a));
      LastAppend(stream, tokens[..a], cv.width - 1);
    }
  }

  lemma RowEnters(cv: Conv, x: seq<Token>, pad: int, capacity: nat, slots: nat, row: Row)
    requires !Skipped(row, pad) && Fine(cv, x, pad, capacity, slots, row)
    ensures row.accepted > 0 && row.accepted - 1 + cv.width - 1 <= capacity && 0 <= row.cache < slots
    ensures 0 <= row.start <= row.end && RowTokens(x, row) != []
    ensures !CopyFails(RollingLength(cv.width, |RowTokens(x, row)|), capacity)
  {
  }

  lemma {:induction false} HistorySound(cv: Conv, capacity: nat, states: seq<seq<Token>>, calls: seq<Call>, slot: nat, k: nat)
    requires cv.Valid() && Shaped(capacity, states) && AllGoThrough(cv, capacity, |states|, calls) && slot < |states| && k <= |calls|
    requires ClaimsDrafts(cv, capacity, states, calls, slot)
    ensures Sound(cv, capacity, states[slot], StatesBefore(cv, capacity, states, calls, k)[slot],
                  TraceBefore(cv, capacity, states, calls, slot, k))
    decreases k
  {
    hide Enter, Sound, Fine, Uses, Skipped, RowTokens, States, DistinctCaches, OrderedSpans, Prior, Rolled;
    if k == 0 {
      SoundFresh(cv, capacity, states[slot]);
    } else {
      HistorySound(cv, capacity, states, calls, slot, k - 1);
      var call := calls[k - 1];
      assert GoesThrough(cv, capacity, |states|, call);
      if Used(call, slot) {
        var i: nat :| Uses(call, i, slot);
        assert ClaimsDrafts(cv, capacity, states, calls, slot);
        CallSound(cv, capacity, states, calls, slot, k - 1, i);
      } else {
        Unused(call, slot);
        SlotKept(cv, call.x, call.rows, call.pad, capacity, StatesBefore(cv, capacity, states, calls, k - 1), 0, |call.rows|, slot);
        StatesNone(cv, call.x, call.rows, call.pad, capacity, StatesBefore(cv, capacity, states, calls, k - 1));
      }
    }
  }

  lemma SoundFresh(cv: Conv, capacity: nat, state: seq<Token>)
    requires cv.Valid() && |state| == capacity
    ensures Sound(cv, capacity, state, state, Fresh)
  {
  }

  lemma Unused(call: Call, slot: nat)
    requires !Used(call, slot)
    ensures forall i :: 0 <= i < |call.rows| ==> Skipped(call.rows[i], call.pad) || call.rows[i].cache != slot
  {
    hide Skipped;
    forall i | 0 <= i < |call.rows| ensures Skipped(call.rows[i], call.pad) || call.rows[i].cache != slot {
      assert !Uses(call, i, slot);
    }
  }

  lemma StatesNone(cv: Conv, x: seq<Token>, rows: seq<Row>, pad: int, capacity: nat, states: seq<seq<Token>>)
    requires cv.Valid() && Shaped(capacity, states)
    ensures States(cv, x, rows, pad, capacity, states, 0) == states
  {
  }

  /** A row of call `k` enters with the tail of its stream. */
  lemma CallEnters(cv: Conv, capacity: nat, states: seq<seq<Token>>, calls: seq<Call>, slot: nat, k: nat, i: nat)
    requires cv.Valid() && Shaped(capacity, states) && AllGoThrough(cv, capacity, |states|, calls) && slot < |states|
    requires k < |calls| && Uses(calls[k], i, slot) && ClaimsDrafts(cv, capacity, states, calls, slot)
    requires Sound(cv, capacity, states[slot], StatesBefore(cv, capacity, states, calls, k)[slot],
                   TraceBefore(cv, capacity, states, calls, slot, k))
    ensures calls[k].rows[i].accepted > 0 && calls[k].rows[i].accepted - 1 + cv.width - 1 <= capacity
    ensures var stream := Enter(cv, states[slot], TraceBefore(cv, capacity, states, calls, slot, k), calls[k].rows[i].accepted);
      && cv.width - 1 <= |stream|
      && Prior(cv, StatesBefore(cv, capacity, states, calls, k)[slot], calls[k].rows[i].accepted) == Last(stream, cv.width - 1)
  {
    hide Sound, Enter, TraceBefore, StatesBefore, Fine, Skipped, Prior, Last;
    var call := calls[k];
    assert GoesThrough(cv, capacity, |states|, call);
    RowEnters(cv, call.x, call.pad, capacity, |states|, call.rows[i]);
    EnterWindow(cv, capacity, states[slot], StatesBefore(cv, capacity, states, calls, k)[slot],
                TraceBefore(cv, capacity, states, calls, slot, k), call.rows[i].accepted);
  }

  lemma CallSound(cv: Conv, capacity: nat, states: seq<seq<Token>>, calls: seq<Call>, slot: nat, k: nat, i: nat)
    requires cv.Valid() && Shaped(capacity, states) && AllGoThrough(cv, capacity, |states|, calls) && slot < |states|
    requires k < |calls| && Uses(calls[k], i, slot) && ClaimsDrafts(cv, capacity, states, calls, slot)
    requires Sound(cv, capacity, states[slot], StatesBefore(cv, capacity, states, calls, k)[slot],
                   TraceBefore(cv, capacity, states, calls, slot, k))
    ensures Sound(cv, capacity, states[slot], StatesBefore(cv, capacity, states, calls, k + 1)[slot],
                  TraceBefore(cv, capacity, states, calls, slot, k + 1))
  {
    hide Sound, Enter, TraceBefore, Fine, Skipped, Prior, Last, RowTokens, Rolled, CopyFails, RollingLength, ClaimsDrafts;
    var call, had := calls[k], StatesBefore(cv, capacity, states, calls, k);
    assert GoesThrough(cv, capacity, |states|, call);
    var row := call.rows[i];
    var stream := Enter(cv, states[slot], TraceBefore(cv, capacity, states, calls, slot, k), row.accepted);
    CallEnters(cv, capacity, states, calls, slot, k, i);
    RowEnters(cv, call.x, call.pad, capacity, |states|, row);
    TraceNext(cv, capacity, states, calls, slot, k, i);
    RowsIndependent(cv, call.x, call.rows, call.pad, capacity, had, i);
    RollSound(cv, capacity, states[slot], had[slot], stream, row.accepted, RowTokens(call.x, row));
  }

  // ---------------------------------------------------------------- what every call computes

  /** In every call, each row's outputs are the causal convolution over the stream its sequence has accepted
      and the drafts before it, whatever the other rows and the other calls did. */
  lemma RowsAreCausal(cv: Conv, capacity: nat, states: seq<seq<Token>>, calls: seq<Call>, slot: nat, k: nat, i: nat, j: nat)
    requires cv.Valid() && Shaped(capacity, states) && AllGoThrough(cv, capacity, |states|, calls) && slot < |states|
    requires ClaimsDrafts(cv, capacity, states, calls, slot)
    requires k < |calls| && Uses(calls[k], i, slot) && j < calls[k].rows[i].end - calls[k].rows[i].start
    ensures 0 <= calls[k].rows[i].start && calls[k].rows[i].end <= |calls[k].x|
    ensures var row := calls[k].rows[i];
      var stream := Enter(cv, states[slot], TraceBefore(cv, capacity, states, calls, slot, k), row.accepted);
      && cv.width - 1 <= |stream|
      && OutputOf(cv, capacity, states, calls, k)[row.start + j]
         == Causal(cv, stream + calls[k].x[row.start..row.end], |stream| + j)
  {
    hide Sound, Enter, TraceBefore, StatesBefore, Fine, Skipped, Prior, Last, ClaimsDrafts, Written, Respond;
    var call, had := calls[k], StatesBefore(cv, capacity, states, calls, k);
    assert GoesThrough(cv, capacity, |states|, call);
    var row := call.rows[i];
    var stream := Enter(cv, states[slot], TraceBefore(cv, capacity, states, calls, slot, k), row.accepted);
    HistorySound(cv, capacity, states, calls, slot, k);
    CallEnters(cv, capacity, states, calls, slot, k, i);
    RowOutputs(cv, call.x, call.rows, call.pad, capacity, had, i, j);
    assert RowTokens(call.x, row) == call.x[row.start..row.end];
    WindowOf(stream, RowTokens(call.x, row), cv.width, j);
  }

  /** Calls that do not touch the slot leave its history alone. */
  lemma {:induction false} TraceKept(cv: Conv, capacity: nat, states: seq<seq<Token>>, calls: seq<Call>, slot: nat, k: nat, m: nat)
    requires cv.Valid() && AllGoThrough(cv, capacity, |states|, calls) && slot < |states| && k <= m <= |calls|
    requires forall n :: k <= n < m ==> !Used(calls[n], slot)
    ensures TraceBefore(cv, capacity, states, calls, slot, m) == TraceBefore(cv, capacity, states, calls, slot, k)
    decreases m
  {
    hide Used, Enter;
    if k < m { TraceKept(cv, capacity, states, calls, slot, k, m - 1); }
  }

  /** An opened stream only grows. */
  lemma {:induction false} TraceGrows(cv: Conv, capacity: nat, states: seq<seq<Token>>, calls: seq<Call>, slot: nat, k: nat, l: nat)
    requires cv.Valid() && AllGoThrough(cv, capacity, |states|, calls) && slot < |states| && k <= l <= |calls|
    requires TraceBefore(cv, capacity, states, calls, slot, k).Open?
    ensures var t, u := TraceBefore(cv, capacity, states, calls, slot, k), TraceBefore(cv, capacity, states, calls, slot, l);
      u.Open? && t.stream <= u.stream
    decreases l
  {
    hide Used, Uses, RowTokens;
    if k < l { TraceGrows(cv, capacity, states, calls, slot, k, l - 1); }
  }

  /** A stretch of the longer stream convolves to the same. */
  lemma CausalPrefix(cv: Conv, stream: seq<Token>, tokens: seq<Token>, accepted: nat, final: seq<Token>, j: nat)
    requires cv.Valid() && cv.width - 1 <= |stream| && j < accepted <= |tokens| && stream + tokens[..accepted] <= final
    ensures var p := |stream| + j; p < |final| && final[p] == tokens[j] && Causal(cv, stream + tokens, p) == Causal(cv, final, p)
  {
    hide Respond;
    var p := |stream| + j;
    assert final[..p + 1] == (stream + tokens)[..p + 1];
    assert final[p + 1 - cv.width..p + 1] == (stream + tokens)[p + 1 - cv.width..p + 1];
  }

  /** Over any number of calls with any rows beside it: once a later call on the slot has told how many of a
      call's drafts were accepted, the output of each accepted one is the plain causal convolution over the
      sequence's accepted stream, as it stands before any later call `l`. */
  lemma SpeculationInvisibleInCalls(cv: Conv, capacity: nat, states: seq<seq<Token>>, calls: seq<Call>, slot: nat,
                                    k: nat, i: nat, m: nat, n: nat, l: nat, j: nat)
    requires cv.Valid() && Shaped(capacity, states) && AllGoThrough(cv, capacity, |states|, calls) && slot < |states|
    requires ClaimsDrafts(cv, capacity, states, calls, slot)
    requires k < m < l <= |calls| && Uses(calls[k], i, slot) && Uses(calls[m], n, slot)
    requires forall c :: k < c < m ==> !Used(calls[c], slot)
    requires j < calls[m].rows[n].accepted
    ensures var row := calls[k].rows[i];
      && 0 <= row.start && row.start + j < row.end <= |calls[k].x|
      && var before := Enter(cv, states[slot], TraceBefore(cv, capacity, states, calls, slot, k), row.accepted);
         var t, p := TraceBefore(cv, capacity, states, calls, slot, l), |before| + j;
      && t.Open? && before <= t.stream && cv.width - 1 <= p < |t.stream| && t.stream[p] == calls[k].x[row.start + j]
      && OutputOf(cv, capacity, states, calls, k)[row.start + j] == Causal(cv, t.stream, p)
  {
    hide Sound, TraceBefore, StatesBefore, OutputOf, Causal, Used;
    var row, a := calls[k].rows[i], calls[m].rows[n].accepted;
    var before := Enter(cv, states[slot], TraceBefore(cv, capacity, states, calls, slot, k), row.accepted);
    TraceNext(cv, capacity, states, calls, slot, k, i);
    TraceKept(cv, capacity, states, calls, slot, k + 1, m);
    var tokens := calls[k].x[row.start..row.end];
    assert RowTokens(calls[k].x, row) == tokens;
    assert TraceBefore(cv, capacity, states, calls, slot, m) == Open(before, tokens);
    assert a <= |tokens|;
    RowsAreCausal(cv, capacity, states, calls, slot, k, i, j);
    TraceNext(cv, capacity, states, calls, slot, m, n);
    TraceGrows(cv, capacity, states, calls, slot, m + 1, l);
    CausalPrefix(cv, before, tokens, a, TraceBefore(cv, capacity, states, calls, slot, l).stream, j);
  }
}
