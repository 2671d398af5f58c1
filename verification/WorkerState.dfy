// The worker half, `AscendKVCompressionProvider`: dictionaries, offset rows and length buffers updated in place.
// The dictionary methods are proved equal to `WorkerModel`; the buffers to what they are a cache of.

module WorkerState {
  import opened Common
  import opened SchedulerModel
  import opened WorkerModel

  /** The model runner. `batch` lists the requests of the persistent batch, row by row. */
  class Runner {
    var requests: map<RequestId, WRequest>
    var mem: Memory
    var batch: seq<RequestId>
    const seqLens: array<int>
    const optimisticSeqLens: array<int>

    constructor (rows: nat)
      ensures requests == map[] && mem == map[] && batch == []
      ensures fresh(seqLens) && fresh(optimisticSeqLens) && seqLens != optimisticSeqLens
      ensures seqLens.Length == optimisticSeqLens.Length == rows
    {
      requests, mem, batch := map[], map[], [];
      seqLens := new int[rows];
      optimisticSeqLens := new int[rows];
    }
  }

  /** The lengths in the recurrent layers' metadata, for its first `rows` requests. */
  datatype GdnMetadata = GdnMetadata(rows: nat, seqLens: seq<int>, seqLensCpu: seq<int>, upperBound: seq<int>)

  class Provider {
    const cfg: Config
    const select: Selector
    const runner: Runner
    var pending: map<RequestId, WPending>
    var active: map<RequestId, Anchor>
    const offsetsCpu: array<int>
    const offsetsDevice: array<int>
    const semanticDevice: array<int>
    const semanticCpu: array<int>
    const physicalPositions: array<int>
    var snapshot: seq<int>
    var hasActiveRows: bool
    var lengthsApplied: bool

    constructor (cfg: Config, select: Selector, runner: Runner, tokens: nat)
      requires runner.seqLens != runner.optimisticSeqLens && runner.seqLens.Length == runner.optimisticSeqLens.Length
      ensures this.cfg == cfg && this.select == select && this.runner == runner
      ensures Valid() && pending == map[] && active == map[] && !lengthsApplied
      ensures physicalPositions.Length == tokens
    {
      this.cfg, this.select, this.runner := cfg, select, runner;
      pending, active := map[], map[];
      var rows := runner.seqLens.Length;
      offsetsCpu := new int[rows](_ => 0);
      offsetsDevice := new int[rows](_ => 0);
      semanticDevice := new int[rows];
      semanticCpu := new int[rows];
      physicalPositions := new int[tokens];
      snapshot, hasActiveRows, lengthsApplied := [], false, false;
    }

    function Abs(): Worker
      reads this, runner
    {
      Worker(runner.requests, pending, active, runner.mem)
    }

    // -------------------------------------------------------------- the state update

    /** `before_update_states`: forget reset requests, then switch the tables that waited for this step. */
    method BeforeUpdateStates(out: Output)
      modifies `pending, `active, runner`requests
      ensures Abs() == BeforeUpdate(old(Abs()), out)
    {
      hide IsReset;
      ghost var w := Abs();
      var resets := ResetIds(out);
      pending := pending - resets;
      active := active - resets;
      var ids := pending.Keys;
      var todo := ids;
      ghost var done: set<RequestId> := {};
      NoneSwitched(w, out, Abs());
      while todo != {}
        invariant todo <= ids && ids == w.pending.Keys - ResetIds(out)
        invariant done == ids - todo && Abs().mem == w.mem
        invariant forall r :: SwitchedAt(w, out, done, Abs(), r)
      {
        var r :| r in todo;
        ghost var before := Abs();
        assert SwitchedAt(w, out, done, Abs(), r);
        if r in out.entries {
          if r in runner.requests {
            var p := pending[r];
            runner.requests := runner.requests[r := runner.requests[r].(table := p.blocks)];
            active := active[r := Anchor(p.semantic, p.physical)];
          }
          pending := pending - {r};
        }
        SwitchedNext(w, out, done, before, r, Abs());
        todo := todo - {r};
        done := done + {r};
      }
      assert done == ids;
      AllSwitched(w, out, Abs());
    }

    /** The dictionary part of `after_update_states`. */
    method ForgetUnknownRequests()
      modifies `pending, `active
      ensures Abs() == AfterUpdate(old(Abs()))
    {
      var gone := (pending.Keys + active.Keys) - runner.requests.Keys;
      pending := pending - gone;
      active := active - gone;
    }

    /** `after_update_states`. */
    method AfterUpdateStates()
      requires Valid() && |runner.batch| <= offsetsCpu.Length
      modifies this, offsetsCpu, offsetsDevice
      ensures Valid() && Abs() == AfterUpdate(old(Abs()))
      ensures RowsCurrent() && !lengthsApplied
    {
      ForgetUnknownRequests();
      lengthsApplied := false;
      SyncRequestOffsetRows();
    }

    // -------------------------------------------------------------- compression

    /** One iteration of the compression loop; `ok` is false where `compress_scheduled_requests` raises. */
    method CompressRequest(out: Output, r: RequestId) returns (ok: bool)
      requires cfg.Valid()
      modifies `pending, runner`mem
      ensures ok <==> !CompressRaises(cfg, select, old(Abs()), out, r)
      ensures Abs() == CompressOne(cfg, select, old(Abs()), out, r)
    {
      ok := true;
      if r !in out.plans || r !in out.entries || r in pending || r !in runner.requests {
        return;
      }
      var request, plan := runner.requests[r], out.plans[r];
      if request.info.maxTokens < cfg.minOutput {
        return;
      }
      var semantic := request.computed + out.entries[r].count;
      var physical: int := semantic;
      if r !in active {
        if semantic != request.info.prompt {
          return;
        }
      } else {
        physical := active[r].physical + semantic - active[r].semantic;
      }
      if semantic != plan.semantic {
        return false;
      }
      if physical < cfg.threshold {
        return;
      }
      var source, required := request.table, CeilDiv(cfg.budget, cfg.blockSize);
      if |source| < required || source != plan.source || |plan.destination| != required
         || exists b :: b in plan.destination && b in source {
        return false;
      }
      if physical > |source| * cfg.blockSize {
        return false;
      }
      var keep := select(Gather(runner.mem, source, cfg.blockSize, physical));
      if |keep| != cfg.budget || exists i :: 0 <= i < |keep| && keep[i] >= physical {
        return false;
      }
      runner.mem := Materialize(runner.mem, source, plan.destination, cfg.blockSize, physical, keep);
      pending := pending[r := WPending(semantic, |keep|, plan.destination)];
    }

    /** `compress_scheduled_requests`. */
    method CompressScheduledRequests(out: Output) returns (ok: bool)
      requires cfg.Valid()
      modifies `pending, runner`mem
      ensures ok <==> !StepRaises(cfg, select, old(Abs()), out, out.order)
      ensures ok ==> Abs() == Compress(cfg, select, old(Abs()), out, out.order)
    {
      ok := true;
      ghost var w := Abs();
      assert out.order[0..] == out.order;
      for i := 0 to |out.order|
        invariant Compress(cfg, select, Abs(), out, out.order[i..]) == Compress(cfg, select, w, out, out.order)
        invariant StepRaises(cfg, select, Abs(), out, out.order[i..]) <==> StepRaises(cfg, select, w, out, out.order)
      {
        assert out.order[i..][1..] == out.order[i + 1..];
        ok := CompressRequest(out, out.order[i]);
        if !ok {
          return;
        }
      }
      assert out.order[|out.order|..] == [];
    }

    // -------------------------------------------------------------- offset rows

    /** The buffers are a cache of the last snapshot: its values first, zeros beyond it. */
    ghost predicate Valid()
      reads this, offsetsCpu, offsetsDevice
    {
      && offsetsCpu != offsetsDevice && offsetsCpu != semanticCpu && offsetsCpu != semanticDevice
      && offsetsDevice != semanticCpu && offsetsDevice != semanticDevice && semanticCpu != semanticDevice
      && runner.seqLens !in {offsetsCpu, offsetsDevice, semanticCpu, semanticDevice, physicalPositions, runner.optimisticSeqLens}
      && runner.optimisticSeqLens !in {offsetsCpu, offsetsDevice, semanticCpu, semanticDevice, physicalPositions}
      && physicalPositions !in {offsetsCpu, offsetsDevice, semanticCpu, semanticDevice}
      && offsetsCpu.Length == offsetsDevice.Length == semanticDevice.Length == semanticCpu.Length
      && offsetsCpu.Length == runner.seqLens.Length == runner.optimisticSeqLens.Length
      && |snapshot| <= offsetsCpu.Length
      && (forall i :: 0 <= i < offsetsCpu.Length ==> offsetsCpu[i] == if i < |snapshot| then snapshot[i] else 0)
      && (forall i :: 0 <= i < offsetsCpu.Length ==> offsetsDevice[i] == offsetsCpu[i])
      && (hasActiveRows <==> exists i :: 0 <= i < |snapshot| && snapshot[i] != 0)
    }

    /** Tokens removed from the request in row `i`. */
    function RowOffset(i: nat): int
      requires i < |runner.batch|
      reads this, runner
    {
      if runner.batch[i] in active then active[runner.batch[i]].Removed() else 0
    }

    /** What the rows are for: both buffers hold the current batch's offsets, and zeros beyond it. */
    ghost predicate RowsCurrent()
      reads this, runner, offsetsCpu, offsetsDevice
    {
      && |snapshot| == |runner.batch| <= offsetsCpu.Length == offsetsDevice.Length
      && (forall i :: 0 <= i < |runner.batch| ==> snapshot[i] == RowOffset(i))
      && (forall i :: 0 <= i < offsetsCpu.Length ==>
            offsetsCpu[i] == offsetsDevice[i] == if i < |runner.batch| then RowOffset(i) else 0)
      && (hasActiveRows <==> exists i :: 0 <= i < |runner.batch| && RowOffset(i) != 0)
    }

    /** `_sync_request_offset_rows`. */
    method SyncRequestOffsetRows()
      requires Valid() && |runner.batch| <= offsetsCpu.Length
      modifies `snapshot, `hasActiveRows, offsetsCpu, offsetsDevice
      ensures Valid() && RowsCurrent()
      ensures forall i :: 0 <= i < offsetsCpu.Length ==>
        offsetsCpu[i] == offsetsDevice[i]
          == if i < |runner.batch| && runner.batch[i] in active
             then active[runner.batch[i]].semantic - active[runner.batch[i]].physical else 0
    {
      var n := |runner.batch|;
      var offsets := seq(n, i requires 0 <= i < n && n == |runner.batch| reads this, runner => RowOffset(i));
      if offsets == snapshot {
        assert forall i :: 0 <= i < n ==> snapshot[i] == offsets[i] == RowOffset(i);
        return;
      }
      var rows := if |snapshot| > n then |snapshot| else n;
      forall i | 0 <= i < rows {
        offsetsCpu[i] := 0;
      }
      forall i | 0 <= i < n {
        offsetsCpu[i] := offsets[i];
      }
      forall i | 0 <= i < rows {
        offsetsDevice[i] := offsetsCpu[i];
      }
      snapshot := offsets;
      hasActiveRows := exists i :: 0 <= i < |offsets| && offsets[i] != 0;
      assert forall i :: 0 <= i < n ==> snapshot[i] == offsets[i] == RowOffset(i);
    }

    // -------------------------------------------------------------- positions and lengths

    /** `physical_positions_for_slot_mapping`: every position loses its own request's offset, also on
        the path that returns the positions untouched. */
    method PhysicalPositionsForSlotMapping(positions: array<int>, rows: seq<nat>) returns (mapped: array<int>)
      requires Valid() && RowsCurrent() && positions != physicalPositions
      requires |rows| == positions.Length <= physicalPositions.Length
      requires forall t :: 0 <= t < |rows| ==> rows[t] < |runner.batch|
      modifies physicalPositions
      ensures positions.Length <= mapped.Length && positions[..] == old(positions[..])
      ensures forall t :: 0 <= t < |rows| ==>
        var r := runner.batch[rows[t]];
        mapped[t] == positions[t] - if r in active then active[r].semantic - active[r].physical else 0
    {
      if !hasActiveRows {
        assert forall t :: 0 <= t < |rows| ==> RowOffset(rows[t]) == 0;
        return positions;
      }
      forall t | 0 <= t < positions.Length {
        physicalPositions[t] := positions[t] - offsetsDevice[rows[t]];
      }
      mapped := physicalPositions;
    }

    /** `device` and `cpu` are the semantic lengths of this step's rows, wherever they now are. */
    ghost predicate Lengths(device: seq<int>, cpu: seq<int>)
      reads this, runner, offsetsCpu, offsetsDevice, semanticDevice, semanticCpu, runner.seqLens, runner.optimisticSeqLens
    {
      && Valid() && |device| == |cpu| == |runner.batch| == |snapshot|
      && (forall i :: 0 <= i < |device| ==>
            && runner.seqLens[i] == device[i] - (if lengthsApplied then offsetsDevice[i] else 0)
            && runner.optimisticSeqLens[i] == cpu[i] - (if lengthsApplied then offsetsCpu[i] else 0))
      && (lengthsApplied ==> forall i :: 0 <= i < |device| ==> semanticDevice[i] == device[i] && semanticCpu[i] == cpu[i])
    }

    /** `apply_physical_attention_lengths`: however often it is called in a step, the attention lengths
        are the semantic ones minus the offsets, subtracted once. */
    method ApplyPhysicalAttentionLengths(ghost device: seq<int>, ghost cpu: seq<int>)
      requires Lengths(device, cpu)
      modifies `lengthsApplied, semanticDevice, semanticCpu, runner.seqLens, runner.optimisticSeqLens
      ensures Lengths(device, cpu) && lengthsApplied == (old(lengthsApplied) || hasActiveRows)
      ensures forall i :: 0 <= i < |device| ==> runner.seqLens[i] == device[i] - offsetsDevice[i]
      ensures forall i :: 0 <= i < |cpu| ==> runner.optimisticSeqLens[i] == cpu[i] - offsetsCpu[i]
      ensures forall i :: |device| <= i < runner.seqLens.Length ==>
        runner.seqLens[i] == old(runner.seqLens[i]) && runner.optimisticSeqLens[i] == old(runner.optimisticSeqLens[i])
    {
      if lengthsApplied || !hasActiveRows {
        assert !hasActiveRows ==> forall i :: 0 <= i < |snapshot| ==> snapshot[i] == 0;
        return;
      }
      var n := |runner.batch|;
      forall i | 0 <= i < n {
        semanticDevice[i] := runner.seqLens[i];
      }
      forall i | 0 <= i < n {
        semanticCpu[i] := runner.optimisticSeqLens[i];
      }
      forall i | 0 <= i < n {
        runner.seqLens[i] := runner.seqLens[i] - offsetsDevice[i];
      }
      forall i | 0 <= i < n {
        runner.optimisticSeqLens[i] := runner.optimisticSeqLens[i] - offsetsCpu[i];
      }
      lengthsApplied := true;
    }

    /** `semantic_gdn_metadata`: the recurrent layers get the semantic lengths on both sides, before and after
        the attention lengths were made physical. */
    method SemanticGdnMetadata(metadata: GdnMetadata, ghost device: seq<int>, ghost cpu: seq<int>) returns (m: GdnMetadata)
      requires Lengths(device, cpu) && metadata.rows <= |device|
      requires metadata.seqLens == runner.seqLens[..metadata.rows] && metadata.seqLensCpu == runner.optimisticSeqLens[..metadata.rows]
      ensures m.rows == metadata.rows && m.seqLens == device[..m.rows] && m.seqLensCpu == cpu[..m.rows]
      ensures m.upperBound == if lengthsApplied then cpu[..m.rows] else metadata.upperBound
    {
      if !lengthsApplied {
        return metadata;
      }
      var n := metadata.rows;
      m := GdnMetadata(n, semanticDevice[..n], semanticCpu[..n], semanticCpu[..n]);
    }
  }

  // ---------------------------------------------------------------- the switching loop

  function ResetIds(out: Output): (ids: set<RequestId>)
    ensures forall r :: r in ids <==> IsReset(out, r)
  {
    out.finished + out.preempted + set r | r in out.entries && out.entries[r].resumed
  }

  predicate Switches(w: Worker, out: Output, r: RequestId) {
    r in w.pending && !IsReset(out, r) && r in out.entries && r in w.requests
  }

  /** What the loop has made of request `r` once it has handled `done`. */
  ghost predicate SwitchedAt(w: Worker, out: Output, done: set<RequestId>, t: Worker, r: RequestId) {
    && Get(t.pending, r) ==
         (if r in w.pending && !IsReset(out, r) && !(r in done && r in out.entries) then Some(w.pending[r]) else None)
    && Get(t.requests, r) ==
         (if Switches(w, out, r) && r in done then Some(w.requests[r].(table := w.pending[r].blocks)) else Get(w.requests, r))
    && Get(t.active, r) ==
         (if Switches(w, out, r) && r in done then Some(Anchor(w.pending[r].semantic, w.pending[r].physical))
          else if IsReset(out, r) then None else Get(w.active, r))
  }

  lemma NoneSwitched(w: Worker, out: Output, t: Worker)
    requires t == w.(pending := w.pending - ResetIds(out), active := w.active - ResetIds(out))
    ensures forall r :: SwitchedAt(w, out, {}, t, r)
  {
    hide IsReset;
  }

  /** Handling `r` changes nothing about the others. */
  lemma SwitchedNext(w: Worker, out: Output, done: set<RequestId>, t: Worker, r: RequestId, t': Worker)
    requires r in w.pending && !IsReset(out, r) && r !in done
    requires forall q :: SwitchedAt(w, out, done, t, q)
    requires forall q :: q != r ==>
      Get(t'.pending, q) == Get(t.pending, q) && Get(t'.requests, q) == Get(t.requests, q) && Get(t'.active, q) == Get(t.active, q)
    requires SwitchedAt(w, out, done + {r}, t', r)
    ensures forall q :: SwitchedAt(w, out, done + {r}, t', q)
  {
    hide IsReset;
    forall q | q != r ensures SwitchedAt(w, out, done + {r}, t', q) {
      assert SwitchedAt(w, out, done, t, q);
    }
  }

  lemma AllSwitched(w: Worker, out: Output, t: Worker)
    requires forall r :: SwitchedAt(w, out, w.pending.Keys - ResetIds(out), t, r)
    requires t.mem == w.mem
    ensures t == BeforeUpdate(w, out)
  {
    hide IsReset;
    var b := BeforeUpdate(w, out);
    forall r ensures Get(t.pending, r) == Get(b.pending, r) && Get(t.active, r) == Get(b.active, r) && Get(t.requests, r) == Get(b.requests, r) {
      SwitchedMeans(w, out, w.pending.Keys - ResetIds(out), t, r);
    }
    SameMap(t.pending, b.pending);
    SameMap(t.active, b.active);
    SameMap(t.requests, b.requests);
  }

  lemma SwitchedMeans(w: Worker, out: Output, done: set<RequestId>, t: Worker, r: RequestId)
    requires SwitchedAt(w, out, done, t, r) && done == w.pending.Keys - ResetIds(out)
    ensures var b := BeforeUpdate(w, out);
      Get(t.pending, r) == Get(b.pending, r) && Get(t.active, r) == Get(b.active, r) && Get(t.requests, r) == Get(b.requests, r)
  {
    hide IsReset;
  }

  lemma SameMap<K, V>(a: map<K, V>, b: map<K, V>)
    requires forall k :: Get(a, k) == Get(b, k)
    ensures a == b
  {
    assert forall k :: k in a ==> Get(b, k) == Some(a[k]);
    assert forall k :: k in b ==> Get(a, k) == Some(b[k]);
  }
}
