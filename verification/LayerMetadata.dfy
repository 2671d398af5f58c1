// Attention metadata specialised layer by layer, through one shared slot-mapping buffer.

module LayerMetadata {
  import opened Common
  import opened SchedulerModel

  type Layer = string

  /** What one layer's attention call reads: KV lengths per row, and a write slot per token. */
  datatype Meta = Meta(seqLens: seq<int>, slots: seq<int>)

  /** An anchor whose layers may have kept different numbers of tokens. */
  datatype LayeredAnchor = LayeredAnchor(semantic: nat, physical: nat, lengths: map<Layer, nat>)

  /** Tokens that layer `layer` has removed from request `r`. */
  function Offset(active: map<RequestId, LayeredAnchor>, r: RequestId, layer: Layer): int {
    if r !in active then 0
    else active[r].semantic - (if layer in active[r].lengths then active[r].lengths[layer] else active[r].physical)
  }

  /** One step's batch: its requests row by row, the offset already applied to each row's slots and
      lengths, and the row and semantic position of every token. */
  datatype Step = Step(active: map<RequestId, LayeredAnchor>, batch: seq<RequestId>, applied: seq<int>,
                       rows: seq<nat>, positions: seq<int>)
  {
    predicate Valid() {
      && |rows| == |positions| && |applied| == |batch|
      && forall t :: 0 <= t < |rows| ==> rows[t] < |batch|
    }

    function Offsets(layer: Layer): (offsets: seq<int>)
      ensures |offsets| == |batch| && forall i :: 0 <= i < |batch| ==> offsets[i] == Offset(active, batch[i], layer)
    {
      seq(|batch|, i requires 0 <= i < |batch| => Offset(active, batch[i], layer))
    }

    /** Every token's position, moved by its row's entry of `offsets`. */
    function Shifted(offsets: seq<int>): (moved: seq<int>)
      requires Valid() && |offsets| == |batch|
      ensures |moved| == |positions| && forall t :: 0 <= t < |positions| ==> moved[t] == positions[t] - offsets[rows[t]]
    {
      seq(|positions|, t requires 0 <= t < |positions| => positions[t] - offsets[rows[t]])
    }

    /** The lengths of a layer with the given offsets: `lens` already lost the applied ones. */
    function Corrected(lens: seq<int>, offsets: seq<int>): (r: seq<int>)
      requires |offsets| == |applied|
      ensures |r| == |lens|
      ensures forall i :: 0 <= i < |lens| ==> r[i] == lens[i] + if i < |applied| then applied[i] - offsets[i] else 0
    {
      seq(|lens|, i requires 0 <= i < |lens| => lens[i] + if i < |applied| then applied[i] - offsets[i] else 0)
    }

    /** What a layer should see, from its own offsets alone. */
    function Expected(native: (nat, int) -> int, base: Meta, layer: Layer): Meta
      requires Valid()
    {
      Meta(Corrected(base.seqLens, Offsets(layer)), Mapped(native, rows, Shifted(Offsets(layer))))
    }
  }

  /** The host's slot mapping of (row, position) pairs. */
  function Mapped(native: (nat, int) -> int, rows: seq<nat>, positions: seq<int>): (slots: seq<int>)
    requires |rows| == |positions|
    ensures |slots| == |rows| && forall t :: 0 <= t < |rows| ==> slots[t] == native(rows[t], positions[t])
  {
    seq(|rows|, t requires 0 <= t < |rows| => native(rows[t], positions[t]))
  }

  /** The layer sees each compressed row's lengths and positions as if the row had begun with what the layer
      kept: its own count where it has one and the common one elsewhere. Other rows are untouched. */
  lemma LayerKeeps(step: Step, native: (nat, int) -> int, base: Meta, layer: Layer, semantic: seq<int>, i: nat, t: nat)
    requires step.Valid() && |step.batch| == |semantic| <= |base.seqLens| && i < |semantic|
    requires forall j :: 0 <= j < |semantic| ==> base.seqLens[j] == semantic[j] - step.applied[j]
    ensures var m, r := step.Expected(native, base, layer), step.batch[i];
      if r !in step.active then
        && m.seqLens[i] == semantic[i]
        && (t < |step.rows| && step.rows[t] == i ==> m.slots[t] == native(i, step.positions[t]))
      else
        var kept := if layer in step.active[r].lengths then step.active[r].lengths[layer] else step.active[r].physical;
        && m.seqLens[i] == kept + (semantic[i] - step.active[r].semantic)
        && (t < |step.rows| && step.rows[t] == i ==>
              m.slots[t] == native(i, kept + (step.positions[t] - step.active[r].semantic)))
  {
    LayerSees(step, native, base, layer, semantic);
    assert i < |step.batch|;
    var r := step.batch[i];
    if r in step.active && t < |step.rows| && step.rows[t] == i {
      var kept := if layer in step.active[r].lengths then step.active[r].lengths[layer] else step.active[r].physical;
      assert step.positions[t] - Offset(step.active, r, layer) == kept + (step.positions[t] - step.active[r].semantic);
    }
  }

  /** The layer sees the native slot of each semantic position minus its own offset, and each row's
      semantic length minus that offset. */
  lemma LayerSees(step: Step, native: (nat, int) -> int, base: Meta, layer: Layer, semantic: seq<int>)
    requires step.Valid() && |step.batch| == |semantic| <= |base.seqLens|
    requires forall i :: 0 <= i < |semantic| ==> base.seqLens[i] == semantic[i] - step.applied[i]
    ensures var m := step.Expected(native, base, layer);
      && (forall i :: 0 <= i < |semantic| ==> m.seqLens[i] == semantic[i] - Offset(step.active, step.batch[i], layer))
      && (forall t :: 0 <= t < |step.rows| ==>
            m.slots[t] == native(step.rows[t], step.positions[t] - Offset(step.active, step.batch[step.rows[t]], layer)))
  {
    var m, offsets := step.Expected(native, base, layer), step.Offsets(layer);
    assert m.seqLens == step.Corrected(base.seqLens, offsets);
    assert m.slots == Mapped(native, step.rows, step.Shifted(offsets));
  }

  /** The host's block table: one slot buffer, filled by its native mapping, which promises nothing about
      the slots past the batch. */
  class BlockTable {
    const native: (nat, int) -> int
    const slotMapping: array<int>

    constructor (native: (nat, int) -> int, tokens: nat)
      ensures this.native == native && fresh(slotMapping) && slotMapping.Length == tokens
    {
      this.native := native;
      slotMapping := new int[tokens];
    }

    method ComputeSlotMapping(rows: seq<nat>, positions: seq<int>)
      requires |rows| == |positions| <= slotMapping.Length
      modifies slotMapping
      ensures slotMapping[..|rows|] == Mapped(native, rows, positions)
    {
      forall t | 0 <= t < slotMapping.Length {
        slotMapping[t] := if t < |positions| then native(rows[t], positions[t]) else -1;
      }
    }
  }

  /** The array holds `view`, and no slot past it that a replay could write to. */
  ghost predicate Padded(slots: array<int>, view: seq<int>)
    reads slots
  {
    && |view| <= slots.Length && slots[..|view|] == view
    && forall t :: |view| <= t < slots.Length ==> slots[t] == -1
  }

  class PerLayerProvider {
    const layers: seq<Layer>
    const table: BlockTable
    const requiresState: bool
    const maxTokens: nat
    var buffers: map<Layer, array<int>>

    constructor (layers: seq<Layer>, table: BlockTable, requiresState: bool, maxTokens: nat)
      requires Distinct(layers)
      ensures this.layers == layers && this.table == table && this.requiresState == requiresState && this.maxTokens == maxTokens
      ensures Valid() && forall l :: l in buffers ==> fresh(buffers[l])
      ensures buffers.Keys == if requiresState then set l | l in layers else {}
    {
      this.layers, this.table, this.requiresState, this.maxTokens := layers, table, requiresState, maxTokens;
      buffers := map[];
      new;
      if requiresState {
        for k := 0 to |layers|
          invariant buffers.Keys == set l | l in layers[..k]
          invariant Valid() && forall l :: l in buffers ==> fresh(buffers[l])
        {
          var slots := new int[maxTokens];
          buffers := buffers[layers[k] := slots];
          assert layers[..k + 1] == layers[..k] + [layers[k]];
        }
        assert layers[..|layers|] == layers;
      }
    }

    ghost predicate Valid()
      reads this
    {
      && Distinct(layers)
      && (forall l, m :: l in buffers && m in buffers && l != m ==> buffers[l] != buffers[m])
      && (forall l :: l in buffers ==> buffers[l] != table.slotMapping)
    }

    ghost function Buffers(): set<array<int>>
      reads this
    {
      set l | l in buffers :: buffers[l]
    }

    /** The layer has a buffer large enough for the step, or may still get one. */
    predicate Fits(had: map<Layer, array<int>>, layer: Layer, tokens: nat) {
      if layer in had then had[layer].Length >= tokens else !requiresState
    }

    /** The layer's own buffer, made on demand where no graph capture fixed it in advance. */
    method BufferFor(layer: Layer, tokens: nat) returns (ok: bool)
      requires Valid()
      modifies `buffers
      ensures Valid() && ok == Fits(old(buffers), layer, tokens)
      ensures ok ==> layer in buffers && buffers[layer].Length >= tokens
      ensures buffers == old(buffers) || (layer !in old(buffers) && layer in buffers && fresh(buffers[layer])
        && buffers == old(buffers)[layer := buffers[layer]])
    {
      if layer !in buffers && !requiresState {
        var slots := new int[if tokens > maxTokens then tokens else maxTokens];
        buffers := buffers[layer := slots];
      }
      ok := layer in buffers && buffers[layer].Length >= tokens;
    }

    /** One iteration of the layer loop. The shared slot buffer may be left with this layer's slots. */
    method SpecialiseLayer(step: Step, layer: Layer, original: seq<int>, base: Meta) returns (m: Meta)
      requires Valid() && step.Valid() && layer in buffers
      requires |step.rows| == |original| <= table.slotMapping.Length && |original| <= buffers[layer].Length
      requires original == Mapped(table.native, step.rows, step.Shifted(step.applied))
      modifies table.slotMapping, buffers[layer]
      ensures m == step.Expected(table.native, base, layer) && Padded(buffers[layer], m.slots)
    {
      var n, slots, offsets := |original|, buffers[layer], step.Offsets(layer);
      var seqLens := base.seqLens;
      if exists i :: 0 <= i < |offsets| && step.applied[i] - offsets[i] != 0 {
        seqLens := step.Corrected(base.seqLens, offsets);
      }
      assert seqLens == step.Corrected(base.seqLens, offsets);
      forall t | n <= t < slots.Length {
        slots[t] := -1;
      }
      if offsets == step.applied {
        forall t | 0 <= t < n {
          slots[t] := original[t];
        }
        assert slots[..n] == original;
      } else {
        table.ComputeSlotMapping(step.rows, step.Shifted(offsets));
        forall t | 0 <= t < n {
          slots[t] := table.slotMapping[t];
        }
        assert slots[..n] == table.slotMapping[..n];
      }
      m := Meta(seqLens, slots[..n]);
    }

    /** What the loop has reached after the layers in `done`. */
    ghost predicate Specialised(step: Step, metadata: map<Layer, Meta>, done: seq<Layer>, out: map<Layer, Meta>)
      requires step.Valid()
    {
      && out.Keys == metadata.Keys
      && (forall l :: l in metadata && l !in done ==> out[l] == metadata[l])
      && (forall l :: l in done ==> l in metadata && out[l] == step.Expected(table.native, metadata[l], l))
    }

    lemma NothingSpecialised(step: Step, metadata: map<Layer, Meta>)
      requires step.Valid()
      ensures Specialised(step, metadata, layers[..0], metadata)
    {
    }

    lemma SpecialisedNext(step: Step, metadata: map<Layer, Meta>, k: nat, out: map<Layer, Meta>, m: Meta)
      requires step.Valid() && Distinct(layers) && k < |layers| && Specialised(step, metadata, layers[..k], out)
      requires layers[k] in metadata && m == step.Expected(table.native, metadata[layers[k]], layers[k])
      ensures layers[k] !in layers[..k] && layers[..k + 1] == layers[..k] + [layers[k]]
      ensures Specialised(step, metadata, layers[..k + 1], out[layers[k] := m])
    {
      assert layers[..k + 1] == layers[..k] + [layers[k]];
    }

    /** The layer loop: it stops at the first layer that has no metadata or no buffer. */
    method SpecialiseLayers(step: Step, metadata: map<Layer, Meta>, original: seq<int>) returns (ok: bool, out: map<Layer, Meta>)
      requires Valid() && step.Valid() && |original| == |step.rows| <= table.slotMapping.Length
      requires original == Mapped(table.native, step.rows, step.Shifted(step.applied))
      modifies `buffers, table.slotMapping, Buffers()
      ensures Valid()
      ensures ok <==> forall l :: l in layers ==> l in metadata && Fits(old(buffers), l, |original|)
      ensures ok ==> Specialised(step, metadata, layers, out)
      ensures ok ==> forall l :: l in layers ==> l in buffers && Padded(buffers[l], out[l].slots)
    {
      hide Specialised, Mapped, Step.Valid, Step.Expected, Step.Shifted, Padded;
      ok, out := true, metadata;
      var k := 0;
      NothingSpecialised(step, metadata);
      while k < |layers|
        invariant 0 <= k <= |layers| && Valid()
        invariant forall l :: l in old(buffers) ==> l in buffers && buffers[l] == old(buffers)[l]
        invariant forall l :: l in buffers && l !in old(buffers) ==> l in layers[..k] && fresh(buffers[l])
        invariant ok && Specialised(step, metadata, layers[..k], out)
        invariant forall l :: l in layers[..k] ==>
          l in metadata && Fits(old(buffers), l, |original|) && l in buffers && l in out && Padded(buffers[l], out[l].slots)
      {
        var layer := layers[k];
        ok := layer in metadata;
        if ok {
          ok := BufferFor(layer, |original|);
        }
        if !ok {
          return;
        }
        var m := SpecialiseLayer(step, layer, original, metadata[layer]);
        SpecialisedNext(step, metadata, k, out, m);
        out := out[layer := m];
        k := k + 1;
      }
      assert layers[..k] == layers;
    }

    /** `per_layer_attention_metadata` on a live batch: every layer gets the native mapping of its own
        positions and its own lengths, whatever the order of the layers and whichever of them share the
        group's offsets, and the batch's part of the shared slot buffer ends as it began, also where the
        loop stops early. */
    method PerLayerAttentionMetadata(step: Step, metadata: map<Layer, Meta>) returns (ok: bool, out: map<Layer, Meta>)
      requires Valid() && step.Valid() && |step.rows| <= table.slotMapping.Length
      requires table.slotMapping[..|step.rows|] == Mapped(table.native, step.rows, step.Shifted(step.applied))
      modifies `buffers, table.slotMapping, Buffers()
      ensures Valid() && table.slotMapping[..|step.rows|] == old(table.slotMapping[..|step.rows|])
      ensures ok <==> forall l :: l in layers ==>
        && l in metadata
        && if l in old(buffers) then old(buffers)[l].Length >= |step.rows| else !requiresState
      ensures ok ==> out.Keys == metadata.Keys && forall l :: l in metadata ==>
        out[l] == if l in layers then step.Expected(table.native, metadata[l], l) else metadata[l]
      ensures ok ==> forall l :: l in layers ==>
        && l in buffers && |step.rows| <= buffers[l].Length && buffers[l][..|step.rows|] == out[l].slots
        && forall t :: |step.rows| <= t < buffers[l].Length ==> buffers[l][t] == -1
    {
      var n := |step.rows|;
      var original := table.slotMapping[..n];
      ok, out := SpecialiseLayers(step, metadata, original);
      forall t | 0 <= t < n {
        table.slotMapping[t] := original[t];
      }
      assert table.slotMapping[..n] == original;
    }
  }
}
