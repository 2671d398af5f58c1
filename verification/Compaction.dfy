// One request's compression on real caches: every layer moves the same tokens, and each cache then holds
// exactly what the protocol model says it does.

module Compaction {
  import opened Common
  import opened SchedulerModel
  import opened WorkerModel
  import opened KVMemory
  import opened Paging
  import opened PagedCache

  /** A layer's two caches. */
  datatype LayerCache = LayerCache(k: Cache<Cell>, v: Cache<Cell>)

  // ---------------------------------------------------------------- slots and locations

  /** The flattened slots hold the cells of the model's memory, with `page` tokens to a logical block. */
  ghost predicate HoldsView(slots: seq<Cell>, mem: Memory, page: nat) {
    forall b: nat, o: nat :: o < page && b * page + o < |slots| ==> slots[b * page + o] == Read(mem, (b, o))
  }

  ghost function View(c: Cache<Cell>): (slots: seq<Cell>)
    requires c.Valid()
    reads c.storage
    ensures |slots| == c.pages * c.size && forall s :: 0 <= s < |slots| ==> slots[s] == c.At(s)
  {
    seq(c.pages * c.size, s requires 0 <= s < c.pages * c.size reads c.storage => c.At(s))
  }

  /** The tokens a compression moves, and the kernel-block slots it moves them between. */
  datatype Move = Move(source: seq<BlockId>, destination: seq<BlockId>, factor: nat, size: nat, n: nat, keep: seq<nat>)
  {
    function Page(): nat {
      factor * size
    }

    predicate Valid() {
      && 0 < factor && 0 < size && 0 < Page()
      && n <= |source| * Page() && |keep| <= |destination| * Page()
      && Distinct(destination) && forall j :: 0 <= j < |keep| ==> keep[j] < n
    }
  }

  lemma MoveInTable(m: Move)
    requires m.Valid()
    ensures InTable(Expand(m.source, m.factor), m.keep, m.size)
    ensures InTable(Expand(m.destination, m.factor), Dense(|m.keep|), m.size)
    ensures InTable(m.source, m.keep, m.Page()) && InTable(m.destination, Dense(|m.keep|), m.Page())
  {
    hide Expand;
    forall j | 0 <= j < |m.keep|
      ensures m.keep[j] / m.Page() < |m.source| && m.keep[j] / m.size < |Expand(m.source, m.factor)|
    {
      DivBelow(m.keep[j], m.Page(), |m.source|);
      TwoLevel(m.source, m.factor, m.size, m.keep[j]);
    }
    forall j: nat | j < |m.keep| ensures j / m.Page() < |m.destination| && j / m.size < |Expand(m.destination, m.factor)| {
      DivBelow(j, m.Page(), |m.destination|);
      TwoLevel(m.destination, m.factor, m.size, j);
    }
  }

  function SourceSlots(m: Move): (slots: seq<nat>)
    requires m.Valid()
    ensures |slots| == |m.keep|
  {
    MoveInTable(m);
    TokenSlots(Expand(m.source, m.factor), m.keep, m.size)
  }

  function DestinationSlots(m: Move): (slots: seq<nat>)
    requires m.Valid()
    ensures |slots| == |m.keep|
  {
    MoveInTable(m);
    TokenSlots(Expand(m.destination, m.factor), Dense(|m.keep|), m.size)
  }

  /** Kernel-block slots are the logical page's slots. */
  lemma SlotsAt(m: Move, j: nat)
    requires m.Valid() && j < |m.keep|
    ensures m.keep[j] / m.Page() < |m.source| && j / m.Page() < |m.destination|
    ensures SourceSlots(m)[j] == TokenSlot(m.source, m.keep[j], m.Page())
    ensures DestinationSlots(m)[j] == TokenSlot(m.destination, j, m.Page())
  {
    hide Expand;
    MoveInTable(m);
    TwoLevel(m.source, m.factor, m.size, m.keep[j]);
    TwoLevel(m.destination, m.factor, m.size, j);
    assert Dense(|m.keep|)[j] == j;
  }

  /** The destination slots are distinct. */
  lemma DestinationsDistinct(m: Move)
    requires m.Valid()
    ensures Distinct(DestinationSlots(m))
  {
    MoveInTable(m);
    ExpandDistinct(m.destination, m.factor);
    SlotsDistinct(Expand(m.destination, m.factor), Dense(|m.keep|), m.size);
  }

  // ---------------------------------------------------------------- what the move means

  ghost function Kept(m: Move, mem: Memory): (cells: seq<Cell>)
    requires m.Valid()
    ensures |cells| == |m.keep|
  {
    Picked(Gather(mem, m.source, m.Page(), m.n), m.keep)
  }

  function Moved(m: Move, mem: Memory): Memory
    requires m.Valid()
  {
    Materialize(mem, m.source, m.destination, m.Page(), m.n, m.keep)
  }

  lemma MovedWrites(m: Move, mem: Memory)
    requires m.Valid()
    ensures Moved(m, mem) == Write(mem, m.destination, m.Page(), 0, Kept(m, mem))
  {
  }

  lemma MovedHere(m: Move, mem: Memory, before: seq<Cell>, after: seq<Cell>, j: nat)
    requires m.Valid() && HoldsView(before, mem, m.Page()) && j < |m.keep|
    requires SourceSlots(m)[j] < |before| && DestinationSlots(m)[j] < |after|
    requires after[DestinationSlots(m)[j]] == before[SourceSlots(m)[j]]
    ensures j / m.Page() < |m.destination|
    ensures after[DestinationSlots(m)[j]] == Read(Moved(m, mem), At(m.destination, m.Page(), j))
  {
    hide Move.Page, Gather, SourceSlots, DestinationSlots, Moved, Kept, Read, HoldsView, Write, Alone;
    MovedWrites(m, mem);
    SlotsAt(m, j);
    var page, kept := m.Page(), Kept(m, mem);
    DistinctAlone(m.destination, page, 0, |kept|, j);
    WriteHits(mem, m.destination, page, 0, kept, j);
    KeptAt(m, mem, j);
    HeldAt(before, mem, page, m.source[m.keep[j] / page], m.keep[j] % page);
  }

  lemma KeptAt(m: Move, mem: Memory, j: nat)
    requires m.Valid() && j < |m.keep|
    ensures m.keep[j] / m.Page() < |m.source|
    ensures Kept(m, mem)[j] == Read(mem, (m.source[m.keep[j] / m.Page()], m.keep[j] % m.Page()))
  {
    hide Move.Page, Gather, Read;
    GatherAt(mem, m.source, m.Page(), m.n, m.keep[j]);
  }

  lemma GatherAt(mem: Memory, table: seq<BlockId>, page: nat, n: nat, i: nat)
    requires page > 0 && n <= |table| * page && i < n
    ensures i / page < |table| && Gather(mem, table, page, n)[i] == Read(mem, (table[i / page], i % page))
  {
    DivBelow(i, page, |table|);
  }

  lemma UnmovedHere(m: Move, mem: Memory, b: nat, o: nat)
    requires m.Valid() && o < m.Page() && b * m.Page() + o !in DestinationSlots(m)
    ensures Read(Moved(m, mem), (b, o)) == Read(mem, (b, o))
  {
    hide Move.Page, Gather, DestinationSlots, Moved;
    MovedWrites(m, mem);
    var page, kept := m.Page(), Kept(m, mem);
    if Covers(m.destination, page, 0, |kept|, (b, o)) {
      var j: nat :| j < |kept| && j / page < |m.destination| && At(m.destination, page, j) == (b, o);
      SlotsAt(m, j);
    }
    WriteFrame(mem, m.destination, page, 0, kept, (b, o));
  }

  /** The slots moved as the move says, and the others stayed. */
  ghost predicate Moves(m: Move, before: seq<Cell>, after: seq<Cell>)
    requires m.Valid()
  {
    && |before| == |after|
    && (forall j :: 0 <= j < |m.keep| ==> (
          && SourceSlots(m)[j] < |before| && DestinationSlots(m)[j] < |after|
          && after[DestinationSlots(m)[j]] == before[SourceSlots(m)[j]]))
    && forall s: nat :: s < |after| && s !in DestinationSlots(m) ==> after[s] == before[s]
  }

  lemma TargetLocation(m: Move, j: nat, b: nat, o: nat)
    requires m.Valid() && j < |m.keep| && o < m.Page() && DestinationSlots(m)[j] == b * m.Page() + o
    ensures j / m.Page() < |m.destination| && At(m.destination, m.Page(), j) == (b, o)
  {
    hide Move.Page, Move.Valid, DestinationSlots, TokenSlot;
    SlotsAt(m, j);
    SlotIsAt(m.destination, m.Page(), j, b, o);
  }

  lemma SlotIsAt(table: seq<BlockId>, page: nat, j: nat, b: nat, o: nat)
    requires 0 < page && j / page < |table| && o < page && TokenSlot(table, j, page) == b * page + o
    ensures table[j / page] == b && j % page == o
  {
    PairUnique(table[j / page], j % page, b, o, page);
  }

  lemma HeldAt(slots: seq<Cell>, mem: Memory, page: nat, b: nat, o: nat)
    requires HoldsView(slots, mem, page) && o < page && b * page + o < |slots|
    ensures slots[b * page + o] == Read(mem, (b, o))
  {
  }

  lemma MoveAt(m: Move, mem: Memory, before: seq<Cell>, after: seq<Cell>, b: nat, o: nat)
    requires m.Valid() && HoldsView(before, mem, m.Page()) && Moves(m, before, after)
    requires o < m.Page() && b * m.Page() + o < |after|
    ensures after[b * m.Page() + o] == Read(Moved(m, mem), (b, o))
  {
    hide Move.Page, Move.Valid, Moved, SourceSlots, DestinationSlots, Read, HoldsView;
    var s: nat := b * m.Page() + o;
    if s in DestinationSlots(m) {
      var j :| 0 <= j < |m.keep| && DestinationSlots(m)[j] == s;
      MovedHere(m, mem, before, after, j);
      TargetLocation(m, j, b, o);
    } else {
      UnmovedHere(m, mem, b, o);
      HeldAt(before, mem, m.Page(), b, o);
    }
  }

  /** Moving slots is materialising the model's memory. */
  lemma MoveRefines(m: Move, mem: Memory, before: seq<Cell>, after: seq<Cell>)
    requires m.Valid() && HoldsView(before, mem, m.Page()) && Moves(m, before, after)
    ensures HoldsView(after, Moved(m, mem), m.Page())
  {
    hide Moves, Moved, Read, Move.Page, Move.Valid;
    forall b: nat, o: nat | o < m.Page() && b * m.Page() + o < |after|
      ensures after[b * m.Page() + o] == Read(Moved(m, mem), (b, o))
    {
      MoveAt(m, mem, before, after, b, o);
    }
  }

  // ---------------------------------------------------------------- every layer

  ghost predicate Separate(layers: seq<LayerCache>, kWorkspace: array<Cell>, vWorkspace: array<Cell>) {
    && kWorkspace != vWorkspace
    && (forall l :: 0 <= l < |layers| ==>
          && layers[l].k.storage != layers[l].v.storage
          && layers[l].k.storage !in {kWorkspace, vWorkspace} && layers[l].v.storage !in {kWorkspace, vWorkspace})
    && forall l, u :: 0 <= l < u < |layers| ==>
         {layers[l].k.storage, layers[l].v.storage} !! {layers[u].k.storage, layers[u].v.storage}
  }

  predicate CacheFits(c: Cache<Cell>, m: Move)
    requires m.Valid()
  {
    && c.Valid() && c.InRange(SourceSlots(m)) && c.InRange(DestinationSlots(m))
  }

  ghost function Storages(layers: seq<LayerCache>): set<array<Cell>> {
    set l | 0 <= l < |layers| :: layers[l].k.storage
  }

  ghost function ValueStorages(layers: seq<LayerCache>): set<array<Cell>> {
    set l | 0 <= l < |layers| :: layers[l].v.storage
  }

  /** The layer's caches hold these memories, and have room for the move. */
  ghost predicate Holding(m: Move, layer: LayerCache, keys: Memory, values: Memory)
    requires m.Valid()
    reads layer.k.storage, layer.v.storage
  {
    && CacheFits(layer.k, m) && CacheFits(layer.v, m)
    && HoldsView(View(layer.k), keys, m.Page()) && HoldsView(View(layer.v), values, m.Page())
  }

  /** The copy half of `compress`: the same kept tokens move in every layer's K and V cache, and each
      cache ends as the model's `Materialize` of what it held. */
  method CompressLayers(layers: seq<LayerCache>, m: Move, kWorkspace: array<Cell>, vWorkspace: array<Cell>,
                        ghost keys: seq<Memory>, ghost values: seq<Memory>)
    requires m.Valid() && Separate(layers, kWorkspace, vWorkspace)
    requires |m.keep| <= kWorkspace.Length && |m.keep| <= vWorkspace.Length
    requires |keys| == |values| == |layers|
    requires forall l :: 0 <= l < |layers| ==> Holding(m, layers[l], keys[l], values[l])
    modifies Storages(layers), ValueStorages(layers), kWorkspace, vWorkspace
    ensures forall l :: 0 <= l < |layers| ==> Holding(m, layers[l], Moved(m, keys[l]), Moved(m, values[l]))
  {
    hide Holding, Moved, SourceSlots, DestinationSlots, Move.Valid;
    var source, destination := SourceSlots(m), DestinationSlots(m);
    DestinationsDistinct(m);
    for i := 0 to |layers|
      invariant forall l :: i <= l < |layers| ==> Holding(m, layers[l], keys[l], values[l])
      invariant forall l :: 0 <= l < i ==> Holding(m, layers[l], Moved(m, keys[l]), Moved(m, values[l]))
    {
      CompressLayer(layers[i], m, source, destination, kWorkspace, vWorkspace, keys[i], values[i]);
    }
  }

  method CompressLayer(layer: LayerCache, m: Move, source: seq<nat>, destination: seq<nat>,
                       kWorkspace: array<Cell>, vWorkspace: array<Cell>, ghost keys: Memory, ghost values: Memory)
    requires m.Valid() && Holding(m, layer, keys, values)
    requires kWorkspace != vWorkspace && layer.k.storage != layer.v.storage
    requires layer.k.storage !in {kWorkspace, vWorkspace} && layer.v.storage !in {kWorkspace, vWorkspace}
    requires |m.keep| <= kWorkspace.Length && |m.keep| <= vWorkspace.Length
    requires source == SourceSlots(m) && destination == DestinationSlots(m) && Distinct(destination)
    modifies layer.k.storage, layer.v.storage, kWorkspace, vWorkspace
    ensures Holding(m, layer, Moved(m, keys), Moved(m, values))
  {
    hide HoldsView, SourceSlots, DestinationSlots, Move.Valid, Moved;
    ghost var k, v := View(layer.k), View(layer.v);
    MaterializeTokenSlots(layer.k, layer.v, source, destination, kWorkspace, vWorkspace);
    MoveRefines(m, keys, k, View(layer.k));
    MoveRefines(m, values, v, View(layer.v));
  }
}
