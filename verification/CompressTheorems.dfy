// On any worker state whatsoever: when a plan is passed over, when it stops the worker, and what it does.

module CompressTheorems {
  import opened Common
  import opened SchedulerModel
  import opened WorkerModel
  import opened KVMemory

  /** The request's tokens after this step, and the slots they take. */
  function TokensAfter(w: Worker, out: Output, r: RequestId): nat
    requires r in w.requests && r in out.entries
  {
    w.requests[r].computed + out.entries[r].count
  }

  function SlotsAfter(w: Worker, out: Output, r: RequestId): int
    requires r in w.requests && r in out.entries
  {
    TokensAfter(w, out, r) - if r in w.active then w.active[r].semantic - w.active[r].physical else 0
  }

  /** A plan that concerns this worker now: for a scheduled request it knows, that has nothing waiting, enough
      output to come, and is compressed already or just past its prompt. */
  predicate Due(cfg: Config, w: Worker, out: Output, r: RequestId) {
    && r in out.plans && r in out.entries && r in w.requests && r !in w.pending
    && w.requests[r].info.maxTokens >= cfg.minOutput
    && (r in w.active || TokensAfter(w, out, r) == w.requests[r].info.prompt)
    && (TokensAfter(w, out, r) != out.plans[r].semantic || SlotsAfter(w, out, r) >= cfg.threshold)
  }

  /** What the worker then finds in order: the scheduler's count and table, a table that holds the slots and
      the budget, a destination of the budget's size that is apart from it, and a selection of the budget's
      size among the slots. */
  ghost predicate InOrder(cfg: Config, select: Selector, w: Worker, out: Output, r: RequestId, cells: seq<Cell>)
    requires r in out.plans && r in out.entries && r in w.requests
  {
    var plan, table := out.plans[r], w.requests[r].table;
    && plan.semantic == TokensAfter(w, out, r) && plan.source == table
    && SlotsAfter(w, out, r) <= |table| * cfg.blockSize && cfg.budget <= |table| * cfg.blockSize
    && |plan.destination| * cfg.blockSize == cfg.budget
    && (forall b :: b in plan.destination ==> b !in table)
    && |select(cells)| == cfg.budget && forall i :: 0 <= i < cfg.budget ==> select(cells)[i] < SlotsAfter(w, out, r)
  }

  /** The cells of the request's slots, in order. */
  ghost predicate SlotCells(cfg: Config, w: Worker, out: Output, r: RequestId, cells: seq<Cell>)
    requires cfg.Valid() && r in out.entries && r in w.requests
  {
    0 <= SlotsAfter(w, out, r) <= |w.requests[r].table| * cfg.blockSize ==>
      && |cells| == SlotsAfter(w, out, r)
      && forall i :: 0 <= i < |cells| && i / cfg.blockSize < |w.requests[r].table| ==>
           cells[i] == Read(w.mem, (w.requests[r].table[i / cfg.blockSize], i % cfg.blockSize))
  }

  lemma KeepIs(cfg: Config, blocks: nat)
    requires cfg.Valid()
    ensures blocks == cfg.Keep() <==> blocks * cfg.blockSize == cfg.budget
    ensures blocks >= cfg.Keep() <==> blocks * cfg.blockSize >= cfg.budget
  {
    hide CeilDiv;
    var keep, size := cfg.Keep(), cfg.blockSize;
    if blocks > keep { MulMonotone(keep + 1, blocks, size); MulDistributes(keep, 1, size); }
    if blocks < keep { MulMonotone(blocks + 1, keep, size); MulDistributes(blocks, 1, size); }
  }

  lemma GathersCells(cfg: Config, select: Selector, w: Worker, out: Output, r: RequestId, cells: seq<Cell>)
    requires cfg.Valid() && r in out.entries && r in w.requests && SlotCells(cfg, w, out, r, cells)
    requires 0 <= SlotsAfter(w, out, r) <= |w.requests[r].table| * cfg.blockSize
    ensures PhysicalOf(w, out, r) == SlotsAfter(w, out, r)
    ensures Gather(w.mem, w.requests[r].table, cfg.blockSize, SlotsAfter(w, out, r)) == cells
    ensures KeptIndices(cfg, select, w, out, r) == select(cells)
  {
    hide Read;
    var table, n := w.requests[r].table, SlotsAfter(w, out, r);
    forall i | 0 <= i < n ensures Gather(w.mem, table, cfg.blockSize, n)[i] == cells[i] { DivBelow(i, cfg.blockSize, |table|); }
    assert Gather(w.mem, table, cfg.blockSize, n) == cells;
  }

  /** A plan that is not due is passed over in silence; a due one stops the worker exactly when something is
      out of order, and otherwise is carried out. */
  lemma DueExactly(cfg: Config, select: Selector, w: Worker, out: Output, r: RequestId, cells: seq<Cell>)
    requires cfg.Valid() && (r in out.entries && r in w.requests ==> SlotCells(cfg, w, out, r, cells))
    ensures CompressRaises(cfg, select, w, out, r) <==> Due(cfg, w, out, r) && !InOrder(cfg, select, w, out, r, cells)
    ensures !(Due(cfg, w, out, r) && InOrder(cfg, select, w, out, r, cells)) ==> CompressOne(cfg, select, w, out, r) == w
    ensures Ignores(cfg, w, out, r) <==> !Due(cfg, w, out, r)
  {
    hide CeilDiv, Gather, Materialize, KeptIndices, SlotCells, Config.Keep;
    if Due(cfg, w, out, r) {
      KeepIs(cfg, |w.requests[r].table|);
      KeepIs(cfg, |out.plans[r].destination|);
      if out.plans[r].semantic == TokensAfter(w, out, r) && SlotsAfter(w, out, r) <= |w.requests[r].table| * cfg.blockSize {
        GathersCells(cfg, select, w, out, r, cells);
      }
    }
  }

  lemma CarriesOut(cfg: Config, select: Selector, w: Worker, out: Output, r: RequestId, cells: seq<Cell>)
    requires cfg.Valid() && Due(cfg, w, out, r) && SlotCells(cfg, w, out, r, cells) && InOrder(cfg, select, w, out, r, cells)
    ensures |select(cells)| == cfg.budget && forall i :: 0 <= i < cfg.budget ==> select(cells)[i] < |cells|
    ensures CompressOne(cfg, select, w, out, r)
      == w.(mem := Write(w.mem, out.plans[r].destination, cfg.blockSize, 0, Picked(cells, select(cells))),
            pending := w.pending[r := WPending(TokensAfter(w, out, r), cfg.budget, out.plans[r].destination)])
  {
    hide CeilDiv, Gather, KeptIndices, SlotCells, Config.Keep, Ignores, CompressRaises, Write, Picked;
    DueExactly(cfg, select, w, out, r, cells);
    GathersCells(cfg, select, w, out, r, cells);
  }

  lemma WriteElsewhere(mem: Memory, table: seq<BlockId>, bs: nat, cells: seq<Cell>, loc: Loc)
    requires bs > 0
    ensures loc.0 !in table ==> Read(Write(mem, table, bs, 0, cells), loc) == Read(mem, loc)
  {
    hide Covers;
    if loc.0 !in table {
      if Covers(table, bs, 0, |cells|, loc) { CoversInTable(table, bs, 0, |cells|, loc); }
      WriteFrame(mem, table, bs, 0, cells, loc);
    }
  }

  /** Carried out, it leaves the request waiting with the destination and changes no slot outside it. */
  lemma CarriedOut(cfg: Config, select: Selector, w: Worker, out: Output, r: RequestId, cells: seq<Cell>, loc: Loc)
    requires r in out.plans && cfg.Valid()
    requires Due(cfg, w, out, r) && SlotCells(cfg, w, out, r, cells) && InOrder(cfg, select, w, out, r, cells)
    ensures var plan, w' := out.plans[r], CompressOne(cfg, select, w, out, r);
      && w'.requests == w.requests && w'.active == w.active
      && w'.pending == w.pending[r := WPending(TokensAfter(w, out, r), cfg.budget, plan.destination)]
      && (loc.0 !in plan.destination ==> Read(w'.mem, loc) == Read(w.mem, loc))
  {
    hide CompressOne, SlotCells, InOrder, Write, Read, CeilDiv;
    CarriesOut(cfg, select, w, out, r, cells);
    WriteElsewhere(w.mem, out.plans[r].destination, cfg.blockSize, Picked(cells, select(cells)), loc);
  }

  /** And kept token `j` stands in slot `j` of the destination. */
  lemma KeptArrives(cfg: Config, select: Selector, w: Worker, out: Output, r: RequestId, cells: seq<Cell>, keep: seq<nat>, j: nat)
    requires cfg.Valid() && r in out.plans && j < |keep| && keep[j] < |cells|
    requires Distinct(out.plans[r].destination) && j / cfg.blockSize < |out.plans[r].destination|
    requires Due(cfg, w, out, r) && SlotCells(cfg, w, out, r, cells) && InOrder(cfg, select, w, out, r, cells) && keep == select(cells)
    ensures Read(CompressOne(cfg, select, w, out, r).mem, (out.plans[r].destination[j / cfg.blockSize], j % cfg.blockSize)) == cells[keep[j]]
  {
    hide CompressOne, SlotCells, InOrder, Write, Read, Distinct, CeilDiv;
    CarriesOut(cfg, select, w, out, r, cells);
    KeptLands(w.mem, out.plans[r].destination, cfg.blockSize, Picked(cells, keep), j);
  }

  lemma KeptLands(mem: Memory, table: seq<BlockId>, bs: nat, cells: seq<Cell>, j: nat)
    requires bs > 0 && j < |cells| && j / bs < |table|
    ensures Distinct(table) ==> Read(Write(mem, table, bs, 0, cells), (table[j / bs], j % bs)) == cells[j]
  {
    hide Alone;
    if Distinct(table) {
      DistinctAlone(table, bs, 0, |cells|, j);
      WriteHits(mem, table, bs, 0, cells, j);
    }
  }

  /** The loop stops the worker exactly when some request in scheduling order does, after the ones before it. */
  lemma {:induction false} StepRaisesExactly(cfg: Config, select: Selector, w: Worker, out: Output, order: seq<RequestId>)
    requires cfg.Valid()
    ensures StepRaises(cfg, select, w, out, order) <==>
      exists i :: 0 <= i < |order| && CompressRaises(cfg, select, Compress(cfg, select, w, out, order[..i]), out, order[i])
    decreases |order|
  {
    hide CompressOne, CompressRaises, CeilDiv, Config.Valid;
    if order != [] {
      var next, rest := CompressOne(cfg, select, w, out, order[0]), order[1..];
      StepRaisesExactly(cfg, select, next, out, rest);
      forall i | 0 <= i < |rest|
        ensures order[i + 1] == rest[i] && Compress(cfg, select, w, out, order[..i + 1]) == Compress(cfg, select, next, out, rest[..i])
      {
        assert order[..i + 1][1..] == rest[..i];
      }
      if StepRaises(cfg, select, next, out, rest) {
        var i :| 0 <= i < |rest| && CompressRaises(cfg, select, Compress(cfg, select, next, out, rest[..i]), out, rest[i]);
        assert CompressRaises(cfg, select, Compress(cfg, select, w, out, order[..i + 1]), out, order[i + 1]);
      }
      assert Compress(cfg, select, w, out, order[..0]) == w;
      if i :| 0 < i < |order| && CompressRaises(cfg, select, Compress(cfg, select, w, out, order[..i]), out, order[i]) {
        assert CompressRaises(cfg, select, Compress(cfg, select, next, out, rest[..i - 1]), out, rest[i - 1]);
      }
    }
  }
}
