// What the forward pass and the compression copies do to individual slots.

module KVMemory {
  import opened Common
  import opened SchedulerModel
  import opened WorkerModel
  import opened Dispatch

  // ---------------------------------------------------------------- consecutive stores

  /** Storing the tokens `start .. start + n` of a table touches this slot. */
  ghost predicate Covers(table: seq<BlockId>, bs: nat, start: nat, n: nat, loc: Loc)
    requires bs > 0
  {
    exists i: nat :: start <= i < start + n && i / bs < |table| && At(table, bs, i) == loc
  }

  /** Within a run of stores, no two tokens share a slot with token `i`. */
  ghost predicate Alone(table: seq<BlockId>, bs: nat, start: nat, n: nat, i: nat)
    requires bs > 0 && i / bs < |table|
  {
    forall j: nat :: start <= j < start + n && j != i && j / bs < |table| ==> At(table, bs, j) != At(table, bs, i)
  }

  lemma {:induction false} WriteFrame(mem: Memory, table: seq<BlockId>, bs: nat, start: nat, cells: seq<Cell>, loc: Loc)
    requires bs > 0 && !Covers(table, bs, start, |cells|, loc)
    ensures Read(Write(mem, table, bs, start, cells), loc) == Read(mem, loc)
    decreases |cells|
  {
    if cells != [] {
      var next := if start / bs < |table| then mem[At(table, bs, start) := cells[0]] else mem;
      assert !Covers(table, bs, start + 1, |cells[1..]|, loc);
      WriteFrame(next, table, bs, start + 1, cells[1..], loc);
      assert start / bs < |table| ==> At(table, bs, start) != loc;
    }
  }

  lemma {:induction false} WriteHits(mem: Memory, table: seq<BlockId>, bs: nat, start: nat, cells: seq<Cell>, k: nat)
    requires bs > 0 && k < |cells| && (start + k) / bs < |table|
    requires Alone(table, bs, start, |cells|, start + k)
    ensures Read(Write(mem, table, bs, start, cells), At(table, bs, start + k)) == cells[k]
    decreases |cells|
  {
    var next := if start / bs < |table| then mem[At(table, bs, start) := cells[0]] else mem;
    var loc := At(table, bs, start + k);
    if k == 0 {
      assert !Covers(table, bs, start + 1, |cells[1..]|, loc);
      WriteFrame(next, table, bs, start + 1, cells[1..], loc);
    } else {
      assert (start + 1) + (k - 1) == start + k;
      WriteHits(next, table, bs, start + 1, cells[1..], k - 1);
    }
  }

  // ---------------------------------------------------------------- the forward pass

  /** Where request `r` starts to write in this step. */
  function StartOf(w: Worker, entries: map<RequestId, Entry>, r: RequestId): nat
    requires r in entries
  {
    PhysicalTokens(entries[r].computed, Get(w.active, r))
  }

  /** The forward pass writes this slot for request `r`. */
  ghost predicate Stores(cfg: Config, w: Worker, entries: map<RequestId, Entry>, r: RequestId, loc: Loc)
    requires cfg.Valid()
  {
    && r in w.requests && r in entries
    && Covers(w.requests[r].table, cfg.blockSize, StartOf(w, entries, r), entries[r].count, loc)
  }

  lemma {:induction false} ForwardFrame(cfg: Config, w: Worker, order: seq<RequestId>, entries: map<RequestId, Entry>, loc: Loc)
    requires cfg.Valid()
    requires forall i :: 0 <= i < |order| ==> !Stores(cfg, w, entries, order[i], loc)
    ensures Read(Forward(cfg, w, order, entries), loc) == Read(w.mem, loc)
    decreases |order|
  {
    hide Tags, Covers, CeilDiv;
    if order != [] {
      var r := order[0];
      assert !Stores(cfg, w, entries, r, loc);
      var mem := if r in w.requests && r in entries
        then Write(w.mem, w.requests[r].table, cfg.blockSize, StartOf(w, entries, r),
                   Tags(w.requests[r].info, entries[r].computed, entries[r].count)) else w.mem;
      if r in w.requests && r in entries {
        WriteFrame(w.mem, w.requests[r].table, cfg.blockSize, StartOf(w, entries, r),
                   Tags(w.requests[r].info, entries[r].computed, entries[r].count), loc);
      }
      var next := w.(mem := mem);
      forall i | 0 <= i < |order[1..]| ensures !Stores(cfg, next, entries, order[1..][i], loc) {
        assert order[1..][i] == order[i + 1];
        assert !Stores(cfg, w, entries, order[i + 1], loc);
      }
      ForwardFrame(cfg, next, order[1..], entries, loc);
    }
  }

  /** Each scheduled token lands in its slot, whatever the order of the batch. */
  lemma {:induction false} ForwardHits(cfg: Config, w: Worker, order: seq<RequestId>, entries: map<RequestId, Entry>, r: RequestId, k: nat)
    requires cfg.Valid() && Distinct(order) && r in order && r in w.requests && r in entries && k < entries[r].count
    requires var i := StartOf(w, entries, r) + k;
      && i / cfg.blockSize < |w.requests[r].table|
      && Alone(w.requests[r].table, cfg.blockSize, StartOf(w, entries, r), entries[r].count, i)
      && forall q :: q in order && q != r ==> !Stores(cfg, w, entries, q, At(w.requests[r].table, cfg.blockSize, i))
    ensures Read(Forward(cfg, w, order, entries), At(w.requests[r].table, cfg.blockSize, StartOf(w, entries, r) + k))
      == Tag(w.requests[r].info, entries[r].computed + k)
    decreases |order|
  {
    hide Covers, Alone, CeilDiv, Tag;
    var table, start := w.requests[r].table, StartOf(w, entries, r);
    var loc := At(table, cfg.blockSize, start + k);
    var q, rest := order[0], order[1..];
    assert order == [q] + rest;
    assert q !in rest;
    if q == r {
      var cells := Tags(w.requests[r].info, entries[r].computed, entries[r].count);
      WriteHits(w.mem, table, cfg.blockSize, start, cells, k);
      var next := w.(mem := Write(w.mem, table, cfg.blockSize, start, cells));
      forall i | 0 <= i < |rest| ensures !Stores(cfg, next, entries, rest[i], loc) {
        assert rest[i] in order && rest[i] != r;
        assert !Stores(cfg, w, entries, rest[i], loc);
      }
      ForwardFrame(cfg, next, rest, entries, loc);
      assert cells[k] == Tag(w.requests[r].info, entries[r].computed + k);
    } else {
      var mem := if q in w.requests && q in entries
        then Write(w.mem, w.requests[q].table, cfg.blockSize, StartOf(w, entries, q),
                   Tags(w.requests[q].info, entries[q].computed, entries[q].count)) else w.mem;
      var next := w.(mem := mem);
      forall p | p in rest && p != r ensures !Stores(cfg, next, entries, p, loc) {
        assert !Stores(cfg, w, entries, p, loc);
      }
      ForwardHits(cfg, next, rest, entries, r, k);
    }
  }

  // ---------------------------------------------------------------- compression copies

  /** No destination of the batch contains this block. */
  ghost predicate Untargeted(out: Output, order: seq<RequestId>, b: BlockId) {
    forall r :: r in order && r in out.plans ==> b !in out.plans[r].destination
  }

  /** The batch's plans can be carried out in any order. */
  ghost predicate Apart(out: Output, order: seq<RequestId>, r: RequestId)
    requires r in out.plans
  {
    && Distinct(out.plans[r].destination)
    && (forall b :: b in out.plans[r].destination ==> b !in out.plans[r].source)
    && forall q :: q in order && q in out.plans && q != r ==>
         forall b :: b in out.plans[q].destination ==> b !in out.plans[r].source && b !in out.plans[r].destination
  }

  lemma CoversInTable(table: seq<BlockId>, bs: nat, start: nat, n: nat, loc: Loc)
    requires bs > 0 && Covers(table, bs, start, n, loc)
    ensures loc.0 in table
  {
  }

  lemma CompressOneFrame(cfg: Config, select: Selector, w: Worker, out: Output, r: RequestId, loc: Loc)
    requires cfg.Valid() && (r in out.plans ==> loc.0 !in out.plans[r].destination)
    ensures Read(CompressOne(cfg, select, w, out, r).mem, loc) == Read(w.mem, loc)
  {
    hide Covers, CeilDiv, Gather, KeptIndices;
    if !Ignores(cfg, w, out, r) && !CompressRaises(cfg, select, w, out, r) {
      var keep, n := KeptIndices(cfg, select, w, out, r), PhysicalOf(w, out, r);
      var cells := Gather(w.mem, w.requests[r].table, cfg.blockSize, n);
      var kept := Picked(cells, keep);
      if Covers(out.plans[r].destination, cfg.blockSize, 0, |kept|, loc) {
        CoversInTable(out.plans[r].destination, cfg.blockSize, 0, |kept|, loc);
      }
      WriteFrame(w.mem, out.plans[r].destination, cfg.blockSize, 0, kept, loc);
    }
  }

  lemma {:induction false} CompressFrame(cfg: Config, select: Selector, w: Worker, out: Output, order: seq<RequestId>, loc: Loc)
    requires cfg.Valid() && Untargeted(out, order, loc.0)
    ensures Read(Compress(cfg, select, w, out, order).mem, loc) == Read(w.mem, loc)
    decreases |order|
  {
    hide CompressOne, CeilDiv;
    if order != [] {
      assert order == [order[0]] + order[1..];
      CompressOneFrame(cfg, select, w, out, order[0], loc);
      CompressFrame(cfg, select, CompressOne(cfg, select, w, out, order[0]), out, order[1..], loc);
    }
  }

  lemma GatherSame(mem: Memory, mem': Memory, table: seq<BlockId>, bs: nat, n: nat)
    requires bs > 0 && n <= |table| * bs
    requires forall loc: Loc :: loc.0 in table ==> Read(mem', loc) == Read(mem, loc)
    ensures Gather(mem', table, bs, n) == Gather(mem, table, bs, n)
  {
    hide Read;
    forall i | 0 <= i < n ensures Gather(mem', table, bs, n)[i] == Gather(mem, table, bs, n)[i] {
      DivBelow(i, bs, |table|);
      assert At(table, bs, i).0 in table;
    }
  }

  /** A table without repeated blocks has no repeated slots. */
  lemma DistinctAlone(table: seq<BlockId>, bs: nat, start: nat, n: nat, i: nat)
    requires bs > 0 && i / bs < |table| && Distinct(table)
    ensures Alone(table, bs, start, n, i)
  {
    forall j: nat | start <= j < start + n && j != i && j / bs < |table| ensures At(table, bs, j) != At(table, bs, i) {
      if j / bs == i / bs { assert j == j / bs * bs + j % bs && i == i / bs * bs + i % bs; }
    }
  }

  lemma CompressOneHits(cfg: Config, select: Selector, w: Worker, out: Output, r: RequestId, j: nat)
    requires cfg.Valid() && GoodSelector(cfg, select) && PlanFits(cfg, w, out, r)
    requires Distinct(out.plans[r].destination) && j < cfg.budget
    requires j / cfg.blockSize < |out.plans[r].destination|
    ensures var n, keep := PhysicalOf(w, out, r), KeptIndices(cfg, select, w, out, r);
      && 0 <= n && |keep| == cfg.budget && keep[j] < n && keep[j] / cfg.blockSize < |w.requests[r].table|
      && Read(CompressOne(cfg, select, w, out, r).mem, At(out.plans[r].destination, cfg.blockSize, j))
         == Read(w.mem, At(w.requests[r].table, cfg.blockSize, keep[j]))
  {
    hide Covers, CeilDiv, Alone, KeptIndices, GoodSelector, Ignores, CompressRaises, PhysicalOf;
    FitsRuns(cfg, select, w, out, r);
    var n, keep := PhysicalOf(w, out, r), KeptIndices(cfg, select, w, out, r);
    var table, dst, bs := w.requests[r].table, out.plans[r].destination, cfg.blockSize;
    var cells := Gather(w.mem, table, bs, n);
    var kept := Picked(cells, keep);
    DivBelow(keep[j], bs, |table|);
    DistinctAlone(dst, bs, 0, |kept|, j);
    WriteHits(w.mem, dst, bs, 0, kept, j);
  }

  /** Destination token `j` of `r`'s plan holds, in `mem`, what its kept token `j` held on worker `w`. */
  ghost predicate Copied(cfg: Config, select: Selector, w: Worker, out: Output, r: RequestId, j: nat, mem: Memory)
    requires cfg.Valid()
  {
    && r in w.requests && r in out.entries && r in out.plans && j < cfg.budget
    && j / cfg.blockSize < |out.plans[r].destination|
    && var n, keep := PhysicalOf(w, out, r), KeptIndices(cfg, select, w, out, r);
    && 0 <= n && GoodKeep(keep, n, cfg.budget, cfg.prefix, cfg.recent)
    && keep[j] / cfg.blockSize < |w.requests[r].table|
    && Read(mem, At(out.plans[r].destination, cfg.blockSize, j))
       == Read(w.mem, At(w.requests[r].table, cfg.blockSize, keep[j]))
  }

  lemma CopiedHere(cfg: Config, select: Selector, w: Worker, out: Output, rest: seq<RequestId>, r: RequestId, j: nat)
    requires cfg.Valid() && GoodSelector(cfg, select) && PlanFits(cfg, w, out, r)
    requires r !in rest && Apart(out, rest, r)
    requires j < cfg.budget && j / cfg.blockSize < |out.plans[r].destination|
    ensures Copied(cfg, select, w, out, r, j, Compress(cfg, select, CompressOne(cfg, select, w, out, r), out, rest).mem)
  {
    hide CompressOne, KeptIndices, CeilDiv, GoodSelector, PhysicalOf, GoodKeep, CompressRaises;
    FitsTable(cfg, w, out, r);
    FitsRuns(cfg, select, w, out, r);
    CompressOneHits(cfg, select, w, out, r, j);
    var loc := At(out.plans[r].destination, cfg.blockSize, j);
    assert loc.0 in out.plans[r].destination;
    assert Untargeted(out, rest, loc.0);
    CompressFrame(cfg, select, CompressOne(cfg, select, w, out, r), out, rest, loc);
  }

  lemma CopiedLater(cfg: Config, select: Selector, w: Worker, out: Output, q: RequestId, r: RequestId, j: nat, mem: Memory)
    requires cfg.Valid() && GoodSelector(cfg, select)
    requires q in out.plans ==> PlanFits(cfg, w, out, q)
    requires r in out.plans && PlanFits(cfg, w, out, r)
    requires q in out.plans ==> forall b :: b in out.plans[q].destination ==> b !in out.plans[r].source
    requires Copied(cfg, select, CompressOne(cfg, select, w, out, q), out, r, j, mem)
    ensures Copied(cfg, select, w, out, r, j, mem)
  {
    hide PlanFits, CompressOne, KeptIndices, CeilDiv, GoodSelector, PhysicalOf, CompressRaises, Read;
    var t := CompressOne(cfg, select, w, out, q);
    FitsTable(cfg, w, out, r);
    CompressHere(cfg, select, w, out, q);
    forall loc: Loc | loc.0 in w.requests[r].table ensures Read(t.mem, loc) == Read(w.mem, loc) {
      CompressOneFrame(cfg, select, w, out, q, loc);
    }
    KeptSame(cfg, select, w, t, out, r);
    var i := KeptIndices(cfg, select, w, out, r)[j];
    assert Read(t.mem, At(w.requests[r].table, cfg.blockSize, i)) == Read(w.mem, At(w.requests[r].table, cfg.blockSize, i));
  }

  /** After the whole batch, in any order, each destination holds what was kept of its source before it. */
  lemma {:induction false} CompressHits(cfg: Config, select: Selector, w: Worker, out: Output, order: seq<RequestId>, r: RequestId, j: nat)
    requires cfg.Valid() && GoodSelector(cfg, select) && Distinct(order)
    requires forall i :: 0 <= i < |order| && order[i] in out.plans ==> PlanFits(cfg, w, out, order[i])
    requires r in order && r in out.plans && Apart(out, order, r)
    requires j < cfg.budget && j / cfg.blockSize < |out.plans[r].destination|
    ensures Copied(cfg, select, w, out, r, j, Compress(cfg, select, w, out, order).mem)
    decreases |order|
  {
    hide PlanFits, CompressOne, CeilDiv, GoodSelector, Copied;
    var q, rest := order[0], order[1..];
    assert order == [q] + rest;
    assert q !in rest;
    var t := CompressOne(cfg, select, w, out, q);
    if q == r {
      CopiedHere(cfg, select, w, out, rest, r, j);
    } else {
      CompressHere(cfg, select, w, out, q);
      forall i | 0 <= i < |rest| && rest[i] in out.plans ensures PlanFits(cfg, t, out, rest[i]) {
        assert rest[i] == order[i + 1];
        FitsIdle(cfg, w, out, rest[i]);
        FitsFrame(cfg, w, t, out, rest[i]);
      }
      assert r in rest && Apart(out, rest, r);
      CompressHits(cfg, select, t, out, rest, r, j);
      CopiedLater(cfg, select, w, out, q, r, j, Compress(cfg, select, t, out, rest).mem);
    }
  }

  lemma FitsTable(cfg: Config, w: Worker, out: Output, r: RequestId)
    requires cfg.Valid() && r in out.plans && PlanFits(cfg, w, out, r)
    ensures r in w.requests && r in out.entries && w.requests[r].table == out.plans[r].source
  {
  }

  lemma KeptSame(cfg: Config, select: Selector, w: Worker, t: Worker, out: Output, r: RequestId)
    requires cfg.Valid() && r in w.requests && r in out.entries
    requires t.requests == w.requests && t.active == w.active
    requires forall loc: Loc :: loc.0 in w.requests[r].table ==> Read(t.mem, loc) == Read(w.mem, loc)
    ensures PhysicalOf(t, out, r) == PhysicalOf(w, out, r)
    ensures KeptIndices(cfg, select, t, out, r) == KeptIndices(cfg, select, w, out, r)
    ensures forall i: nat :: i / cfg.blockSize < |w.requests[r].table| ==>
      Read(t.mem, At(w.requests[r].table, cfg.blockSize, i)) == Read(w.mem, At(w.requests[r].table, cfg.blockSize, i))
  {
    hide CeilDiv, Gather, Read;
    var n := PhysicalOf(w, out, r);
    if 0 <= n <= |w.requests[r].table| * cfg.blockSize {
      GatherSame(w.mem, t.mem, w.requests[r].table, cfg.blockSize, n);
    }
  }
}
