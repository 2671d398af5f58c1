// Whole-run cache content: every reachable state's views are sound and really stored.

module KVRun {
  import opened Common
  import opened SchedulerModel
  import opened SchedulerInvariant
  import opened SchedulerSteps
  import opened WorkerModel
  import opened Agreement
  import opened Schedule
  import opened Dispatch
  import opened Protocol
  import opened ProtocolInvariant
  import opened ProtocolTheorems
  import opened PassStep
  import opened KVMemory
  import opened KVContent
  import opened KVSteps
  import opened KVPass
  import opened KVForward

  // ---------------------------------------------------------------- after the forward pass

  /** After the forward pass every request holds its past and its new tokens. */
  lemma ForwardHas(cfg: Config, lw: Worker, views: map<RequestId, seq<nat>>, promise: map<BlockId, seq<Cell>>, b: Build, r: RequestId)
    requires cfg.Valid() && Building(cfg, lw, b) && Having(cfg, lw.mem, views, promise, b) && r in b.s.tables
    ensures r in b.s.requests
    ensures ViewAt(cfg, Forwarded(cfg, lw, b), CommittedTable(b.s, r), b.s.requests[r].info, CommittedAnchor(b.s, r),
                   b.s.requests[r].computed, Base(views, b.out.entries, r))
  {
    hide Building, Update, CeilDiv, WritingOk, Promised, Shape, Read, Tag, AfterForward, Forwarded;
    assert PriorOk(cfg, lw.mem, views, b, r);
    var prior, base := Prior(views, b.out.entries, r), Base(views, b.out.entries, r);
    forall i: nat | i < |base| ensures InPlace(cfg, Forwarded(cfg, lw, b), b.s, r, i, base[i]) {
      if i < |prior| {
        ForwardPast(cfg, lw, views, promise, b, r, i);
      } else {
        ForwardNew(cfg, lw, views, promise, b, r, i - |prior|);
      }
    }
    BaseShape(cfg, lw, views, b, r);
    PlacedStored(cfg, Forwarded(cfg, lw, b), b.s, r, base);
  }

  lemma PlacedStored(cfg: Config, mem: Memory, s: Sched, r: RequestId, view: seq<nat>)
    requires cfg.Valid() && r in s.requests
    requires forall i: nat :: i < |view| ==> InPlace(cfg, mem, s, r, i, view[i])
    ensures Stored(mem, CommittedTable(s, r), cfg.blockSize, s.requests[r].info, view)
  {
    hide Read, Tag;
    forall i: nat | i < |view|
      ensures i / cfg.blockSize < |CommittedTable(s, r)|
        && Read(mem, At(CommittedTable(s, r), cfg.blockSize, i)) == Tag(s.requests[r].info, view[i])
    {
      assert InPlace(cfg, mem, s, r, i, view[i]);
    }
  }

  lemma BaseShape(cfg: Config, lw: Worker, views: map<RequestId, seq<nat>>, b: Build, r: RequestId)
    requires cfg.Valid() && Building(cfg, lw, b) && r in b.s.tables && PriorOk(cfg, lw.mem, views, b, r)
    ensures Shape(cfg, Base(views, b.out.entries, r), b.s.requests[r].computed, Since(CommittedAnchor(b.s, r)))
    ensures |Base(views, b.out.entries, r)| == PhysicalTokens(b.s.requests[r].computed, CommittedAnchor(b.s, r))
  {
    hide Building, Update, CeilDiv, Shape, Stored;
    var prior := Prior(views, b.out.entries, r);
    if r in b.out.entries {
      var e := b.out.entries[r];
      EntryAgrees(cfg, lw, b, r);
      EntryCounts(cfg, lw, b, r);
      RoomForEntry(cfg, lw, lw.mem, views, b, r);
      ShapeExtend(cfg, prior, e.computed, e.count, Since(CommittedAnchor(b.s, r)));
    } else {
      assert Base(views, b.out.entries, r) == prior;
    }
  }

  lemma RoomForEntry(cfg: Config, lw: Worker, mem: Memory, views: map<RequestId, seq<nat>>, b: Build, r: RequestId)
    requires cfg.Valid() && Building(cfg, lw, b) && r in b.out.entries && r in b.s.tables && PriorOk(cfg, mem, views, b, r)
    ensures r in b.s.requests && |Base(views, b.out.entries, r)| == Physical(b.s, r)
  {
    hide Agree, Quiet, Update, CeilDiv, Settled, Balanced, Shape, Stored, RequestOk;
    EntryAgrees(cfg, lw, b, r);
    EntryCounts(cfg, lw, b, r);
    PriorLength(cfg, mem, views, b, r);
  }

  /** Hashed blocks are never written. */
  lemma ForwardPromises(cfg: Config, lw: Worker, views: map<RequestId, seq<nat>>, promise: map<BlockId, seq<Cell>>, b: Build)
    requires cfg.Valid() && Building(cfg, lw, b) && Having(cfg, lw.mem, views, promise, b)
    ensures Promised(cfg, b.s.pool.hashed, Forwarded(cfg, lw, b), promise)
  {
    hide Building, Update, CeilDiv, WritingOk, PriorOk, Stores, Held, Read;
    var u := Update(lw, b.out);
    UpdateMemory(lw, b.out);
    forall bl, o: nat | bl in b.s.pool.hashed && o < cfg.blockSize
      ensures Read(Forwarded(cfg, lw, b), (bl, o)) == promise[bl][o]
    {
      forall k | 0 <= k < |b.out.order| ensures !Stores(cfg, u, b.out.entries, b.out.order[k], (bl, o)) {
        NoForeignStore(cfg, lw, b, b.out.order[k], b.out.order[k], (bl, o));
      }
      ForwardFrame(cfg, u, b.out.order, b.out.entries, (bl, o));
    }
  }

  // ---------------------------------------------------------------- registering prefix hashes

  /** A full block of an uncompressed view holds consecutive prefixes. */
  lemma BlockHolds(mem: Memory, table: seq<BlockId>, bs: nat, info: Info, computed: nat, k: nat)
    requires bs > 0 && Stored(mem, table, bs, info, Range(0, computed))
    requires k < |table| && (k + 1) * bs <= computed
    ensures forall o: nat :: o < bs ==> Read(mem, (table[k], o)) == Tag(info, k * bs + o)
  {
    hide Read, Tag;
    forall o: nat | o < bs ensures Read(mem, (table[k], o)) == Tag(info, k * bs + o) {
      var i := k * bs + o;
      assert (k + 1) * bs == k * bs + bs;
      DivModUnique(k, bs, o);
      assert At(table, bs, i) == (table[k], o);
      assert Range(0, computed)[i] == i;
    }
  }

  /** One more promised block. */
  lemma PromiseOne(cfg: Config, hashed: set<BlockId>, mem: Memory, promise: map<BlockId, seq<Cell>>, b: BlockId, cells: seq<Cell>)
    requires Promised(cfg, hashed, mem, promise) && |cells| == cfg.blockSize
    requires forall o: nat :: o < cfg.blockSize ==> Read(mem, (b, o)) == cells[o]
    ensures Promised(cfg, hashed + {b}, mem, promise[b := cells])
  {
    hide Read;
  }

  /** Registering full blocks of an uncompressed view promises what they hold. */
  lemma {:induction false} RegisterPromises(cfg: Config, hashed: set<BlockId>, mem: Memory, promise: map<BlockId, seq<Cell>>,
                                            table: seq<BlockId>, info: Info, computed: nat, count: nat)
    requires cfg.Valid() && Promised(cfg, hashed, mem, promise)
    requires Stored(mem, table, cfg.blockSize, info, Range(0, computed))
    requires count <= |table| && count * cfg.blockSize <= computed
    ensures Promised(cfg, hashed + Front(table, count), mem, Register(cfg, promise, table, info, count))
    decreases count
  {
    hide CeilDiv, Read, Tag, Promised, Stored;
    if count > 0 {
      var last := count - 1;
      MulMonotone(last, count, cfg.blockSize);
      RegisterPromises(cfg, hashed, mem, promise, table, info, computed, last);
      BlockHolds(mem, table, cfg.blockSize, info, computed, last);
      var before := hashed + Front(table, last);
      assert hashed + Front(table, count) == before + {table[last]};
      PromiseOne(cfg, before, mem, Register(cfg, promise, table, info, last), table[last],
                 Tags(info, last * cfg.blockSize, cfg.blockSize));
    } else {
      assert hashed + Front(table, 0) == hashed;
    }
  }

  lemma {:induction false} RegisterAllPromises(cfg: Config, lw: Worker, views: map<RequestId, seq<nat>>, b: Build,
                                               promise0: map<BlockId, seq<Cell>>, s: Sched, promise: map<BlockId, seq<Cell>>,
                                               caches: seq<(RequestId, nat)>)
    requires cfg.Valid() && Building(cfg, lw, b) && Having(cfg, lw.mem, views, promise0, b)
    requires SameBooks(b.s, s) && AllCacheable(cfg, s, b.out, caches)
    requires Promised(cfg, s.pool.hashed, Forwarded(cfg, lw, b), promise)
    ensures Promised(cfg, CacheAll(s, caches).pool.hashed, Forwarded(cfg, lw, b), RegisterAll(cfg, promise, s, caches))
    decreases |caches|
  {
    hide Building, Having, CeilDiv, Promised, Forwarded;
    if caches != [] {
      var r, count := caches[0].0, caches[0].1;
      CachePromise(cfg, lw, views, b, promise0, s, promise, r, count);
      RegisterAllPromises(cfg, lw, views, b, promise0, CacheBlocks(s, r, count), RegisterOne(cfg, promise, s, r, count), caches[1..]);
    }
  }

  lemma CachePromise(cfg: Config, lw: Worker, views: map<RequestId, seq<nat>>, b: Build, promise0: map<BlockId, seq<Cell>>,
                     s: Sched, promise: map<BlockId, seq<Cell>>, r: RequestId, count: nat)
    requires cfg.Valid() && Building(cfg, lw, b) && Having(cfg, lw.mem, views, promise0, b)
    requires SameBooks(b.s, s) && r in b.out.entries && CanCache(cfg, s, r, count)
    requires Promised(cfg, s.pool.hashed, Forwarded(cfg, lw, b), promise)
    ensures Promised(cfg, CacheBlocks(s, r, count).pool.hashed, Forwarded(cfg, lw, b), RegisterOne(cfg, promise, s, r, count))
  {
    hide Building, Having, CeilDiv, Promised, Forwarded, Stored, Register;
    if r !in s.active {
      ForwardHas(cfg, lw, views, promise0, b, r);
      assert Base(views, b.out.entries, r) == Range(0, b.s.requests[r].computed) by {
        UncompressedView(cfg, Base(views, b.out.entries, r), b.s.requests[r].computed);
      }
      RegisterPromises(cfg, s.pool.hashed, Forwarded(cfg, lw, b), promise, s.tables[r], s.requests[r].info,
                       s.requests[r].computed, count);
    }
  }

  lemma UncompressedView(cfg: Config, view: seq<nat>, computed: nat)
    requires Shape(cfg, view, computed, None)
    ensures view == Range(0, computed)
  {
  }

  // ---------------------------------------------------------------- the compression copies

  lemma {:induction false} ArmAllHashed(cfg: Config, s: Sched, order: seq<RequestId>, drafts: set<RequestId>, supply: Supply)
    requires cfg.Valid()
    ensures ArmAll(cfg, s, order, drafts, supply).pool.hashed <= s.pool.hashed
    decreases |order|
  {
    hide Arms, CeilDiv, PlanFor;
    if order != [] {
      ArmAllHashed(cfg, Arm(cfg, s, order[0], order[0] in drafts, supply(order[0])), order[1..], drafts, supply);
    }
  }

  /** A destination block is held by its request alone, once, and carries no hash. */
  lemma DestinationUnshared(cfg: Config, s: Sched, q: RequestId, bl: BlockId)
    requires cfg.Valid() && Inv(cfg, s) && q in s.pending && bl in s.pending[q].plan.destination
    ensures q in s.requests && Unshared(s, q, bl) && bl in multiset(ReservedOf(s, q))
  {
    hide CeilDiv, Blocks, Unshared, Balanced;
    RequestFacts(cfg, s, q);
    SchedulerSteps.Known(s, q);
    var j :| 0 <= j < |s.pending[q].reserved| && s.pending[q].reserved[j] == bl;
    InReserved(s, q, j);
    PrivateUnshared(s, q, bl);
  }

  lemma DestinationDistinct(cfg: Config, s: Sched, q: RequestId)
    requires cfg.Valid() && Inv(cfg, s) && q in s.pending
    ensures Distinct(s.pending[q].plan.destination)
  {
    hide CeilDiv, Balanced, Blocks;
    RequestFacts(cfg, s, q);
    SchedulerSteps.Known(s, q);
    var dst := s.pending[q].reserved;
    forall i, j | 0 <= i < j < |dst| ensures dst[i] != dst[j] {
      HeldOnce(s, q, dst[i]);
      if dst[i] == dst[j] { RepeatedTwice(dst, i, j); }
    }
  }

  /** Every plan of the batch belongs to a request that waits with exactly this plan. */
  ghost predicate PlansPending(s: Sched, out: Output) {
    forall r :: r in out.plans ==> r in s.pending && s.pending[r].plan == out.plans[r]
  }

  lemma PlansApart(cfg: Config, s: Sched, out: Output, order: seq<RequestId>, r: RequestId)
    requires cfg.Valid() && Inv(cfg, s) && PlansPending(s, out) && r in out.plans
    ensures Apart(out, order, r)
  {
    hide CeilDiv, Inv, Unshared;
    DestinationDistinct(cfg, s, r);
    DestinationDisjoint(cfg, s, r);
    SourceIsTable(cfg, s, r);
    forall q, bl | q in order && q in out.plans && q != r && bl in out.plans[q].destination
      ensures bl !in out.plans[r].source && bl !in out.plans[r].destination
    {
      DestinationUnshared(cfg, s, q, bl);
      NotHeldElsewhere(s, q, r, bl);
    }
  }

  lemma SourceIsTable(cfg: Config, s: Sched, r: RequestId)
    requires cfg.Valid() && Inv(cfg, s) && r in s.pending
    ensures r in s.requests && r in s.tables && s.pending[r].plan.source == s.tables[r]
    ensures s.pending[r].plan.destination == s.pending[r].reserved
    ensures s.pending[r].plan.physical == cfg.budget && s.pending[r].plan.semantic == s.requests[r].computed
  {
    hide CeilDiv, Balanced;
    RequestFacts(cfg, s, r);
    SchedulerSteps.Known(s, r);
    assert PendingOk(cfg, s, r);
  }

  lemma NotHeldElsewhere(s: Sched, q: RequestId, r: RequestId, bl: BlockId)
    requires Unshared(s, q, bl) && q != r && r in s.requests
    ensures bl !in TableOf(s, r) && bl !in ReservedOf(s, r)
  {
    hide Blocks;
    assert bl !in Held(s, r);
    assert bl in TableOf(s, r) ==> bl in multiset(TableOf(s, r));
    assert bl in ReservedOf(s, r) ==> bl in multiset(ReservedOf(s, r));
  }

  /** A block that another request's next step uses, or that a hash names, is nobody's destination. */
  lemma UntargetedBlock(cfg: Config, s: Sched, out: Output, r: RequestId, bl: BlockId)
    requires cfg.Valid() && Inv(cfg, s) && PlansPending(s, out)
    requires bl in s.pool.hashed || (r in s.requests && r !in out.plans && bl in CommittedTable(s, r))
    ensures Untargeted(out, out.order, bl)
  {
    hide CeilDiv, Inv, Held;
    forall q | q in out.order && q in out.plans ensures bl !in out.plans[q].destination {
      if bl in out.plans[q].destination {
        DestinationUnshared(cfg, s, q, bl);
        if bl !in s.pool.hashed { NotHeldElsewhere(s, q, r, bl); }
      }
    }
  }

  // ---------------------------------------------------------------- one pass on the whole cache

  /** The stages of one pass: the host's part `m`, with hashes `h`, and the dispatched result `b`. */
  ghost predicate Staged(cfg: Config, select: Selector, lw: Worker, views: map<RequestId, seq<nat>>,
                         promise: map<BlockId, seq<Cell>>, m: Build, h: Build, b: Build,
                         caches: seq<(RequestId, nat)>, drafts: set<RequestId>, supply: Supply)
    requires cfg.Valid()
  {
    && GoodSelector(cfg, select)
    && Building(cfg, lw, m) && Having(cfg, lw.mem, views, promise, m)
    && AllCacheable(cfg, m.s, m.out, caches)
    && h == Build(CacheAll(m.s, caches), m.out) && SameBooks(m.s, h.s)
    && Building(cfg, lw, h) && CanArmAll(cfg, h.s, h.out.order, drafts, supply)
    && b == Dispatched(cfg, h, drafts, supply)
  }

  lemma ForwardSame(cfg: Config, lw: Worker, h: Build, out: Output)
    requires cfg.Valid() && out == h.out.(plans := out.plans)
    ensures AfterForward(cfg, lw, out) == AfterForward(cfg, lw, h.out)
  {
    hide Update;
    UpdateIgnoresPlans(lw, h.out, out.plans);
  }

  lemma DispatchedPending(cfg: Config, lw: Worker, h: Build, b: Build, drafts: set<RequestId>, supply: Supply)
    requires cfg.Valid() && Building(cfg, lw, h) && CanArmAll(cfg, h.s, h.out.order, drafts, supply)
    requires b == Dispatched(cfg, h, drafts, supply)
    ensures Inv(cfg, b.s) && PlansPending(b.s, b.out)
    ensures forall r :: r in b.out.plans ==> r in b.out.order && r in b.out.entries
    ensures forall r :: r !in b.out.plans ==> SameAt(h.s, b.s, r)
    ensures forall r :: r in b.out.plans ==> (
      && r in h.s.requests && r in b.s.requests
      && b.s.requests[r].info == h.s.requests[r].info && b.s.requests[r].computed == h.s.requests[r].computed)
    ensures b.out.plans.Keys <= b.s.tables.Keys && b.s.pool.hashed <= h.s.pool.hashed
  {
    hide Inv, Building, Arm, Arms, CeilDiv, SameAt;
    ArmedInv(cfg, lw, h, drafts, supply);
    EmittedInv(cfg, h, b, drafts, supply);
    ArmAllHashed(cfg, h.s, h.out.order, drafts, supply);
    OrderDistinct(cfg, lw, h);
    var s' := ArmAll(cfg, h.s, h.out.order, drafts, supply);
    forall r | r in b.out.plans
      ensures r in b.s.pending && b.s.pending[r].plan == b.out.plans[r] && r in b.out.order && r in b.out.entries
      ensures r in h.s.requests && r in b.s.requests && r in b.s.tables
      ensures b.s.requests[r].info == h.s.requests[r].info && b.s.requests[r].computed == h.s.requests[r].computed
    {
      assert Armed(cfg, h.s, s', r, r in drafts, supply(r), b.out.plans[r]);
      assert r in h.out.entries.Keys;
      SourceIsTable(cfg, b.s, r);
    }
    forall r | r !in b.out.plans ensures SameAt(h.s, b.s, r) {
      assert SameAt(h.s, s', r);
      EmittedSame(h.s, s', b.s, r);
    }
  }

  lemma EmittedSame(s: Sched, s': Sched, t: Sched, r: RequestId)
    requires SameAt(s, s', r)
    requires t.requests == s'.requests && t.tables == s'.tables && t.pending == s'.pending && t.active == s'.active && t.deferred == s'.deferred
    ensures SameAt(s, t, r)
  {
  }

  /** A request that is not compressed in this pass keeps its extended view. */
  lemma PlainView(cfg: Config, select: Selector, lw: Worker, views: map<RequestId, seq<nat>>, promise: map<BlockId, seq<Cell>>,
                  m: Build, h: Build, b: Build, caches: seq<(RequestId, nat)>, drafts: set<RequestId>, supply: Supply, r: RequestId)
    requires cfg.Valid() && Staged(cfg, select, lw, views, promise, m, h, b, caches, drafts, supply)
    requires r in b.s.tables && r !in b.out.plans
    ensures r in b.s.requests
    ensures NewView(cfg, select, lw, b.out, views, r) == Base(views, m.out.entries, r)
    ensures ViewAt(cfg, Execute(cfg, select, lw, b.out).mem, CommittedTable(b.s, r), b.s.requests[r].info,
                   CommittedAnchor(b.s, r), b.s.requests[r].computed, Base(views, m.out.entries, r))
  {
    hide Inv, Building, Having, Arm, Arms, CeilDiv, Shape, Stored, Read, Tag, CompressOne, Update, CommittedTable, CommittedAnchor, KeptBy;
    DispatchedPending(cfg, lw, h, b, drafts, supply);
    SameViewData(h.s, b.s, r);
    BooksViewData(m.s, h.s, r);
    ForwardHas(cfg, lw, views, promise, m, r);
    ForwardSame(cfg, lw, h, b.out);
    var v := AfterForward(cfg, lw, b.out);
    var table := CommittedTable(b.s, r);
    forall loc: Loc | loc.0 in table
      ensures Read(Compress(cfg, select, v, b.out, b.out.order).mem, loc) == Read(v.mem, loc)
    {
      UntargetedBlock(cfg, b.s, b.out, r, loc.0);
      CompressFrame(cfg, select, v, b.out, b.out.order, loc);
    }
    StoredFrame(v.mem, Compress(cfg, select, v, b.out, b.out.order).mem, table, cfg.blockSize, b.s.requests[r].info,
                Base(views, m.out.entries, r));
  }

  lemma StoredFrame(mem: Memory, mem': Memory, table: seq<BlockId>, bs: nat, info: Info, view: seq<nat>)
    requires bs > 0 && Stored(mem, table, bs, info, view)
    requires forall loc: Loc :: loc.0 in table ==> Read(mem', loc) == Read(mem, loc)
    ensures Stored(mem', table, bs, info, view)
  {
    hide Read, Tag;
    forall i: nat | i < |view| ensures i / bs < |table| && Read(mem', At(table, bs, i)) == Tag(info, view[i]) {
      assert At(table, bs, i).0 in table;
    }
  }

  lemma SameViewData(s: Sched, t: Sched, r: RequestId)
    requires SameAt(s, t, r)
    ensures CommittedTable(t, r) == CommittedTable(s, r) && CommittedAnchor(t, r) == CommittedAnchor(s, r)
    ensures (r in t.tables <==> r in s.tables) && Get(t.requests, r) == Get(s.requests, r)
  {
  }

  lemma BooksViewData(s: Sched, t: Sched, r: RequestId)
    requires SameBooks(s, t)
    ensures CommittedTable(t, r) == CommittedTable(s, r) && CommittedAnchor(t, r) == CommittedAnchor(s, r)
    ensures (r in t.tables <==> r in s.tables) && Get(t.requests, r) == Get(s.requests, r)
  {
  }

  /** What the worker's compression step needs for the plans of this pass. */
  lemma StagedFits(cfg: Config, select: Selector, lw: Worker, views: map<RequestId, seq<nat>>, promise: map<BlockId, seq<Cell>>,
                   m: Build, h: Build, b: Build, caches: seq<(RequestId, nat)>, drafts: set<RequestId>, supply: Supply)
    requires cfg.Valid() && Staged(cfg, select, lw, views, promise, m, h, b, caches, drafts, supply)
    ensures var v := AfterForward(cfg, lw, b.out);
      && v == AfterForward(cfg, lw, h.out) && Distinct(b.out.order)
      && (forall r :: r in b.out.plans ==> r in b.out.order && PlanFits(cfg, v, b.out, r))
  {
    hide Inv, Building, Having, Arm, Arms, CeilDiv, PlanFits, Update;
    DispatchFits(cfg, lw, h, drafts, supply);
    OrderDistinct(cfg, lw, h);
    ForwardSame(cfg, lw, h, b.out);
    var u, v := Update(lw, b.out), AfterForward(cfg, lw, b.out);
    forall r | r in b.out.plans ensures r in b.out.order && PlanFits(cfg, v, b.out, r) {
      FitsIdle(cfg, u, b.out, r);
      FitsFrame(cfg, u, v, b.out, r);
    }
  }

  /** The source view that a plan compresses, as the worker sees it after the forward pass. */
  lemma SourceView(cfg: Config, select: Selector, lw: Worker, views: map<RequestId, seq<nat>>, promise: map<BlockId, seq<Cell>>,
                   m: Build, h: Build, b: Build, caches: seq<(RequestId, nat)>, drafts: set<RequestId>, supply: Supply, r: RequestId)
    requires cfg.Valid() && Staged(cfg, select, lw, views, promise, m, h, b, caches, drafts, supply)
    requires r in b.out.plans
    ensures var v := AfterForward(cfg, lw, b.out);
      && r in v.requests && r in b.out.entries && r in b.s.requests
      && PhysicalOf(v, b.out, r) == |Base(views, m.out.entries, r)|
      && Stored(v.mem, v.requests[r].table, cfg.blockSize, b.s.requests[r].info, Base(views, m.out.entries, r))
    ensures exists since :: Shape(cfg, Base(views, m.out.entries, r), b.s.requests[r].computed, since)
  {
    hide Inv, Building, Having, Arm, Arms, CeilDiv, Shape, Stored, Read, Tag, Update;
    DispatchedPending(cfg, lw, h, b, drafts, supply);
    ForwardSame(cfg, lw, h, b.out);
    EntryAgrees(cfg, lw, m, r);
    EntryCounts(cfg, lw, m, r);
    ForwardHas(cfg, lw, views, promise, m, r);
    SourceLength(cfg, lw, m, b.out, r, AfterForward(cfg, lw, b.out));
  }

  /** The worker's physical length of a scheduled request is the scheduler's. */
  lemma SourceLength(cfg: Config, lw: Worker, m: Build, out: Output, r: RequestId, v: Worker)
    requires cfg.Valid() && Building(cfg, lw, m) && r in m.out.entries && out.entries == m.out.entries
    requires v.requests == Update(lw, m.out).requests && v.active == Update(lw, m.out).active
    ensures r in v.requests && r in m.s.requests
    ensures PhysicalOf(v, out, r) == PhysicalTokens(m.s.requests[r].computed, Get(m.s.active, r))
  {
    hide Agree, Quiet, Update, CeilDiv, Settled, Balanced, EntryOk;
    EntryAgrees(cfg, lw, m, r);
    EntryCounts(cfg, lw, m, r);
    assert RequestOk(cfg, m.s, r);
  }

  /** A compressed request's destination holds the kept part of its extended view. */
  lemma CompressedView(cfg: Config, select: Selector, lw: Worker, views: map<RequestId, seq<nat>>, promise: map<BlockId, seq<Cell>>,
                       m: Build, h: Build, b: Build, caches: seq<(RequestId, nat)>, drafts: set<RequestId>, supply: Supply, r: RequestId)
    requires cfg.Valid() && Staged(cfg, select, lw, views, promise, m, h, b, caches, drafts, supply)
    requires r in b.out.plans
    ensures r in b.s.requests && r in b.s.pending
    ensures ViewAt(cfg, Execute(cfg, select, lw, b.out).mem, CommittedTable(b.s, r), b.s.requests[r].info,
                   CommittedAnchor(b.s, r), b.s.requests[r].computed, NewView(cfg, select, lw, b.out, views, r))
  {
    hide Inv, Building, Having, Arm, Arms, CeilDiv, Shape, Stored, Read, Tag, Update, PlanFits, PhysicalOf, KeptIndices, GoodKeep, CompressOne, GoodSelector;
    var v, base := AfterForward(cfg, lw, b.out), Base(views, m.out.entries, r);
    DispatchedPending(cfg, lw, h, b, drafts, supply);
    StagedFits(cfg, select, lw, views, promise, m, h, b, caches, drafts, supply);
    SourceView(cfg, select, lw, views, promise, m, h, b, caches, drafts, supply, r);
    SourceIsTable(cfg, b.s, r);
    FitsRuns(cfg, select, v, b.out, r);
    var keep := KeptIndices(cfg, select, v, b.out, r);
    KeepInRange(keep, |base|, cfg.budget, cfg.prefix, cfg.recent);
    assert NewView(cfg, select, lw, b.out, views, r) == Pick(base, keep);
    var since :| Shape(cfg, base, b.s.requests[r].computed, since);
    ShapePick(cfg, base, b.s.requests[r].computed, since, keep);
    PickStored(cfg, select, lw, b, r, base, keep);
  }

  lemma KeepInRange(keep: seq<nat>, n: nat, budget: nat, prefix: nat, recent: nat)
    requires GoodKeep(keep, n, budget, prefix, recent)
    ensures |keep| == budget && forall i :: 0 <= i < |keep| ==> keep[i] < n
  {
  }

  lemma FitsRoom(cfg: Config, w: Worker, out: Output, r: RequestId)
    requires cfg.Valid() && PlanFits(cfg, w, out, r)
    ensures r in out.plans && |out.plans[r].destination| * cfg.blockSize == cfg.budget
  {
  }

  lemma AllCopied(cfg: Config, select: Selector, v: Worker, out: Output, r: RequestId)
    requires cfg.Valid() && GoodSelector(cfg, select) && Distinct(out.order)
    requires forall q :: q in out.plans ==> PlanFits(cfg, v, out, q)
    requires r in out.order && r in out.plans && Apart(out, out.order, r)
    ensures forall j: nat :: j < cfg.budget ==> Copied(cfg, select, v, out, r, j, Compress(cfg, select, v, out, out.order).mem)
  {
    hide CeilDiv, Config.Keep, PlanFits, CompressOne, GoodSelector, Copied, Apart;
    FitsRoom(cfg, v, out, r);
    forall j: nat | j < cfg.budget ensures Copied(cfg, select, v, out, r, j, Compress(cfg, select, v, out, out.order).mem) {
      DivBelow(j, cfg.blockSize, |out.plans[r].destination|);
      CompressHits(cfg, select, v, out, out.order, r, j);
    }
  }

  lemma PickStored(cfg: Config, select: Selector, lw: Worker, b: Build, r: RequestId, base: seq<nat>, keep: seq<nat>)
    requires cfg.Valid() && GoodSelector(cfg, select) && Inv(cfg, b.s) && PlansPending(b.s, b.out)
    requires r in b.out.plans && r in b.out.order && Distinct(b.out.order)
    requires var v := AfterForward(cfg, lw, b.out);
      && (forall q :: q in b.out.plans ==> PlanFits(cfg, v, b.out, q))
      && r in v.requests && r in b.out.entries && r in b.s.requests
      && Stored(v.mem, v.requests[r].table, cfg.blockSize, b.s.requests[r].info, base)
      && keep == KeptIndices(cfg, select, v, b.out, r)
    requires |keep| == cfg.budget && forall i :: 0 <= i < |keep| ==> keep[i] < |base|
    ensures Stored(Execute(cfg, select, lw, b.out).mem, CommittedTable(b.s, r), cfg.blockSize, b.s.requests[r].info, Pick(base, keep))
  {
    hide Inv, CeilDiv, Config.Keep, Read, Tag, Update, PlanFits, PhysicalOf, KeptIndices, GoodKeep, Compress, GoodSelector,
      Stored, Copied, Apart, Forward;
    var v := AfterForward(cfg, lw, b.out);
    SourceIsTable(cfg, b.s, r);
    PlansApart(cfg, b.s, b.out, b.out.order, r);
    AllCopied(cfg, select, v, b.out, r);
    CopiedStored(cfg, select, v, b.out, r, Compress(cfg, select, v, b.out, b.out.order).mem, b.s.requests[r].info, base);
  }

  lemma CopiedStored(cfg: Config, select: Selector, v: Worker, out: Output, r: RequestId, mem: Memory, info: Info, base: seq<nat>)
    requires cfg.Valid() && r in v.requests && r in out.entries && r in out.plans
    requires Stored(v.mem, v.requests[r].table, cfg.blockSize, info, base)
    requires var keep := KeptIndices(cfg, select, v, out, r); |keep| == cfg.budget && forall i :: 0 <= i < |keep| ==> keep[i] < |base|
    requires forall j: nat :: j < cfg.budget ==> Copied(cfg, select, v, out, r, j, mem)
    ensures Stored(mem, out.plans[r].destination, cfg.blockSize, info, Pick(base, KeptIndices(cfg, select, v, out, r)))
  {
    hide CeilDiv, Read, Tag, PhysicalOf, KeptIndices, GoodKeep;
    var keep, dst := KeptIndices(cfg, select, v, out, r), out.plans[r].destination;
    forall j: nat | j < |Pick(base, keep)|
      ensures j / cfg.blockSize < |dst| && Read(mem, At(dst, cfg.blockSize, j)) == Tag(info, Pick(base, keep)[j])
    {
      assert Copied(cfg, select, v, out, r, j, mem);
    }
  }

  /** The state the pass opens in still stores every view. */
  lemma BeforeHas(cfg: Config, select: Selector, k: KV, p: Pass, t: Sched)
    requires cfg.Valid() && KVInv(cfg, select, k)
    requires |k.sys.flight| < (if cfg.asynchronous then cfg.maxBatches else 1)
    requires Enumerates(p.finished, k.sys.s.finished)
    requires t == BeforeSchedule(cfg, k.sys.s, p.finished, p.waiting)
    ensures Having(cfg, Logical(cfg, select, k.sys).mem, k.views, k.promise, Build(t, Opening(t)))
  {
    hide Inv, Mirrors, Waiting, Protected, Stamped, Faithful, CeilDiv, ViewOk, Promised, SameMeaning, Logical;
    var s, mem := k.sys.s, Logical(cfg, select, k.sys).mem;
    FinishedIdle(cfg, s, p.finished);
    if cfg.asynchronous { SameMeaningRefl(s); } else { CommitAllSame(cfg, s, p.waiting, 0); }
    MeaningOlder(s, t);
    forall r | r in t.tables ensures ViewOk(cfg, t, mem, r, k.views) { ViewFrame(cfg, s, t, mem, r, k.views); }
    OpeningHas(cfg, t, mem, k.views, k.promise);
  }

  lemma PassStages(cfg: Config, select: Selector, k: KV, p: Pass, lw: Worker, t: Sched, m: Build, h: Build, b: Build)
    requires cfg.Valid() && GoodSelector(cfg, select) && KVInv(cfg, select, k)
    requires |k.sys.flight| < (if cfg.asynchronous then cfg.maxBatches else 1)
    requires PassEnabled(cfg, k.sys.s, p) && PassSnapshots(cfg, k.sys.s, p)
    requires lw == Logical(cfg, select, k.sys) && t == BeforeSchedule(cfg, k.sys.s, p.finished, p.waiting)
    requires AllMatch(cfg, k.promise, Build(t, Opening(t)), p.ops)
    requires m == OperateAll(cfg, Build(t, Opening(t)), p.ops)
    requires h == Hosted(cfg, k.sys.s, p) && b == Dispatched(cfg, h, p.drafts, p.supply)
    ensures Staged(cfg, select, lw, k.views, k.promise, m, h, b, p.caches, p.drafts, p.supply)
  {
    hide Inv, Mirrors, Waiting, Protected, Stamped, Faithful, Building, Having, CeilDiv, Arm, Arms, Operate, Enabled, CacheBlocks,
      GoodSelector, CanArm, CanCache, Logical;
    BeforeEffect(cfg, select, k.sys, p);
    BeforeHas(cfg, select, k, p, t);
    OpeningBuilds(cfg, t, lw);
    OperateAllKeeps(cfg, lw, Build(t, Opening(t)), p.ops);
    OperateAllHas(cfg, lw, lw.mem, k.views, k.promise, Build(t, Opening(t)), p.ops);
    MidInv(cfg, lw, m);
    CacheAllKeeps(cfg, m.s, m.out, p.caches);
    HostedBuilds(cfg, select, k.sys, p);
  }

  lemma MidInv(cfg: Config, lw: Worker, m: Build)
    requires cfg.Valid() && Building(cfg, lw, m)
    ensures Inv(cfg, m.s)
  {
  }

  lemma ScheduleLogical(cfg: Config, select: Selector, sys: System, e: Event, sys': System, h: Build, b: Build)
    requires cfg.Valid() && sys.executed <= |sys.flight| && e.ESchedule? && PassEnabled(cfg, sys.s, e.pass)
    requires h == Hosted(cfg, sys.s, e.pass) && b == Dispatched(cfg, h, e.pass.drafts, e.pass.supply)
    requires GoodSelector(cfg, select) && SystemInv(cfg, select, sys) && Next(cfg, select, sys, e, sys')
    ensures sys'.s == b.s && sys'.executed <= |sys'.flight|
    ensures b == Scheduled(cfg, sys.s, e.pass)
    ensures Logical(cfg, select, sys') == Execute(cfg, select, Logical(cfg, select, sys), b.out)
  {
    hide Inv, Agree, Rooted, Building, Execute, RunsAs, Waiting, Protected, Stamped, CeilDiv, Owing, Arm, Arms,
      Hosted, Scheduled, PassSnapshots, Snapshot;
    var p, lw := e.pass, Logical(cfg, select, sys);
    ScheduleParts(cfg, select, sys, p, h, b);
    DispatchRuns(cfg, select, lw, h, p.drafts, p.supply);
    ScheduleReplay(cfg, select, sys, b);
  }

  /** One pass carries every view and every promise to the next state. */
  lemma ScheduleKeepsViews(cfg: Config, select: Selector, k: KV, e: Event, k': KV)
    requires cfg.Valid() && GoodSelector(cfg, select)
    requires KVInv(cfg, select, k) && e.ESchedule? && NextKV(cfg, select, k, e, k') && SystemInv(cfg, select, k'.sys)
    ensures KVInv(cfg, select, k')
  {
    hide Inv, Mirrors, Waiting, Protected, Stamped, Faithful, Building, Having, CeilDiv, Arm, Arms, Operate, Enabled, CacheBlocks,
      ViewAt, Promised, Execute, GoodSelector, NewView, CanArm, CanCache, Opening;
    var p, lw := e.pass, Logical(cfg, select, k.sys);
    var t := BeforeSchedule(cfg, k.sys.s, p.finished, p.waiting);
    var m := OperateAll(cfg, Build(t, Opening(t)), p.ops);
    var h := Hosted(cfg, k.sys.s, p);
    var b := Dispatched(cfg, h, p.drafts, p.supply);
    PassStages(cfg, select, k, p, lw, t, m, h, b);
    ScheduleLogical(cfg, select, k.sys, e, k'.sys, h, b);
    assert b == Scheduled(cfg, k.sys.s, p);
    var mem := Execute(cfg, select, lw, b.out).mem;
    forall r | r in b.s.tables ensures ViewOk(cfg, b.s, mem, r, k'.views) {
      if r in b.out.plans {
        CompressedView(cfg, select, lw, k.views, k.promise, m, h, b, p.caches, p.drafts, p.supply, r);
      } else {
        PlainView(cfg, select, lw, k.views, k.promise, m, h, b, p.caches, p.drafts, p.supply, r);
      }
    }
    PassPromises(cfg, select, lw, k.views, k.promise, m, h, b, p.caches, p.drafts, p.supply);
  }

  lemma PassPromises(cfg: Config, select: Selector, lw: Worker, views: map<RequestId, seq<nat>>, promise: map<BlockId, seq<Cell>>,
                     m: Build, h: Build, b: Build, caches: seq<(RequestId, nat)>, drafts: set<RequestId>, supply: Supply)
    requires cfg.Valid() && Staged(cfg, select, lw, views, promise, m, h, b, caches, drafts, supply)
    ensures Promised(cfg, b.s.pool.hashed, Execute(cfg, select, lw, b.out).mem, RegisterAll(cfg, promise, m.s, caches))
  {
    hide Inv, Building, Having, Arm, Arms, CeilDiv, Read, Update, CompressOne, CacheBlocks, RegisterOne;
    DispatchedPending(cfg, lw, h, b, drafts, supply);
    ForwardPromises(cfg, lw, views, promise, m);
    RegisterAllPromises(cfg, lw, views, m, promise, m.s, promise, caches);
    ForwardSame(cfg, lw, h, b.out);
    var v := AfterForward(cfg, lw, b.out);
    forall bl, o: nat | bl in b.s.pool.hashed && o < cfg.blockSize
      ensures Read(Compress(cfg, select, v, b.out, b.out.order).mem, (bl, o)) == Read(v.mem, (bl, o))
    {
      UntargetedBlock(cfg, b.s, b.out, "", bl);
      CompressFrame(cfg, select, v, b.out, b.out.order, (bl, o));
    }
  }

  // ---------------------------------------------------------------- whole runs

  /** A run of the annotated protocol. */
  ghost predicate IsKVRun(cfg: Config, select: Selector, states: seq<KV>, events: seq<Event>)
    requires cfg.Valid()
  {
    && |states| == |events| + 1
    && Initial(states[0].sys)
    && forall i :: 0 <= i < |events| ==> NextKV(cfg, select, states[i], events[i], states[i + 1])
  }

  lemma KVStep(cfg: Config, select: Selector, k: KV, e: Event, k': KV)
    requires cfg.Valid() && GoodSelector(cfg, select) && KVInv(cfg, select, k) && NextKV(cfg, select, k, e, k')
    ensures KVInv(cfg, select, k')
  {
    hide KVInv, GoodSelector, SystemInv, Next, Scheduled, OperateAll, RegisterAll, NewView, AllMatch;
    assert SystemInv(cfg, select, k.sys) by { KVSystem(cfg, select, k); }
    StepPreserves(cfg, select, k.sys, e, k'.sys);
    match e
    case ESchedule(_) => ScheduleKeepsViews(cfg, select, k, e, k');
    case EFinish(_) => FreedKeepsViews(cfg, select, k, e, k');
    case EPreempt(_) => FreedKeepsViews(cfg, select, k, e, k');
    case ERollback(_, _) => RollbackKeepsViews(cfg, select, k, e, k');
    case EAdd(_, _, _) => QuietKeepsViews(cfg, select, k, e, k');
    case EExecute => QuietKeepsViews(cfg, select, k, e, k');
    case EAcknowledge(_, _, _) => QuietKeepsViews(cfg, select, k, e, k');
  }

  lemma KVSystem(cfg: Config, select: Selector, k: KV)
    requires cfg.Valid() && KVInv(cfg, select, k)
    ensures SystemInv(cfg, select, k.sys)
  {
    hide SystemInv, ViewOk, Promised;
  }

  /** After any number of compressions, decode steps, preemptions and resumptions, the logical cache of
      every request is an order-preserving subsequence of its token history that begins with the
      protected prefix and ends with the latest protected window, and its slots hold exactly those cells. */
  lemma {:induction false} WholeRunContent(cfg: Config, select: Selector, states: seq<KV>, events: seq<Event>, i: nat)
    requires cfg.Valid() && GoodSelector(cfg, select) && IsKVRun(cfg, select, states, events) && i < |states|
    ensures KVInv(cfg, select, states[i])
    decreases i
  {
    hide KVInv, GoodSelector, NextKV, Initial;
    if i == 0 {
      InitialKV(cfg, select, states[0]);
    } else {
      WholeRunContent(cfg, select, states, events, i - 1);
      KVStep(cfg, select, states[i - 1], events[i - 1], states[i]);
    }
  }

  lemma InitialKV(cfg: Config, select: Selector, k: KV)
    requires cfg.Valid() && Initial(k.sys)
    ensures KVInv(cfg, select, k)
  {
    hide SystemInv;
    InitialInv(cfg, select, k.sys);
    assert SystemInv(cfg, select, k.sys);
    SystemCounted(cfg, select, k.sys);
  }

  lemma SystemCounted(cfg: Config, select: Selector, sys: System)
    requires cfg.Valid() && SystemInv(cfg, select, sys)
    ensures sys.executed <= |sys.flight|
  {
  }
}
