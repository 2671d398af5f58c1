// The host's part of a scheduling pass, seen from the cache: every scheduled request has its past
// tokens in place and exclusive room for its new ones.

module KVPass {
  import opened Common
  import opened SchedulerModel
  import opened SchedulerInvariant
  import opened SchedulerSteps
  import opened WorkerModel
  import opened Agreement
  import opened Schedule
  import opened Protocol
  import opened KVContent

  function PriorComputed(b: Build, r: RequestId): nat
    requires r in b.s.requests
  {
    if r in b.out.entries then b.out.entries[r].computed else b.s.requests[r].computed
  }

  ghost predicate PriorOk(cfg: Config, mem: Memory, views: map<RequestId, seq<nat>>, b: Build, r: RequestId)
    requires cfg.Valid()
  {
    && r in b.s.requests
    && (r in b.out.entries || r in views)
    && ViewAt(cfg, mem, CommittedTable(b.s, r), b.s.requests[r].info, CommittedAnchor(b.s, r),
              PriorComputed(b, r), Prior(views, b.out.entries, r))
  }

  /** Block `j` of a scheduled request receives tokens in this step, or may. */
  predicate Receives(cfg: Config, b: Build, r: RequestId, j: nat) {
    r in b.out.entries && (r in b.s.active || b.out.entries[r].computed < (j + 1) * cfg.blockSize)
  }

  ghost predicate WritingOk(cfg: Config, b: Build, r: RequestId) {
    r in b.s.tables ==>
      forall j :: 0 <= j < |b.s.tables[r]| && Receives(cfg, b, r, j) ==> b.s.pool.Private(b.s.tables[r][j])
  }

  ghost predicate Having(cfg: Config, mem: Memory, views: map<RequestId, seq<nat>>, promise: map<BlockId, seq<Cell>>, b: Build)
    requires cfg.Valid()
  {
    && (forall r :: r in b.s.tables ==> PriorOk(cfg, mem, views, b, r))
    && (forall r :: r in b.s.tables ==> WritingOk(cfg, b, r))
    && Promised(cfg, b.s.pool.hashed, mem, promise)
  }

  // ---------------------------------------------------------------- the books of each host decision

  lemma OperateBooks(cfg: Config, lw: Worker, b: Build, op: HostOp) returns (taken: multiset<BlockId>, dropped: multiset<BlockId>)
    requires cfg.Valid() && Building(cfg, lw, b) && Enabled(cfg, b, op)
    ensures Local(b.s, Operate(cfg, b, op).s, op.r)
    ensures Books(b.s, Operate(cfg, b, op).s, op.r, taken, dropped)
    ensures Operate(cfg, b, op).s.pool.hashed <= b.s.pool.hashed
  {
    hide Inv, Agree, Quiet, Update, Books, CeilDiv, Held, Settled, EntryOk;
    forall q | q != op.r ensures SameAt(b.s, Operate(cfg, b, op).s, q) { OperateLocal(cfg, b, op, q); }
    match op
    case HPreempt(r) =>
      taken, dropped := multiset{}, Held(b.s, r);
      FreedBooks(b.s, Preempt(b.s, r), r);
    case HGrow(r, added, n) =>
      taken, dropped := multiset(added), multiset{};
      GrowBooks(cfg, b.s, r, added, n);
    case HAdmit(r, hits, added, n, _) =>
      taken, dropped := multiset(hits) + multiset(added), multiset{};
      AdmitBooks(cfg, b.s, r, hits, added, n);
  }

  lemma OthersHave(cfg: Config, lw: Worker, mem: Memory, views: map<RequestId, seq<nat>>, promise: map<BlockId, seq<Cell>>,
                   b: Build, op: HostOp, q: RequestId)
    requires cfg.Valid() && Building(cfg, lw, b) && Enabled(cfg, b, op) && Having(cfg, mem, views, promise, b)
    requires q != op.r && q in b.s.tables
    ensures PriorOk(cfg, mem, views, Operate(cfg, b, op), q) && WritingOk(cfg, Operate(cfg, b, op), q)
  {
    hide Inv, Agree, Quiet, Update, CeilDiv, Held, Books, Local, Settled, EntryOk, ViewAt, Promised, Enabled, Operate, Building, Pool.Private;
    var b' := Operate(cfg, b, op);
    OperateLocal(cfg, b, op, q);
    assert PriorOk(cfg, mem, views, b, q) && WritingOk(cfg, b, q);
    OtherPrior(cfg, mem, views, b, b', q);
    OtherWriting(cfg, lw, b, op, q);
  }

  lemma OtherPrior(cfg: Config, mem: Memory, views: map<RequestId, seq<nat>>, b: Build, b': Build, q: RequestId)
    requires cfg.Valid() && PriorOk(cfg, mem, views, b, q)
    requires SameAt(b.s, b'.s, q) && Get(b'.out.entries, q) == Get(b.out.entries, q)
    ensures PriorOk(cfg, mem, views, b', q)
  {
    hide ViewAt;
  }

  lemma OtherWriting(cfg: Config, lw: Worker, b: Build, op: HostOp, q: RequestId)
    requires cfg.Valid() && Building(cfg, lw, b) && Enabled(cfg, b, op) && WritingOk(cfg, b, q)
    requires q != op.r && q in b.s.tables
    ensures WritingOk(cfg, Operate(cfg, b, op), q)
  {
    hide Agree, Quiet, Update, CeilDiv, Held, Books, Local, Settled, EntryOk, RequestOk, Pool.Private, Operate, Enabled, Balanced;
    var b' := Operate(cfg, b, op);
    OperateLocal(cfg, b, op, q);
    var taken, dropped := OperateBooks(cfg, lw, b, op);
    SchedulerSteps.Known(b.s, q);
    forall j | 0 <= j < |b.s.tables[q]| && Receives(cfg, b', q, j) ensures b'.s.pool.Private(b.s.tables[q][j]) {
      assert Receives(cfg, b, q, j);
      assert b.s.tables[q][j] in Held(b.s, q) by { TableBlockHeld(b.s, q, j); }
      PrivateFrame(b.s, b'.s, op.r, taken, dropped, q, b.s.tables[q][j]);
    }
  }

  lemma TableBlockHeld(s: Sched, q: RequestId, j: nat)
    requires q in s.tables && j < |s.tables[q]|
    ensures s.tables[q][j] in Held(s, q)
  {
    hide Blocks;
    InTable(s, q, j);
  }

  // ---------------------------------------------------------------- the request that is decided on

  lemma GrowHas(cfg: Config, lw: Worker, mem: Memory, views: map<RequestId, seq<nat>>, b: Build, op: HostOp)
    requires cfg.Valid() && Building(cfg, lw, b) && Enabled(cfg, b, op) && op.HGrow? && op.r !in b.s.pending
    requires PriorOk(cfg, mem, views, b, op.r)
    ensures PriorOk(cfg, mem, views, Operate(cfg, b, op), op.r)
  {
    hide Inv, Agree, Quiet, Update, CeilDiv, Settled, EntryOk, Shape, Read, Tag;
    var b' := Operate(cfg, b, op);
    var table, view := b.s.tables[op.r], Prior(views, b.out.entries, op.r);
    assert Stored(mem, table, cfg.blockSize, b.s.requests[op.r].info, view);
    assert CommittedTable(b'.s, op.r) == table + op.added;
    assert Stored(mem, table + op.added, cfg.blockSize, b.s.requests[op.r].info, view);
  }

  lemma GrowWrites(cfg: Config, lw: Worker, b: Build, op: HostOp)
    requires cfg.Valid() && Building(cfg, lw, b) && Enabled(cfg, b, op) && op.HGrow?
    ensures WritingOk(cfg, Operate(cfg, b, op), op.r)
  {
    hide Agree, Quiet, Update, CeilDiv, Settled, EntryOk, Pool.Private, Pool.Take, Pool.CanTake, Balanced;
    var r, b' := op.r, Operate(cfg, b, op);
    var table := b.s.tables[r];
    assert RequestOk(cfg, b.s, r);
    TakenPrivate(b.s.pool, op.added);
    forall j | 0 <= j < |b'.s.tables[r]| && Receives(cfg, b', r, j) ensures b'.s.pool.Private(b'.s.tables[r][j]) {
      if j < |table| {
        assert Writable(cfg, b.s, r, j);
        TakeKeepsPrivate(b.s.pool, op.added, table[j]);
      } else {
        assert b'.s.tables[r][j] == op.added[j - |table|];
      }
    }
  }

  /** Prefix hits hold the cells of the new request's own prefix. */
  lemma HitsStored(cfg: Config, mem: Memory, promise: map<BlockId, seq<Cell>>, hashed: set<BlockId>, info: Info,
                   hits: seq<BlockId>, added: seq<BlockId>)
    requires cfg.Valid() && Promised(cfg, hashed, mem, promise) && HitsMatch(cfg, promise, info, hits)
    requires forall i :: 0 <= i < |hits| ==> hits[i] in hashed
    ensures Stored(mem, hits + added, cfg.blockSize, info, Range(0, |hits| * cfg.blockSize))
  {
    hide CeilDiv, Tag, Read;
    var bs := cfg.blockSize;
    forall i: nat | i < |hits| * bs
      ensures i / bs < |hits + added| && Read(mem, At(hits + added, bs, i)) == Tag(info, i)
    {
      HitStored(cfg, mem, promise, hashed, info, hits, i);
    }
  }

  lemma HitStored(cfg: Config, mem: Memory, promise: map<BlockId, seq<Cell>>, hashed: set<BlockId>, info: Info, hits: seq<BlockId>, i: nat)
    requires cfg.Valid() && Promised(cfg, hashed, mem, promise) && HitsMatch(cfg, promise, info, hits)
    requires (forall j :: 0 <= j < |hits| ==> hits[j] in hashed) && i < |hits| * cfg.blockSize
    ensures i / cfg.blockSize < |hits| && Read(mem, (hits[i / cfg.blockSize], i % cfg.blockSize)) == Tag(info, i)
  {
    hide CeilDiv, Tag, Read;
    DivBelow(i, cfg.blockSize, |hits|);
    Rebuild(i, cfg.blockSize);
    var h, o := i / cfg.blockSize, i % cfg.blockSize;
    assert Tags(info, h * cfg.blockSize, cfg.blockSize)[o] == Tag(info, h * cfg.blockSize + o);
  }

  lemma AdmitHas(cfg: Config, lw: Worker, mem: Memory, views: map<RequestId, seq<nat>>, promise: map<BlockId, seq<Cell>>,
                 b: Build, op: HostOp)
    requires cfg.Valid() && Building(cfg, lw, b) && Enabled(cfg, b, op) && op.HAdmit?
    requires Promised(cfg, b.s.pool.hashed, mem, promise) && HitsMatch(cfg, promise, b.s.requests[op.r].info, op.hits)
    ensures PriorOk(cfg, mem, views, Operate(cfg, b, op), op.r)
  {
    hide Inv, Agree, Quiet, Update, CeilDiv, Settled, EntryOk, Shape, Read, Tag, Stored, Promised, HitsMatch;
    var r, b' := op.r, Operate(cfg, b, op);
    NoTransaction(cfg, b.s, r);
    HitsStored(cfg, mem, promise, b.s.pool.hashed, b.s.requests[r].info, op.hits, op.added);
    ShapeFull(cfg, |op.hits| * cfg.blockSize);
  }

  lemma AdmitWrites(cfg: Config, lw: Worker, b: Build, op: HostOp)
    requires cfg.Valid() && Building(cfg, lw, b) && Enabled(cfg, b, op) && op.HAdmit?
    ensures WritingOk(cfg, Operate(cfg, b, op), op.r)
  {
    hide Inv, Agree, Quiet, Update, CeilDiv, Settled, EntryOk, Pool.Private, Pool.Take, Pool.CanTake;
    var r, b' := op.r, Operate(cfg, b, op);
    NoTransaction(cfg, b.s, r);
    TakenPrivate(b.s.pool.Touch(op.hits), op.added);
    forall j | 0 <= j < |b'.s.tables[r]| && Receives(cfg, b', r, j) ensures b'.s.pool.Private(b'.s.tables[r][j]) {
      if j < |op.hits| { MulMonotone(j + 1, |op.hits|, cfg.blockSize); }
      assert b'.s.tables[r][j] == op.added[j - |op.hits|];
    }
  }

  lemma OperateHas(cfg: Config, lw: Worker, mem: Memory, views: map<RequestId, seq<nat>>, promise: map<BlockId, seq<Cell>>,
                   b: Build, op: HostOp)
    requires cfg.Valid() && Building(cfg, lw, b) && Enabled(cfg, b, op) && Having(cfg, mem, views, promise, b)
    requires op.HAdmit? ==> op.r in b.s.requests && HitsMatch(cfg, promise, b.s.requests[op.r].info, op.hits)
    ensures Having(cfg, mem, views, promise, Operate(cfg, b, op))
  {
    hide Inv, Agree, Quiet, Update, CeilDiv, Held, Books, Local, Settled, EntryOk, PriorOk, WritingOk, Building, HitsMatch;
    var b' := Operate(cfg, b, op);
    forall q | q in b'.s.tables ensures PriorOk(cfg, mem, views, b', q) && WritingOk(cfg, b', q) {
      if q != op.r {
        OperateTables(cfg, b, op, q);
        OthersHave(cfg, lw, mem, views, promise, b, op, q);
      } else if op.HGrow? {
        OperateKeepsInv(cfg, lw, b, op);
        GrowHas(cfg, lw, mem, views, b, op);
        GrowWrites(cfg, lw, b, op);
      } else {
        AdmitHas(cfg, lw, mem, views, promise, b, op);
        AdmitWrites(cfg, lw, b, op);
      }
    }
    var taken, dropped := OperateBooks(cfg, lw, b, op);
  }

  lemma OperateTables(cfg: Config, b: Build, op: HostOp, q: RequestId)
    requires Enabled(cfg, b, op) && q != op.r && q in Operate(cfg, b, op).s.tables
    ensures q in b.s.tables
  {
    OperateLocal(cfg, b, op, q);
  }

  lemma {:induction false} OperateAllHas(cfg: Config, lw: Worker, mem: Memory, views: map<RequestId, seq<nat>>,
                                         promise: map<BlockId, seq<Cell>>, b: Build, ops: seq<HostOp>)
    requires cfg.Valid() && Building(cfg, lw, b) && AllEnabled(cfg, b, ops) && Having(cfg, mem, views, promise, b)
    requires AllMatch(cfg, promise, b, ops)
    ensures Having(cfg, mem, views, promise, OperateAll(cfg, b, ops))
    decreases |ops|
  {
    hide Building, Having, Enabled, Operate, HitsMatch, CeilDiv;
    if ops != [] {
      OperateHas(cfg, lw, mem, views, promise, b, ops[0]);
      OperateKeeps(cfg, lw, b, ops[0]);
      OperateAllHas(cfg, lw, mem, views, promise, Operate(cfg, b, ops[0]), ops[1..]);
    }
  }

  /** A pass opens with every view in place. */
  lemma OpeningHas(cfg: Config, t: Sched, mem: Memory, views: map<RequestId, seq<nat>>, promise: map<BlockId, seq<Cell>>)
    requires cfg.Valid()
    requires forall r :: r in t.tables ==> ViewOk(cfg, t, mem, r, views)
    requires Promised(cfg, t.pool.hashed, mem, promise)
    ensures Having(cfg, mem, views, promise, Build(t, Opening(t)))
  {
    hide ViewAt, Promised;
  }
}
