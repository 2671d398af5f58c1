// The forward pass extends exactly the scheduled views and disturbs nothing else.

module KVForward {
  import opened Common
  import opened SchedulerModel
  import opened SchedulerInvariant
  import opened SchedulerSteps
  import opened WorkerModel
  import opened Agreement
  import opened Schedule
  import opened ProtocolTheorems
  import opened PassStep
  import opened KVMemory
  import opened KVContent
  import opened KVPass

  lemma CoversBlock(table: seq<BlockId>, bs: nat, start: nat, n: nat, loc: Loc) returns (i: nat)
    requires bs > 0 && Covers(table, bs, start, n, loc)
    ensures start <= i < start + n && i / bs < |table| && loc.0 == table[i / bs]
  {
    i :| start <= i < start + n && i / bs < |table| && At(table, bs, i) == loc;
  }

  /** A slot written for `q` lies in a block that only `q` holds, and only once. */
  lemma StoresReceives(cfg: Config, lw: Worker, b: Build, q: RequestId, loc: Loc) returns (j: nat)
    requires cfg.Valid() && Building(cfg, lw, b) && Stores(cfg, Update(lw, b.out), b.out.entries, q, loc)
    ensures q in b.s.tables && j < |b.s.tables[q]| && loc.0 == b.s.tables[q][j] && Receives(cfg, b, q, j)
  {
    hide Building, Update, CeilDiv, Covers, Receives, StartOf;
    EntryAgrees(cfg, lw, b, q);
    var u := Update(lw, b.out);
    var i := CoversBlock(u.requests[q].table, cfg.blockSize, StartOf(u, b.out.entries, q), b.out.entries[q].count, loc);
    ReceivesFrom(cfg, lw, b, q, i, i / cfg.blockSize);
    j := i / cfg.blockSize;
  }

  lemma ForeignStores(cfg: Config, lw: Worker, b: Build, q: RequestId, loc: Loc)
    requires cfg.Valid() && Building(cfg, lw, b) && Stores(cfg, Update(lw, b.out), b.out.entries, q, loc)
    requires forall r :: r in b.s.tables ==> WritingOk(cfg, b, r)
    ensures q in b.s.requests && Unshared(b.s, q, loc.0)
  {
    hide Agree, Quiet, Update, CeilDiv, Settled, EntryOk, Unshared, Stores, Held, Balanced, RequestOk, Pool.Private;
    var j := StoresReceives(cfg, lw, b, q, loc);
    SchedulerSteps.Known(b.s, q);
    assert WritingOk(cfg, b, q);
    TableBlockHeld(b.s, q, j);
    PrivateUnshared(b.s, q, loc.0);
  }

  /** Nothing that another request or a prefix hash relies on is written. */
  lemma NoForeignStore(cfg: Config, lw: Worker, b: Build, q: RequestId, r: RequestId, loc: Loc)
    requires cfg.Valid() && Building(cfg, lw, b)
    requires forall p :: p in b.s.tables ==> WritingOk(cfg, b, p)
    requires (r in b.s.requests && q != r && loc.0 in Held(b.s, r)) || loc.0 in b.s.pool.hashed
    ensures !Stores(cfg, Update(lw, b.out), b.out.entries, q, loc)
  {
    hide Building, Update, CeilDiv, WritingOk, Stores, Held;
    if Stores(cfg, Update(lw, b.out), b.out.entries, q, loc) {
      ForeignStores(cfg, lw, b, q, loc);
      assert false;
    }
  }

  lemma SameSlot(table: seq<BlockId>, bs: nat, i: nat, j: nat)
    requires bs > 0 && i / bs < |table| && j / bs < |table| && At(table, bs, i) == At(table, bs, j)
    requires forall k :: 0 <= k < |table| && k != j / bs ==> table[k] != table[j / bs]
    ensures i == j
  {
    if i != j { SlotsDistinct(table, bs, i, j); }
  }

  /** A receiving block occurs once in its own table. */
  lemma ReceivesUnique(cfg: Config, lw: Worker, b: Build, r: RequestId, j: nat)
    requires cfg.Valid() && Building(cfg, lw, b) && r in b.s.tables && WritingOk(cfg, b, r)
    requires j < |b.s.tables[r]| && Receives(cfg, b, r, j)
    ensures forall k :: 0 <= k < |b.s.tables[r]| && k != j ==> b.s.tables[r][k] != b.s.tables[r][j]
  {
    hide Agree, Quiet, Update, CeilDiv, Settled, EntryOk, Held, Balanced, RequestOk;
    var table := b.s.tables[r];
    SchedulerSteps.Known(b.s, r);
    HeldOnce(b.s, r, table[j]);
    TableInHeld(b.s, r);
    forall k | 0 <= k < |table| && k != j ensures table[k] != table[j] {
      if table[k] == table[j] { RepeatedTwice(table, if k < j then k else j, if k < j then j else k); }
    }
  }

  lemma ReceivesFrom(cfg: Config, lw: Worker, b: Build, r: RequestId, i: nat, j: nat)
    requires cfg.Valid() && Building(cfg, lw, b) && r in b.out.entries
    requires StartOf(Update(lw, b.out), b.out.entries, r) <= i < (j + 1) * cfg.blockSize
    ensures Receives(cfg, b, r, j)
  {
    hide Building, Update, CeilDiv;
    EntryAgrees(cfg, lw, b, r);
  }

  /** Two slots of a table whose second block occurs once are the same slot of the same token. */
  lemma OnlyOnce(table: seq<BlockId>, bs: nat, start: nat, n: nat, i: nat)
    requires bs > 0 && i / bs < |table| && i < start
    requires forall j: nat, k :: start <= j < start + n && j / bs < |table| && 0 <= k < |table| && k != j / bs ==>
               table[k] != table[j / bs]
    ensures !Covers(table, bs, start, n, At(table, bs, i))
  {
    if Covers(table, bs, start, n, At(table, bs, i)) {
      var j: nat :| start <= j < start + n && j / bs < |table| && At(table, bs, j) == At(table, bs, i);
      SameSlot(table, bs, i, j);
    }
  }

  /** A request never overwrites the tokens it already has. */
  lemma OwnStores(cfg: Config, lw: Worker, b: Build, r: RequestId, i: nat)
    requires cfg.Valid() && Building(cfg, lw, b) && r in b.out.entries && r in b.s.tables && WritingOk(cfg, b, r)
    requires i / cfg.blockSize < |b.s.tables[r]|
    requires i < StartOf(Update(lw, b.out), b.out.entries, r)
    ensures !Stores(cfg, Update(lw, b.out), b.out.entries, r, At(b.s.tables[r], cfg.blockSize, i))
  {
    hide Building, Update, CeilDiv, WritingOk, Receives, Covers, At, StartOf;
    EntryAgrees(cfg, lw, b, r);
    var u, bs, table := Update(lw, b.out), cfg.blockSize, b.s.tables[r];
    var start := StartOf(u, b.out.entries, r);
    forall j: nat, k | start <= j < start + b.out.entries[r].count && j / bs < |table| && 0 <= k < |table| && k != j / bs
      ensures table[k] != table[j / bs]
    {
      ReceivesFrom(cfg, lw, b, r, j, j / bs);
      ReceivesUnique(cfg, lw, b, r, j / bs);
    }
    OnlyOnce(table, bs, start, b.out.entries[r].count, i);
  }

  lemma OwnAlone(cfg: Config, lw: Worker, b: Build, r: RequestId, i: nat)
    requires cfg.Valid() && Building(cfg, lw, b) && r in b.out.entries && r in b.s.tables && WritingOk(cfg, b, r)
    requires i / cfg.blockSize < |b.s.tables[r]|
    requires StartOf(Update(lw, b.out), b.out.entries, r) <= i
    ensures Alone(b.s.tables[r], cfg.blockSize, StartOf(Update(lw, b.out), b.out.entries, r), b.out.entries[r].count, i)
  {
    hide Building, Update, CeilDiv, WritingOk, Receives;
    ReceivesFrom(cfg, lw, b, r, i, i / cfg.blockSize);
    ReceivesUnique(cfg, lw, b, r, i / cfg.blockSize);
    var table, bs, start := b.s.tables[r], cfg.blockSize, StartOf(Update(lw, b.out), b.out.entries, r);
    forall j: nat | start <= j < start + b.out.entries[r].count && j != i && j / bs < |table|
      ensures At(table, bs, j) != At(table, bs, i)
    {
      if At(table, bs, j) == At(table, bs, i) { SameSlot(table, bs, j, i); }
    }
  }

  lemma CommittedHeld(s: Sched, r: RequestId, i: nat)
    requires i < |CommittedTable(s, r)|
    ensures CommittedTable(s, r)[i] in Held(s, r)
  {
    hide Blocks;
    assert CommittedTable(s, r)[i] in multiset(CommittedTable(s, r));
  }

  // ---------------------------------------------------------------- the pass over the whole batch

  lemma StartIsPrior(cfg: Config, lw: Worker, mem: Memory, views: map<RequestId, seq<nat>>, b: Build, r: RequestId)
    requires cfg.Valid() && Building(cfg, lw, b) && r in b.out.entries && r in b.s.tables && PriorOk(cfg, mem, views, b, r)
    ensures var u := Update(lw, b.out);
      && r in u.requests && u.requests[r].table == b.s.tables[r] == CommittedTable(b.s, r)
      && u.requests[r].info == b.s.requests[r].info
      && CommittedAnchor(b.s, r) == Get(b.s.active, r)
      && StartOf(u, b.out.entries, r) == |Prior(views, b.out.entries, r)|
      && b.out.entries[r].computed + b.out.entries[r].count == b.s.requests[r].computed
  {
    hide Building, Update, CeilDiv, Shape, Stored;
    EntryAgrees(cfg, lw, b, r);
    EntryCounts(cfg, lw, b, r);
  }

  lemma EntryCounts(cfg: Config, lw: Worker, b: Build, r: RequestId)
    requires cfg.Valid() && Building(cfg, lw, b) && r in b.out.entries
    ensures r in b.s.requests && b.out.entries[r].computed + b.out.entries[r].count == b.s.requests[r].computed
  {
    hide Inv, Agree, Quiet, Update, CeilDiv, Settled;
    assert EntryOk(cfg, b.s, b.out, r);
  }

  /** Physical token `i` of the request is in place and stands for position `p`. */
  ghost predicate InPlace(cfg: Config, mem: Memory, s: Sched, r: RequestId, i: nat, p: nat)
    requires cfg.Valid()
  {
    && r in s.requests && i / cfg.blockSize < |CommittedTable(s, r)|
    && Read(mem, At(CommittedTable(s, r), cfg.blockSize, i)) == Tag(s.requests[r].info, p)
  }

  function Forwarded(cfg: Config, lw: Worker, b: Build): Memory
    requires cfg.Valid()
  {
    AfterForward(cfg, lw, b.out).mem
  }

  /** Tokens that were in place stay in place. */
  lemma ForwardPast(cfg: Config, lw: Worker, views: map<RequestId, seq<nat>>, promise: map<BlockId, seq<Cell>>, b: Build,
                    r: RequestId, i: nat)
    requires cfg.Valid() && Building(cfg, lw, b) && Having(cfg, lw.mem, views, promise, b) && r in b.s.tables
    requires i < |Prior(views, b.out.entries, r)|
    ensures InPlace(cfg, Forwarded(cfg, lw, b), b.s, r, i, Prior(views, b.out.entries, r)[i])
  {
    hide Building, Update, CeilDiv, WritingOk, Promised, Shape, Stores, Held, Read, Tag;
    assert PriorOk(cfg, lw.mem, views, b, r);
    var u, order, entries := Update(lw, b.out), b.out.order, b.out.entries;
    var loc := At(CommittedTable(b.s, r), cfg.blockSize, i);
    CommittedHeld(b.s, r, i / cfg.blockSize);
    forall k | 0 <= k < |order| ensures !Stores(cfg, u, entries, order[k], loc) {
      if order[k] != r {
        NoForeignStore(cfg, lw, b, order[k], r, loc);
      } else if r in entries {
        StartIsPrior(cfg, lw, lw.mem, views, b, r);
        OwnStores(cfg, lw, b, r, i);
      } else {
        NotStored(cfg, u, entries, r, loc);
      }
    }
    UpdateMemory(lw, b.out);
    ForwardFrame(cfg, u, order, entries, loc);
  }

  lemma NotStored(cfg: Config, w: Worker, entries: map<RequestId, Entry>, r: RequestId, loc: Loc)
    requires cfg.Valid() && r !in entries
    ensures !Stores(cfg, w, entries, r, loc)
  {
  }

  /** New tokens land right behind them. */
  lemma ForwardNew(cfg: Config, lw: Worker, views: map<RequestId, seq<nat>>, promise: map<BlockId, seq<Cell>>, b: Build,
                   r: RequestId, k: nat)
    requires cfg.Valid() && Building(cfg, lw, b) && Having(cfg, lw.mem, views, promise, b) && r in b.out.entries
    requires k < b.out.entries[r].count
    ensures InPlace(cfg, Forwarded(cfg, lw, b), b.s, r, |Prior(views, b.out.entries, r)| + k, b.out.entries[r].computed + k)
  {
    hide Building, Update, CeilDiv, WritingOk, Promised, Shape, Stores, Held, Read, Tag, Alone;
    EntryAgrees(cfg, lw, b, r);
    assert PriorOk(cfg, lw.mem, views, b, r);
    StartIsPrior(cfg, lw, lw.mem, views, b, r);
    RoomForNew(cfg, lw, lw.mem, views, b, r, k);
    ForwardStores(cfg, lw, b, r, k, StartOf(Update(lw, b.out), b.out.entries, r) + k);
  }

  lemma ForwardStores(cfg: Config, lw: Worker, b: Build, r: RequestId, k: nat, i: nat)
    requires cfg.Valid() && r in b.out.entries && r in b.s.tables && r in b.s.requests && i / cfg.blockSize < |b.s.tables[r]|
    requires k < b.out.entries[r].count && i == StartOf(Update(lw, b.out), b.out.entries, r) + k
    requires Building(cfg, lw, b) && forall p :: p in b.s.tables ==> WritingOk(cfg, b, p)
    ensures Read(Forwarded(cfg, lw, b), At(b.s.tables[r], cfg.blockSize, i)) == Tag(b.s.requests[r].info, b.out.entries[r].computed + k)
  {
    hide Building, Update, CeilDiv, WritingOk, Stores, Held, Read, Tag, Alone, StartOf;
    EntryAgrees(cfg, lw, b, r);
    OrderDistinct(cfg, lw, b);
    var u, order, entries := Update(lw, b.out), b.out.order, b.out.entries;
    OwnAlone(cfg, lw, b, r, i);
    var loc := At(b.s.tables[r], cfg.blockSize, i);
    TableBlockHeld(b.s, r, i / cfg.blockSize);
    forall q | q in order && q != r ensures !Stores(cfg, u, entries, q, loc) {
      NoForeignStore(cfg, lw, b, q, r, loc);
    }
    ForwardHits(cfg, u, order, entries, r, k);
  }

  lemma RoomForNew(cfg: Config, lw: Worker, mem: Memory, views: map<RequestId, seq<nat>>, b: Build, r: RequestId, k: nat)
    requires cfg.Valid() && Building(cfg, lw, b) && r in b.out.entries && r in b.s.tables && PriorOk(cfg, mem, views, b, r)
    requires k < b.out.entries[r].count
    ensures (|Prior(views, b.out.entries, r)| + k) / cfg.blockSize < |b.s.tables[r]|
    ensures r in b.s.requests
    ensures |Prior(views, b.out.entries, r)| + b.out.entries[r].count == Physical(b.s, r)
  {
    hide Agree, Quiet, Update, CeilDiv, Settled, Balanced, Shape, Stored;
    EntryAgrees(cfg, lw, b, r);
    EntryCounts(cfg, lw, b, r);
    assert RequestOk(cfg, b.s, r);
    PriorLength(cfg, mem, views, b, r);
    DivBelow(|Prior(views, b.out.entries, r)| + k, cfg.blockSize, |b.s.tables[r]|);
  }

  /** The offset never exceeds the positions already computed when the step began. */
  lemma PriorLength(cfg: Config, mem: Memory, views: map<RequestId, seq<nat>>, b: Build, r: RequestId)
    requires cfg.Valid() && Inv(cfg, b.s) && r in b.out.entries && r in b.s.tables && PriorOk(cfg, mem, views, b, r)
    requires r !in b.s.pending && b.out.entries[r].computed + b.out.entries[r].count == b.s.requests[r].computed
    ensures |Prior(views, b.out.entries, r)| + b.out.entries[r].count == Physical(b.s, r)
  {
    hide Balanced, CeilDiv, Stored;
    assert RequestOk(cfg, b.s, r);
  }
}
