// What every scheduler operation keeps: block conservation, private tables, sound lengths.

module SchedulerInvariant {
  import opened Common
  import opened Ledger
  import opened SchedulerModel

  // ---------------------------------------------------------------- the invariant

  /** Each block's reference count is the number of places that hold it, and none was ever freed that was
      not held. */
  ghost predicate Balanced(s: Sched) {
    s.pool.refs == Sum(Holdings(s)) && !s.pool.overdrawn
  }

  ghost predicate PendingOk(cfg: Config, s: Sched, r: RequestId)
    requires cfg.Valid()
  {
    r in s.pending ==>
      && r in s.tables && r in s.requests
      && var p := s.pending[r];
      && p.plan.source == s.tables[r]
      && p.plan.destination == p.reserved && |p.reserved| == cfg.Keep()
      && p.plan.physical == cfg.budget
      && p.plan.semantic == s.requests[r].computed
      && p.plan.semantic - cfg.budget > Removed(Get(s.active, r))
      && (forall j :: 0 <= j < |p.reserved| ==> s.pool.Private(p.reserved[j]))
      && (if cfg.asynchronous
          then s.requests[r].eligible == FROZEN && p.previous.Some? && p.previous.value < FROZEN
          else p.previous.None?)
  }

  ghost predicate ActiveOk(cfg: Config, s: Sched, r: RequestId) {
    r in s.active ==>
      && r in s.tables && r in s.requests
      && s.active[r].physical == cfg.budget
      && s.active[r].semantic <= s.requests[r].computed
      && s.active[r].Removed() > 0
  }

  /** A block whose last slot is not yet computed, or that belongs to a compressed table. */
  predicate Writable(cfg: Config, s: Sched, r: RequestId, j: nat) {
    r in s.requests && (r in s.active || s.requests[r].computed < (j + 1) * cfg.blockSize)
  }

  ghost predicate TableOk(cfg: Config, s: Sched, r: RequestId) {
    r in s.tables ==>
      && r in s.requests
      && Physical(s, r) <= |s.tables[r]| * cfg.blockSize
      && (forall j :: 0 <= j < |s.tables[r]| && Writable(cfg, s, r, j) ==> s.pool.Private(s.tables[r][j]))
  }

  ghost predicate ReleasesOk(s: Sched, r: RequestId) {
    r in s.deferred ==>
      && r in s.tables
      && forall i :: 0 <= i < |s.deferred[r]| ==> s.deferred[r][i].remaining > 0
  }

  /** Only an asynchronous request that waits for its compression is kept out of the batch. */
  ghost predicate FreezeOk(cfg: Config, s: Sched, r: RequestId) {
    r in s.requests && !(cfg.asynchronous && r in s.pending) ==> s.requests[r].eligible < FROZEN
  }

  ghost predicate RequestOk(cfg: Config, s: Sched, r: RequestId)
    requires cfg.Valid()
  {
    PendingOk(cfg, s, r) && ActiveOk(cfg, s, r) && TableOk(cfg, s, r) && ReleasesOk(s, r) && FreezeOk(cfg, s, r)
  }

  ghost predicate Domain(s: Sched) {
    s.tables.Keys + s.pending.Keys + s.active.Keys + s.deferred.Keys <= s.requests.Keys
  }

  ghost predicate Inv(cfg: Config, s: Sched)
    requires cfg.Valid()
  {
    && Balanced(s) && Domain(s)
    && forall r :: r in s.requests ==> RequestOk(cfg, s, r)
  }

  // ---------------------------------------------------------------- one request at a time

  ghost predicate SameAt(s: Sched, s': Sched, q: RequestId) {
    && Get(s'.requests, q) == Get(s.requests, q)
    && Get(s'.tables, q) == Get(s.tables, q)
    && Get(s'.pending, q) == Get(s.pending, q)
    && Get(s'.active, q) == Get(s.active, q)
    && Get(s'.deferred, q) == Get(s.deferred, q)
  }

  /** A step that changes request `r` only. */
  ghost predicate Local(s: Sched, s': Sched, r: RequestId) {
    && r in s.requests && s'.requests.Keys == s.requests.Keys
    && forall q :: q != r ==> SameAt(s, s', q)
  }

  /** The step takes and drops the given references, and `r` accounts for all of them. */
  ghost predicate Books(s: Sched, s': Sched, r: RequestId, taken: multiset<BlockId>, dropped: multiset<BlockId>) {
    && Held(s', r) + dropped == Held(s, r) + taken
    && s'.pool.refs == s.pool.refs + taken - dropped
    && (s'.pool.overdrawn ==> s.pool.overdrawn || !(dropped <= s.pool.refs + taken))
    && (forall b :: b in taken ==> s.pool.refs[b] == 0 || b in s.pool.hashed)
    && (forall b :: b in s'.pool.hashed ==> b in s.pool.hashed || b in Held(s, r))
  }

  lemma HeldWithin(s: Sched, r: RequestId)
    requires Balanced(s) && r in s.requests
    ensures Held(s, r) <= s.pool.refs
  {
    forall b ensures Held(s, r)[b] <= s.pool.refs[b] {
      AtLeastOne(Holdings(s), r, b);
      assert Holdings(s)[r] == Held(s, r);
    }
  }

  /** Two requests never hold the same block when one of them holds it privately. */
  lemma Exclusive(s: Sched, q: RequestId, r: RequestId, b: BlockId)
    requires Balanced(s) && q in s.requests && r in s.requests && q != r
    requires s.pool.Private(b) && b in Held(s, q)
    ensures Held(s, q)[b] == 1 && b !in Held(s, r)
  {
    AtLeastTwo(Holdings(s), q, r, b);
    assert Holdings(s)[r] == Held(s, r) && Holdings(s)[q] == Held(s, q);
  }

  lemma SameHeld(s: Sched, s': Sched, q: RequestId)
    requires SameAt(s, s', q)
    ensures Held(s', q) == Held(s, q)
  {
    assert TableOf(s', q) == TableOf(s, q);
    assert ReservedOf(s', q) == ReservedOf(s, q);
    assert ReleasesOf(s', q) == ReleasesOf(s, q);
  }

  /** Swapping one holding inside a balanced total keeps the total balanced. */
  lemma Rebalanced(total: multiset<BlockId>, sum': multiset<BlockId>,
                   before: multiset<BlockId>, after: multiset<BlockId>,
                   taken: multiset<BlockId>, dropped: multiset<BlockId>)
    requires sum' + before == total + after
    requires after + dropped == before + taken
    requires before <= total
    ensures total + taken - dropped == sum' && dropped <= total + taken
  {
    forall b ensures (total + taken - dropped)[b] == sum'[b] {
      assert (sum' + before)[b] == (total + after)[b];
      assert (after + dropped)[b] == (before + taken)[b];
      assert before[b] <= total[b];
    }
    forall b ensures dropped[b] <= (total + taken)[b] {
      assert (after + dropped)[b] == (before + taken)[b];
      assert before[b] <= total[b];
    }
  }

  lemma HoldingsAfter(s: Sched, s': Sched, r: RequestId)
    requires Local(s, s', r)
    ensures Holdings(s') == Holdings(s)[r := Held(s', r)]
  {
    hide Held;
    forall q | q in s.requests && q != r ensures Held(s', q) == Held(s, q) { SameHeld(s, s', q); }
  }

  lemma Rebalances(s: Sched, s': Sched, r: RequestId, taken: multiset<BlockId>, dropped: multiset<BlockId>)
    requires Balanced(s) && Local(s, s', r) && Books(s, s', r, taken, dropped)
    ensures Balanced(s')
  {
    HoldingsAfter(s, s', r);
    Replace(Holdings(s), r, Held(s', r));
    HeldWithin(s, r);
    Rebalanced(s.pool.refs, Sum(Holdings(s')), Held(s, r), Held(s', r), taken, dropped);
  }

  lemma PrivateFrame(s: Sched, s': Sched, r: RequestId, taken: multiset<BlockId>, dropped: multiset<BlockId>,
                     q: RequestId, b: BlockId)
    requires Balanced(s) && Local(s, s', r) && Books(s, s', r, taken, dropped)
    requires q in s.requests && q != r && b in Held(s, q) && s.pool.Private(b)
    ensures s'.pool.Private(b)
  {
    Exclusive(s, q, r, b);
    assert taken[b] == 0;
    assert (Held(s', r) + dropped)[b] == (Held(s, r) + taken)[b] == 0;
  }

  lemma PartsHeld(s: Sched, r: RequestId)
    ensures forall b :: b in TableOf(s, r) || b in ReservedOf(s, r) ==> b in Held(s, r)
  {
    forall b | b in TableOf(s, r) || b in ReservedOf(s, r) ensures b in Held(s, r) {
      assert b in multiset(TableOf(s, r)) || b in multiset(ReservedOf(s, r));
    }
  }

  lemma OthersKeep(cfg: Config, s: Sched, s': Sched, r: RequestId, taken: multiset<BlockId>, dropped: multiset<BlockId>,
                   q: RequestId)
    requires cfg.Valid() && Inv(cfg, s) && Local(s, s', r) && Books(s, s', r, taken, dropped)
    requires q in s.requests && q != r
    ensures RequestOk(cfg, s', q)
  {
    hide Held, Balanced, Books, CeilDiv;
    assert SameAt(s, s', q) && RequestOk(cfg, s, q);
    PartsHeld(s, q);
    if q in s.pending {
      forall j | 0 <= j < |s.pending[q].reserved| ensures s'.pool.Private(s.pending[q].reserved[j]) {
        assert s.pending[q].reserved[j] in ReservedOf(s, q);
        PrivateFrame(s, s', r, taken, dropped, q, s.pending[q].reserved[j]);
      }
    }
    if q in s.tables {
      forall j | 0 <= j < |s.tables[q]| && Writable(cfg, s', q, j) ensures s'.pool.Private(s.tables[q][j]) {
        assert s.tables[q][j] in TableOf(s, q);
        assert Writable(cfg, s, q, j);
        PrivateFrame(s, s', r, taken, dropped, q, s.tables[q][j]);
      }
    }
  }

  lemma DomainKeeps(s: Sched, s': Sched, r: RequestId)
    requires Domain(s) && Local(s, s', r)
    ensures Domain(s')
  {
    forall q | q in s'.tables.Keys + s'.pending.Keys + s'.active.Keys + s'.deferred.Keys ensures q in s'.requests {
      if q != r {
        assert SameAt(s, s', q);
        assert q in s.tables.Keys + s.pending.Keys + s.active.Keys + s.deferred.Keys;
      }
    }
  }

  /** The frame rule behind every operation below. */
  lemma StepKeeps(cfg: Config, s: Sched, s': Sched, r: RequestId, taken: multiset<BlockId>, dropped: multiset<BlockId>)
    requires cfg.Valid() && Inv(cfg, s) && Local(s, s', r) && Books(s, s', r, taken, dropped)
    requires RequestOk(cfg, s', r)
    ensures Inv(cfg, s')
  {
    Rebalances(s, s', r, taken, dropped);
    DomainKeeps(s, s', r);
    forall q | q in s'.requests ensures RequestOk(cfg, s', q) {
      if q != r { OthersKeep(cfg, s, s', r, taken, dropped, q); }
    }
  }
}
