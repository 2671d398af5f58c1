// No block is freed twice: every reference that is given back was held, at the very moment it is given back.

module ReturnTheorems {
  import opened Common
  import opened Ledger
  import opened SchedulerModel
  import opened SchedulerInvariant
  import opened SchedulerSteps
  import opened WorkerModel
  import opened Schedule
  import opened Dispatch
  import opened Protocol
  import opened ProtocolInvariant
  import opened ProtocolTheorems

  // ---------------------------------------------------------------- what each operation gives back

  predicate DiscardOwed(s: Sched, r: RequestId) {
    multiset(ReservedOf(s, r)) <= s.pool.refs
  }

  predicate CommitOwed(s: Sched, r: RequestId, defer: nat) {
    r in s.pending && s.pending[r].ready ==>
      if Commits(s, r) then CommitDrops(s, r, defer) <= s.pool.refs else DiscardOwed(s, r)
  }

  predicate DrainOwed(s: Sched, r: RequestId) {
    Expired(ReleasesOf(s, r)) <= s.pool.refs
  }

  /** The `free` wrapper gives back the reservation, then the deferred releases, then the table. */
  predicate FreeOwed(s: Sched, r: RequestId) {
    var reserved, releases := multiset(ReservedOf(s, r)), Blocks(ReleasesOf(s, r));
    && reserved <= s.pool.refs
    && releases <= s.pool.Drop(reserved).refs
    && multiset(TableOf(s, r)) <= s.pool.Drop(reserved).Drop(releases).refs
  }

  predicate ResetAllOwed(s: Sched, ids: seq<RequestId>)
    decreases |ids|
  {
    ids == [] || (DiscardOwed(s, ids[0]) && ResetAllOwed(Reset(s, ids[0]), ids[1..]))
  }

  predicate CommitAllOwed(s: Sched, ids: seq<RequestId>, defer: nat)
    decreases |ids|
  {
    ids == [] || (CommitOwed(s, ids[0], defer) && CommitAllOwed(Commit(s, ids[0], defer), ids[1..], defer))
  }

  predicate DrainAllOwed(s: Sched, ids: seq<RequestId>)
    decreases |ids|
  {
    ids == [] || (DrainOwed(s, ids[0]) && DrainAllOwed(Drain(s, ids[0]), ids[1..]))
  }

  predicate OperateAllOwed(cfg: Config, b: Build, ops: seq<HostOp>)
    requires AllEnabled(cfg, b, ops)
    decreases |ops|
  {
    ops == [] || ((ops[0].HPreempt? ==> FreeOwed(b.s, ops[0].r)) && OperateAllOwed(cfg, Operate(cfg, b, ops[0]), ops[1..]))
  }

  /** Everything that one event gives back is referenced when it is given back, each return being judged in
      the state that the earlier ones have left. */
  ghost predicate EventOwed(cfg: Config, sys: System, e: Event)
    requires cfg.Valid()
  {
    match e
    case EAdd(_, _, _) => true
    case EExecute => true
    case EFinish(r) => FreeOwed(sys.s, r)
    case EPreempt(r) => FreeOwed(sys.s, r)
    case ERollback(_, _) => true
    case EAcknowledge(acks, draining, waiting) =>
      cfg.asynchronous ==>
        && sys.flight != [] && (forall i :: 0 <= i < |acks| ==> acks[i] in sys.flight[0].out.plans)
        && var t := AcknowledgeAll(sys.s, acks, sys.flight[0].out.plans);
        && DrainAllOwed(t, draining)
        && CommitAllOwed(DrainAll(t, draining), waiting, cfg.Defer())
    case ESchedule(p) =>
      && PassEnabled(cfg, sys.s, p)
      && ResetAllOwed(sys.s, p.finished)
      && (!cfg.asynchronous ==> CommitAllOwed(ResetAll(sys.s, p.finished), p.waiting, 0))
      && (var t := BeforeSchedule(cfg, sys.s, p.finished, p.waiting); OperateAllOwed(cfg, Build(t, Opening(t)), p.ops))
      && ResetAllOwed(Hosted(cfg, sys.s, p).s, p.resets)
  }

  // ---------------------------------------------------------------- a clean record means all was owed

  // A return that is not covered marks the pool for good, so that a clean pool has a clean past.

  lemma DiscardOwes(s: Sched, r: RequestId)
    requires !Discard(s, r).pool.overdrawn
    ensures !s.pool.overdrawn && DiscardOwed(s, r)
  {
  }

  lemma CommitOwes(s: Sched, r: RequestId, defer: nat)
    requires !Commit(s, r, defer).pool.overdrawn
    ensures !s.pool.overdrawn && CommitOwed(s, r, defer)
  {
  }

  lemma DrainOwes(s: Sched, r: RequestId)
    requires !Drain(s, r).pool.overdrawn
    ensures !s.pool.overdrawn && DrainOwed(s, r)
  {
    hide Retained;
  }

  lemma FreeOwes(s: Sched, r: RequestId)
    requires !s.pool.Drop(Held(s, r)).overdrawn
    ensures !s.pool.overdrawn && FreeOwed(s, r)
  {
    hide Blocks, TableOf, ReservedOf, ReleasesOf;
    InSequence(s.pool.refs, multiset(ReservedOf(s, r)), Blocks(ReleasesOf(s, r)), multiset(TableOf(s, r)));
  }

  lemma InSequence<B>(refs: multiset<B>, a: multiset<B>, b: multiset<B>, c: multiset<B>)
    requires c + a + b <= refs
    ensures a <= refs && b <= refs - a && c <= refs - a - b
  {
    forall x ensures a[x] <= refs[x] && b[x] <= (refs - a)[x] && c[x] <= (refs - a - b)[x] {
      assert (c + a + b)[x] <= refs[x];
    }
  }

  lemma {:induction false} ResetAllOwes(s: Sched, ids: seq<RequestId>)
    requires !ResetAll(s, ids).pool.overdrawn
    ensures !s.pool.overdrawn && ResetAllOwed(s, ids)
    decreases |ids|
  {
    hide Discard, DiscardOwed;
    if ids != [] {
      ResetAllOwes(Reset(s, ids[0]), ids[1..]);
      DiscardOwes(s, ids[0]);
    }
  }

  lemma {:induction false} CommitAllOwes(s: Sched, ids: seq<RequestId>, defer: nat)
    requires !CommitAll(s, ids, defer).pool.overdrawn
    ensures !s.pool.overdrawn && CommitAllOwed(s, ids, defer)
    decreases |ids|
  {
    hide Commit, CommitOwed;
    if ids != [] {
      CommitAllOwes(Commit(s, ids[0], defer), ids[1..], defer);
      CommitOwes(s, ids[0], defer);
    }
  }

  lemma {:induction false} DrainAllOwes(s: Sched, ids: seq<RequestId>)
    requires !DrainAll(s, ids).pool.overdrawn
    ensures !s.pool.overdrawn && DrainAllOwed(s, ids)
    decreases |ids|
  {
    hide Drain, DrainOwed;
    if ids != [] {
      DrainAllOwes(Drain(s, ids[0]), ids[1..]);
      DrainOwes(s, ids[0]);
    }
  }

  lemma OperateOwes(cfg: Config, b: Build, op: HostOp)
    requires Enabled(cfg, b, op) && !Operate(cfg, b, op).s.pool.overdrawn
    ensures !b.s.pool.overdrawn && (op.HPreempt? ==> FreeOwed(b.s, op.r))
  {
    hide Held, FreeOwed, CanGrow, CanAdmit;
    if op.HPreempt? { FreeOwes(b.s, op.r); }
  }

  lemma {:induction false} OperateAllOwes(cfg: Config, b: Build, ops: seq<HostOp>)
    requires AllEnabled(cfg, b, ops) && !OperateAll(cfg, b, ops).s.pool.overdrawn
    ensures !b.s.pool.overdrawn && OperateAllOwed(cfg, b, ops)
    decreases |ops|
  {
    hide Operate, Enabled, FreeOwed;
    if ops != [] {
      OperateAllOwes(cfg, Operate(cfg, b, ops[0]), ops[1..]);
      OperateOwes(cfg, b, ops[0]);
    }
  }

  lemma {:induction false} CacheAllPool(s: Sched, caches: seq<(RequestId, nat)>)
    ensures CacheAll(s, caches).pool.overdrawn == s.pool.overdrawn
    decreases |caches|
  {
    if caches != [] { CacheAllPool(CacheBlocks(s, caches[0].0, caches[0].1), caches[1..]); }
  }

  lemma {:induction false} ArmAllPool(cfg: Config, s: Sched, order: seq<RequestId>, drafts: set<RequestId>, supply: Supply)
    requires cfg.Valid()
    ensures ArmAll(cfg, s, order, drafts, supply).pool.overdrawn == s.pool.overdrawn
    decreases |order|
  {
    hide Arms, CeilDiv, PlanFor;
    if order != [] {
      ArmAllPool(cfg, Arm(cfg, s, order[0], order[0] in drafts, supply(order[0])), order[1..], drafts, supply);
    }
  }

  lemma ScheduleOwes(cfg: Config, select: Selector, sys: System, e: Event, sys': System)
    requires cfg.Valid() && e.ESchedule? && Next(cfg, select, sys, e, sys') && !sys'.s.pool.overdrawn
    ensures EventOwed(cfg, sys, e)
  {
    hide ResetAll, CommitAll, OperateAll, AllEnabled, CacheAll, ArmAll, PlansOf, AllCacheable, CanArmAll,
      ResetAllOwed, CommitAllOwed, OperateAllOwed, PassSnapshots, Snapshot;
    var p := e.pass;
    var h := Hosted(cfg, sys.s, p);
    var t := BeforeSchedule(cfg, sys.s, p.finished, p.waiting);
    ArmAllPool(cfg, ResetAll(h.s, p.resets), h.out.order, p.drafts, p.supply);
    ResetAllOwes(h.s, p.resets);
    CacheAllPool(OperateAll(cfg, Build(t, Opening(t)), p.ops).s, p.caches);
    OperateAllOwes(cfg, Build(t, Opening(t)), p.ops);
    if !cfg.asynchronous { CommitAllOwes(ResetAll(sys.s, p.finished), p.waiting, 0); }
    ResetAllOwes(sys.s, p.finished);
  }

  lemma AcknowledgeOwes(cfg: Config, select: Selector, sys: System, e: Event, sys': System)
    requires cfg.Valid() && e.EAcknowledge? && Next(cfg, select, sys, e, sys') && !sys'.s.pool.overdrawn
    ensures EventOwed(cfg, sys, e)
  {
    hide AcknowledgeAll, DrainAll, CommitAll, DrainAllOwed, CommitAllOwed;
    if cfg.asynchronous {
      var t := AcknowledgeAll(sys.s, e.acks, sys.flight[0].out.plans);
      CommitAllOwes(DrainAll(t, e.draining), e.waiting, cfg.Defer());
      DrainAllOwes(t, e.draining);
    }
  }

  lemma EventOwes(cfg: Config, select: Selector, sys: System, e: Event, sys': System)
    requires cfg.Valid() && Next(cfg, select, sys, e, sys') && !sys'.s.pool.overdrawn
    ensures EventOwed(cfg, sys, e)
  {
    hide Held, FreeOwed, Execute, Scheduled, AfterOutput;
    match e
    case EAdd(_, _, _) =>
    case EExecute =>
    case EFinish(r) => FreeOwes(sys.s, r);
    case EPreempt(r) => FreeOwes(sys.s, r);
    case ERollback(_, _) =>
    case ESchedule(_) => ScheduleOwes(cfg, select, sys, e, sys');
    case EAcknowledge(_, _, _) => AcknowledgeOwes(cfg, select, sys, e, sys');
  }

  // ---------------------------------------------------------------- whole runs

  /** In every step of every run each block that a discard, commit, drain or free gives back is referenced
      at that moment, so that no block is ever freed twice. */
  lemma NothingFreedTwice(cfg: Config, select: Selector, states: seq<System>, events: seq<Event>, i: nat)
    requires cfg.Valid() && GoodSelector(cfg, select) && IsRun(cfg, select, states, events) && i < |events|
    ensures EventOwed(cfg, states[i], events[i])
    ensures !states[i + 1].s.pool.overdrawn
  {
    hide GoodSelector, Next, EventOwed, Initial, Counted, Owing, Mirrors, Faithful, Waiting, Protected, Stamped, RequestOk, Domain;
    RunsKeepInvariant(cfg, select, states, events, i + 1);
    EventOwes(cfg, select, states[i], events[i], states[i + 1]);
  }

  // ---------------------------------------------------------------- exactly once

  /** A step that only gives blocks back keeps the books if and only if it gives back exactly what the
      request no longer holds: a block forgotten or returned once too often breaks them. */
  lemma BalancedExactly(s: Sched, s': Sched, r: RequestId, returned: multiset<BlockId>)
    requires Balanced(s) && Local(s, s', r) && s'.pool == s.pool.Drop(returned)
    ensures Balanced(s') <==> Held(s', r) + returned == Held(s, r)
  {
    hide Held, Local, SameAt;
    var refs, before, after := s.pool.refs, Held(s, r), Held(s', r);
    LocalKnown(s, s', r);
    HoldingsAfter(s, s', r);
    Replace(Holdings(s), r, after);
    HeldWithin(s, r);
    var sum' := Sum(Holdings(s'));
    assert sum' + before == refs + after;
    if after + returned == before {
      Rebalanced(refs, sum', before, after, multiset{}, returned);
      assert refs + multiset{} == refs;
      assert before + multiset{} == before;
    } else if returned <= refs && refs - returned == sum' {
      forall b ensures (after + returned)[b] == before[b] {
        assert (sum' + before)[b] == (refs + after)[b];
        assert returned[b] <= refs[b];
      }
      assert false;
    }
  }

  lemma LocalKnown(s: Sched, s': Sched, r: RequestId)
    requires Local(s, s', r)
    ensures r in s.requests && r in Holdings(s)
  {
  }

  /** Freeing a request returns each of its references exactly once, or the books no longer balance. */
  lemma FreedExactlyOnce(cfg: Config, s: Sched, r: RequestId, returned: multiset<BlockId>)
    requires cfg.Valid() && Inv(cfg, s) && r in s.requests
    ensures Inv(cfg, Free(s, r).(pool := s.pool.Drop(returned))) <==> returned == Held(s, r)
  {
    hide Held, RequestOk, CeilDiv;
    var s' := Free(s, r).(pool := s.pool.Drop(returned));
    FreeLocal(s, s', r, returned);
    NothingHeld(s', r);
    BalancedExactly(s, s', r, returned);
    assert multiset{} + returned == returned;
    if returned == Held(s, r) {
      assert s' == Free(s, r);
      FreeKeeps(cfg, s, r);
    }
  }

  /** Returning a waiting compression's reservation a second time shows, although no count can fall further. */
  lemma SecondReturnShows(cfg: Config, s: Sched, r: RequestId)
    requires cfg.Valid() && Inv(cfg, s) && r in s.pending
    ensures !s.pool.Drop(Held(s, r)).overdrawn && s.pool.Drop(Held(s, r) + multiset(ReservedOf(s, r))).overdrawn
  {
    hide CeilDiv, Blocks, Balanced;
    RequestFacts(cfg, s, r);
    SchedulerSteps.Known(s, r);
    KeepPositive(cfg);
    HeldWithin(s, r);
    NotOverdrawn(s);
    var b := s.pending[r].reserved[0];
    InReserved(s, r, 0);
    PartsHeld(s, r);
    assert (Held(s, r) + multiset(ReservedOf(s, r)))[b] >= 2 > s.pool.refs[b];
  }

  lemma NotOverdrawn(s: Sched)
    requires Balanced(s)
    ensures !s.pool.overdrawn
  {
  }

  lemma FreeLocal(s: Sched, s': Sched, r: RequestId, returned: multiset<BlockId>)
    requires r in s.requests && s' == Free(s, r).(pool := s.pool.Drop(returned))
    ensures Local(s, s', r) && r !in s'.tables && r !in s'.pending && r !in s'.deferred
  {
    hide Held;
  }
}
