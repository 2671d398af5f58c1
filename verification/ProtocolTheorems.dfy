// Safety of every run: what the invariants mean to the scheduler, the worker and the block pool.

module ProtocolTheorems {
  import opened Common
  import opened Ledger
  import opened SchedulerModel
  import opened SchedulerInvariant
  import opened SchedulerSteps
  import opened WorkerModel
  import opened Agreement
  import opened Schedule
  import opened Dispatch
  import opened Protocol
  import opened ProtocolInvariant
  import opened AcknowledgeStep
  import opened PassStep

  /** A finite run of the two parties and the queue between them. */
  ghost predicate IsRun(cfg: Config, select: Selector, states: seq<System>, events: seq<Event>)
    requires cfg.Valid()
  {
    && |states| == |events| + 1
    && Initial(states[0])
    && forall i :: 0 <= i < |events| ==> Next(cfg, select, states[i], events[i], states[i + 1])
  }

  lemma StepPreserves(cfg: Config, select: Selector, sys: System, e: Event, sys': System)
    requires cfg.Valid() && GoodSelector(cfg, select)
    requires SystemInv(cfg, select, sys) && Next(cfg, select, sys, e, sys')
    ensures SystemInv(cfg, select, sys')
  {
    hide SystemInv, Next, GoodSelector;
    match e
    case EAdd(_, _, _) => AddPreserves(cfg, select, sys, e, sys');
    case EFinish(_) => FreedPreserves(cfg, select, sys, e, sys');
    case EPreempt(_) => FreedPreserves(cfg, select, sys, e, sys');
    case ERollback(_, _) => RollbackPreserves(cfg, select, sys, e, sys');
    case ESchedule(_) => SchedulePreserves(cfg, select, sys, e, sys');
    case EExecute =>
      ExecuteEnabled(cfg, select, sys, sys');
      ExecutePreserves(cfg, select, sys, sys');
    case EAcknowledge(_, _, _) => AcknowledgePreserves(cfg, select, sys, e, sys');
  }

  /** Every state of every run satisfies the system invariant. */
  lemma {:induction false} RunsKeepInvariant(cfg: Config, select: Selector, states: seq<System>, events: seq<Event>, i: nat)
    requires cfg.Valid() && GoodSelector(cfg, select) && IsRun(cfg, select, states, events) && i < |states|
    ensures SystemInv(cfg, select, states[i])
    decreases i
  {
    hide SystemInv, Next, GoodSelector, Initial;
    if i == 0 {
      InitialInv(cfg, select, states[0]);
    } else {
      RunsKeepInvariant(cfg, select, states, events, i - 1);
      StepPreserves(cfg, select, states[i - 1], events[i - 1], states[i]);
    }
  }

  // ---------------------------------------------------------------- the two parties agree

  /** Whenever the worker runs an output, its tables and anchors are the ones the scheduler had when it
      issued that output, no check fails, and every attached plan is executed. */
  lemma WorkerFollowsScheduler(cfg: Config, select: Selector, states: seq<System>, events: seq<Event>, i: nat)
    requires cfg.Valid() && GoodSelector(cfg, select) && IsRun(cfg, select, states, events)
    requires i < |events| && events[i].EExecute?
    ensures states[i].executed < |states[i].flight|
    ensures RunsAs(cfg, select, states[i].w, states[i].flight[states[i].executed])
  {
    hide SystemInv, GoodSelector, Initial, RunsAs;
    RunsKeepInvariant(cfg, select, states, events, i);
    ExecuteEnabled(cfg, select, states[i], states[i + 1]);
    ExecutePreserves(cfg, select, states[i], states[i + 1]);
  }

  /** The event makes one of the scheduler's hooks raise: a table that changed under a waiting
      compression at commit, or too few blocks at arming. */
  ghost predicate HookRaises(cfg: Config, sys: System, e: Event)
    requires cfg.Valid()
  {
    match e
    case EAcknowledge(acks, draining, waiting) =>
      && cfg.asynchronous && sys.flight != []
      && (forall k :: 0 <= k < |acks| ==> acks[k] in sys.flight[0].out.plans)
      && CommitLoopRaises(DrainAll(AcknowledgeAll(sys.s, acks, sys.flight[0].out.plans), draining), waiting, cfg.Defer())
    case ESchedule(p) =>
      || (!cfg.asynchronous && CommitLoopRaises(ResetAll(sys.s, p.finished), p.waiting, 0))
      || (PassEnabled(cfg, sys.s, p)
          && var h := Hosted(cfg, sys.s, p);
             ArmingRaises(cfg, ResetAll(h.s, p.resets), h.out.order, p.drafts, p.supply))
    case _ => false
  }

  lemma AcknowledgeNeverRaises(cfg: Config, select: Selector, sys: System, e: Event)
    requires cfg.Valid() && SystemInv(cfg, select, sys) && e.EAcknowledge?
    requires sys.flight != [] ==> Enumerates(e.draining, sys.s.deferred.Keys)
    ensures !HookRaises(cfg, sys, e)
  {
    hide Inv, Replay, Faithful, Agree, CeilDiv, CommitRaises, Commit;
    if cfg.asynchronous && sys.flight != [] && forall k :: 0 <= k < |e.acks| ==> e.acks[k] in sys.flight[0].out.plans {
      var lw := Logical(cfg, select, sys);
      var t := AcknowledgeAll(sys.s, e.acks, sys.flight[0].out.plans);
      AcknowledgeAllEffect(cfg, sys.s, e.acks, sys.flight[0].out.plans, lw);
      DrainAllEffect(cfg, t, e.draining, lw);
      CommitAllNeverRaises(cfg, DrainAll(t, e.draining), e.waiting, cfg.Defer());
    }
  }

  lemma ScheduleNeverRaises(cfg: Config, select: Selector, sys: System, e: Event, sys': System)
    requires cfg.Valid() && SystemInv(cfg, select, sys) && e.ESchedule? && Next(cfg, select, sys, e, sys')
    ensures !HookRaises(cfg, sys, e)
  {
    hide Inv, Agree, Replay, Faithful, CeilDiv, Operate, Enabled, CacheBlocks, Mirrors, Waiting, Building, CommitRaises, Commit, Arm, Arms;
    var p := e.pass;
    FinishedIdle(cfg, sys.s, p.finished);
    CommitAllNeverRaises(cfg, sys.s, p.waiting, 0);
    HostedBuilds(cfg, select, sys, p);
    ArmedInv(cfg, Logical(cfg, select, sys), Hosted(cfg, sys.s, p), p.drafts, p.supply);
  }

  /** Neither scheduler hook ever meets one of its errors. */
  lemma SchedulerNeverRaises(cfg: Config, select: Selector, states: seq<System>, events: seq<Event>, i: nat)
    requires cfg.Valid() && GoodSelector(cfg, select) && IsRun(cfg, select, states, events) && i < |events|
    ensures !HookRaises(cfg, states[i], events[i])
  {
    hide SystemInv, GoodSelector, Initial, HookRaises;
    RunsKeepInvariant(cfg, select, states, events, i);
    assert Next(cfg, select, states[i], events[i], states[i + 1]);
    if events[i].EAcknowledge? {
      AcknowledgeNeverRaises(cfg, select, states[i], events[i]);
    } else if events[i].ESchedule? {
      ScheduleNeverRaises(cfg, select, states[i], events[i], states[i + 1]);
    } else {
      OthersNeverRaise(cfg, states[i], events[i]);
    }
  }

  lemma OthersNeverRaise(cfg: Config, sys: System, e: Event)
    requires cfg.Valid() && !e.EAcknowledge? && !e.ESchedule?
    ensures !HookRaises(cfg, sys, e)
  {
  }

  lemma FinishedIdle(cfg: Config, s: Sched, finished: seq<RequestId>)
    requires cfg.Valid() && Inv(cfg, s) && Owing(s) && Enumerates(finished, s.finished)
    ensures ResetAll(s, finished) == s
  {
    hide Inv, CeilDiv;
    forall i | 0 <= i < |finished| ensures finished[i] !in s.pending && finished[i] !in s.active {
      IdleWithoutTable(cfg, s, finished[i]);
    }
    ResetAllIdle(s, finished);
  }

  // ---------------------------------------------------------------- blocks

  /** Reference counts are exactly the holdings, and no block was freed beyond them; when every request has
      gone, every block is free. */
  lemma BlocksConserved(cfg: Config, select: Selector, states: seq<System>, events: seq<Event>, i: nat)
    requires cfg.Valid() && GoodSelector(cfg, select) && IsRun(cfg, select, states, events) && i < |states|
    ensures states[i].s.pool.refs == Sum(Holdings(states[i].s)) && !states[i].s.pool.overdrawn
    ensures states[i].s.requests == map[] ==> states[i].s.pool.refs == multiset{}
    ensures states[i].s.tables == map[] ==> states[i].s.pool.refs == multiset{}
  {
    hide GoodSelector, IsRun, CeilDiv;
    RunsKeepInvariant(cfg, select, states, events, i);
    var s := states[i].s;
    assert s.requests == map[] ==> Holdings(s) == map[];
    if s.tables == map[] {
      forall r | r in s.requests ensures Holdings(s)[r] == multiset{} {
        assert RequestOk(cfg, s, r);
        NothingHeld(s, r);
      }
      EmptySum(Holdings(s));
    }
  }

  lemma {:induction false} EmptySum<K, B>(m: map<K, multiset<B>>)
    requires forall k :: k in m ==> m[k] == multiset{}
    ensures Sum(m) == multiset{}
    decreases |m|
  {
    if m != map[] {
      var k :| k in m;
      RemoveShrinks(m, k);
      Split(m, k);
      EmptySum(m - {k});
    }
  }

  /** Block `b` has one holder, which holds it once, and no prefix lookup can find it. */
  ghost predicate Unshared(s: Sched, r: RequestId, b: BlockId) {
    && Held(s, r)[b] == 1
    && (forall q :: q in s.requests && q != r ==> b !in Held(s, q))
    && b !in s.pool.hashed
  }

  lemma PrivateUnshared(s: Sched, r: RequestId, b: BlockId)
    requires Balanced(s) && r in s.requests && s.pool.Private(b) && b in Held(s, r)
    ensures Unshared(s, r, b)
  {
    hide Held;
    HeldOnce(s, r, b);
    forall q | q in s.requests && q != r ensures b !in Held(s, q) { Exclusive(s, r, q, b); }
  }

  /** The whole table of a compressed request and the destination of a waiting one are private. */
  lemma CompressedTablesPrivate(cfg: Config, select: Selector, states: seq<System>, events: seq<Event>, i: nat, r: RequestId, b: BlockId)
    requires cfg.Valid() && GoodSelector(cfg, select) && IsRun(cfg, select, states, events) && i < |states|
    requires var s := states[i].s; (r in s.active && b in TableOf(s, r)) || (r in s.pending && b in s.pending[r].reserved)
    ensures r in states[i].s.requests && Unshared(states[i].s, r, b)
  {
    hide GoodSelector, IsRun, CeilDiv, Blocks, Unshared, Pool.Private;
    RunsKeepInvariant(cfg, select, states, events, i);
    var s := states[i].s;
    SchedulerSteps.Known(s, r);
    assert RequestOk(cfg, s, r);
    if r in s.active && b in TableOf(s, r) {
      var j :| 0 <= j < |s.tables[r]| && s.tables[r][j] == b;
      assert Writable(cfg, s, r, j);
      InTable(s, r, j);
    } else {
      var j :| 0 <= j < |s.pending[r].reserved| && s.pending[r].reserved[j] == b;
      InReserved(s, r, j);
    }
    PrivateUnshared(s, r, b);
  }

  /** While a batch of a live request is in flight, none of the blocks it uses can be handed out, neither
      those of the table it reads and writes nor those of the destination it fills. */
  lemma InFlightBlocksHeld(cfg: Config, select: Selector, states: seq<System>, events: seq<Event>, i: nat, k: nat, r: RequestId, b: BlockId)
    requires cfg.Valid() && GoodSelector(cfg, select) && IsRun(cfg, select, states, events) && i < |states|
    requires k < |states[i].flight| && r in states[i].flight[k].live
    requires var f := states[i].flight[k];
      (r in f.tables && b in f.tables[r]) || (r in f.out.plans && b in f.out.plans[r].destination)
    ensures states[i].s.pool.refs[b] >= 1
  {
    hide GoodSelector, IsRun, CeilDiv, RequestOk, Replay, Faithful, Agree;
    RunsKeepInvariant(cfg, select, states, events, i);
    var s := states[i].s;
    assert ProtectedFor(s, states[i].flight[k], r, k);
    SchedulerSteps.Known(s, r);
    assert b in Held(s, r) by {
      RequestFacts(cfg, s, r);
      DestinationHeldHeld(cfg, s, r, b, k);
    }
    HeldWithin(s, r);
  }

  lemma DestinationHeldHeld(cfg: Config, s: Sched, r: RequestId, b: BlockId, i: nat)
    requires cfg.Valid() && r in s.requests && RequestOk(cfg, s, r) && DestinationHeld(s, r, b, i)
    ensures b in Held(s, r)
  {
    hide Blocks, HeldThrough, CeilDiv, Held;
    PartsHeld(s, r);
    if HeldThrough(s, r, b, i) { HeldThroughHeld(s, r, b, i); }
  }

  lemma HeldThroughHeld(s: Sched, r: RequestId, b: BlockId, i: nat)
    requires HeldThrough(s, r, b, i)
    ensures b in Held(s, r)
  {
    hide Blocks;
    if b in TableOf(s, r) {
      assert b in multiset(TableOf(s, r));
    } else {
      var rs := ReleasesOf(s, r);
      var k :| 0 <= k < |rs| && rs[k].remaining > i && b in rs[k].blocks;
      InBlocks(rs, k, b);
    }
  }

  lemma InBlocks(rs: seq<Release>, k: nat, b: BlockId)
    requires k < |rs| && b in rs[k].blocks
    ensures b in Blocks(rs)
  {
    if k > 0 { InBlocks(rs[1..], k - 1, b); }
  }

  /** A release that this acknowledgement lets go was created after only acknowledged outputs:
      everything issued before its commit has been acknowledged by now. */
  lemma DrainsAfterEarlierBatches(cfg: Config, select: Selector, states: seq<System>, events: seq<Event>, i: nat, r: RequestId, k: nat)
    requires cfg.Valid() && GoodSelector(cfg, select) && IsRun(cfg, select, states, events)
    requires i < |events| && events[i].EAcknowledge?
    requires k < |ReleasesOf(states[i].s, r)| && ReleasesOf(states[i].s, r)[k].remaining <= 1
    ensures ReleasesOf(states[i].s, r)[k].stamp <= states[i + 1].acked
  {
    hide GoodSelector, Initial, CeilDiv, Inv, Replay, Faithful, Agree, AfterOutput;
    RunsKeepInvariant(cfg, select, states, events, i);
    assert Stamped(states[i].s, states[i].acked);
  }

  // ---------------------------------------------------------------- freezing

  /** With nothing in flight no request is stranded: an asynchronous scheduler waits for nothing, a
      synchronous one has every acknowledgement it needs to commit at its next pass. Requests are frozen
      exactly while they wait. */
  lemma NobodyStranded(cfg: Config, select: Selector, states: seq<System>, events: seq<Event>, i: nat)
    requires cfg.Valid() && GoodSelector(cfg, select) && IsRun(cfg, select, states, events) && i < |states|
    ensures var s := states[i].s;
      && (states[i].flight == [] ==>
            && (cfg.asynchronous ==> s.pending == map[])
            && (forall r :: r in s.pending ==> s.pending[r].ready))
      && (forall r :: r in s.requests ==> (s.requests[r].eligible < FROZEN <==> !(cfg.asynchronous && r in s.pending)))
  {
    hide GoodSelector, IsRun, CeilDiv, Replay, Faithful, Agree, Balanced, TableOk, ActiveOk, ReleasesOk;
    RunsKeepInvariant(cfg, select, states, events, i);
    var s := states[i].s;
    if states[i].flight == [] {
      assert forall r, plan :: !PlanInFlight(states[i].flight, r, plan);
      if cfg.asynchronous {
        assert forall r :: r !in s.pending;
        assert s.pending == map[];
      }
    }
    forall r | r in s.requests ensures s.requests[r].eligible < FROZEN <==> !(cfg.asynchronous && r in s.pending) {
      assert RequestOk(cfg, s, r);
    }
  }

  // ---------------------------------------------------------------- lengths

  /** A commit makes the number of removed tokens positive, and larger than it was. */
  lemma RecompressionGrows(cfg: Config, s: Sched, r: RequestId, defer: nat)
    requires cfg.Valid() && Inv(cfg, s) && Commits(s, r)
    ensures var t := Commit(s, r, defer);
      && r in t.active && t.active[r].Removed() > Removed(Get(s.active, r)) >= 0
      && Physical(t, r) == cfg.budget < Physical(s, r)
      && |t.tables[r]| * cfg.blockSize == cfg.budget
  {
    hide CeilDiv, Balanced, Blocks;
    RequestFacts(cfg, s, r);
  }

  /** A position computed since the last compression, minus the offset, falls inside the table. */
  lemma PositionInTable(cfg: Config, s: Sched, r: RequestId, p: nat)
    requires cfg.Valid() && Inv(cfg, s) && r in s.tables && r in s.requests && p < s.requests[r].computed
    requires r in s.active ==> s.active[r].semantic <= p
    ensures 0 <= p - Removed(Get(s.active, r)) < |s.tables[r]| * cfg.blockSize
    ensures r in s.active ==> p - Removed(Get(s.active, r)) >= cfg.budget
  {
    hide CeilDiv, Balanced, Blocks;
    RequestFacts(cfg, s, r);
  }

  /** A block that a request may still write occurs once in its table. */
  lemma WritableBlockUnique(cfg: Config, s: Sched, r: RequestId, k: nat, j: nat)
    requires cfg.Valid() && Inv(cfg, s) && r in s.tables && r in s.requests
    requires k < |s.tables[r]| && j < |s.tables[r]| && k != j && Writable(cfg, s, r, j)
    ensures s.tables[r][k] != s.tables[r][j]
  {
    hide CeilDiv, Blocks, Held, Inv, Balanced, Writable;
    RequestFacts(cfg, s, r);
    var table := s.tables[r];
    assert s.pool.Private(table[j]);
    HeldOnce(s, r, table[j]);
    TableInHeld(s, r);
    if table[k] == table[j] { RepeatedTwice(table, if k < j then k else j, if k < j then j else k); }
  }

  /** Nobody else holds such a block. */
  lemma WritableBlockExclusive(cfg: Config, s: Sched, r: RequestId, j: nat)
    requires cfg.Valid() && Inv(cfg, s) && r in s.tables && r in s.requests && j < |s.tables[r]| && Writable(cfg, s, r, j)
    ensures forall q :: q in s.requests && q != r ==> s.tables[r][j] !in Held(s, q)
  {
    hide CeilDiv, Held, Inv, Balanced, Writable;
    RequestFacts(cfg, s, r);
    assert s.pool.Private(s.tables[r][j]);
    InTable(s, r, j);
    TableInHeld(s, r);
    forall q | q in s.requests && q != r ensures s.tables[r][j] !in Held(s, q) {
      Exclusive(s, r, q, s.tables[r][j]);
    }
  }

  /** So a slot in such a block differs from every other slot of the same request. */
  lemma SlotsDistinct(table: seq<BlockId>, bs: nat, p: nat, q: nat)
    requires bs > 0 && p != q && p / bs < |table| && q / bs < |table|
    requires forall k :: 0 <= k < |table| && k != q / bs ==> table[k] != table[q / bs]
    ensures At(table, bs, p) != At(table, bs, q)
  {
    if p / bs == q / bs {
      assert p == p / bs * bs + p % bs && q == q / bs * bs + q % bs;
    }
  }

  lemma TableInHeld(s: Sched, r: RequestId)
    ensures multiset(TableOf(s, r)) <= Held(s, r)
  {
    hide Blocks;
  }
}
