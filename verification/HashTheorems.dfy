// The host's count of prefix-cached blocks never counts a block that carries no prefix hash.

module HashTheorems {
  import opened Common
  import opened SchedulerModel
  import opened SchedulerInvariant
  import opened SchedulerSteps
  import opened WorkerModel
  import opened Agreement
  import opened Schedule
  import opened Dispatch
  import opened Protocol
  import opened ProtocolInvariant
  import opened AcknowledgeStep
  import opened PassStep
  import opened ProtocolTheorems

  /** The first `cached` blocks of a request's table are registered under a prefix hash. */
  ghost predicate RegisteredAt(s: Sched, r: RequestId) {
    r in s.cached ==>
      && r in s.tables && s.cached[r] <= |s.tables[r]|
      && forall j :: 0 <= j < s.cached[r] ==> s.tables[r][j] in s.pool.hashed
  }

  ghost predicate Registered(s: Sched) {
    forall r :: RegisteredAt(s, r)
  }

  /** Hashes stay on blocks that someone references; a request's row stays, or is the step's own. */
  ghost predicate HashFrame(s: Sched, t: Sched, r: RequestId) {
    && (forall b :: b in s.pool.hashed && s.pool.refs[b] > 0 ==> b in t.pool.hashed)
    && forall q :: q != r ==> Get(t.cached, q) == Get(s.cached, q) && Get(t.tables, q) == Get(s.tables, q)
  }

  lemma TableReferenced(s: Sched, r: RequestId, j: nat)
    requires Balanced(s) && Domain(s) && r in s.tables && j < |s.tables[r]|
    ensures s.pool.refs[s.tables[r][j]] > 0
  {
    hide Held;
    SchedulerSteps.Known(s, r);
    InTable(s, r, j);
    TableInHeld(s, r);
    HeldWithin(s, r);
  }

  lemma RegisteredFrame(s: Sched, t: Sched, r: RequestId)
    requires Balanced(s) && Domain(s) && Registered(s) && HashFrame(s, t, r) && RegisteredAt(t, r)
    ensures Registered(t)
  {
    hide Balanced;
    forall q ensures RegisteredAt(t, q) {
      if q != r && q in t.cached {
        assert Get(t.cached, q) == Get(s.cached, q) && Get(t.tables, q) == Get(s.tables, q);
        assert RegisteredAt(s, q);
        forall j | 0 <= j < t.cached[q] ensures t.tables[q][j] in t.pool.hashed { TableReferenced(s, q, j); }
      }
    }
  }

  // ---------------------------------------------------------------- scheduler operations

  lemma CommitRegisters(cfg: Config, s: Sched, r: RequestId, defer: nat)
    requires cfg.Valid() && Inv(cfg, s) && Registered(s)
    ensures Registered(Commit(s, r, defer))
  {
    hide Inv, Balanced, CeilDiv;
    RequestFacts(cfg, s, r);
    assert RegisteredAt(s, r);
    RegisteredFrame(s, Commit(s, r, defer), r);
  }

  lemma {:induction false} CommitAllRegisters(cfg: Config, s: Sched, ids: seq<RequestId>, defer: nat)
    requires cfg.Valid() && Inv(cfg, s) && Registered(s)
    ensures Registered(CommitAll(s, ids, defer))
    decreases |ids|
  {
    hide Inv, Commit, CeilDiv, RegisteredAt;
    if ids != [] {
      CommitRegisters(cfg, s, ids[0], defer);
      CommitKeeps(cfg, s, ids[0], defer);
      CommitAllRegisters(cfg, Commit(s, ids[0], defer), ids[1..], defer);
    }
  }

  lemma {:induction false} AcknowledgeAllRegisters(s: Sched, ids: seq<RequestId>, plans: map<RequestId, Plan>)
    requires forall i :: 0 <= i < |ids| ==> ids[i] in plans
    ensures var t := AcknowledgeAll(s, ids, plans);
      t.cached == s.cached && t.tables == s.tables && t.pool == s.pool
    decreases |ids|
  {
    if ids != [] { AcknowledgeAllRegisters(Acknowledge(s, ids[0], plans[ids[0]]), ids[1..], plans); }
  }

  lemma {:induction false} DrainAllRegisters(s: Sched, ids: seq<RequestId>)
    ensures var t := DrainAll(s, ids);
      t.cached == s.cached && t.tables == s.tables && t.pool.hashed == s.pool.hashed
    decreases |ids|
  {
    hide Retained, Expired;
    if ids != [] { DrainAllRegisters(Drain(s, ids[0]), ids[1..]); }
  }

  lemma SameRegistered(s: Sched, t: Sched)
    requires Registered(s) && t.cached == s.cached && t.tables == s.tables && t.pool.hashed == s.pool.hashed
    ensures Registered(t)
  {
    forall r ensures RegisteredAt(t, r) { assert RegisteredAt(s, r); }
  }

  lemma ArmRegisters(cfg: Config, s: Sched, r: RequestId, drafts: bool, dst: seq<BlockId>)
    requires cfg.Valid() && Inv(cfg, s) && Registered(s) && CanArm(cfg, s, r, drafts, dst)
    ensures Registered(Arm(cfg, s, r, drafts, dst))
  {
    hide Inv, Balanced, CeilDiv, Eligible;
    RequestFacts(cfg, s, r);
    assert RegisteredAt(s, r);
    var t := Arm(cfg, s, r, drafts, dst);
    if Arms(cfg, s, r, drafts) {
      TakeFrames(s, t, dst);
      forall j | r in t.cached && 0 <= j < t.cached[r] ensures t.tables[r][j] in t.pool.hashed { TableReferenced(s, r, j); }
      RegisteredFrame(s, t, r);
    }
  }

  lemma TakeFrames(s: Sched, t: Sched, taken: seq<BlockId>)
    requires s.pool.CanTake(taken) && t.pool.hashed == s.pool.Take(taken).hashed
    ensures forall b :: b in s.pool.hashed && s.pool.refs[b] > 0 ==> b in t.pool.hashed
  {
  }

  lemma {:induction false} ArmAllRegisters(cfg: Config, s: Sched, order: seq<RequestId>, drafts: set<RequestId>, supply: Supply)
    requires cfg.Valid() && Inv(cfg, s) && Registered(s) && CanArmAll(cfg, s, order, drafts, supply)
    requires Distinct(order)
    requires forall i :: 0 <= i < |order| ==> order[i] in s.tables && Schedulable(cfg, s, order[i])
    ensures Registered(ArmAll(cfg, s, order, drafts, supply))
    decreases |order|
  {
    hide Inv, Arm, Arms, CeilDiv, Eligible, CanArm, Registered;
    if order != [] {
      var r := order[0];
      var t := Arm(cfg, s, r, r in drafts, supply(r));
      ArmRegisters(cfg, s, r, r in drafts, supply(r));
      ArmKeeps(cfg, s, r, r in drafts, supply(r));
      forall i | 0 <= i < |order[1..]| ensures order[1..][i] in t.tables && Schedulable(cfg, t, order[1..][i]) {
        assert order[1..][i] == order[i + 1];
        ArmLocal(cfg, s, r, r in drafts, supply(r), order[i + 1]);
      }
      ArmAllRegisters(cfg, t, order[1..], drafts, supply);
    }
  }

  // ---------------------------------------------------------------- host operations

  lemma FreedRegisters(s: Sched, t: Sched, r: RequestId)
    requires Balanced(s) && Domain(s) && Registered(s)
    requires t.cached == s.cached - {r} && t.tables == s.tables - {r} && t.pool.hashed == s.pool.hashed
    ensures Registered(t)
  {
    hide Balanced;
    RegisteredFrame(s, t, r);
  }

  lemma OperateRegisters(cfg: Config, b: Build, op: HostOp)
    requires cfg.Valid() && Inv(cfg, b.s) && Registered(b.s) && Enabled(cfg, b, op)
    ensures Registered(Operate(cfg, b, op).s)
  {
    hide Inv, Balanced, CeilDiv, Held;
    var s, t := b.s, Operate(cfg, b, op).s;
    RequestFacts(cfg, s, op.r);
    assert RegisteredAt(s, op.r);
    match op
    case HPreempt(r) => FreedRegisters(s, t, r);
    case HGrow(r, added, n) =>
      TakeFrames(s, t, added);
      forall j | r in t.cached && 0 <= j < t.cached[r] ensures t.tables[r][j] in t.pool.hashed { TableReferenced(s, r, j); }
      RegisteredFrame(s, t, r);
    case HAdmit(r, hits, added, n, _) =>
      AdmitFrames(s, t, hits, added);
      RegisteredFrame(s, t, r);
  }

  lemma AdmitFrames(s: Sched, t: Sched, hits: seq<BlockId>, added: seq<BlockId>)
    requires s.pool.Touch(hits).CanTake(added) && t.pool.hashed == s.pool.Touch(hits).Take(added).hashed
    ensures forall b :: b in s.pool.hashed && s.pool.refs[b] > 0 ==> b in t.pool.hashed
  {
    forall b | b in s.pool.hashed && s.pool.refs[b] > 0 ensures b in t.pool.hashed {
      assert s.pool.Touch(hits).refs[b] > 0;
    }
  }

  lemma {:induction false} OperateAllRegisters(cfg: Config, lw: Worker, b: Build, ops: seq<HostOp>)
    requires cfg.Valid() && Building(cfg, lw, b) && Registered(b.s) && AllEnabled(cfg, b, ops)
    ensures Registered(OperateAll(cfg, b, ops).s)
    decreases |ops|
  {
    hide Inv, Settled, Update, Agree, Quiet, EntryOk, Enumerates, Operate, Enabled, Registered, CeilDiv;
    if ops != [] {
      OperateRegisters(cfg, b, ops[0]);
      OperateKeeps(cfg, lw, b, ops[0]);
      OperateAllRegisters(cfg, lw, Operate(cfg, b, ops[0]), ops[1..]);
    }
  }

  lemma CacheRegisters(cfg: Config, s: Sched, r: RequestId, count: nat)
    requires cfg.Valid() && Inv(cfg, s) && Registered(s)
    ensures Registered(CacheBlocks(s, r, count))
  {
    hide Inv, Balanced, CeilDiv;
    RequestFacts(cfg, s, r);
    assert RegisteredAt(s, r);
    RegisteredFrame(s, CacheBlocks(s, r, count), r);
  }

  lemma {:induction false} CacheAllRegisters(cfg: Config, s: Sched, out: Output, caches: seq<(RequestId, nat)>)
    requires cfg.Valid() && Inv(cfg, s) && Registered(s) && AllCacheable(cfg, s, out, caches)
    ensures Registered(CacheAll(s, caches))
    decreases |caches|
  {
    hide Inv, CacheBlocks, CanCache, Registered, CeilDiv;
    if caches != [] {
      CacheRegisters(cfg, s, caches[0].0, caches[0].1);
      CacheBlocksKeeps(cfg, s, caches[0].0, caches[0].1);
      CacheAllRegisters(cfg, CacheBlocks(s, caches[0].0, caches[0].1), out, caches[1..]);
    }
  }

  // ---------------------------------------------------------------- one event, and whole runs

  lemma AcknowledgeRegisters(cfg: Config, select: Selector, sys: System, e: Event, sys': System)
    requires cfg.Valid() && SystemInv(cfg, select, sys) && Registered(sys.s) && e.EAcknowledge? && Next(cfg, select, sys, e, sys')
    ensures Registered(sys'.s)
  {
    hide Inv, Replay, Faithful, Agree, CeilDiv, Acknowledge, Drain, Commit, RegisteredAt;
    var plans := sys.flight[0].out.plans;
    assert forall i :: 0 <= i < |e.acks| ==> e.acks[i] in plans;
    var lw := Logical(cfg, select, sys);
    var t := AcknowledgeAll(sys.s, e.acks, plans);
    AcknowledgeAllRegisters(sys.s, e.acks, plans);
    SameRegistered(sys.s, t);
    if cfg.asynchronous {
      AcknowledgeAllEffect(cfg, sys.s, e.acks, plans, lw);
      DrainAllEffect(cfg, t, e.draining, lw);
      DrainAllRegisters(t, e.draining);
      SameRegistered(t, DrainAll(t, e.draining));
      CommitAllRegisters(cfg, DrainAll(t, e.draining), e.waiting, cfg.Defer());
    }
  }

  lemma BeforeRegisters(cfg: Config, select: Selector, sys: System, p: Pass)
    requires cfg.Valid() && SystemInv(cfg, select, sys) && Registered(sys.s) && Enumerates(p.finished, sys.s.finished)
    ensures Registered(BeforeSchedule(cfg, sys.s, p.finished, p.waiting))
  {
    hide Inv, Replay, Faithful, Agree, CeilDiv, Commit, Mirrors, Waiting, Protected, Stamped, RegisteredAt;
    FinishedIdle(cfg, sys.s, p.finished);
    if !cfg.asynchronous { CommitAllRegisters(cfg, sys.s, p.waiting, 0); }
  }

  lemma ScheduleRegisters(cfg: Config, select: Selector, sys: System, e: Event, sys': System)
    requires cfg.Valid() && SystemInv(cfg, select, sys) && Registered(sys.s) && e.ESchedule? && Next(cfg, select, sys, e, sys')
    ensures Registered(sys'.s)
  {
    hide Inv, Replay, Faithful, Agree, CeilDiv, Commit, Operate, Enabled, CacheBlocks, Arm, Arms, Mirrors, Waiting, Protected,
      Stamped, Owing, RegisteredAt, CanArm, CanCache, EntryOk, Settled, Update, Quiet;
    var p, lw := e.pass, Logical(cfg, select, sys);
    var t, h := BeforeSchedule(cfg, sys.s, p.finished, p.waiting), Hosted(cfg, sys.s, p);
    var b := OperateAll(cfg, Build(t, Opening(t)), p.ops);
    BeforeRegisters(cfg, select, sys, p);
    BeforeEffect(cfg, select, sys, p);
    OpeningBuilds(cfg, t, lw);
    OperateAllRegisters(cfg, lw, Build(t, Opening(t)), p.ops);
    OperateAllKeeps(cfg, lw, Build(t, Opening(t)), p.ops);
    CacheAllRegisters(cfg, b.s, b.out, p.caches);
    HostedBuilds(cfg, select, sys, p);
    HostedArms(cfg, lw, h, p.drafts, p.supply);
    SameRegistered(ArmAll(cfg, h.s, h.out.order, p.drafts, p.supply), sys'.s);
  }

  lemma HostedArms(cfg: Config, lw: Worker, h: Build, drafts: set<RequestId>, supply: Supply)
    requires cfg.Valid() && Building(cfg, lw, h) && Registered(h.s) && CanArmAll(cfg, h.s, h.out.order, drafts, supply)
    ensures Registered(ArmAll(cfg, h.s, h.out.order, drafts, supply))
  {
    hide Inv, Settled, Update, Agree, Quiet, Registered, CeilDiv, Arm, Arms, CanArm;
    OrderDistinct(cfg, lw, h);
    forall i | 0 <= i < |h.out.order| ensures h.out.order[i] in h.s.tables && Schedulable(cfg, h.s, h.out.order[i]) {
      assert h.out.order[i] in h.out.entries.Keys;
      assert EntryOk(cfg, h.s, h.out, h.out.order[i]);
    }
    ArmAllRegisters(cfg, h.s, h.out.order, drafts, supply);
  }

  lemma OthersRegister(cfg: Config, select: Selector, sys: System, e: Event, sys': System)
    requires cfg.Valid() && SystemInv(cfg, select, sys) && Registered(sys.s)
    requires Next(cfg, select, sys, e, sys') && !e.EAcknowledge? && !e.ESchedule?
    ensures Registered(sys'.s)
  {
    hide Held, Execute, Mirrors, Faithful, Waiting, Protected, Stamped, Owing, Balanced, RequestOk;
    if e.EFinish? || e.EPreempt? { FreedRegisters(sys.s, sys'.s, e.r); }
    if e.EAdd? || e.EExecute? || e.ERollback? { SameRegistered(sys.s, sys'.s); }
  }

  /** In every state of every run the host's count of cached blocks covers hashed blocks only; a compressed
      request has none, because its table was switched to private blocks. */
  lemma {:induction false} CachedBlocksRegistered(cfg: Config, select: Selector, states: seq<System>, events: seq<Event>, i: nat)
    requires cfg.Valid() && GoodSelector(cfg, select) && IsRun(cfg, select, states, events) && i < |states|
    ensures Registered(states[i].s)
    ensures forall r :: r in states[i].s.active && r in states[i].s.cached ==> states[i].s.cached[r] == 0
    decreases i
  {
    hide GoodSelector, SystemInv, Next, RegisteredAt;
    RunsKeepInvariant(cfg, select, states, events, i);
    if i == 0 {
      NothingCached(states[0].s);
    } else {
      CachedBlocksRegistered(cfg, select, states, events, i - 1);
      RunsKeepInvariant(cfg, select, states, events, i - 1);
      assert Next(cfg, select, states[i - 1], events[i - 1], states[i]);
      match events[i - 1]
      case EAcknowledge(_, _, _) => AcknowledgeRegisters(cfg, select, states[i - 1], events[i - 1], states[i]);
      case ESchedule(_) => ScheduleRegisters(cfg, select, states[i - 1], events[i - 1], states[i]);
      case _ => OthersRegister(cfg, select, states[i - 1], events[i - 1], states[i]);
    }
    forall r | r in states[i].s.active && r in states[i].s.cached ensures states[i].s.cached[r] == 0 {
      CompressedUncached(cfg, select, states[i], r);
    }
  }

  lemma NothingCached(s: Sched)
    requires s.cached == map[]
    ensures Registered(s)
  {
  }

  lemma CompressedUncached(cfg: Config, select: Selector, sys: System, r: RequestId)
    requires cfg.Valid() && SystemInv(cfg, select, sys) && Registered(sys.s) && r in sys.s.active && r in sys.s.cached
    ensures sys.s.cached[r] == 0
  {
    hide Mirrors, Faithful, Waiting, Protected, Stamped, Owing, Balanced, CeilDiv;
    var s := sys.s;
    assert RegisteredAt(s, r);
    RequestFacts(cfg, s, r);
    SchedulerSteps.Known(s, r);
    assert Writable(cfg, s, r, 0);
  }
}
