// The eligible step that a request had before a compression froze it is the one it has afterwards.

module FreezeTheorems {
  import opened Common
  import opened SchedulerModel
  import opened SchedulerInvariant
  import opened SchedulerSteps
  import opened WorkerModel
  import opened Schedule
  import opened Dispatch
  import opened Protocol
  import opened ProtocolInvariant
  import opened ProtocolTheorems
  import opened BarrierTheorems

  /** The eligible step that the host gave a known request: the saved one while a compression holds it back. */
  function HostStep(s: Sched, r: RequestId): Option<int> {
    if r !in s.requests then None
    else if r in s.pending && s.pending[r].previous.Some? then s.pending[r].previous
    else Some(s.requests[r].eligible)
  }

  // ---------------------------------------------------------------- operations

  lemma CommitSteps(s: Sched, q: RequestId, defer: nat, r: RequestId)
    ensures HostStep(Commit(s, q, defer), r) == HostStep(s, r)
  {
  }

  lemma ResetSteps(s: Sched, q: RequestId, r: RequestId)
    ensures HostStep(Reset(s, q), r) == HostStep(s, r)
  {
  }

  lemma ArmSteps(cfg: Config, s: Sched, q: RequestId, drafts: bool, dst: seq<BlockId>, r: RequestId)
    requires cfg.Valid()
    ensures HostStep(Arm(cfg, s, q, drafts, dst), r) == HostStep(s, r)
  {
    hide CeilDiv, Config.Keep;
  }

  lemma OperateSteps(cfg: Config, b: Build, op: HostOp, r: RequestId)
    requires Enabled(cfg, b, op)
    ensures HostStep(Operate(cfg, b, op).s, r) == HostStep(b.s, r)
  {
    hide Held;
  }

  lemma FinishSteps(s: Sched, q: RequestId, r: RequestId)
    requires q != r
    ensures HostStep(Finish(s, q), r) == HostStep(s, r)
  {
    hide Held;
  }

  lemma {:induction false} ResetAllSteps(s: Sched, ids: seq<RequestId>, r: RequestId)
    ensures HostStep(ResetAll(s, ids), r) == HostStep(s, r)
    decreases |ids|
  {
    hide Reset, HostStep;
    if ids != [] {
      ResetSteps(s, ids[0], r);
      ResetAllSteps(Reset(s, ids[0]), ids[1..], r);
    }
  }

  lemma {:induction false} CommitAllSteps(s: Sched, ids: seq<RequestId>, defer: nat, r: RequestId)
    ensures HostStep(CommitAll(s, ids, defer), r) == HostStep(s, r)
    decreases |ids|
  {
    hide Commit, HostStep;
    if ids != [] {
      CommitSteps(s, ids[0], defer, r);
      CommitAllSteps(Commit(s, ids[0], defer), ids[1..], defer, r);
    }
  }

  lemma {:induction false} DrainAllSteps(s: Sched, ids: seq<RequestId>, r: RequestId)
    ensures HostStep(DrainAll(s, ids), r) == HostStep(s, r)
    decreases |ids|
  {
    hide Retained, Expired;
    if ids != [] { DrainAllSteps(Drain(s, ids[0]), ids[1..], r); }
  }

  lemma {:induction false} AcknowledgeAllSteps(s: Sched, ids: seq<RequestId>, plans: map<RequestId, Plan>, r: RequestId)
    requires forall i :: 0 <= i < |ids| ==> ids[i] in plans
    ensures HostStep(AcknowledgeAll(s, ids, plans), r) == HostStep(s, r)
    decreases |ids|
  {
    if ids != [] { AcknowledgeAllSteps(Acknowledge(s, ids[0], plans[ids[0]]), ids[1..], plans, r); }
  }

  lemma {:induction false} OperateAllSteps(cfg: Config, b: Build, ops: seq<HostOp>, r: RequestId)
    requires AllEnabled(cfg, b, ops)
    ensures HostStep(OperateAll(cfg, b, ops).s, r) == HostStep(b.s, r)
    decreases |ops|
  {
    hide Operate, Enabled, HostStep;
    if ops != [] {
      OperateSteps(cfg, b, ops[0], r);
      OperateAllSteps(cfg, Operate(cfg, b, ops[0]), ops[1..], r);
    }
  }

  lemma {:induction false} CacheAllSteps(s: Sched, caches: seq<(RequestId, nat)>, r: RequestId)
    ensures HostStep(CacheAll(s, caches), r) == HostStep(s, r)
    decreases |caches|
  {
    if caches != [] { CacheAllSteps(CacheBlocks(s, caches[0].0, caches[0].1), caches[1..], r); }
  }

  lemma {:induction false} ArmAllSteps(cfg: Config, s: Sched, order: seq<RequestId>, drafts: set<RequestId>, supply: Supply, r: RequestId)
    requires cfg.Valid()
    ensures HostStep(ArmAll(cfg, s, order, drafts, supply), r) == HostStep(s, r)
    decreases |order|
  {
    hide Arm, HostStep;
    if order != [] {
      ArmSteps(cfg, s, order[0], order[0] in drafts, supply(order[0]), r);
      ArmAllSteps(cfg, Arm(cfg, s, order[0], order[0] in drafts, supply(order[0])), order[1..], drafts, supply, r);
    }
  }

  // ---------------------------------------------------------------- events

  lemma ScheduleSteps(cfg: Config, select: Selector, sys: System, e: Event, sys': System, r: RequestId)
    requires cfg.Valid() && e.ESchedule? && Next(cfg, select, sys, e, sys')
    ensures HostStep(sys'.s, r) == HostStep(sys.s, r)
  {
    hide ResetAll, CommitAll, OperateAll, AllEnabled, CacheAll, ArmAll, PlansOf, AllCacheable, CanArmAll, PassSnapshots, Snapshot, HostStep;
    var p := e.pass;
    var t, h := BeforeSchedule(cfg, sys.s, p.finished, p.waiting), Hosted(cfg, sys.s, p);
    ResetAllSteps(sys.s, p.finished, r);
    CommitAllSteps(ResetAll(sys.s, p.finished), p.waiting, 0, r);
    OperateAllSteps(cfg, Build(t, Opening(t)), p.ops, r);
    CacheAllSteps(OperateAll(cfg, Build(t, Opening(t)), p.ops).s, p.caches, r);
    ResetAllSteps(h.s, p.resets, r);
    ArmAllSteps(cfg, ResetAll(h.s, p.resets), h.out.order, p.drafts, p.supply, r);
    IssuingSteps(ArmAll(cfg, ResetAll(h.s, p.resets), h.out.order, p.drafts, p.supply), sys'.s, r);
  }

  lemma IssuingSteps(s: Sched, t: Sched, r: RequestId)
    requires t.requests == s.requests && t.pending == s.pending
    ensures HostStep(t, r) == HostStep(s, r)
  {
  }

  lemma AcknowledgeSteps(cfg: Config, select: Selector, sys: System, e: Event, sys': System, r: RequestId)
    requires cfg.Valid() && e.EAcknowledge? && Next(cfg, select, sys, e, sys')
    ensures HostStep(sys'.s, r) == HostStep(sys.s, r)
  {
    hide AcknowledgeAll, DrainAll, CommitAll, HostStep;
    var plans := sys.flight[0].out.plans;
    assert forall i :: 0 <= i < |e.acks| ==> e.acks[i] in plans;
    var t := AcknowledgeAll(sys.s, e.acks, plans);
    AcknowledgeAllSteps(sys.s, e.acks, plans, r);
    if cfg.asynchronous {
      DrainAllSteps(t, e.draining, r);
      CommitAllSteps(DrainAll(t, e.draining), e.waiting, cfg.Defer(), r);
    }
  }

  /** No event but a request's own arrival and departure changes the eligible step that the host gave it. */
  lemma HostStepKept(cfg: Config, select: Selector, sys: System, e: Event, sys': System, r: RequestId)
    requires cfg.Valid() && Next(cfg, select, sys, e, sys')
    requires !(e.EAdd? && e.r == r) && !(e.EFinish? && e.r == r)
    ensures HostStep(sys'.s, r) == HostStep(sys.s, r)
  {
    hide Held, Execute, Scheduled, AfterOutput, Finish, HostStep;
    match e
    case ESchedule(_) => ScheduleSteps(cfg, select, sys, e, sys', r);
    case EAcknowledge(_, _, _) => AcknowledgeSteps(cfg, select, sys, e, sys', r);
    case EFinish(q) => FinishSteps(sys.s, q, r);
    case EPreempt(q) => PreemptSteps(sys.s, q, r);
    case EAdd(q, info, eligible) => AddSteps(sys.s, q, info, eligible, r);
    case ERollback(q, n) => RollbackSteps(cfg, sys.s, q, n, r);
    case EExecute =>
  }

  lemma PreemptSteps(s: Sched, q: RequestId, r: RequestId)
    ensures HostStep(Preempt(s, q), r) == HostStep(s, r)
  {
    hide Held;
  }

  lemma AddSteps(s: Sched, q: RequestId, info: Info, eligible: int, r: RequestId)
    requires q != r
    ensures HostStep(Add(s, q, info, eligible), r) == HostStep(s, r)
  {
  }

  lemma RollbackSteps(cfg: Config, s: Sched, q: RequestId, n: nat, r: RequestId)
    requires CanRollback(cfg, s, q, n)
    ensures HostStep(Rollback(s, q, n), r) == HostStep(s, r)
  {
  }

  // ---------------------------------------------------------------- whole runs

  lemma {:induction false} StepWhileWaiting(cfg: Config, select: Selector, states: seq<System>, events: seq<Event>, a: nat, i: nat, r: RequestId)
    requires cfg.Valid() && GoodSelector(cfg, select) && IsRun(cfg, select, states, events) && a < i < |states|
    requires events[a].ESchedule? && forall t :: a < t <= i ==> r in states[t].s.pending
    ensures r in states[i].s.requests && HostStep(states[i].s, r) == HostStep(states[a].s, r)
    decreases i
  {
    hide GoodSelector, Next, HostStep, Initial, Counted, Owing, Mirrors, Faithful, Waiting, Protected, Stamped, RequestOk, Balanced;
    RunsKeepInvariant(cfg, select, states, events, i);
    SchedulerSteps.Known(states[i].s, r);
    assert Next(cfg, select, states[i - 1], events[i - 1], states[i]);
    if a < i - 1 {
      StepWhileWaiting(cfg, select, states, events, a, i - 1, r);
      StaysKnown(cfg, select, states[i - 1], events[i - 1], states[i], r);
    }
    HostStepKept(cfg, select, states[i - 1], events[i - 1], states[i], r);
  }

  /** A request known before and after an event was neither added nor finished by it. */
  lemma StaysKnown(cfg: Config, select: Selector, sys: System, e: Event, sys': System, r: RequestId)
    requires cfg.Valid() && Next(cfg, select, sys, e, sys') && r in sys.s.requests && r in sys'.s.requests
    ensures !(e.EAdd? && e.r == r) && !(e.EFinish? && e.r == r)
  {
    hide Execute, Scheduled, AfterOutput;
  }

  /** When a request leaves the waiting compressions, by a commit, a discard or a preemption, and is still
      known, its eligible step is the one it had just before the scheduling step that armed it. */
  lemma EligibleRestored(cfg: Config, select: Selector, states: seq<System>, events: seq<Event>, a: nat, i: nat, r: RequestId)
    requires cfg.Valid() && GoodSelector(cfg, select) && IsRun(cfg, select, states, events) && i < |events|
    requires ArmedAt(states, events, a, i, r) && r !in states[a].s.pending
    requires r !in states[i + 1].s.pending && r in states[i + 1].s.requests
    ensures r in states[a].s.requests && states[i + 1].s.requests[r].eligible == states[a].s.requests[r].eligible
  {
    hide GoodSelector, Next, Initial;
    StepWhileWaiting(cfg, select, states, events, a, i, r);
    assert Next(cfg, select, states[i], events[i], states[i + 1]);
    StaysKnown(cfg, select, states[i], events[i], states[i + 1], r);
    HostStepKept(cfg, select, states[i], events[i], states[i + 1], r);
  }

  /** While it waits, an asynchronous request is out of every batch's reach and a synchronous one is not. */
  lemma FrozenWhileWaiting(cfg: Config, select: Selector, states: seq<System>, events: seq<Event>, i: nat, r: RequestId)
    requires cfg.Valid() && GoodSelector(cfg, select) && IsRun(cfg, select, states, events) && i < |states|
    requires r in states[i].s.pending
    ensures r in states[i].s.requests
    ensures if cfg.asynchronous then states[i].s.requests[r].eligible == 0x4000_0000_0000_0000
            else HostStep(states[i].s, r) == Some(states[i].s.requests[r].eligible)
  {
    hide GoodSelector, IsRun, Counted, Owing, Mirrors, Faithful, Waiting, Protected, Stamped, Balanced, CeilDiv;
    RunsKeepInvariant(cfg, select, states, events, i);
    SchedulerSteps.Known(states[i].s, r);
    assert RequestOk(cfg, states[i].s, r);
  }
}
