// The acknowledgement barrier: a table is switched only after the output that carried its plan came back,
// and plans are attached only where every guard allows it.

module BarrierTheorems {
  import opened Common
  import opened SchedulerModel
  import opened SchedulerInvariant
  import opened WorkerModel
  import opened Agreement
  import opened Schedule
  import opened Dispatch
  import opened Protocol
  import opened ProtocolInvariant
  import opened AcknowledgeStep
  import opened PassStep
  import opened ProtocolTheorems
  import opened LengthTheorems

  /** The plans that an event acknowledges. */
  function Acknowledges(sys: System, e: Event): map<RequestId, Plan> {
    if e.EAcknowledge? && sys.flight != [] then sys.flight[0].out.plans else map[]
  }

  /** The pending compression was ready before, or this event acknowledges its very plan. */
  predicate Cleared(s: Sched, acknowledged: map<RequestId, Plan>, r: RequestId) {
    r in s.pending && (s.pending[r].ready || Get(acknowledged, r) == Some(s.pending[r].plan))
  }

  /** A new anchor is the plan's of a compression that was cleared. */
  predicate SwitchesCleared(s: Sched, acknowledged: map<RequestId, Plan>, t: Sched, r: RequestId) {
    r in t.active && Get(t.active, r) != Get(s.active, r) ==>
      Cleared(s, acknowledged, r) && t.active[r] == Anchor(s.pending[r].plan.semantic, s.pending[r].plan.physical)
  }

  /** What is ready afterwards was cleared, with the same plan. */
  predicate ReadyCleared(s: Sched, acknowledged: map<RequestId, Plan>, t: Sched, r: RequestId) {
    r in t.pending && t.pending[r].ready ==> Cleared(s, acknowledged, r) && t.pending[r].plan == s.pending[r].plan
  }

  // ---------------------------------------------------------------- the loops

  lemma CommitAt(s: Sched, q: RequestId, defer: nat, r: RequestId)
    ensures var t := Commit(s, q, defer);
      && (r !in t.pending || Get(t.pending, r) == Get(s.pending, r))
      && (Get(t.active, r) == Get(s.active, r) ||
            (r in s.pending && s.pending[r].ready && r !in t.pending
             && Get(t.active, r) == Some(Anchor(s.pending[r].plan.semantic, s.pending[r].plan.physical))))
  {
  }

  lemma {:induction false} CommitAllAt(s: Sched, ids: seq<RequestId>, defer: nat, r: RequestId)
    ensures var t := CommitAll(s, ids, defer);
      && (r !in t.pending || Get(t.pending, r) == Get(s.pending, r))
      && (Get(t.active, r) == Get(s.active, r) ||
            (r in s.pending && s.pending[r].ready && r !in t.pending
             && Get(t.active, r) == Some(Anchor(s.pending[r].plan.semantic, s.pending[r].plan.physical))))
    decreases |ids|
  {
    hide Commit;
    if ids != [] {
      CommitAt(s, ids[0], defer, r);
      CommitAllAt(Commit(s, ids[0], defer), ids[1..], defer, r);
    }
  }

  lemma {:induction false} DrainAllPending(s: Sched, ids: seq<RequestId>)
    ensures DrainAll(s, ids).pending == s.pending
    decreases |ids|
  {
    hide Retained, Expired;
    if ids != [] { DrainAllPending(Drain(s, ids[0]), ids[1..]); }
  }

  lemma OperatePending(cfg: Config, b: Build, op: HostOp, r: RequestId)
    requires Enabled(cfg, b, op)
    ensures var t := Operate(cfg, b, op).s; r !in t.pending || Get(t.pending, r) == Get(b.s.pending, r)
  {
    hide Held, CanGrow, CanAdmit;
  }

  lemma {:induction false} OperateAllPending(cfg: Config, b: Build, ops: seq<HostOp>, r: RequestId)
    requires AllEnabled(cfg, b, ops)
    ensures var t := OperateAll(cfg, b, ops).s; r !in t.pending || Get(t.pending, r) == Get(b.s.pending, r)
    decreases |ops|
  {
    hide Operate, Enabled;
    if ops != [] {
      OperatePending(cfg, b, ops[0], r);
      OperateAllPending(cfg, Operate(cfg, b, ops[0]), ops[1..], r);
    }
  }

  lemma {:induction false} CacheAllPending(s: Sched, caches: seq<(RequestId, nat)>)
    ensures CacheAll(s, caches).pending == s.pending
    decreases |caches|
  {
    if caches != [] { CacheAllPending(CacheBlocks(s, caches[0].0, caches[0].1), caches[1..]); }
  }

  lemma {:induction false} ArmAllPending(cfg: Config, s: Sched, order: seq<RequestId>, drafts: set<RequestId>, supply: Supply, r: RequestId)
    requires cfg.Valid()
    ensures var t := ArmAll(cfg, s, order, drafts, supply);
      r in t.pending && t.pending[r].ready ==> Get(t.pending, r) == Get(s.pending, r)
    decreases |order|
  {
    hide Arms, CeilDiv, PlanFor;
    if order != [] {
      ArmAllPending(cfg, Arm(cfg, s, order[0], order[0] in drafts, supply(order[0])), order[1..], drafts, supply, r);
    }
  }

  // ---------------------------------------------------------------- one event

  lemma AcknowledgeClears(cfg: Config, select: Selector, sys: System, e: Event, sys': System, r: RequestId)
    requires cfg.Valid() && e.EAcknowledge? && Next(cfg, select, sys, e, sys')
    ensures SwitchesCleared(sys.s, Acknowledges(sys, e), sys'.s, r) && ReadyCleared(sys.s, Acknowledges(sys, e), sys'.s, r)
  {
    hide Acknowledge, Drain, Commit;
    var plans := sys.flight[0].out.plans;
    assert forall i :: 0 <= i < |e.acks| ==> e.acks[i] in plans;
    var t := AcknowledgeAll(sys.s, e.acks, plans);
    AcknowledgeAllActive(sys.s, e.acks, plans);
    AcknowledgeAllAt(sys.s, e.acks, plans, r);
    DrainAllActive(t, e.draining);
    DrainAllPending(t, e.draining);
    CommitAllAt(DrainAll(t, e.draining), e.waiting, cfg.Defer(), r);
  }

  lemma ScheduleClears(cfg: Config, select: Selector, sys: System, e: Event, sys': System, r: RequestId)
    requires cfg.Valid() && SystemInv(cfg, select, sys) && e.ESchedule? && Next(cfg, select, sys, e, sys')
    ensures SwitchesCleared(sys.s, map[], sys'.s, r) && ReadyCleared(sys.s, map[], sys'.s, r)
  {
    hide Inv, Replay, Faithful, Agree, CeilDiv, Commit, Operate, Enabled, CacheBlocks, Arm, Arms, Mirrors, Waiting, Protected,
      Stamped, Building, Owing;
    var p := e.pass;
    var t, h := BeforeSchedule(cfg, sys.s, p.finished, p.waiting), Hosted(cfg, sys.s, p);
    var b := OperateAll(cfg, Build(t, Opening(t)), p.ops);
    FinishedIdle(cfg, sys.s, p.finished);
    CommitAllAt(sys.s, p.waiting, 0, r);
    OperateAllFades(cfg, Build(t, Opening(t)), p.ops, r);
    OperateAllPending(cfg, Build(t, Opening(t)), p.ops, r);
    CacheAllActive(b.s, p.caches);
    CacheAllPending(b.s, p.caches);
    HostedBuilds(cfg, select, sys, p);
    ArmAllActive(cfg, h.s, h.out.order, p.drafts, p.supply);
    ArmAllPending(cfg, h.s, h.out.order, p.drafts, p.supply, r);
  }

  lemma OthersClear(cfg: Config, select: Selector, sys: System, e: Event, sys': System, r: RequestId)
    requires cfg.Valid() && Next(cfg, select, sys, e, sys') && !e.EAcknowledge? && !e.ESchedule?
    ensures SwitchesCleared(sys.s, map[], sys'.s, r) && ReadyCleared(sys.s, map[], sys'.s, r)
  {
    hide Held, Execute;
  }

  lemma EventClears(cfg: Config, select: Selector, states: seq<System>, events: seq<Event>, i: nat, r: RequestId)
    requires cfg.Valid() && GoodSelector(cfg, select) && IsRun(cfg, select, states, events) && i < |events|
    ensures SwitchesCleared(states[i].s, Acknowledges(states[i], events[i]), states[i + 1].s, r)
    ensures ReadyCleared(states[i].s, Acknowledges(states[i], events[i]), states[i + 1].s, r)
  {
    hide GoodSelector, SystemInv, Initial, SwitchesCleared, ReadyCleared, Next;
    RunsKeepInvariant(cfg, select, states, events, i);
    assert Next(cfg, select, states[i], events[i], states[i + 1]);
    match events[i]
    case EAcknowledge(_, _, _) => AcknowledgeClears(cfg, select, states[i], events[i], states[i + 1], r);
    case ESchedule(_) => ScheduleClears(cfg, select, states[i], events[i], states[i + 1], r);
    case _ => OthersClear(cfg, select, states[i], events[i], states[i + 1], r);
  }

  // ---------------------------------------------------------------- the barrier

  /** Some earlier step acknowledged an output that carried this plan. */
  ghost predicate AcknowledgedBefore(states: seq<System>, events: seq<Event>, i: nat, r: RequestId, plan: Plan) {
    exists k :: 0 <= k < i && k < |events| && k < |states| && Get(Acknowledges(states[k], events[k]), r) == Some(plan)
  }

  /** A compression is ready only once an output with its plan has been acknowledged. */
  lemma {:induction false} ReadyMeansAcknowledged(cfg: Config, select: Selector, states: seq<System>, events: seq<Event>, i: nat, r: RequestId)
    requires cfg.Valid() && GoodSelector(cfg, select) && IsRun(cfg, select, states, events) && i < |states|
    requires r in states[i].s.pending && states[i].s.pending[r].ready
    ensures AcknowledgedBefore(states, events, i, r, states[i].s.pending[r].plan)
    decreases i
  {
    hide GoodSelector, SwitchesCleared, Next, Acknowledges;
    if i == 0 {
      assert false;
    } else {
      var plan := states[i].s.pending[r].plan;
      EventClears(cfg, select, states, events, i - 1, r);
      assert Cleared(states[i - 1].s, Acknowledges(states[i - 1], events[i - 1]), r) && states[i - 1].s.pending[r].plan == plan;
      if states[i - 1].s.pending[r].ready {
        ReadyMeansAcknowledged(cfg, select, states, events, i - 1, r);
      } else {
        assert Get(Acknowledges(states[i - 1], events[i - 1]), r) == Some(plan);
      }
    }
  }

  /** A request's anchor changes only to that of a compression that was waiting, and only once an output
      that carried exactly its plan has been acknowledged, at the latest in this step. */
  lemma SwitchNeedsAcknowledgement(cfg: Config, select: Selector, states: seq<System>, events: seq<Event>, i: nat, r: RequestId)
    requires cfg.Valid() && GoodSelector(cfg, select) && IsRun(cfg, select, states, events) && i < |events|
    requires r in states[i + 1].s.active && Get(states[i + 1].s.active, r) != Get(states[i].s.active, r)
    ensures r in states[i].s.pending
    ensures var plan := states[i].s.pending[r].plan;
      && states[i + 1].s.active[r] == Anchor(plan.semantic, plan.physical)
      && AcknowledgedBefore(states, events, i + 1, r, plan)
  {
    hide GoodSelector, ReadyCleared, Next, Acknowledges, Initial;
    EventClears(cfg, select, states, events, i, r);
    var plan := states[i].s.pending[r].plan;
    if states[i].s.pending[r].ready {
      ReadyMeansAcknowledged(cfg, select, states, events, i, r);
      var k :| 0 <= k < i && Get(Acknowledges(states[k], events[k]), r) == Some(plan);
      assert k < i + 1;
    } else {
      assert Get(Acknowledges(states[i], events[i]), r) == Some(plan);
    }
  }

  // ---------------------------------------------------------------- the very output

  /** Step `a` armed request `r` with the plan that it still waits with after `i` events. Outputs are numbered
      as they are issued, so that the output of step `a` has the number `states[a].s.issued`. */
  ghost predicate ArmedAt(states: seq<System>, events: seq<Event>, a: nat, i: nat, r: RequestId) {
    && a < i < |states| == |events| + 1 && events[a].ESchedule?
    && r in states[i].s.pending
    && states[a + 1].flight != []
    && Get(states[a + 1].flight[|states[a + 1].flight| - 1].out.plans, r) == Some(states[i].s.pending[r].plan)
    && (forall t :: a < t <= i ==> r in states[t].s.pending && states[t].s.pending[r].plan == states[i].s.pending[r].plan)
    && !states[a + 1].s.pending[r].ready
  }

  /** The step armed the request with the plan it then waits with. */
  ghost predicate ArmedNow(e: Event, sys': System, r: RequestId) {
    && e.ESchedule? && sys'.flight != [] && r in sys'.s.pending && !sys'.s.pending[r].ready
    && Get(sys'.flight[|sys'.flight| - 1].out.plans, r) == Some(sys'.s.pending[r].plan)
  }

  ghost predicate WaitedBefore(sys: System, sys': System, r: RequestId) {
    r in sys.s.pending && r in sys'.s.pending && sys.s.pending[r].plan == sys'.s.pending[r].plan
  }

  lemma ScheduleArms(cfg: Config, select: Selector, sys: System, e: Event, sys': System, r: RequestId)
    requires cfg.Valid() && GoodSelector(cfg, select) && SystemInv(cfg, select, sys) && e.ESchedule? && Next(cfg, select, sys, e, sys')
    requires r in sys'.s.pending
    ensures ArmedNow(e, sys', r) || WaitedBefore(sys, sys', r)
  {
    hide Inv, Replay, Faithful, Agree, CeilDiv, Commit, Operate, Enabled, CacheBlocks, Arm, Arms, Mirrors, Waiting, Protected,
      Stamped, Building, Owing, GoodSelector, PlansOf, ArmAll;
    var p := e.pass;
    var t, h := BeforeSchedule(cfg, sys.s, p.finished, p.waiting), Hosted(cfg, sys.s, p);
    var m, b := OperateAll(cfg, Build(t, Opening(t)), p.ops), Dispatched(cfg, h, p.drafts, p.supply);
    ScheduleParts(cfg, select, sys, p, h, b);
    DispatchKept(cfg, Logical(cfg, select, sys), h, p.drafts, p.supply, r);
    assert sys'.flight[|sys'.flight| - 1].out == b.out;
    if r !in b.out.plans {
      FinishedIdle(cfg, sys.s, p.finished);
      CommitAllAt(sys.s, p.waiting, 0, r);
      OperateAllPending(cfg, Build(t, Opening(t)), p.ops, r);
      CacheAllPending(m.s, p.caches);
    }
  }

  lemma OthersArm(cfg: Config, select: Selector, sys: System, e: Event, sys': System, r: RequestId)
    requires cfg.Valid() && Next(cfg, select, sys, e, sys') && !e.ESchedule? && r in sys'.s.pending
    ensures WaitedBefore(sys, sys', r)
  {
    hide Acknowledge, Drain, Commit, Execute, Held;
    if e.EAcknowledge? {
      var plans := sys.flight[0].out.plans;
      assert forall i :: 0 <= i < |e.acks| ==> e.acks[i] in plans;
      var t := AcknowledgeAll(sys.s, e.acks, plans);
      AcknowledgeAllAt(sys.s, e.acks, plans, r);
      DrainAllPending(t, e.draining);
      CommitAllAt(DrainAll(t, e.draining), e.waiting, cfg.Defer(), r);
    }
  }

  lemma WaitingComes(cfg: Config, select: Selector, states: seq<System>, events: seq<Event>, i: nat, r: RequestId)
    requires cfg.Valid() && GoodSelector(cfg, select) && IsRun(cfg, select, states, events) && i < |events|
    requires r in states[i + 1].s.pending
    ensures ArmedNow(events[i], states[i + 1], r) || WaitedBefore(states[i], states[i + 1], r)
  {
    hide GoodSelector, SystemInv, Initial, Next, ArmedNow, WaitedBefore;
    RunsKeepInvariant(cfg, select, states, events, i);
    assert Next(cfg, select, states[i], events[i], states[i + 1]);
    if events[i].ESchedule? {
      ScheduleArms(cfg, select, states[i], events[i], states[i + 1], r);
    } else {
      OthersArm(cfg, select, states[i], events[i], states[i + 1], r);
    }
  }

  /** Every waiting compression was armed by some step, and has waited since. */
  lemma {:induction false} ArmingStep(cfg: Config, select: Selector, states: seq<System>, events: seq<Event>, i: nat, r: RequestId)
    requires cfg.Valid() && GoodSelector(cfg, select) && IsRun(cfg, select, states, events) && i < |states|
    requires r in states[i].s.pending
    ensures exists a: nat :: ArmedAt(states, events, a, i, r)
    decreases i
  {
    hide GoodSelector, Next;
    if i == 0 {
      assert false;
    } else {
      WaitingComes(cfg, select, states, events, i - 1, r);
      if ArmedNow(events[i - 1], states[i], r) {
        assert ArmedAt(states, events, i - 1, i, r);
      } else {
        ArmingStep(cfg, select, states, events, i - 1, r);
        var a: nat :| ArmedAt(states, events, a, i - 1, r);
        assert ArmedAt(states, events, a, i, r);
      }
    }
  }

  /** The queue `fs` is a front part of `fs'`, as far as outputs go. */
  ghost predicate SameOutputs(fs: seq<Flight>, fs': seq<Flight>) {
    |fs| <= |fs'| && forall j :: 0 <= j < |fs| ==> fs'[j].out == fs[j].out
  }

  /** The queue keeps its outputs and their order; only acknowledging takes the first. */
  lemma QueueMoves(cfg: Config, select: Selector, sys: System, e: Event, sys': System)
    requires cfg.Valid() && Next(cfg, select, sys, e, sys')
    ensures if e.EAcknowledge? then sys.flight != [] && sys'.flight == sys.flight[1..] && sys'.acked == sys.acked + 1
            else sys'.acked == sys.acked && SameOutputs(sys.flight, sys'.flight)
  {
    hide Execute, Scheduled, AfterOutput, Finish, Preempt, Rollback, PassEnabled, PassSnapshots, CanRollback, Snapshot;
  }

  lemma QueueStep(cfg: Config, select: Selector, sys: System, e: Event, sys': System)
    requires cfg.Valid() && Next(cfg, select, sys, e, sys')
    ensures sys'.acked == sys.acked + if e.EAcknowledge? then 1 else 0
    ensures sys.acked + |sys.flight| <= sys'.acked + |sys'.flight|
    ensures forall j: nat :: j < |sys'.flight| && sys'.acked + j < sys.acked + |sys.flight| ==>
      sys'.flight[j].out == sys.flight[sys'.acked + j - sys.acked].out
  {
    hide Next, SameOutputs;
    QueueMoves(cfg, select, sys, e, sys');
    if !e.EAcknowledge? { OutputsSame(sys.flight, sys'.flight); }
  }

  lemma OutputsSame(fs: seq<Flight>, fs': seq<Flight>)
    requires SameOutputs(fs, fs')
    ensures |fs| <= |fs'| && forall j :: 0 <= j < |fs| && j < |fs'| ==> fs'[j].out == fs[j].out
  {
  }

  /** An output with a number below `issued` at step `a` is one of those in flight then. */
  lemma {:induction false} QueueKept(cfg: Config, select: Selector, states: seq<System>, events: seq<Event>, a: nat, t: nat, j: nat)
    requires cfg.Valid() && GoodSelector(cfg, select) && IsRun(cfg, select, states, events) && a <= t < |states|
    requires j < |states[t].flight| && states[t].acked + j < states[a].s.issued
    ensures states[a].acked <= states[t].acked && states[t].acked + j - states[a].acked < |states[a].flight|
    ensures states[t].flight[j].out == states[a].flight[states[t].acked + j - states[a].acked].out
    decreases t
  {
    hide GoodSelector, Next, Inv, Mirrors, Faithful, Waiting, Protected, Stamped, Owing;
    RunsKeepInvariant(cfg, select, states, events, a);
    if a < t {
      assert Next(cfg, select, states[t - 1], events[t - 1], states[t]);
      QueueStep(cfg, select, states[t - 1], events[t - 1], states[t]);
      RunsKeepInvariant(cfg, select, states, events, t - 1);
      IssuedGrows(cfg, select, states, events, a, t - 1);
      QueueKept(cfg, select, states, events, a, t - 1, states[t].acked + j - states[t - 1].acked);
    }
  }

  lemma {:induction false} IssuedGrows(cfg: Config, select: Selector, states: seq<System>, events: seq<Event>, a: nat, t: nat)
    requires cfg.Valid() && GoodSelector(cfg, select) && IsRun(cfg, select, states, events) && a <= t < |states|
    ensures states[a].s.issued <= states[t].s.issued == states[t].acked + |states[t].flight| && states[a].acked <= states[t].acked
    decreases t
  {
    hide GoodSelector, Next, Inv, Mirrors, Faithful, Waiting, Protected, Stamped, Owing;
    RunsKeepInvariant(cfg, select, states, events, t);
    if a < t {
      assert Next(cfg, select, states[t - 1], events[t - 1], states[t]);
      IssuedGrows(cfg, select, states, events, a, t - 1);
      QueueStep(cfg, select, states[t - 1], events[t - 1], states[t]);
    }
  }

  /** No output in flight when step `a` began carried the plan for the request: the only way in which an
      earlier acknowledgement could be taken for this one. */
  ghost predicate NoTwin(states: seq<System>, a: nat, r: RequestId, plan: Plan)
    requires a < |states|
  {
    forall f :: 0 <= f < |states[a].flight| ==> Get(states[a].flight[f].out.plans, r) != Some(plan)
  }

  /** An acknowledgement of the plan after the arming step is the arming step's own output, or a later one. */
  lemma OwnAcknowledgement(cfg: Config, select: Selector, states: seq<System>, events: seq<Event>, a: nat, k: nat, r: RequestId, plan: Plan)
    requires cfg.Valid() && GoodSelector(cfg, select) && IsRun(cfg, select, states, events) && a <= k < |events|
    requires NoTwin(states, a, r, plan) && Get(Acknowledges(states[k], events[k]), r) == Some(plan)
    ensures states[k].acked >= states[a].s.issued && states[k + 1].acked > states[a].s.issued
  {
    hide GoodSelector, Next, Initial;
    assert Next(cfg, select, states[k], events[k], states[k + 1]);
    QueueStep(cfg, select, states[k], events[k], states[k + 1]);
    if states[k].acked < states[a].s.issued { QueueKept(cfg, select, states, events, a, k, 0); }
  }

  /** A compression is ready only once the very output that carried its plan, the one of the step that armed
      it, has been acknowledged; the exception is a twin of that plan that was already in flight. */
  lemma {:induction false} ReadyMeansOwnOutput(cfg: Config, select: Selector, states: seq<System>, events: seq<Event>, a: nat, i: nat, r: RequestId)
    requires cfg.Valid() && GoodSelector(cfg, select) && IsRun(cfg, select, states, events)
    requires ArmedAt(states, events, a, i, r) && states[i].s.pending[r].ready && NoTwin(states, a, r, states[i].s.pending[r].plan)
    ensures states[i].acked > states[a].s.issued
    decreases i
  {
    hide GoodSelector, SwitchesCleared, Next, Acknowledges, Initial, NoTwin;
    var plan := states[i].s.pending[r].plan;
    EventClears(cfg, select, states, events, i - 1, r);
    if states[i - 1].s.pending[r].ready && a < i - 1 {
      assert ArmedAt(states, events, a, i - 1, r);
      ReadyMeansOwnOutput(cfg, select, states, events, a, i - 1, r);
      IssuedGrows(cfg, select, states, events, i - 1, i);
    } else {
      assert a < i - 1;
      assert Get(Acknowledges(states[i - 1], events[i - 1]), r) == Some(plan);
      OwnAcknowledgement(cfg, select, states, events, a, i - 1, r, plan);
    }
  }

  /** A table is switched only once the very output that carried the plan has been acknowledged. */
  lemma SwitchNeedsOwnOutput(cfg: Config, select: Selector, states: seq<System>, events: seq<Event>, a: nat, i: nat, r: RequestId)
    requires cfg.Valid() && GoodSelector(cfg, select) && IsRun(cfg, select, states, events) && i < |events|
    requires r in states[i + 1].s.active && Get(states[i + 1].s.active, r) != Get(states[i].s.active, r)
    requires ArmedAt(states, events, a, i, r) && NoTwin(states, a, r, states[i].s.pending[r].plan)
    ensures states[i + 1].acked > states[a].s.issued
  {
    hide GoodSelector, ReadyCleared, Next, Acknowledges, Initial, NoTwin;
    EventClears(cfg, select, states, events, i, r);
    if states[i].s.pending[r].ready {
      ReadyMeansOwnOutput(cfg, select, states, events, a, i, r);
      IssuedGrows(cfg, select, states, events, i, i + 1);
    } else {
      OwnAcknowledgement(cfg, select, states, events, a, i, r, states[i].s.pending[r].plan);
    }
  }

  // ---------------------------------------------------------------- who is compressed

  /** The pool only shrinks while a batch is armed. */
  lemma {:induction false} ArmingShrinksPool(cfg: Config, s: Sched, order: seq<RequestId>, drafts: set<RequestId>, supply: Supply)
    requires cfg.Valid()
    ensures ArmAll(cfg, s, order, drafts, supply).pool.Unreferenced() <= s.pool.Unreferenced()
    decreases |order|
  {
    hide Arms, CeilDiv, PlanFor;
    if order != [] {
      ArmingShrinksPool(cfg, Arm(cfg, s, order[0], order[0] in drafts, supply(order[0])), order[1..], drafts, supply);
    }
  }

  lemma {:induction false} PlansWhenEligible(cfg: Config, s: Sched, order: seq<RequestId>, drafts: set<RequestId>, supply: Supply, r: RequestId)
    requires cfg.Valid() && Distinct(order) && r in order
    ensures var plans, t := PlansOf(cfg, s, order, drafts, supply), ArmAll(cfg, s, order, drafts, supply);
      && (r in plans ==> (
            && Eligible(cfg, s, r, r in drafts) && |TableOf(s, r)| >= cfg.Keep()
            && plans[r] == Plan(s.requests[r].computed, cfg.budget, TableOf(s, r), supply(r))))
      && (Eligible(cfg, s, r, r in drafts) && |TableOf(s, r)| >= cfg.Keep() && r !in plans ==> |t.pool.Unreferenced()| < cfg.Keep())
    decreases |order|
  {
    hide CeilDiv, Eligible, Config.Keep;
    var q, rest := order[0], order[1..];
    var next := Arm(cfg, s, q, q in drafts, supply(q));
    assert order == [q] + rest;
    if q == r {
      assert r !in rest;
      NotPlanned(cfg, next, rest, drafts, supply, r);
      ArmingShrinksPool(cfg, next, rest, drafts, supply);
      if Eligible(cfg, s, r, r in drafts) && |TableOf(s, r)| >= cfg.Keep() && !Arms(cfg, s, r, r in drafts) {
        SmallerSet(ArmAll(cfg, s, order, drafts, supply).pool.Unreferenced(), s.pool.Unreferenced());
      }
      EligibleKnown(cfg, s, r, r in drafts);
    } else {
      PlansWhenEligible(cfg, next, rest, drafts, supply, r);
      ArmLocal(cfg, s, q, q in drafts, supply(q), r);
      EligibleFrame(cfg, s, next, r, r in drafts);
      assert r !in Attached(cfg, s, q, q in drafts, supply(q));
    }
  }

  lemma EligibleMeans(cfg: Config, s: Sched, r: RequestId, drafts: bool)
    requires cfg.Valid()
    ensures Eligible(cfg, s, r, drafts) <==>
      !drafts && r !in s.pending && r in s.requests && s.requests[r].info.maxTokens >= cfg.minOutput
      && (if r in s.active
          then !cfg.speculative && s.active[r].physical + s.requests[r].computed - s.active[r].semantic >= cfg.threshold
          else s.requests[r].computed == s.requests[r].info.prompt >= cfg.threshold)
  {
  }

  /** Enough blocks for a plan are blocks enough for the budget. */
  lemma KeepMeans(cfg: Config, blocks: nat)
    requires cfg.Valid()
    ensures blocks >= cfg.Keep() <==> blocks * cfg.blockSize >= cfg.budget
    ensures cfg.Keep() > 0
  {
    hide CeilDiv;
    if blocks >= cfg.Keep() {
      MulMonotone(cfg.Keep(), blocks, cfg.blockSize);
    } else {
      MulMonotone(blocks + 1, cfg.Keep(), cfg.blockSize);
      MulDistributes(blocks, 1, cfg.blockSize);
    }
  }

  lemma EligibleKnown(cfg: Config, s: Sched, r: RequestId, drafts: bool)
    ensures Eligible(cfg, s, r, drafts) ==> r in s.requests
  {
  }

  lemma EligibleFrame(cfg: Config, s: Sched, t: Sched, r: RequestId, drafts: bool)
    requires SameAt(s, t, r)
    ensures Eligible(cfg, t, r, drafts) <==> Eligible(cfg, s, r, drafts)
    ensures TableOf(t, r) == TableOf(s, r) && (Eligible(cfg, s, r, drafts) ==> t.requests[r].computed == s.requests[r].computed)
  {
  }

  lemma {:induction false} NotPlanned(cfg: Config, s: Sched, order: seq<RequestId>, drafts: set<RequestId>, supply: Supply, r: RequestId)
    requires cfg.Valid() && r !in order
    ensures r !in PlansOf(cfg, s, order, drafts, supply)
    decreases |order|
  {
    hide CeilDiv, Eligible, Arm;
    if order != [] {
      assert order[0] in order;
      NotPlanned(cfg, Arm(cfg, s, order[0], order[0] in drafts, supply(order[0])), order[1..], drafts, supply, r);
    }
  }

  lemma SmallerSet<T>(a: set<T>, b: set<T>)
    requires a <= b
    ensures |a| <= |b|
  {
    assert |b - a| == |b| - |a|;
  }

  /** A known request gets a plan, if the pool can supply its destination, exactly when it has no drafts in
      this step, waits for nothing, has enough output still to come and enough blocks, and is either
      uncompressed with its prompt just computed and past the threshold, or compressed, not speculative, and
      past the threshold again. The plan's source is the request's table, and its anchor what is computed. */
  lemma PlansExactly(cfg: Config, s: Sched, order: seq<RequestId>, drafts: set<RequestId>, supply: Supply, r: RequestId)
    requires cfg.Valid() && Distinct(order) && r in order
    ensures var plans, left := PlansOf(cfg, s, order, drafts, supply), ArmAll(cfg, s, order, drafts, supply).pool.Unreferenced();
      var wanted := r !in drafts && r !in s.pending && r in s.requests && r in s.tables
        && s.requests[r].info.maxTokens >= cfg.minOutput
        && |s.tables[r]| * cfg.blockSize >= cfg.budget
        && (if r in s.active
            then !cfg.speculative && s.active[r].physical + s.requests[r].computed - s.active[r].semantic >= cfg.threshold
            else s.requests[r].computed == s.requests[r].info.prompt >= cfg.threshold);
      && (r in plans ==> wanted && plans[r] == Plan(s.requests[r].computed, cfg.budget, s.tables[r], supply(r)))
      && (wanted && r !in plans ==> |left| * cfg.blockSize < cfg.budget)
  {
    hide CeilDiv, Eligible, Config.Keep, PlansOf, ArmAll;
    PlansWhenEligible(cfg, s, order, drafts, supply, r);
    EligibleMeans(cfg, s, r, r in drafts);
    KeepMeans(cfg, |TableOf(s, r)|);
    KeepMeans(cfg, |ArmAll(cfg, s, order, drafts, supply).pool.Unreferenced()|);
  }

  /** Arming fails exactly for a request that would get a plan but has too few blocks for the budget. */
  lemma ArmFailsExactly(cfg: Config, s: Sched, r: RequestId, drafts: bool)
    requires cfg.Valid()
    ensures ArmRaises(cfg, s, r, drafts) <==>
      !drafts && r !in s.pending && r in s.requests && s.requests[r].info.maxTokens >= cfg.minOutput
      && (if r in s.active
          then !cfg.speculative && s.active[r].physical + s.requests[r].computed - s.active[r].semantic >= cfg.threshold
          else s.requests[r].computed == s.requests[r].info.prompt >= cfg.threshold)
      && (r in s.tables ==> |s.tables[r]| * cfg.blockSize < cfg.budget)
  {
    hide CeilDiv, Eligible, Config.Keep;
    EligibleMeans(cfg, s, r, drafts);
    KeepMeans(cfg, |TableOf(s, r)|);
  }
}
