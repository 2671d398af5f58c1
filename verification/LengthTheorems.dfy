// Lengths over whole runs: what compression removes only grows, and live tokens never share a slot.

module LengthTheorems {
  import opened Common
  import opened SchedulerModel
  import opened SchedulerInvariant
  import opened SchedulerSteps
  import opened WorkerModel
  import opened Agreement
  import opened Schedule
  import opened Dispatch
  import opened Protocol
  import opened ProtocolInvariant
  import opened AcknowledgeStep
  import opened PassStep
  import opened ProtocolTheorems

  // ---------------------------------------------------------------- removed tokens only grow

  /** Request `r` keeps its anchor, loses it, or gets one that removes strictly more. */
  predicate Grows(s: Sched, t: Sched, r: RequestId) {
    r in t.active ==> Get(t.active, r) == Get(s.active, r) || t.active[r].Removed() > Removed(Get(s.active, r))
  }

  predicate Rises(s: Sched, t: Sched, r: RequestId) {
    Grows(s, t, r) && (r in s.active ==> r in t.active)
  }

  lemma CommitRises(cfg: Config, s: Sched, r: RequestId, defer: nat, q: RequestId)
    requires cfg.Valid() && Inv(cfg, s)
    ensures Rises(s, Commit(s, r, defer), q)
  {
    hide Inv, CeilDiv;
    if Commits(s, r) { RecompressionGrows(cfg, s, r, defer); }
  }

  lemma {:induction false} CommitAllRises(cfg: Config, s: Sched, ids: seq<RequestId>, defer: nat, q: RequestId)
    requires cfg.Valid() && Inv(cfg, s)
    ensures Rises(s, CommitAll(s, ids, defer), q)
    decreases |ids|
  {
    hide Inv, Commit, CeilDiv;
    if ids != [] {
      CommitRises(cfg, s, ids[0], defer, q);
      CommitKeeps(cfg, s, ids[0], defer);
      CommitAllRises(cfg, Commit(s, ids[0], defer), ids[1..], defer, q);
    }
  }

  lemma {:induction false} AcknowledgeAllActive(s: Sched, ids: seq<RequestId>, plans: map<RequestId, Plan>)
    requires forall i :: 0 <= i < |ids| ==> ids[i] in plans
    ensures AcknowledgeAll(s, ids, plans).active == s.active
    decreases |ids|
  {
    if ids != [] { AcknowledgeAllActive(Acknowledge(s, ids[0], plans[ids[0]]), ids[1..], plans); }
  }

  lemma {:induction false} DrainAllActive(s: Sched, ids: seq<RequestId>)
    ensures DrainAll(s, ids).active == s.active
    decreases |ids|
  {
    hide Retained, Expired;
    if ids != [] { DrainAllActive(Drain(s, ids[0]), ids[1..]); }
  }

  lemma {:induction false} CacheAllActive(s: Sched, caches: seq<(RequestId, nat)>)
    ensures CacheAll(s, caches).active == s.active
    decreases |caches|
  {
    if caches != [] { CacheAllActive(CacheBlocks(s, caches[0].0, caches[0].1), caches[1..]); }
  }

  lemma {:induction false} ArmAllActive(cfg: Config, s: Sched, order: seq<RequestId>, drafts: set<RequestId>, supply: Supply)
    requires cfg.Valid()
    ensures ArmAll(cfg, s, order, drafts, supply).active == s.active
    decreases |order|
  {
    hide Arms, CeilDiv, PlanFor;
    if order != [] { ArmAllActive(cfg, Arm(cfg, s, order[0], order[0] in drafts, supply(order[0])), order[1..], drafts, supply); }
  }

  /** The host's decisions inside a pass can only end a compression. */
  predicate Fades(s: Sched, t: Sched, r: RequestId) {
    r in t.active ==> Get(t.active, r) == Get(s.active, r)
  }

  lemma OperateFades(cfg: Config, b: Build, op: HostOp, r: RequestId)
    requires Enabled(cfg, b, op)
    ensures Fades(b.s, Operate(cfg, b, op).s, r)
  {
    hide Held, CanGrow, CanAdmit;
  }

  lemma {:induction false} OperateAllFades(cfg: Config, b: Build, ops: seq<HostOp>, r: RequestId)
    requires AllEnabled(cfg, b, ops)
    ensures Fades(b.s, OperateAll(cfg, b, ops).s, r)
    decreases |ops|
  {
    hide Operate, Enabled;
    if ops != [] {
      OperateFades(cfg, b, ops[0], r);
      OperateAllFades(cfg, Operate(cfg, b, ops[0]), ops[1..], r);
    }
  }

  lemma AcknowledgeGrows(cfg: Config, select: Selector, sys: System, e: Event, sys': System, r: RequestId)
    requires cfg.Valid() && SystemInv(cfg, select, sys) && e.EAcknowledge? && Next(cfg, select, sys, e, sys')
    ensures Grows(sys.s, sys'.s, r)
  {
    hide Inv, Replay, Faithful, Agree, CeilDiv, Acknowledge, Drain, Commit;
    var plans := sys.flight[0].out.plans;
    assert forall i :: 0 <= i < |e.acks| ==> e.acks[i] in plans;
    var lw := Logical(cfg, select, sys);
    var t := AcknowledgeAll(sys.s, e.acks, plans);
    AcknowledgeAllActive(sys.s, e.acks, plans);
    if cfg.asynchronous {
      AcknowledgeAllEffect(cfg, sys.s, e.acks, plans, lw);
      DrainAllEffect(cfg, t, e.draining, lw);
      DrainAllActive(t, e.draining);
      CommitAllRises(cfg, DrainAll(t, e.draining), e.waiting, cfg.Defer(), r);
    }
  }

  lemma ScheduleGrows(cfg: Config, select: Selector, sys: System, e: Event, sys': System, r: RequestId)
    requires cfg.Valid() && SystemInv(cfg, select, sys) && e.ESchedule? && Next(cfg, select, sys, e, sys')
    ensures Grows(sys.s, sys'.s, r)
  {
    hide Inv, Replay, Faithful, Agree, CeilDiv, Commit, Operate, Enabled, CacheBlocks, Arm, Arms, Mirrors, Waiting, Protected,
      Stamped, Building, Owing;
    var p := e.pass;
    var t, h := BeforeSchedule(cfg, sys.s, p.finished, p.waiting), Hosted(cfg, sys.s, p);
    var b := OperateAll(cfg, Build(t, Opening(t)), p.ops);
    BeforeGrows(cfg, select, sys, p, r);
    OperateAllFades(cfg, Build(t, Opening(t)), p.ops, r);
    CacheAllActive(b.s, p.caches);
    HostedBuilds(cfg, select, sys, p);
    ArmAllActive(cfg, h.s, h.out.order, p.drafts, p.supply);
  }

  lemma BeforeGrows(cfg: Config, select: Selector, sys: System, p: Pass, r: RequestId)
    requires cfg.Valid() && SystemInv(cfg, select, sys) && Enumerates(p.finished, sys.s.finished)
    ensures Grows(sys.s, BeforeSchedule(cfg, sys.s, p.finished, p.waiting), r)
  {
    hide Inv, Replay, Faithful, Agree, CeilDiv, Commit, Mirrors, Waiting, Protected, Stamped;
    FinishedIdle(cfg, sys.s, p.finished);
    if !cfg.asynchronous { CommitAllRises(cfg, sys.s, p.waiting, 0, r); }
  }

  /** Over every step of every run: a request that is compressed afterwards has the anchor it had before,
      or one that removes strictly more tokens than were removed before. */
  lemma RemovedOnlyGrows(cfg: Config, select: Selector, states: seq<System>, events: seq<Event>, i: nat, r: RequestId)
    requires cfg.Valid() && GoodSelector(cfg, select) && IsRun(cfg, select, states, events) && i < |events|
    ensures Grows(states[i].s, states[i + 1].s, r)
  {
    hide GoodSelector, SystemInv, Initial, Grows, Next;
    RunsKeepInvariant(cfg, select, states, events, i);
    assert Next(cfg, select, states[i], events[i], states[i + 1]);
    match events[i]
    case EAcknowledge(_, _, _) => AcknowledgeGrows(cfg, select, states[i], events[i], states[i + 1], r);
    case ESchedule(_) => ScheduleGrows(cfg, select, states[i], events[i], states[i + 1], r);
    case _ => OthersGrow(cfg, select, states[i], events[i], states[i + 1], r);
  }

  lemma OthersGrow(cfg: Config, select: Selector, sys: System, e: Event, sys': System, r: RequestId)
    requires cfg.Valid() && Next(cfg, select, sys, e, sys') && !e.EAcknowledge? && !e.ESchedule?
    ensures Grows(sys.s, sys'.s, r)
  {
    hide Held, Execute;
  }

  // ---------------------------------------------------------------- tokens stay inside their table

  /** In every state of every run: compression removes a positive number of tokens, the physical length is
      at least the budget afterwards and always fits the table, and each position computed since the last
      compression falls, minus the offset, inside the table and past the compacted part. */
  lemma LengthsSound(cfg: Config, select: Selector, states: seq<System>, events: seq<Event>, i: nat, r: RequestId, p: nat)
    requires cfg.Valid() && GoodSelector(cfg, select) && IsRun(cfg, select, states, events) && i < |states|
    requires r in states[i].s.tables
    ensures var s := states[i].s;
      && r in s.requests && Physical(s, r) <= |s.tables[r]| * cfg.blockSize
      && (r in s.active ==> s.active[r].Removed() > 0 && Physical(s, r) >= cfg.budget)
      && (p < s.requests[r].computed && (r in s.active ==> s.active[r].semantic <= p) ==>
            && 0 <= p - Removed(Get(s.active, r)) < |s.tables[r]| * cfg.blockSize
            && (r in s.active ==> p - Removed(Get(s.active, r)) >= cfg.budget))
  {
    hide GoodSelector, IsRun, CeilDiv, Balanced, Replay, Faithful, Agree, Waiting, Protected, Stamped;
    RunsKeepInvariant(cfg, select, states, events, i);
    var s := states[i].s;
    SchedulerSteps.Known(s, r);
    RequestFacts(cfg, s, r);
    if p < s.requests[r].computed && (r in s.active ==> s.active[r].semantic <= p) { PositionInTable(cfg, s, r, p); }
  }

  /** In every state of every run: a physical token of a compressed request, or one not yet computed, has a
      slot of its own among all slots of the request's table, in a block that no other request holds. */
  lemma LiveSlotsDistinct(cfg: Config, select: Selector, states: seq<System>, events: seq<Event>, i: nat, r: RequestId, a: nat, b: nat)
    requires cfg.Valid() && GoodSelector(cfg, select) && IsRun(cfg, select, states, events) && i < |states|
    requires var s := states[i].s;
      && r in s.tables && r in s.requests && a != b
      && a / cfg.blockSize < |s.tables[r]| && b / cfg.blockSize < |s.tables[r]|
      && (r in s.active || b >= s.requests[r].computed)
    ensures var s := states[i].s;
      && At(s.tables[r], cfg.blockSize, a) != At(s.tables[r], cfg.blockSize, b)
      && forall q :: q in s.requests && q != r ==> At(s.tables[r], cfg.blockSize, b).0 !in Held(s, q)
  {
    hide GoodSelector, IsRun, CeilDiv, Inv, Replay, Faithful, Agree, Waiting, Protected, Stamped, Held;
    RunsKeepInvariant(cfg, select, states, events, i);
    var s, bs := states[i].s, cfg.blockSize;
    var j := b / bs;
    MulDistributes(j, 1, bs);
    Rebuild(b, bs);
    assert Writable(cfg, s, r, j);
    forall k | 0 <= k < |s.tables[r]| && k != j ensures s.tables[r][k] != s.tables[r][j] { WritableBlockUnique(cfg, s, r, k, j); }
    ProtocolTheorems.SlotsDistinct(s.tables[r], bs, a, b);
    WritableBlockExclusive(cfg, s, r, j);
  }
}
