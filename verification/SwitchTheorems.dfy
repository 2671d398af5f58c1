// An acknowledged compression is switched at the next commit, and its source blocks come back in time.

module SwitchTheorems {
  import opened Common
  import opened SchedulerModel
  import opened SchedulerInvariant
  import opened SchedulerSteps
  import opened WorkerModel
  import opened Agreement
  import opened Schedule
  import opened Dispatch
  import opened Protocol
  import opened ProtocolInvariant
  import opened AcknowledgeStep
  import opened ProtocolTheorems

  // ---------------------------------------------------------------- releases do not linger

  /** Only an asynchronous scheduler defers, and a release waits for the outputs that may still be queued
      behind those issued when it was created, and no longer. */
  ghost predicate Timely(cfg: Config, s: Sched, acked: nat) {
    forall r, k :: 0 <= k < |ReleasesOf(s, r)| ==> InTime(cfg, ReleasesOf(s, r)[k], acked)
  }

  predicate InTime(cfg: Config, release: Release, acked: nat) {
    cfg.asynchronous && release.remaining < cfg.maxBatches && acked + release.remaining < release.stamp + cfg.maxBatches
  }

  /** The request keeps its releases or loses them all. */
  predicate Sheds(s: Sched, t: Sched, r: RequestId) {
    ReleasesOf(t, r) == ReleasesOf(s, r) || ReleasesOf(t, r) == []
  }

  lemma {:induction false} ResetAllSheds(s: Sched, ids: seq<RequestId>, r: RequestId)
    ensures ReleasesOf(ResetAll(s, ids), r) == ReleasesOf(s, r)
    decreases |ids|
  {
    if ids != [] { ResetAllSheds(Reset(s, ids[0]), ids[1..], r); }
  }

  lemma {:induction false} CommitAllSheds(cfg: Config, s: Sched, ids: seq<RequestId>, r: RequestId)
    requires cfg.Valid() && Inv(cfg, s)
    ensures ReleasesOf(CommitAll(s, ids, 0), r) == ReleasesOf(s, r)
    decreases |ids|
  {
    hide Inv, Commit, CeilDiv, ReleasesOf;
    if ids != [] {
      CommitsWhenReady(cfg, s, ids[0]);
      CommitReleases(s, ids[0], 0, r);
      CommitKeeps(cfg, s, ids[0], 0);
      CommitAllSheds(cfg, Commit(s, ids[0], 0), ids[1..], r);
    }
  }

  lemma OperateSheds(cfg: Config, b: Build, op: HostOp, r: RequestId)
    requires Enabled(cfg, b, op)
    ensures Sheds(b.s, Operate(cfg, b, op).s, r)
  {
    hide Held, CanGrow, CanAdmit;
  }

  lemma {:induction false} OperateAllSheds(cfg: Config, b: Build, ops: seq<HostOp>, r: RequestId)
    requires AllEnabled(cfg, b, ops)
    ensures Sheds(b.s, OperateAll(cfg, b, ops).s, r)
    decreases |ops|
  {
    hide Operate, Enabled;
    if ops != [] {
      OperateSheds(cfg, b, ops[0], r);
      OperateAllSheds(cfg, Operate(cfg, b, ops[0]), ops[1..], r);
    }
  }

  lemma {:induction false} CacheAllSheds(s: Sched, caches: seq<(RequestId, nat)>, r: RequestId)
    ensures ReleasesOf(CacheAll(s, caches), r) == ReleasesOf(s, r)
    decreases |caches|
  {
    if caches != [] { CacheAllSheds(CacheBlocks(s, caches[0].0, caches[0].1), caches[1..], r); }
  }

  lemma {:induction false} ArmAllSheds(cfg: Config, s: Sched, order: seq<RequestId>, drafts: set<RequestId>, supply: Supply, r: RequestId)
    requires cfg.Valid()
    ensures ReleasesOf(ArmAll(cfg, s, order, drafts, supply), r) == ReleasesOf(s, r)
    decreases |order|
  {
    hide Arms, CeilDiv, PlanFor;
    if order != [] {
      ArmAllSheds(cfg, Arm(cfg, s, order[0], order[0] in drafts, supply(order[0])), order[1..], drafts, supply, r);
    }
  }

  lemma ScheduleSheds(cfg: Config, select: Selector, sys: System, e: Event, sys': System, r: RequestId)
    requires cfg.Valid() && Inv(cfg, sys.s) && e.ESchedule? && Next(cfg, select, sys, e, sys')
    requires ResetAll(sys.s, e.pass.finished) == sys.s
    ensures Sheds(sys.s, sys'.s, r)
  {
    hide Inv, ResetAll, CommitAll, OperateAll, AllEnabled, CacheAll, ArmAll, PlansOf, AllCacheable, CanArmAll, PassSnapshots, Snapshot;
    var p := e.pass;
    var t, h := BeforeSchedule(cfg, sys.s, p.finished, p.waiting), Hosted(cfg, sys.s, p);
    if !cfg.asynchronous { CommitAllSheds(cfg, sys.s, p.waiting, r); }
    OperateAllSheds(cfg, Build(t, Opening(t)), p.ops, r);
    CacheAllSheds(OperateAll(cfg, Build(t, Opening(t)), p.ops).s, p.caches, r);
    ResetAllSheds(h.s, p.resets, r);
    ArmAllSheds(cfg, ResetAll(h.s, p.resets), h.out.order, p.drafts, p.supply, r);
  }

  lemma CommitTimely(cfg: Config, s: Sched, r: RequestId, acked: nat)
    requires cfg.Valid() && cfg.asynchronous && Inv(cfg, s) && Timely(cfg, s, acked) && acked <= s.issued
    ensures Timely(cfg, Commit(s, r, cfg.Defer()), acked)
  {
    hide Inv, Commit, CeilDiv, ReleasesOf;
    CommitsWhenReady(cfg, s, r);
    var t := Commit(s, r, cfg.Defer());
    forall q, k | 0 <= k < |ReleasesOf(t, q)| ensures InTime(cfg, ReleasesOf(t, q)[k], acked) {
      CommitReleases(s, r, cfg.Defer(), q);
    }
  }

  lemma {:induction false} CommitAllTimely(cfg: Config, s: Sched, ids: seq<RequestId>, acked: nat)
    requires cfg.Valid() && cfg.asynchronous && Inv(cfg, s) && Timely(cfg, s, acked) && acked <= s.issued
    ensures Timely(cfg, CommitAll(s, ids, cfg.Defer()), acked)
    decreases |ids|
  {
    hide Inv, Commit, CeilDiv, Timely;
    if ids != [] {
      CommitTimely(cfg, s, ids[0], acked);
      CommitKeeps(cfg, s, ids[0], cfg.Defer());
      CommitFixed(cfg, s, ids[0], cfg.Defer());
      CommitAllTimely(cfg, Commit(s, ids[0], cfg.Defer()), ids[1..], acked);
    }
  }

  lemma RetainedTimely(cfg: Config, s: Sched, t: Sched, acked: nat)
    requires Timely(cfg, s, acked) && forall r :: ReleasesOf(t, r) == Retained(ReleasesOf(s, r))
    ensures Timely(cfg, t, acked + 1)
  {
    hide ReleasesOf, Retained;
    forall r, k | 0 <= k < |ReleasesOf(t, r)| ensures InTime(cfg, ReleasesOf(t, r)[k], acked + 1) {
      RetainedComes(ReleasesOf(s, r), k);
    }
  }

  lemma NeverDeferred(cfg: Config, s: Sched, acked: nat)
    requires Timely(cfg, s, acked) && !cfg.asynchronous
    ensures Timely(cfg, s, acked + 1)
  {
  }

  lemma SameReleases(cfg: Config, s: Sched, t: Sched, acked: nat)
    requires Timely(cfg, s, acked) && t.deferred == s.deferred
    ensures Timely(cfg, t, acked)
  {
    assert forall r :: ReleasesOf(t, r) == ReleasesOf(s, r);
  }

  lemma ShedsTimely(cfg: Config, s: Sched, t: Sched, acked: nat)
    requires Timely(cfg, s, acked) && forall r :: Sheds(s, t, r)
    ensures Timely(cfg, t, acked)
  {
    hide ReleasesOf;
    forall r, k | 0 <= k < |ReleasesOf(t, r)| ensures InTime(cfg, ReleasesOf(t, r)[k], acked) {
      assert Sheds(s, t, r);
    }
  }

  lemma AcknowledgeTimely(cfg: Config, select: Selector, sys: System, e: Event, sys': System)
    requires cfg.Valid() && SystemInv(cfg, select, sys) && Timely(cfg, sys.s, sys.acked)
    requires e.EAcknowledge? && Next(cfg, select, sys, e, sys')
    ensures Timely(cfg, sys'.s, sys'.acked)
  {
    hide Inv, Agree, Faithful, Waiting, Protected, Stamped, Owing, Rooted, Quiet, Replay, CeilDiv, AcknowledgeAll, DrainAll, CommitAll,
      Timely, Retained, ReleasesOf, Marked;
    var s, plans, lw := sys.s, sys.flight[0].out.plans, Logical(cfg, select, sys);
    var t := AcknowledgeAll(s, e.acks, plans);
    AcknowledgeAllEffect(cfg, s, e.acks, plans, lw);
    SameReleases(cfg, s, t, sys.acked);
    if cfg.asynchronous {
      var d := DrainAll(t, e.draining);
      DrainAllEffect(cfg, t, e.draining, lw);
      forall r ensures ReleasesOf(d, r) == Retained(ReleasesOf(t, r)) {
        if r !in e.draining { NoReleases(t, r); }
      }
      RetainedTimely(cfg, t, d, sys.acked);
      CommitAllTimely(cfg, d, e.waiting, sys.acked + 1);
    } else {
      NeverDeferred(cfg, t, sys.acked);
    }
  }

  lemma StepTimely(cfg: Config, select: Selector, sys: System, e: Event, sys': System)
    requires cfg.Valid() && SystemInv(cfg, select, sys) && Timely(cfg, sys.s, sys.acked) && Next(cfg, select, sys, e, sys')
    ensures Timely(cfg, sys'.s, sys'.acked)
  {
    if e.EAcknowledge? {
      hide SystemInv, Next, Timely;
      AcknowledgeTimely(cfg, select, sys, e, sys');
    } else {
      forall r ensures Sheds(sys.s, sys'.s, r) {
        hide Next, Mirrors, Faithful, Waiting, Protected, Stamped, Inv, Timely, Sheds;
        EventSheds(cfg, select, sys, e, sys', r);
      }
      hide Next, SystemInv, Timely, Sheds;
      ShedsTimely(cfg, sys.s, sys'.s, sys.acked);
      StaysAcked(cfg, select, sys, e, sys');
    }
  }

  lemma StaysAcked(cfg: Config, select: Selector, sys: System, e: Event, sys': System)
    requires cfg.Valid() && Next(cfg, select, sys, e, sys') && !e.EAcknowledge?
    ensures sys'.acked == sys.acked
  {
    hide Execute, Scheduled, PassEnabled, PassSnapshots;
  }

  lemma EventSheds(cfg: Config, select: Selector, sys: System, e: Event, sys': System, r: RequestId)
    requires cfg.Valid() && Inv(cfg, sys.s) && Owing(sys.s) && Next(cfg, select, sys, e, sys') && !e.EAcknowledge?
    ensures Sheds(sys.s, sys'.s, r)
  {
    if e.ESchedule? {
      hide Inv, Owing, Scheduled, PassEnabled, Sheds, ResetAll;
      FinishedIdle(cfg, sys.s, e.pass.finished);
      ScheduleSheds(cfg, select, sys, e, sys', r);
    } else {
      hide Inv, Owing, Held, Execute, Scheduled, PassEnabled, PassSnapshots;
    }
  }

  lemma {:induction false} RunsTimely(cfg: Config, select: Selector, states: seq<System>, events: seq<Event>, i: nat)
    requires cfg.Valid() && GoodSelector(cfg, select) && IsRun(cfg, select, states, events) && i < |states|
    ensures Timely(cfg, states[i].s, states[i].acked)
    decreases i
  {
    hide SystemInv, GoodSelector, Next;
    if i > 0 {
      hide Timely;
      RunsTimely(cfg, select, states, events, i - 1);
      RunsKeepInvariant(cfg, select, states, events, i - 1);
      assert Next(cfg, select, states[i - 1], events[i - 1], states[i]);
      StepTimely(cfg, select, states[i - 1], events[i - 1], states[i]);
    }
  }

  /** In every state of every run a deferred release still waits for at least one output and at most
      `maxBatches - 1`; it waits for every output issued before its commit, and is gone once `maxBatches - 1`
      more than those have been acknowledged. A synchronous scheduler defers nothing. */
  lemma ReleasedInTime(cfg: Config, select: Selector, states: seq<System>, events: seq<Event>, i: nat, r: RequestId, k: nat)
    requires cfg.Valid() && GoodSelector(cfg, select) && IsRun(cfg, select, states, events) && i < |states|
    requires r in states[i].s.deferred && k < |states[i].s.deferred[r]|
    ensures cfg.asynchronous
    ensures var release, acked := states[i].s.deferred[r][k], states[i].acked;
      && 1 <= release.remaining <= cfg.maxBatches - 1
      && release.stamp <= acked + release.remaining <= release.stamp + cfg.maxBatches - 1
  {
    hide GoodSelector, IsRun, CeilDiv, Balanced, Mirrors, Faithful, Waiting, Protected, PendingOk, ActiveOk, TableOk, FreezeOk;
    RunsKeepInvariant(cfg, select, states, events, i);
    RunsTimely(cfg, select, states, events, i);
    SchedulerSteps.Known(states[i].s, r);
    assert ReleasesOf(states[i].s, r) == states[i].s.deferred[r];
    assert InTime(cfg, ReleasesOf(states[i].s, r)[k], states[i].acked);
    assert RequestOk(cfg, states[i].s, r);
  }

  // ---------------------------------------------------------------- the switch

  /** What a completed compression leaves: the destination is the table, the anchor is the plan's, nothing of
      it counts as cached, and the request waits no longer. */
  predicate Switched(t: Sched, r: RequestId, plan: Plan) {
    && Get(t.tables, r) == Some(plan.destination)
    && Get(t.active, r) == Some(Anchor(plan.semantic, plan.physical))
    && Get(t.cached, r) == Some(0)
    && r !in t.pending
  }

  lemma CommitSwitches(cfg: Config, s: Sched, r: RequestId, defer: nat)
    requires cfg.Valid() && Inv(cfg, s) && r in s.pending && s.pending[r].ready
    ensures Switched(Commit(s, r, defer), r, s.pending[r].plan)
  {
    hide CeilDiv, Balanced, ActiveOk, TableOk, ReleasesOk, FreezeOk;
    CommitsWhenReady(cfg, s, r);
    RequestFacts(cfg, s, r);
  }

  lemma CommitElsewhere(s: Sched, q: RequestId, defer: nat, r: RequestId)
    requires q != r || r !in s.pending
    ensures var t := Commit(s, q, defer);
      && Get(t.tables, r) == Get(s.tables, r) && Get(t.active, r) == Get(s.active, r)
      && Get(t.cached, r) == Get(s.cached, r) && Get(t.pending, r) == Get(s.pending, r)
  {
  }

  lemma {:induction false} SwitchStays(s: Sched, ids: seq<RequestId>, defer: nat, r: RequestId, plan: Plan)
    requires Switched(s, r, plan)
    ensures Switched(CommitAll(s, ids, defer), r, plan)
    decreases |ids|
  {
    hide Commit;
    if ids != [] {
      CommitElsewhere(s, ids[0], defer, r);
      SwitchStays(Commit(s, ids[0], defer), ids[1..], defer, r, plan);
    }
  }

  lemma {:induction false} CommitAllSwitches(cfg: Config, s: Sched, ids: seq<RequestId>, defer: nat, r: RequestId)
    requires cfg.Valid() && Inv(cfg, s) && r in ids && r in s.pending && s.pending[r].ready
    ensures Switched(CommitAll(s, ids, defer), r, s.pending[r].plan)
    decreases |ids|
  {
    hide Inv, Commit, CeilDiv;
    var t := Commit(s, ids[0], defer);
    assert ids == [ids[0]] + ids[1..];
    CommitKeeps(cfg, s, ids[0], defer);
    if ids[0] == r {
      CommitSwitches(cfg, s, r, defer);
      SwitchStays(t, ids[1..], defer, r, s.pending[r].plan);
    } else {
      CommitElsewhere(s, ids[0], defer, r);
      CommitAllSwitches(cfg, t, ids[1..], defer, r);
    }
  }

  /** In every run of an asynchronous scheduler the acknowledgement of an output switches each request that
      waits with the plan the output carried. */
  lemma AcknowledgementSwitches(cfg: Config, select: Selector, states: seq<System>, events: seq<Event>, i: nat, r: RequestId)
    requires cfg.Valid() && GoodSelector(cfg, select) && IsRun(cfg, select, states, events) && i < |events|
    requires cfg.asynchronous && events[i].EAcknowledge? && states[i].flight != []
    requires r in states[i].s.pending && Get(states[i].flight[0].out.plans, r) == Some(states[i].s.pending[r].plan)
    ensures Switched(states[i + 1].s, r, states[i].s.pending[r].plan)
  {
    hide GoodSelector, Agree, Rooted, Quiet, Replay, Faithful, Waiting, Protected, Stamped, Owing, CeilDiv, Initial, Switched,
      AcknowledgeAll, DrainAll, CommitAll, Inv, Retained, ReleasesOf;
    var sys, e := states[i], events[i];
    RunsKeepInvariant(cfg, select, states, events, i);
    assert Next(cfg, select, sys, e, states[i + 1]);
    var plans, lw := sys.flight[0].out.plans, Logical(cfg, select, sys);
    var t := AcknowledgeAll(sys.s, e.acks, plans);
    AcknowledgeAllEffect(cfg, sys.s, e.acks, plans, lw);
    assert Marked(sys.s, t, r, Acked(sys.s, r, e.acks, plans));
    DrainAllEffect(cfg, t, e.draining, lw);
    CommitAllSwitches(cfg, DrainAll(t, e.draining), e.waiting, cfg.Defer(), r);
  }

  /** A synchronous scheduler switches every acknowledged compression before its next pass begins. */
  lemma PassSwitches(cfg: Config, select: Selector, states: seq<System>, events: seq<Event>, i: nat, r: RequestId)
    requires cfg.Valid() && GoodSelector(cfg, select) && IsRun(cfg, select, states, events) && i < |events|
    requires !cfg.asynchronous && events[i].ESchedule? && r in states[i].s.pending && states[i].s.pending[r].ready
    ensures var p := events[i].pass;
      Switched(BeforeSchedule(cfg, states[i].s, p.finished, p.waiting), r, states[i].s.pending[r].plan)
  {
    hide GoodSelector, Mirrors, Faithful, Waiting, Protected, Stamped, Initial, Switched, CommitAll, Inv, OperateAll, AllEnabled,
      AllCacheable, CanArmAll, Scheduled, Hosted;
    var sys, p := states[i], events[i].pass;
    RunsKeepInvariant(cfg, select, states, events, i);
    assert Next(cfg, select, sys, events[i], states[i + 1]);
    FinishedIdle(cfg, sys.s, p.finished);
    CommitAllSwitches(cfg, sys.s, p.waiting, 0, r);
  }

  /** A commit fails exactly when a ready compression's table is no longer its source; then the compression is
      dropped, its reservation given back once, and the table and anchor stay. */
  lemma CommitFailsExactly(s: Sched, r: RequestId, defer: nat)
    ensures CommitRaises(s, r) <==>
      r in s.requests && r in s.tables && r in s.pending && s.pending[r].ready && s.pending[r].plan.source != s.tables[r]
    ensures CommitRaises(s, r) ==>
      var t := Commit(s, r, defer);
      && t.pending == s.pending - {r} && t.pool.refs == s.pool.refs - multiset(s.pending[r].reserved)
      && t.tables == s.tables && t.active == s.active && t.deferred == s.deferred && t.cached == s.cached
  {
  }
}
