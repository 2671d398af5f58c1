// One whole scheduling pass keeps the system invariant, and its output runs as planned.

module PassStep {
  import opened Common
  import opened SchedulerModel
  import opened SchedulerInvariant
  import opened SchedulerSteps
  import opened WorkerModel
  import opened Agreement
  import opened Schedule
  import opened Dispatch
  import opened Protocol
  import opened ProtocolInvariant
  import opened AcknowledgeStep

  // ---------------------------------------------------------------- resets are already done

  lemma IdleWithoutTable(cfg: Config, s: Sched, r: RequestId)
    requires cfg.Valid() && Inv(cfg, s) && r !in s.tables
    ensures r !in s.pending && r !in s.active && r !in s.deferred
  {
    SchedulerSteps.Known(s, r);
    if r in s.requests { NoTransaction(cfg, s, r); }
  }

  lemma {:induction false} ResetAllIdle(s: Sched, ids: seq<RequestId>)
    requires forall i :: 0 <= i < |ids| ==> ids[i] !in s.pending && ids[i] !in s.active
    ensures ResetAll(s, ids) == s
    decreases |ids|
  {
    if ids != [] {
      assert s.active - {ids[0]} == s.active;
      assert Reset(s, ids[0]) == s;
      ResetAllIdle(s, ids[1..]);
    }
  }

  // ---------------------------------------------------------------- before_schedule

  lemma BeforeEffect(cfg: Config, select: Selector, sys: System, p: Pass)
    requires cfg.Valid() && SystemInv(cfg, select, sys)
    requires |sys.flight| < (if cfg.asynchronous then cfg.maxBatches else 1)
    requires Enumerates(p.finished, sys.s.finished)
    requires !cfg.asynchronous ==> Enumerates(p.waiting, ResetAll(sys.s, p.finished).pending.Keys)
    ensures var t, lw := BeforeSchedule(cfg, sys.s, p.finished, p.waiting), Logical(cfg, select, sys);
      && Inv(cfg, t) && Settled(cfg, t) && Fixed(sys.s, t)
      && Agree(t, lw) && Rooted(lw) && Quiet(t, lw, t.finished + t.preempted) && Owing(t)
      && Stamped(t, sys.acked)
      && (if cfg.asynchronous then t == sys.s else t.pending == map[] && sys.flight == [])
  {
    hide Inv, Agree, Replay, Faithful, CeilDiv, ReleasesOf, HeldThrough;
    var s, lw := sys.s, Logical(cfg, select, sys);
    forall i | 0 <= i < |p.finished| ensures p.finished[i] !in s.pending && p.finished[i] !in s.active {
      IdleWithoutTable(cfg, s, p.finished[i]);
    }
    ResetAllIdle(s, p.finished);
    var t := BeforeSchedule(cfg, s, p.finished, p.waiting);
    if !cfg.asynchronous {
      CommitAllEffect(cfg, s, p.waiting, 0, lw, sys.acked);
      forall r ensures r !in t.pending {
        if r in s.pending {
          assert r in p.waiting;
          assert s.pending[r].ready;
        }
      }
      assert t.pending == map[];
    }
    BeforeMirrors(s, t, lw);
  }

  lemma BeforeMirrors(s: Sched, t: Sched, lw: Worker)
    requires Fixed(s, t) && Owing(s) && Quiet(s, lw, s.finished + s.preempted)
    ensures Owing(t) && Quiet(t, lw, t.finished + t.preempted)
  {
    assert forall r :: r in t.tables <==> r in t.tables.Keys;
    assert forall r :: r in s.tables <==> r in s.tables.Keys;
  }

  lemma OpeningBuilds(cfg: Config, t: Sched, lw: Worker)
    requires cfg.Valid() && Inv(cfg, t) && Settled(cfg, t) && Agree(t, lw) && Rooted(lw)
    requires Quiet(t, lw, t.finished + t.preempted) && Owing(t)
    ensures Building(cfg, lw, Build(t, Opening(t)))
  {
    hide Inv, Update, AgreeAt, CeilDiv;
    var out := Opening(t);
    var u := Update(lw, out);
    forall r | r in t.tables ensures AgreeAt(t, u, r) {
      UpdateUntouched(lw, out, r);
      AgreeFrame(t, t, lw, u, r);
    }
    forall r | r !in t.tables ensures r !in u.pending && r !in u.active {
      if IsReset(out, r) { UpdateReset(lw, out, r); } else { UpdateUntouched(lw, out, r); }
    }
  }

  // ---------------------------------------------------------------- the host's pass

  /** What a pass leaves of the past: only preempted requests lose anything. */
  ghost predicate Kept(t: Sched, s: Sched, preempted: set<RequestId>, q: RequestId) {
    && (q in s.pending ==> Get(t.pending, q) == Some(s.pending[q]))
    && (ReleasesOf(s, q) == ReleasesOf(t, q) || ReleasesOf(s, q) == [])
    && (q in t.tables && q !in preempted ==>
          q in s.tables && t.tables[q] <= s.tables[q] && ReleasesOf(s, q) == ReleasesOf(t, q)
          && Get(s.pending, q) == Get(t.pending, q))
  }

  lemma OperateKept(cfg: Config, b: Build, op: HostOp, q: RequestId)
    requires Enabled(cfg, b, op)
    ensures Kept(b.s, Operate(cfg, b, op).s, Operate(cfg, b, op).out.preempted, q)
    ensures b.out.preempted <= Operate(cfg, b, op).out.preempted
    ensures Operate(cfg, b, op).s.issued == b.s.issued
  {
    hide Held;
  }

  lemma KeptTrans(t: Sched, m: Sched, s: Sched, p1: set<RequestId>, p2: set<RequestId>, q: RequestId)
    requires Kept(t, m, p1, q) && Kept(m, s, p2, q) && p1 <= p2
    ensures Kept(t, s, p2, q)
  {
  }

  lemma {:induction false} OperateAllKeeps(cfg: Config, lw: Worker, b: Build, ops: seq<HostOp>)
    requires cfg.Valid() && Building(cfg, lw, b) && AllEnabled(cfg, b, ops)
    ensures var b' := OperateAll(cfg, b, ops);
      && Building(cfg, lw, b') && b.out.preempted <= b'.out.preempted && b'.s.issued == b.s.issued
      && forall q :: Kept(b.s, b'.s, b'.out.preempted, q)
    decreases |ops|
  {
    hide Building, Operate, Enabled, Kept;
    if ops == [] {
      assert forall q :: Kept(b.s, b.s, b.out.preempted, q) by { KeptRefl(b.s, b.out.preempted); }
    } else {
      var m := Operate(cfg, b, ops[0]);
      OperateKeeps(cfg, lw, b, ops[0]);
      OperateAllKeeps(cfg, lw, m, ops[1..]);
      var b' := OperateAll(cfg, b, ops);
      OperateKept(cfg, b, ops[0], "");
      forall q ensures Kept(b.s, b'.s, b'.out.preempted, q) {
        OperateKept(cfg, b, ops[0], q);
        KeptTrans(b.s, m.s, b'.s, m.out.preempted, b'.out.preempted, q);
      }
    }
  }

  lemma KeptRefl(s: Sched, p: set<RequestId>)
    ensures forall q :: Kept(s, s, p, q)
  {
  }

  // ---------------------------------------------------------------- prefix hashes

  ghost predicate SameBooks(s: Sched, t: Sched) {
    && t.requests == s.requests && t.tables == s.tables && t.pending == s.pending && t.active == s.active
    && t.deferred == s.deferred && t.finished == s.finished && t.preempted == s.preempted && t.issued == s.issued
  }

  lemma {:induction false} CacheAllKeeps(cfg: Config, s: Sched, out: Output, caches: seq<(RequestId, nat)>)
    requires cfg.Valid() && Inv(cfg, s) && AllCacheable(cfg, s, out, caches)
    ensures Inv(cfg, CacheAll(s, caches)) && SameBooks(s, CacheAll(s, caches))
    decreases |caches|
  {
    hide Inv, CeilDiv;
    if caches != [] {
      CacheBlocksKeeps(cfg, s, caches[0].0, caches[0].1);
      CacheAllKeeps(cfg, CacheBlocks(s, caches[0].0, caches[0].1), out, caches[1..]);
    }
  }

  lemma CachedBuilds(cfg: Config, lw: Worker, b: Build, t: Sched)
    requires cfg.Valid() && Building(cfg, lw, b) && Inv(cfg, t) && SameBooks(b.s, t)
    ensures Building(cfg, lw, Build(t, b.out))
  {
    hide Inv, Update, AgreeAt, CeilDiv;
    forall r | r in t.tables ensures AgreeAt(t, Update(lw, b.out), r) {
      AgreeFrame(b.s, t, Update(lw, b.out), Update(lw, b.out), r);
    }
    forall r ensures EntryOk(cfg, t, b.out, r) { assert EntryOk(cfg, b.s, b.out, r); }
  }

  // ---------------------------------------------------------------- arming and executing

  lemma SameEverywhere(w: Worker, v: Worker)
    requires forall q :: SameWorkerAt(w, v, q)
    requires w.mem == v.mem
    ensures w == v
  {
    forall q ensures q in w.requests <==> q in v.requests { assert SameWorkerAt(w, v, q); }
    forall q ensures q in w.pending <==> q in v.pending { assert SameWorkerAt(w, v, q); }
    forall q ensures q in w.active <==> q in v.active { assert SameWorkerAt(w, v, q); }
    forall q | q in w.requests ensures w.requests[q] == v.requests[q] { assert SameWorkerAt(w, v, q); }
    forall q | q in w.pending ensures w.pending[q] == v.pending[q] { assert SameWorkerAt(w, v, q); }
    forall q | q in w.active ensures w.active[q] == v.active[q] { assert SameWorkerAt(w, v, q); }
    assert w.requests == v.requests && w.pending == v.pending && w.active == v.active;
  }

  lemma UpdateIgnoresPlans(w: Worker, out: Output, plans: map<RequestId, Plan>)
    ensures Update(w, out.(plans := plans)) == Update(w, out)
  {
    hide Update;
    var o := out.(plans := plans);
    forall q ensures SameWorkerAt(Update(w, o), Update(w, out), q) { UpdateLocal(w, o, out, q); }
    UpdateMemory(w, o);
    UpdateMemory(w, out);
    SameEverywhere(Update(w, o), Update(w, out));
  }

  lemma UpdateMemory(w: Worker, out: Output)
    ensures Update(w, out).mem == w.mem
  {
  }

  /** What the update phase knows about a scheduled request. */
  lemma EntryUpdated(w: Worker, out: Output, r: RequestId)
    requires r in out.entries
    ensures var u := Update(w, out);
      && r in u.requests && r !in u.pending
      && u.requests[r].computed == out.entries[r].computed && u.requests[r].info == out.entries[r].info
  {
  }

  lemma EntryAgrees(cfg: Config, lw: Worker, b: Build, r: RequestId)
    requires cfg.Valid() && Building(cfg, lw, b) && r in b.out.entries
    ensures var u := Update(lw, b.out);
      && r in u.requests && r !in u.pending && r in b.s.tables && r in b.s.requests && r !in b.s.pending
      && u.requests[r].table == b.s.tables[r] && Get(u.active, r) == Get(b.s.active, r)
      && u.requests[r].computed + b.out.entries[r].count == b.s.requests[r].computed
      && u.requests[r].info == b.s.requests[r].info
      && Schedulable(cfg, b.s, r)
  {
    hide Inv, Update, Settled, Quiet, CeilDiv;
    EntryUpdated(lw, b.out, r);
    assert EntryOk(cfg, b.s, b.out, r);
    assert AgreeAt(b.s, Update(lw, b.out), r);
  }

  /** The private destination shares no block with the source. */
  lemma DestinationDisjoint(cfg: Config, s: Sched, r: RequestId)
    requires cfg.Valid() && Inv(cfg, s) && r in s.pending
    ensures r in s.tables && |s.pending[r].plan.destination| == cfg.Keep()
    ensures forall b :: b in s.pending[r].plan.destination ==> b !in s.tables[r]
  {
    hide CeilDiv, Blocks;
    SchedulerSteps.Known(s, r);
    assert RequestOk(cfg, s, r);
    forall b | b in s.pending[r].plan.destination ensures b !in s.tables[r] {
      var j :| 0 <= j < |s.pending[r].reserved| && s.pending[r].reserved[j] == b;
      HeldOnce(s, r, b);
      InReserved(s, r, j);
      assert b in s.tables[r] ==> b in multiset(TableOf(s, r));
    }
  }

  lemma PlansFit(cfg: Config, lw: Worker, b: Build, s': Sched, out: Output, r: RequestId, drafts: bool, dst: seq<BlockId>)
    requires cfg.Valid() && Building(cfg, lw, b) && Inv(cfg, s')
    requires out.entries == b.out.entries && r in out.entries && r in out.plans
    requires Armed(cfg, b.s, s', r, drafts, dst, out.plans[r])
    ensures PlanFits(cfg, Update(lw, b.out), out, r)
  {
    hide CeilDiv, Update, Balanced, Agree, Quiet, Settled;
    EntryAgrees(cfg, lw, b, r);
    DestinationDisjoint(cfg, s', r);
    assert RequestOk(cfg, b.s, r);
    var u := Update(lw, b.out);
    assert Semantic(u, out, r) == b.s.requests[r].computed;
    assert PhysicalOf(u, out, r) == PhysicalAt(b.s, r, b.s.requests[r].computed) == Physical(b.s, r);
  }

  /** The emitted state: arming done, resets handed over, one more output issued. */
  lemma ArmedInv(cfg: Config, lw: Worker, h: Build, drafts: set<RequestId>, supply: Supply)
    requires cfg.Valid() && Building(cfg, lw, h) && CanArmAll(cfg, h.s, h.out.order, drafts, supply)
    ensures var s' := ArmAll(cfg, h.s, h.out.order, drafts, supply);
      && Inv(cfg, s') && !ArmingRaises(cfg, h.s, h.out.order, drafts, supply)
      && ArmEffect(cfg, h.s, s', PlansOf(cfg, h.s, h.out.order, drafts, supply), h.out.order, drafts, supply)
  {
    hide Inv, Update, Agree, Quiet, CeilDiv, Settled;
    var order := h.out.order;
    forall i | 0 <= i < |order| ensures order[i] in h.s.tables && Schedulable(cfg, h.s, order[i]) {
      assert order[i] in h.out.entries.Keys;
      assert EntryOk(cfg, h.s, h.out, order[i]);
    }
    ArmAllKeeps(cfg, h.s, order, drafts, supply);
    ArmAllEffect(cfg, h.s, order, drafts, supply);
  }

  function Dispatched(cfg: Config, h: Build, drafts: set<RequestId>, supply: Supply): Build
    requires cfg.Valid()
  {
    Build(ArmAll(cfg, h.s, h.out.order, drafts, supply).(finished := {}, preempted := {}, issued := h.s.issued + 1),
          h.out.(plans := PlansOf(cfg, h.s, h.out.order, drafts, supply)))
  }

  lemma DispatchFits(cfg: Config, lw: Worker, h: Build, drafts: set<RequestId>, supply: Supply)
    requires cfg.Valid() && Building(cfg, lw, h) && CanArmAll(cfg, h.s, h.out.order, drafts, supply)
    ensures var out := Dispatched(cfg, h, drafts, supply).out;
      && Update(lw, out) == Update(lw, h.out)
      && (forall r :: r in out.plans ==> r in out.order && r in out.entries && PlanFits(cfg, Update(lw, out), out, r))
  {
    hide Inv, Update, Agree, Quiet, CeilDiv, Settled, PlanFits, Armed;
    ArmedInv(cfg, lw, h, drafts, supply);
    var out := Dispatched(cfg, h, drafts, supply).out;
    var plans := out.plans;
    var s' := ArmAll(cfg, h.s, h.out.order, drafts, supply);
    UpdateIgnoresPlans(lw, h.out, plans);
    forall r | r in plans ensures r in out.order && r in out.entries && PlanFits(cfg, Update(lw, out), out, r) {
      assert r in h.out.order && Armed(cfg, h.s, s', r, r in drafts, supply(r), plans[r]);
      assert r in h.out.entries.Keys;
      PlansFit(cfg, lw, h, s', out, r, r in drafts, supply(r));
    }
  }

  /** The worker's step on the finished output, in terms of its update phase. */
  lemma ExecuteEffect(cfg: Config, select: Selector, lw: Worker, h: Build, drafts: set<RequestId>, supply: Supply)
    requires cfg.Valid() && GoodSelector(cfg, select)
    requires Building(cfg, lw, h) && CanArmAll(cfg, h.s, h.out.order, drafts, supply)
    ensures var out := Dispatched(cfg, h, drafts, supply).out;
      var u, done := Update(lw, out), Execute(cfg, select, lw, out);
      && u == Update(lw, h.out)
      && !StepRaises(cfg, select, u.(mem := Forward(cfg, u, out.order, out.entries)), out, out.order)
      && done.requests == u.requests && done.active == u.active
      && (forall r :: Get(done.pending, r) ==
            if r in out.plans then Some(WPending(out.plans[r].semantic, cfg.budget, out.plans[r].destination))
            else Get(u.pending, r))
  {
    hide Building, Update, PlanFits, CompressOne, CeilDiv, GoodSelector, Arm, Arms;
    var out := Dispatched(cfg, h, drafts, supply).out;
    DispatchFits(cfg, lw, h, drafts, supply);
    OrderDistinct(cfg, lw, h);
    var u := Update(lw, out);
    var v := u.(mem := Forward(cfg, u, out.order, out.entries));
    forall i | 0 <= i < |out.order| && out.order[i] in out.plans ensures PlanFits(cfg, v, out, out.order[i]) {
      FitsIdle(cfg, u, out, out.order[i]);
      FitsFrame(cfg, u, v, out, out.order[i]);
    }
    CompressEffect(cfg, select, v, out, out.order);
  }

  lemma OrderDistinct(cfg: Config, lw: Worker, h: Build)
    requires cfg.Valid() && Building(cfg, lw, h)
    ensures Distinct(h.out.order) && Enumerates(h.out.order, h.out.entries.Keys)
  {
    hide Inv, Update, Agree, Quiet, CeilDiv, Settled;
  }

  lemma ArmedAgrees(cfg: Config, lw: Worker, h: Build, s': Sched, done: Worker, r: RequestId,
                    drafts: bool, dst: seq<BlockId>, plan: Plan)
    requires cfg.Valid() && Building(cfg, lw, h) && r in h.out.entries
    requires Armed(cfg, h.s, s', r, drafts, dst, plan)
    requires done.requests == Update(lw, h.out).requests && done.active == Update(lw, h.out).active
    requires Get(done.pending, r) == Some(WPending(plan.semantic, cfg.budget, plan.destination))
    ensures AgreeAt(s', done, r)
  {
    hide Building, Update, CeilDiv;
    EntryAgrees(cfg, lw, h, r);
  }

  lemma DispatchAgrees(cfg: Config, select: Selector, lw: Worker, h: Build, drafts: set<RequestId>, supply: Supply)
    requires cfg.Valid() && GoodSelector(cfg, select)
    requires Building(cfg, lw, h) && CanArmAll(cfg, h.s, h.out.order, drafts, supply)
    ensures var b := Dispatched(cfg, h, drafts, supply);
      var done := Execute(cfg, select, lw, b.out);
      Agree(b.s, done) && Quiet(b.s, done, {}) && Rooted(done)
  {
    hide Inv, Update, Execute, Armed, CeilDiv, Settled, Arm, Arms, CompressOne, AgreeAt;
    var b := Dispatched(cfg, h, drafts, supply);
    var s' := ArmAll(cfg, h.s, h.out.order, drafts, supply);
    var u, done := Update(lw, h.out), Execute(cfg, select, lw, b.out);
    var plans := b.out.plans;
    ArmedInv(cfg, lw, h, drafts, supply);
    ExecuteEffect(cfg, select, lw, h, drafts, supply);
    UpdateRooted(lw, h.out);
    forall r | r in plans ensures r in h.out.entries && r in s'.tables && AgreeAt(b.s, done, r) {
      assert r in h.out.order && Armed(cfg, h.s, s', r, r in drafts, supply(r), plans[r]);
      assert r in h.out.entries.Keys;
      ArmedAgrees(cfg, lw, h, s', done, r, r in drafts, supply(r), plans[r]);
      Emitted(s', b.s, done, r);
    }
    forall r | r !in plans ensures r in b.s.tables ==> AgreeAt(b.s, done, r)
      ensures r !in b.s.tables ==> r !in done.pending && r !in done.active
    {
      assert SameAt(h.s, s', r);
      if r in b.s.tables {
        AgreeFrame(h.s, s', u, done, r);
        Emitted(s', b.s, done, r);
      }
    }
    forall r | r in done.pending.Keys + done.active.Keys ensures r in done.requests {
      if r in plans { EntryAgrees(cfg, lw, h, r); }
      else { assert r in u.pending.Keys + u.active.Keys; }
    }
  }

  /** Emitting the output changes no request. */
  lemma Emitted(s: Sched, s': Sched, w: Worker, r: RequestId)
    requires s'.requests == s.requests && s'.tables == s.tables && s'.pending == s.pending && s'.active == s.active
    ensures AgreeAt(s, w, r) ==> AgreeAt(s', w, r)
    ensures r in s.tables && AgreeAt(s, w, r) ==> r in s'.tables
  {
  }

  lemma DispatchRuns(cfg: Config, select: Selector, lw: Worker, h: Build, drafts: set<RequestId>, supply: Supply)
    requires cfg.Valid() && GoodSelector(cfg, select)
    requires Building(cfg, lw, h) && CanArmAll(cfg, h.s, h.out.order, drafts, supply)
    ensures var b := Dispatched(cfg, h, drafts, supply); RunsAs(cfg, select, lw, Snapshot(b))
  {
    hide Inv, Update, Execute, Building, CeilDiv, Settled, Arm, Arms, CompressOne, AgreeAt;
    var b := Dispatched(cfg, h, drafts, supply);
    var s' := ArmAll(cfg, h.s, h.out.order, drafts, supply);
    ArmedInv(cfg, lw, h, drafts, supply);
    ExecuteEffect(cfg, select, lw, h, drafts, supply);
    forall r | r in b.out.plans ensures b.out.plans[r].physical == cfg.budget {
      assert Armed(cfg, h.s, s', r, r in drafts, supply(r), b.out.plans[r]);
    }
    forall r | r in b.out.entries
      ensures Get(s'.tables, r) == Get(h.s.tables, r) && Get(s'.active, r) == Get(h.s.active, r)
    {
      if r in b.out.plans {
        assert Armed(cfg, h.s, s', r, r in drafts, supply(r), b.out.plans[r]);
      } else {
        assert SameAt(h.s, s', r);
      }
    }
    var f := Snapshot(b);
    var u := Update(lw, f.out);
    forall r | r in f.out.entries
      ensures r in u.requests && r in f.tables && r !in u.pending
        && u.requests[r].table == f.tables[r] && Get(u.active, r) == Get(f.anchors, r)
    {
      EntryAgrees(cfg, lw, h, r);
    }
  }

  // ---------------------------------------------------------------- the whole pass

  /** The host's part of the pass, and what it keeps of the state before. */
  lemma HostedBuilds(cfg: Config, select: Selector, sys: System, p: Pass)
    requires cfg.Valid() && SystemInv(cfg, select, sys)
    requires |sys.flight| < (if cfg.asynchronous then cfg.maxBatches else 1)
    requires PassEnabled(cfg, sys.s, p) && PassSnapshots(cfg, sys.s, p)
    ensures var h, t := Hosted(cfg, sys.s, p), BeforeSchedule(cfg, sys.s, p.finished, p.waiting);
      && Building(cfg, Logical(cfg, select, sys), h)
      && ResetAll(h.s, p.resets) == h.s
      && h.s.issued == sys.s.issued
      && (forall q :: Kept(t, h.s, h.out.preempted, q))
      && sys.s.preempted <= h.out.preempted
  {
    hide Inv, Agree, Replay, Faithful, CeilDiv, ReleasesOf, HeldThrough, Operate, Enabled, CacheBlocks, Mirrors, Waiting;
    var lw := Logical(cfg, select, sys);
    var t := BeforeSchedule(cfg, sys.s, p.finished, p.waiting);
    BeforeEffect(cfg, select, sys, p);
    OpeningBuilds(cfg, t, lw);
    OperateAllKeeps(cfg, lw, Build(t, Opening(t)), p.ops);
    var b := OperateAll(cfg, Build(t, Opening(t)), p.ops);
    CacheAllKeeps(cfg, b.s, b.out, p.caches);
    CachedBuilds(cfg, lw, b, CacheAll(b.s, p.caches));
    var h := Hosted(cfg, sys.s, p);
    ResetsIdle(cfg, lw, h, p.resets);
    forall q ensures Kept(t, h.s, h.out.preempted, q) {
      assert Kept(t, b.s, b.out.preempted, q);
      KeptSame(t, b.s, h.s, b.out.preempted, q);
    }
  }

  lemma KeptSame(t: Sched, s: Sched, s': Sched, p: set<RequestId>, q: RequestId)
    requires Kept(t, s, p, q) && SameBooks(s, s')
    ensures Kept(t, s', p, q)
  {
  }

  lemma ResetsIdle(cfg: Config, lw: Worker, h: Build, resets: seq<RequestId>)
    requires cfg.Valid() && Building(cfg, lw, h)
    requires Enumerates(resets, h.out.finished + h.out.preempted)
    ensures ResetAll(h.s, resets) == h.s
  {
    hide Inv, Agree, Quiet, Update, CeilDiv, Settled;
    forall i | 0 <= i < |resets| ensures resets[i] !in h.s.pending && resets[i] !in h.s.active {
      var r := resets[i];
      assert r in h.out.finished + h.out.preempted;
      if r in h.s.tables {
        ResetReadmitted(cfg, lw, h, r);
      } else {
        IdleWithoutTable(cfg, h.s, r);
      }
    }
    ResetAllIdle(h.s, resets);
  }

  /** A request that was reset and admitted again in the same pass starts without a transaction. */
  lemma ResetReadmitted(cfg: Config, lw: Worker, h: Build, r: RequestId)
    requires cfg.Valid() && Building(cfg, lw, h) && r in h.s.tables
    requires r in h.out.finished || r in h.out.preempted
    ensures r !in h.s.pending && r !in h.s.active
  {
    hide Inv, Quiet, Update, CeilDiv, Settled;
    assert r in h.out.entries;
    assert EntryOk(cfg, h.s, h.out, r);
    assert AgreeAt(h.s, Update(lw, h.out), r);
    UpdateReset(lw, h.out, r);
  }

  /** Arming and emitting touch no table and no release, and add only the new plans. */
  ghost predicate Emits(h: Build, b: Build, q: RequestId) {
    && (q in b.s.tables <==> q in h.s.tables)
    && TableOf(b.s, q) == TableOf(h.s, q) && ReleasesOf(b.s, q) == ReleasesOf(h.s, q)
    && (q in b.s.pending ==>
          if q in b.out.plans then b.s.pending[q].plan == b.out.plans[q] && !b.s.pending[q].ready
          else Get(h.s.pending, q) == Some(b.s.pending[q]))
    && (q in h.s.pending ==> Get(b.s.pending, q) == Get(h.s.pending, q))
    && (q in b.out.plans ==> q in b.s.pending)
  }

  lemma DispatchKept(cfg: Config, lw: Worker, h: Build, drafts: set<RequestId>, supply: Supply, q: RequestId)
    requires cfg.Valid() && Building(cfg, lw, h) && CanArmAll(cfg, h.s, h.out.order, drafts, supply)
    ensures Emits(h, Dispatched(cfg, h, drafts, supply), q)
  {
    hide Inv, Update, Building, CeilDiv, Arm, Arms;
    ArmedInv(cfg, lw, h, drafts, supply);
    var s' := ArmAll(cfg, h.s, h.out.order, drafts, supply);
    var plans := PlansOf(cfg, h.s, h.out.order, drafts, supply);
    if q in plans {
      ArmedKept(cfg, h.s, s', q, q in drafts, supply(q), plans[q]);
    } else {
      SameKept(h.s, s', q);
    }
  }

  lemma ArmedKept(cfg: Config, s: Sched, s': Sched, q: RequestId, drafts: bool, dst: seq<BlockId>, plan: Plan)
    requires cfg.Valid() && Armed(cfg, s, s', q, drafts, dst, plan)
    ensures q in s'.tables <==> q in s.tables
    ensures TableOf(s', q) == TableOf(s, q) && ReleasesOf(s', q) == ReleasesOf(s, q)
    ensures q in s'.pending && s'.pending[q].plan == plan && !s'.pending[q].ready && q !in s.pending
  {
  }

  lemma SameKept(s: Sched, s': Sched, q: RequestId)
    requires SameAt(s, s', q)
    ensures q in s'.tables <==> q in s.tables
    ensures TableOf(s', q) == TableOf(s, q) && ReleasesOf(s', q) == ReleasesOf(s, q)
    ensures Get(s'.pending, q) == Get(s.pending, q)
  {
  }

  lemma NewHistory(cfg: Config, sys: System, t: Sched, h: Build, b: Build, acked: nat)
    requires Waiting(cfg, t, sys.flight) && Stamped(t, acked)
    requires forall q :: Kept(t, h.s, h.out.preempted, q)
    requires forall q :: Emits(h, b, q)
    ensures Waiting(cfg, b.s, Void(sys.flight, b.out.preempted) + [Snapshot(b)]) && Stamped(b.s, acked)
  {
    hide ReleasesOf;
    var fs, fs' := sys.flight, Void(sys.flight, b.out.preempted) + [Snapshot(b)];
    forall q | q in b.s.pending
      ensures cfg.asynchronous ==> !b.s.pending[q].ready
      ensures !b.s.pending[q].ready ==> PlanInFlight(fs', q, b.s.pending[q].plan)
    {
      assert Emits(h, b, q);
      if q in b.out.plans {
        assert fs'[|fs|].out == b.out;
      } else {
        assert Kept(t, h.s, h.out.preempted, q);
        if !b.s.pending[q].ready {
          var i :| 0 <= i < |fs| && Get(fs[i].out.plans, q) == Some(t.pending[q].plan);
          assert fs'[i].out == fs[i].out;
        }
      }
    }
    forall q, k | 0 <= k < |ReleasesOf(b.s, q)| ensures ReleasesOf(b.s, q)[k].stamp <= acked + ReleasesOf(b.s, q)[k].remaining {
      assert Kept(t, h.s, h.out.preempted, q) && Emits(h, b, q);
    }
  }

  /** Old flights stay protected, and the new one starts protected by its own tables. */
  lemma NewProtection(s: Sched, fs: seq<Flight>, h: Build, b: Build)
    requires Protected(s, fs)
    requires forall q :: Kept(s, h.s, h.out.preempted, q)
    requires b.out.preempted == h.out.preempted && b.out.entries == h.out.entries
    requires forall q :: q in b.out.entries ==> q in b.s.tables
    requires forall q :: Emits(h, b, q)
    ensures Protected(b.s, Void(fs, b.out.preempted) + [Snapshot(b)])
  {
    hide ReleasesOf;
    var fs' := Void(fs, b.out.preempted) + [Snapshot(b)];
    forall i, r | 0 <= i < |fs'| ensures ProtectedFor(b.s, fs'[i], r, i) {
      assert Kept(s, h.s, h.out.preempted, r) && Emits(h, b, r);
      if i < |fs| {
        assert ProtectedFor(s, fs[i], r, i);
        assert fs'[i].out == fs[i].out;
        if r in fs'[i].live {
          assert forall x :: HeldThrough(s, r, x, i) ==> HeldThrough(b.s, r, x, i);
          assert forall x :: DestinationHeld(s, r, x, i) ==> DestinationHeld(b.s, r, x, i);
        }
      }
    }
  }

  lemma ScheduleParts(cfg: Config, select: Selector, sys: System, p: Pass, h: Build, b: Build)
    requires cfg.Valid() && GoodSelector(cfg, select) && SystemInv(cfg, select, sys)
    requires |sys.flight| < (if cfg.asynchronous then cfg.maxBatches else 1)
    requires PassEnabled(cfg, sys.s, p) && PassSnapshots(cfg, sys.s, p)
    requires h == Hosted(cfg, sys.s, p) && b == Dispatched(cfg, h, p.drafts, p.supply)
    ensures Scheduled(cfg, sys.s, p) == b
    ensures Building(cfg, Logical(cfg, select, sys), h) && CanArmAll(cfg, h.s, h.out.order, p.drafts, p.supply)
    ensures Inv(cfg, b.s) && Owing(b.s) && b.s.finished == {} && b.s.preempted == {} && b.s.issued == sys.s.issued + 1
    ensures var fs' := Void(sys.flight, b.out.preempted) + [Snapshot(b)];
      Waiting(cfg, b.s, fs') && Protected(b.s, fs') && Stamped(b.s, sys.acked)
  {
    hide Inv, Agree, Quiet, Rooted, Building, Execute, RunsAs, Waiting, Protected, Stamped, Kept, Emits, CeilDiv,
      Operate, Enabled, CacheBlocks, Arm, Arms, Owing;
    var lw := Logical(cfg, select, sys);
    var t := BeforeSchedule(cfg, sys.s, p.finished, p.waiting);
    BeforeEffect(cfg, select, sys, p);
    HostedBuilds(cfg, select, sys, p);
    ArmedInv(cfg, lw, h, p.drafts, p.supply);
    EmittedInv(cfg, h, b, p.drafts, p.supply);
    forall q ensures Emits(h, b, q) { DispatchKept(cfg, lw, h, p.drafts, p.supply, q); }
    forall q | q in b.out.entries ensures q in b.s.tables {
      EntryAgrees(cfg, lw, h, q);
      EmitsTable(h, b, q);
    }
    ScheduleHistory(cfg, select, sys, t, h, b);
  }

  lemma EmitsTable(h: Build, b: Build, q: RequestId)
    requires Emits(h, b, q)
    ensures q in b.s.tables <==> q in h.s.tables
  {
  }

  lemma SchedulePreserves(cfg: Config, select: Selector, sys: System, e: Event, sys': System)
    requires cfg.Valid() && GoodSelector(cfg, select)
    requires SystemInv(cfg, select, sys) && e.ESchedule? && Next(cfg, select, sys, e, sys')
    ensures SystemInv(cfg, select, sys')
  {
    hide Inv, Agree, Rooted, Building, Execute, RunsAs, Waiting, Protected, Stamped, CeilDiv, Owing, Arm, Arms,
      Hosted, Scheduled, PassSnapshots, Snapshot;
    var p, lw := e.pass, Logical(cfg, select, sys);
    var h := Hosted(cfg, sys.s, p);
    var b := Dispatched(cfg, h, p.drafts, p.supply);
    ScheduleParts(cfg, select, sys, p, h, b);
    DispatchAgrees(cfg, select, lw, h, p.drafts, p.supply);
    DispatchRuns(cfg, select, lw, h, p.drafts, p.supply);
    ScheduleReplay(cfg, select, sys, b);
  }

  /** The invariant reads neither the reset sets nor the output counter. */
  lemma InvFrame(cfg: Config, s: Sched, s': Sched)
    requires cfg.Valid() && Inv(cfg, s)
    requires s'.requests == s.requests && s'.tables == s.tables && s'.pending == s.pending && s'.active == s.active
    requires s'.deferred == s.deferred && s'.pool == s.pool
    ensures Inv(cfg, s')
  {
    hide RequestOk, Held, CeilDiv;
    forall q | q in s.requests ensures Held(s', q) == Held(s, q) && RequestOk(cfg, s', q) {
      SameHeld(s, s', q);
      SameRequest(cfg, s, s', q);
    }
    assert Holdings(s') == Holdings(s);
  }

  lemma EmittedInv(cfg: Config, h: Build, b: Build, drafts: set<RequestId>, supply: Supply)
    requires cfg.Valid() && b == Dispatched(cfg, h, drafts, supply)
    requires Inv(cfg, ArmAll(cfg, h.s, h.out.order, drafts, supply))
    ensures Inv(cfg, b.s) && Owing(b.s)
    ensures b.s.finished == {} && b.s.preempted == {} && b.s.issued == h.s.issued + 1
    ensures b.out.preempted == h.out.preempted && b.out.entries == h.out.entries
  {
    hide Inv, Arm, Arms, CeilDiv;
    InvFrame(cfg, ArmAll(cfg, h.s, h.out.order, drafts, supply), b.s);
  }

  lemma ScheduleReplay(cfg: Config, select: Selector, sys: System, b: Build)
    requires cfg.Valid() && sys.executed <= |sys.flight|
    requires Faithful(cfg, select, sys.w, sys.flight[sys.executed..])
    requires RunsAs(cfg, select, Logical(cfg, select, sys), Snapshot(b))
    ensures var fs' := Void(sys.flight, b.out.preempted) + [Snapshot(b)];
      && Replay(cfg, select, sys.w, fs'[sys.executed..]) == Execute(cfg, select, Logical(cfg, select, sys), b.out)
      && Faithful(cfg, select, sys.w, fs'[sys.executed..])
  {
    hide Execute, RunsAs;
    var gone := b.out.preempted;
    var fs := sys.flight[sys.executed..];
    var fs' := Void(sys.flight, gone) + [Snapshot(b)];
    assert fs'[sys.executed..] == Void(fs, gone) + [Snapshot(b)];
    ReplayVoid(cfg, select, sys.w, fs, gone);
    ReplayAppend(cfg, select, sys.w, Void(fs, gone), Snapshot(b));
  }

  lemma ScheduleHistory(cfg: Config, select: Selector, sys: System, t: Sched, h: Build, b: Build)
    requires cfg.Valid() && SystemInv(cfg, select, sys)
    requires Stamped(t, sys.acked)
    requires if cfg.asynchronous then t == sys.s else t.pending == map[] && sys.flight == []
    requires forall q :: Kept(t, h.s, h.out.preempted, q)
    requires b.out.preempted == h.out.preempted && b.out.entries == h.out.entries
    requires forall q :: q in b.out.entries ==> q in b.s.tables
    requires forall q :: Emits(h, b, q)
    ensures var fs' := Void(sys.flight, b.out.preempted) + [Snapshot(b)];
      Waiting(cfg, b.s, fs') && Protected(b.s, fs') && Stamped(b.s, sys.acked)
  {
    hide Inv, Mirrors, Faithful, ReleasesOf, TableOf, Kept, Emits, Owing, Stamped;
    if !cfg.asynchronous {
      assert Waiting(cfg, t, sys.flight);
      assert Protected(t, sys.flight);
    }
    NewHistory(cfg, sys, t, h, b, sys.acked);
    NewProtection(t, sys.flight, h, b);
  }
}
