// Commits, acknowledgements, frees and worker steps leave every stored view as it is.

module KVSteps {
  import opened Common
  import opened SchedulerModel
  import opened SchedulerInvariant
  import opened SchedulerSteps
  import opened WorkerModel
  import opened Protocol
  import opened ProtocolInvariant
  import opened KVContent

  /** The two states mean the same table, offset and length for the request's next step. */
  ghost predicate SameCommitted(s: Sched, t: Sched, q: RequestId) {
    && (q in t.tables <==> q in s.tables)
    && CommittedTable(t, q) == CommittedTable(s, q)
    && CommittedAnchor(t, q) == CommittedAnchor(s, q)
    && (q in t.requests <==> q in s.requests)
    && (q in s.requests ==> t.requests[q].info == s.requests[q].info && t.requests[q].computed == s.requests[q].computed)
  }

  ghost predicate SameMeaning(s: Sched, t: Sched) {
    && (forall q :: SameCommitted(s, t, q))
    && t.pool.hashed == s.pool.hashed
  }

  lemma SameMeaningRefl(s: Sched)
    ensures SameMeaning(s, s)
  {
  }

  lemma SameMeaningTrans(s: Sched, t: Sched, u: Sched)
    requires SameMeaning(s, t) && SameMeaning(t, u)
    ensures SameMeaning(s, u)
  {
    forall q ensures SameCommitted(s, u, q) { assert SameCommitted(s, t, q) && SameCommitted(t, u, q); }
  }

  lemma CommitSame(cfg: Config, s: Sched, r: RequestId, defer: nat)
    requires cfg.Valid() && Inv(cfg, s)
    ensures SameMeaning(s, Commit(s, r, defer))
  {
    hide Balanced, CeilDiv, TableOk, ActiveOk, ReleasesOk, FreezeOk;
    RequestFacts(cfg, s, r);
    SchedulerSteps.Known(s, r);
    if r in s.pending { assert PendingOk(cfg, s, r); }
  }

  lemma AcknowledgeSame(s: Sched, r: RequestId, plan: Plan)
    ensures SameMeaning(s, Acknowledge(s, r, plan))
  {
  }

  lemma DrainSame(s: Sched, r: RequestId)
    ensures SameMeaning(s, Drain(s, r))
  {
    hide Retained, Expired;
  }

  lemma {:induction false} CommitAllSame(cfg: Config, s: Sched, ids: seq<RequestId>, defer: nat)
    requires cfg.Valid() && Inv(cfg, s)
    ensures SameMeaning(s, CommitAll(s, ids, defer)) && Inv(cfg, CommitAll(s, ids, defer))
    decreases |ids|
  {
    hide Inv, Commit, SameMeaning, CeilDiv;
    if ids == [] {
      SameMeaningRefl(s);
    } else {
      var t := Commit(s, ids[0], defer);
      CommitKeeps(cfg, s, ids[0], defer);
      CommitSame(cfg, s, ids[0], defer);
      CommitAllSame(cfg, t, ids[1..], defer);
      SameMeaningTrans(s, t, CommitAll(t, ids[1..], defer));
    }
  }

  lemma {:induction false} DrainAllSame(cfg: Config, s: Sched, ids: seq<RequestId>)
    requires cfg.Valid() && Inv(cfg, s)
    ensures SameMeaning(s, DrainAll(s, ids)) && Inv(cfg, DrainAll(s, ids))
    decreases |ids|
  {
    hide Inv, Drain, SameMeaning, CeilDiv;
    if ids == [] {
      SameMeaningRefl(s);
    } else {
      var t := Drain(s, ids[0]);
      DrainKeeps(cfg, s, ids[0]);
      DrainSame(s, ids[0]);
      DrainAllSame(cfg, t, ids[1..]);
      SameMeaningTrans(s, t, DrainAll(t, ids[1..]));
    }
  }

  lemma {:induction false} AcknowledgeAllSame(cfg: Config, s: Sched, ids: seq<RequestId>, plans: map<RequestId, Plan>)
    requires cfg.Valid() && Inv(cfg, s)
    requires forall i :: 0 <= i < |ids| ==> ids[i] in plans
    ensures SameMeaning(s, AcknowledgeAll(s, ids, plans)) && Inv(cfg, AcknowledgeAll(s, ids, plans))
    decreases |ids|
  {
    hide Inv, Acknowledge, SameMeaning, CeilDiv;
    if ids == [] {
      SameMeaningRefl(s);
    } else {
      var t := Acknowledge(s, ids[0], plans[ids[0]]);
      AcknowledgeKeeps(cfg, s, ids[0], plans[ids[0]]);
      AcknowledgeSame(s, ids[0], plans[ids[0]]);
      AcknowledgeAllSame(cfg, t, ids[1..], plans);
      SameMeaningTrans(s, t, AcknowledgeAll(t, ids[1..], plans));
    }
  }

  /** `after_output` only changes which table the scheduler already uses, never what it means. */
  lemma AfterOutputSame(cfg: Config, s: Sched, plans: map<RequestId, Plan>, acks: seq<RequestId>,
                        draining: seq<RequestId>, waiting: seq<RequestId>)
    requires cfg.Valid() && Inv(cfg, s)
    requires forall i :: 0 <= i < |acks| ==> acks[i] in plans
    ensures SameMeaning(s, AfterOutput(cfg, s, plans, acks, draining, waiting))
  {
    hide Inv, SameMeaning, CeilDiv;
    AcknowledgeAllSame(cfg, s, acks, plans);
    var t := AcknowledgeAll(s, acks, plans);
    if cfg.asynchronous {
      DrainAllSame(cfg, t, draining);
      var d := DrainAll(t, draining);
      CommitAllSame(cfg, d, waiting, cfg.Defer());
      SameMeaningTrans(s, t, d);
      SameMeaningTrans(s, d, CommitAll(d, waiting, cfg.Defer()));
    }
  }

  // ---------------------------------------------------------------- events outside a pass

  lemma ViewFrame(cfg: Config, s: Sched, t: Sched, mem: Memory, r: RequestId, views: map<RequestId, seq<nat>>)
    requires cfg.Valid() && ViewOk(cfg, s, mem, r, views) && SameCommitted(s, t, r)
    ensures ViewOk(cfg, t, mem, r, views)
  {
    hide ViewAt;
  }

  lemma SameAtCommitted(s: Sched, t: Sched, q: RequestId)
    requires SameAt(s, t, q)
    ensures SameCommitted(s, t, q)
  {
  }

  lemma FreedKeepsViews(cfg: Config, select: Selector, k: KV, e: Event, k': KV)
    requires cfg.Valid() && KVInv(cfg, select, k) && (e.EFinish? || e.EPreempt?) && NextKV(cfg, select, k, e, k')
    requires SystemInv(cfg, select, k'.sys)
    ensures KVInv(cfg, select, k')
  {
    hide SystemInv, ViewOk, Promised, Execute, Inv, CeilDiv, SameAt, Held, SameCommitted, Replay, Thaw;
    ReplayVoid(cfg, select, k.sys.w, k.sys.flight[k.sys.executed..], {e.r});
    assert Void(k.sys.flight, {e.r})[k.sys.executed..] == Void(k.sys.flight[k.sys.executed..], {e.r});
    var mem := Logical(cfg, select, k.sys).mem;
    forall q | q in k'.sys.s.tables ensures ViewOk(cfg, k'.sys.s, mem, q, k'.views) {
      assert q != e.r;
      FreedLocal(k.sys.s, e.r, q);
      SameAtCommitted(k.sys.s, k'.sys.s, q);
      FreedView(cfg, k, k', e.r, mem, q);
    }
    assert Promised(cfg, k'.sys.s.pool.hashed, mem, k.promise);
  }

  lemma FreedView(cfg: Config, k: KV, k': KV, r: RequestId, mem: Memory, q: RequestId)
    requires cfg.Valid() && q != r && ViewOk(cfg, k.sys.s, mem, q, k.views)
    requires SameCommitted(k.sys.s, k'.sys.s, q) && k'.views == k.views - {r}
    ensures ViewOk(cfg, k'.sys.s, mem, q, k'.views)
  {
    hide ViewAt;
    ViewFrame(cfg, k.sys.s, k'.sys.s, mem, q, k.views);
  }

  /** What rejected drafts leave of a stored view is still stored. */
  lemma CutView(cfg: Config, s: Sched, mem: Memory, r: RequestId, n: nat, views: map<RequestId, seq<nat>>)
    requires cfg.Valid() && CanRollback(cfg, s, r, n) && ViewOk(cfg, s, mem, r, views)
    requires r in s.active ==> s.active[r].physical == cfg.budget
    ensures n <= |views[r]| && ViewOk(cfg, Rollback(s, r, n), mem, r, views[r := views[r][..|views[r]| - n]])
  {
    hide Shape, Read, Tag;
    ShapeCut(cfg, views[r], s.requests[r].computed, n, Since(CommittedAnchor(s, r)));
    ShapeLength(cfg, views[r][..|views[r]| - n], s.requests[r].computed - n, Since(CommittedAnchor(s, r)));
  }

  lemma ShapeLength(cfg: Config, view: seq<nat>, computed: nat, since: Option<nat>)
    requires Shape(cfg, view, computed, since)
    ensures |view| == if since.Some? then cfg.budget + computed - since.value else computed
  {
  }

  lemma RolledView(cfg: Config, s: Sched, mem: Memory, r: RequestId, n: nat, views: map<RequestId, seq<nat>>, q: RequestId)
    requires cfg.Valid() && Inv(cfg, s) && CanRollback(cfg, s, r, n)
    requires r in views && n <= |views[r]| && q in s.tables && ViewOk(cfg, s, mem, q, views)
    ensures ViewOk(cfg, Rollback(s, r, n), mem, q, views[r := views[r][..|views[r]| - n]])
  {
    hide ViewOk, Inv, CeilDiv, SameCommitted, CanRollback, Rollback;
    RollbackMeans(cfg, s, r, n);
    if q == r {
      ActiveBudget(cfg, s, r);
      CutView(cfg, s, mem, r, n, views);
    } else {
      SameAtCommitted(s, Rollback(s, r, n), q);
      ViewFrame(cfg, s, Rollback(s, r, n), mem, q, views);
      ViewsElsewhere(cfg, Rollback(s, r, n), mem, q, views, views[r := views[r][..|views[r]| - n]]);
    }
  }

  lemma ActiveBudget(cfg: Config, s: Sched, r: RequestId)
    requires cfg.Valid() && Inv(cfg, s) && r in s.requests
    ensures r in s.active ==> s.active[r].physical == cfg.budget
  {
    hide CeilDiv, Balanced;
    RequestFacts(cfg, s, r);
  }

  lemma RollbackKeepsViews(cfg: Config, select: Selector, k: KV, e: Event, k': KV)
    requires cfg.Valid() && KVInv(cfg, select, k) && e.ERollback? && NextKV(cfg, select, k, e, k')
    requires SystemInv(cfg, select, k'.sys)
    ensures KVInv(cfg, select, k')
  {
    hide ViewOk, Promised, Inv, CeilDiv, Waiting, Protected, Stamped, Faithful, Mirrors, Owing, CanRollback, Rollback, Replay;
    var s, s', mem := k.sys.s, k'.sys.s, Logical(cfg, select, k.sys).mem;
    RollbackMeans(cfg, s, e.r, e.n);
    RolledLength(cfg, s, mem, e.r, e.n, k.views);
    forall q | q in s'.tables ensures ViewOk(cfg, s', mem, q, k'.views) {
      RolledView(cfg, s, mem, e.r, e.n, k.views, q);
    }
  }

  lemma RolledLength(cfg: Config, s: Sched, mem: Memory, r: RequestId, n: nat, views: map<RequestId, seq<nat>>)
    requires cfg.Valid() && Inv(cfg, s) && CanRollback(cfg, s, r, n) && ViewOk(cfg, s, mem, r, views)
    ensures r in views && n <= |views[r]|
  {
    hide Inv, CeilDiv, Stored;
    ActiveBudget(cfg, s, r);
    CutView(cfg, s, mem, r, n, views);
  }

  lemma ViewsElsewhere(cfg: Config, s: Sched, mem: Memory, q: RequestId, views: map<RequestId, seq<nat>>, views': map<RequestId, seq<nat>>)
    requires cfg.Valid() && ViewOk(cfg, s, mem, q, views) && Get(views', q) == Get(views, q)
    ensures ViewOk(cfg, s, mem, q, views')
  {
    hide ViewAt;
  }

  lemma RollbackMeans(cfg: Config, s: Sched, r: RequestId, n: nat)
    requires CanRollback(cfg, s, r, n)
    ensures r in s.requests && r in s.tables && n <= s.requests[r].computed
    ensures var t := Rollback(s, r, n); t.tables == s.tables && t.pool == s.pool && forall q :: q != r ==> SameAt(s, t, q)
  {
  }

  lemma SameLogical(cfg: Config, select: Selector, sys: System, e: Event, sys': System)
    requires cfg.Valid() && sys.executed <= |sys.flight| && (e.EAdd? || e.EExecute? || e.EAcknowledge?)
    requires Next(cfg, select, sys, e, sys')
    ensures sys'.executed <= |sys'.flight| && Logical(cfg, select, sys') == Logical(cfg, select, sys)
  {
    hide Execute, AfterOutput;
    var fs := sys.flight[sys.executed..];
    if e.EExecute? {
      assert fs[1..] == sys.flight[sys'.executed..];
    } else if e.EAcknowledge? {
      assert sys'.flight[sys'.executed..] == fs;
    }
  }

  ghost predicate SameOrOlder(s: Sched, s': Sched) {
    && s'.pool.hashed == s.pool.hashed
    && forall q :: q in s'.tables ==> q in s.tables && SameCommitted(s, s', q)
  }

  lemma QuietStep(cfg: Config, select: Selector, sys: System, e: Event, sys': System)
    requires cfg.Valid() && Inv(cfg, sys.s) && (e.EAdd? || e.EExecute? || e.EAcknowledge?)
    requires sys.executed <= |sys.flight| && Next(cfg, select, sys, e, sys')
    ensures SameOrOlder(sys.s, sys'.s)
  {
    hide Execute, Inv, CeilDiv, AfterOutput, SameCommitted;
    match e
    case EAcknowledge(acks, draining, waiting) =>
      AfterOutputSame(cfg, sys.s, sys.flight[0].out.plans, acks, draining, waiting);
      MeaningOlder(sys.s, sys'.s);
    case EExecute =>
      SameMeaningRefl(sys.s);
      MeaningOlder(sys.s, sys'.s);
    case EAdd(r, info, eligible) =>
      AddSame(cfg, sys.s, r, info, eligible);
  }

  lemma MeaningOlder(s: Sched, s': Sched)
    requires SameMeaning(s, s')
    ensures SameOrOlder(s, s')
  {
    forall q | q in s'.tables ensures q in s.tables { assert SameCommitted(s, s', q); }
  }

  /** Adding a request, running an output and acknowledging one change no view and no promise. */
  lemma QuietKeepsViews(cfg: Config, select: Selector, k: KV, e: Event, k': KV)
    requires cfg.Valid() && KVInv(cfg, select, k) && (e.EAdd? || e.EExecute? || e.EAcknowledge?) && NextKV(cfg, select, k, e, k')
    requires SystemInv(cfg, select, k'.sys)
    ensures KVInv(cfg, select, k')
  {
    hide ViewOk, Inv, CeilDiv, Waiting, Protected, Faithful, Next, Mirrors, Logical;
    SameLogical(cfg, select, k.sys, e, k'.sys);
    QuietStep(cfg, select, k.sys, e, k'.sys);
    var s, s', mem := k.sys.s, k'.sys.s, Logical(cfg, select, k.sys).mem;
    forall r | r in s'.tables ensures ViewOk(cfg, s', mem, r, k'.views) {
      ViewFrame(cfg, s, s', mem, r, k.views);
    }
  }

  lemma AddSame(cfg: Config, s: Sched, r: RequestId, info: Info, eligible: int)
    requires cfg.Valid() && Inv(cfg, s) && r !in s.requests
    ensures forall q :: q in s.tables ==> SameCommitted(s, Add(s, r, info, eligible), q)
    ensures Add(s, r, info, eligible).tables == s.tables && Add(s, r, info, eligible).pool == s.pool
  {
    hide RequestOk, Balanced, CeilDiv;
    forall q | q in s.tables ensures SameCommitted(s, Add(s, r, info, eligible), q) { SchedulerSteps.Known(s, q); }
  }
}
