// The two-party protocol over a queue of in-flight outputs.

module Protocol {
  import opened Common
  import opened SchedulerModel
  import opened WorkerModel
  import opened Schedule

  /** An output on its way. The rest is history: the tables and anchors the scheduler believed in when
      it issued the output, and which of its requests have not been freed since. */
  datatype Flight = Flight(out: Output, tables: map<RequestId, seq<BlockId>>, anchors: map<RequestId, Anchor>,
                           live: set<RequestId>)

  /** `flight[..executed]` have run on the worker and wait for acknowledgement; `acked` counts the past. */
  datatype System = System(s: Sched, w: Worker, flight: seq<Flight>, executed: nat, acked: nat)

  function Replay(cfg: Config, select: Selector, w: Worker, fs: seq<Flight>): Worker
    requires cfg.Valid()
    decreases |fs|
  {
    if fs == [] then w else Replay(cfg, select, Execute(cfg, select, w, fs[0].out), fs[1..])
  }

  /** The worker as it will be when everything issued so far has run. */
  function Logical(cfg: Config, select: Selector, sys: System): Worker
    requires cfg.Valid() && sys.executed <= |sys.flight|
  {
    Replay(cfg, select, sys.w, sys.flight[sys.executed..])
  }

  // ---------------------------------------------------------------- steps

  /** Everything nondeterministic about one scheduling pass. */
  datatype Pass = Pass(
    finished: seq<RequestId>, waiting: seq<RequestId>,
    ops: seq<HostOp>, caches: seq<(RequestId, nat)>,
    resets: seq<RequestId>, drafts: set<RequestId>, supply: Supply)

  datatype Event =
    | EAdd(r: RequestId, info: Info, eligible: int)
    | EFinish(r: RequestId)
    | EPreempt(r: RequestId)
    | ERollback(r: RequestId, n: nat)
    | ESchedule(pass: Pass)
    | EExecute
    | EAcknowledge(acks: seq<RequestId>, draining: seq<RequestId>, waiting: seq<RequestId>)

  predicate AllEnabled(cfg: Config, b: Build, ops: seq<HostOp>)
    decreases |ops|
  {
    ops == [] || (Enabled(cfg, b, ops[0]) && AllEnabled(cfg, Operate(cfg, b, ops[0]), ops[1..]))
  }

  function OperateAll(cfg: Config, b: Build, ops: seq<HostOp>): Build
    requires AllEnabled(cfg, b, ops)
    decreases |ops|
  {
    if ops == [] then b else OperateAll(cfg, Operate(cfg, b, ops[0]), ops[1..])
  }

  predicate AllCacheable(cfg: Config, s: Sched, out: Output, caches: seq<(RequestId, nat)>)
    decreases |caches|
  {
    caches == [] ||
    (&& caches[0].0 in out.entries && CanCache(cfg, s, caches[0].0, caches[0].1)
     && AllCacheable(cfg, CacheBlocks(s, caches[0].0, caches[0].1), out, caches[1..]))
  }

  function CacheAll(s: Sched, caches: seq<(RequestId, nat)>): Sched
    decreases |caches|
  {
    if caches == [] then s else CacheAll(CacheBlocks(s, caches[0].0, caches[0].1), caches[1..])
  }

  /** The state after the host's part of a pass, and the output without plans. */
  function Hosted(cfg: Config, s: Sched, p: Pass): Build
    requires var t := BeforeSchedule(cfg, s, p.finished, p.waiting); AllEnabled(cfg, Build(t, Opening(t)), p.ops)
  {
    var t := BeforeSchedule(cfg, s, p.finished, p.waiting);
    var b := OperateAll(cfg, Build(t, Opening(t)), p.ops);
    Build(CacheAll(b.s, p.caches), b.out)
  }

  predicate PassEnabled(cfg: Config, s: Sched, p: Pass)
    requires cfg.Valid()
  {
    var t := BeforeSchedule(cfg, s, p.finished, p.waiting);
    && AllEnabled(cfg, Build(t, Opening(t)), p.ops)
    && AllCacheable(cfg, OperateAll(cfg, Build(t, Opening(t)), p.ops).s, OperateAll(cfg, Build(t, Opening(t)), p.ops).out, p.caches)
    && var h := Hosted(cfg, s, p);
       && CanArmAll(cfg, ResetAll(h.s, p.resets), h.out.order, p.drafts, p.supply)
  }

  ghost predicate PassSnapshots(cfg: Config, s: Sched, p: Pass)
    requires cfg.Valid() && PassEnabled(cfg, s, p)
  {
    && Enumerates(p.finished, s.finished)
    && (!cfg.asynchronous ==> Enumerates(p.waiting, ResetAll(s, p.finished).pending.Keys))
    && Enumerates(p.resets, Hosted(cfg, s, p).out.finished + Hosted(cfg, s, p).out.preempted)
  }

  /** The whole `schedule` call: both hooks around the host's pass, then the output leaves. */
  function Scheduled(cfg: Config, s: Sched, p: Pass): Build
    requires cfg.Valid() && PassEnabled(cfg, s, p)
  {
    var h := Hosted(cfg, s, p);
    var t := ResetAll(h.s, p.resets);
    Build(ArmAll(cfg, t, h.out.order, p.drafts, p.supply).(finished := {}, preempted := {}, issued := t.issued + 1),
          h.out.(plans := PlansOf(cfg, t, h.out.order, p.drafts, p.supply)))
  }

  function Snapshot(b: Build): Flight {
    Flight(b.out,
           map r | r in b.out.entries && r in b.s.tables :: b.s.tables[r],
           map r | r in b.out.entries && r in b.s.active :: b.s.active[r],
           b.out.entries.Keys)
  }

  /** History only: freed requests no longer count on their in-flight outputs. */
  function Void(fs: seq<Flight>, gone: set<RequestId>): seq<Flight> {
    seq(|fs|, i requires 0 <= i < |fs| => fs[i].(live := fs[i].live - gone))
  }

  ghost predicate Next(cfg: Config, select: Selector, sys: System, e: Event, sys': System)
    requires cfg.Valid()
  {
    match e
    case EAdd(r, info, eligible) =>
      && r !in sys.s.requests && eligible < FROZEN
      && sys' == sys.(s := Add(sys.s, r, info, eligible))
    case EFinish(r) =>
      && r in sys.s.requests
      && sys' == sys.(s := Finish(sys.s, r), flight := Void(sys.flight, {r}))
    case EPreempt(r) =>
      && r in sys.s.requests
      && sys' == sys.(s := Preempt(sys.s, r), flight := Void(sys.flight, {r}))
    case ERollback(r, n) =>
      && CanRollback(cfg, sys.s, r, n)
      && sys' == sys.(s := Rollback(sys.s, r, n))
    case ESchedule(p) =>
      && |sys.flight| < (if cfg.asynchronous then cfg.maxBatches else 1)
      && PassEnabled(cfg, sys.s, p) && PassSnapshots(cfg, sys.s, p)
      && var b := Scheduled(cfg, sys.s, p);
         sys' == sys.(s := b.s, flight := Void(sys.flight, b.out.preempted) + [Snapshot(b)])
    case EExecute =>
      && sys.executed < |sys.flight|
      && sys' == sys.(w := Execute(cfg, select, sys.w, sys.flight[sys.executed].out), executed := sys.executed + 1)
    case EAcknowledge(acks, draining, waiting) =>
      && 0 < sys.executed <= |sys.flight|
      && Enumerates(acks, sys.flight[0].out.plans.Keys)
      && Enumerates(draining, sys.s.deferred.Keys)
      && Enumerates(waiting, sys.s.pending.Keys)
      && sys' == sys.(s := AfterOutput(cfg, sys.s, sys.flight[0].out.plans, acks, draining, waiting),
                      flight := sys.flight[1..], executed := sys.executed - 1, acked := sys.acked + 1)
  }

  ghost predicate Initial(sys: System) {
    && sys.s.requests == map[] && sys.s.tables == map[] && sys.s.cached == map[] && sys.s.pending == map[]
    && sys.s.active == map[] && sys.s.deferred == map[]
    && sys.s.finished == {} && sys.s.preempted == {} && sys.s.issued == 0
    && sys.s.pool.refs == multiset{} && !sys.s.pool.overdrawn && sys.s.pool.hashed == {}
    && sys.w.requests == map[] && sys.w.pending == map[] && sys.w.active == map[]
    && sys.flight == [] && sys.executed == 0 && sys.acked == 0
  }
}
