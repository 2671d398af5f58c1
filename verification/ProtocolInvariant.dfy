// What every reachable state of the protocol satisfies.

module ProtocolInvariant {
  import opened Common
  import opened SchedulerModel
  import opened SchedulerInvariant
  import opened SchedulerSteps
  import opened WorkerModel
  import opened Agreement
  import opened Protocol

  // ---------------------------------------------------------------- the system invariant

  /** The worker runs this output exactly as the scheduler believed when it issued it. */
  ghost predicate RunsAs(cfg: Config, select: Selector, w: Worker, f: Flight)
    requires cfg.Valid()
  {
    var u, done := Update(w, f.out), Execute(cfg, select, w, f.out);
    && (forall r :: r in f.out.entries ==>
          && r in u.requests && r in f.tables && r !in u.pending
          && u.requests[r].table == f.tables[r]
          && Get(u.active, r) == Get(f.anchors, r))
    && !StepRaises(cfg, select, u.(mem := Forward(cfg, u, f.out.order, f.out.entries)), f.out, f.out.order)
    && (forall r :: r in f.out.plans ==>
          Get(done.pending, r) == Some(WPending(f.out.plans[r].semantic, f.out.plans[r].physical, f.out.plans[r].destination)))
  }

  ghost predicate Faithful(cfg: Config, select: Selector, w: Worker, fs: seq<Flight>)
    requires cfg.Valid()
    decreases |fs|
  {
    fs == [] ||
    (RunsAs(cfg, select, w, fs[0]) && Faithful(cfg, select, Execute(cfg, select, w, fs[0].out), fs[1..]))
  }

  /** An armed compression is either acknowledged or its plan is still on its way. */
  ghost predicate Waiting(cfg: Config, s: Sched, fs: seq<Flight>) {
    forall r :: r in s.pending ==>
      && (cfg.asynchronous ==> !s.pending[r].ready)
      && (!s.pending[r].ready ==> PlanInFlight(fs, r, s.pending[r].plan))
  }

  ghost predicate PlanInFlight(fs: seq<Flight>, r: RequestId, plan: Plan) {
    exists i :: 0 <= i < |fs| && Get(fs[i].out.plans, r) == Some(plan)
  }

  /** Block `b` stays referenced on behalf of `r` through the next `i` acknowledgements. */
  ghost predicate HeldThrough(s: Sched, r: RequestId, b: BlockId, i: nat) {
    || b in TableOf(s, r)
    || exists k :: 0 <= k < |ReleasesOf(s, r)| && ReleasesOf(s, r)[k].remaining > i && b in ReleasesOf(s, r)[k].blocks
  }

  /** The same for a destination block, which the waiting compression reserves until it becomes the table. */
  ghost predicate DestinationHeld(s: Sched, r: RequestId, b: BlockId, i: nat) {
    (r in s.pending && b in s.pending[r].plan.destination) || HeldThrough(s, r, b, i)
  }

  /** Everything the `i`-th in-flight batch uses for `r` stays referenced until that batch is acknowledged:
      the table it reads and writes, and the destination it fills. */
  ghost predicate ProtectedFor(s: Sched, f: Flight, r: RequestId, i: nat) {
    r in f.live ==>
      && r in s.tables && r in f.tables
      && (forall b :: b in f.tables[r] ==> HeldThrough(s, r, b, i))
      && (r in f.out.plans ==> forall b :: b in f.out.plans[r].destination ==> DestinationHeld(s, r, b, i))
  }

  /** No in-flight batch of a live request uses a block that the pool could hand out before its acknowledgement. */
  ghost predicate Protected(s: Sched, fs: seq<Flight>) {
    forall i, r :: 0 <= i < |fs| ==> ProtectedFor(s, fs[i], r, i)
  }

  /** A deferred release outlasts every output issued before the commit that created it. */
  ghost predicate Stamped(s: Sched, acked: nat) {
    forall r, k :: 0 <= k < |ReleasesOf(s, r)| ==>
      ReleasesOf(s, r)[k].stamp <= acked + ReleasesOf(s, r)[k].remaining
  }

  ghost predicate Owing(s: Sched) {
    forall r :: r in s.tables ==> r !in s.finished && r !in s.preempted
  }

  ghost predicate Counted(cfg: Config, sys: System) {
    && sys.executed <= |sys.flight| <= (if cfg.asynchronous then cfg.maxBatches else 1)
    && sys.s.issued == sys.acked + |sys.flight|
  }

  ghost predicate Mirrors(cfg: Config, select: Selector, sys: System)
    requires cfg.Valid() && sys.executed <= |sys.flight|
  {
    var lw := Logical(cfg, select, sys);
    && Rooted(lw) && Agree(sys.s, lw) && Quiet(sys.s, lw, sys.s.finished + sys.s.preempted)
  }

  ghost predicate SystemInv(cfg: Config, select: Selector, sys: System)
    requires cfg.Valid()
  {
    && Counted(cfg, sys)
    && Inv(cfg, sys.s) && Owing(sys.s)
    && Mirrors(cfg, select, sys)
    && Faithful(cfg, select, sys.w, sys.flight[sys.executed..])
    && Waiting(cfg, sys.s, sys.flight)
    && Protected(sys.s, sys.flight)
    && Stamped(sys.s, sys.acked)
  }

  // ---------------------------------------------------------------- replay

  lemma {:induction false} ReplayAppend(cfg: Config, select: Selector, w: Worker, fs: seq<Flight>, f: Flight)
    requires cfg.Valid()
    ensures Replay(cfg, select, w, fs + [f]) == Execute(cfg, select, Replay(cfg, select, w, fs), f.out)
    ensures Faithful(cfg, select, w, fs + [f]) <==>
            Faithful(cfg, select, w, fs) && RunsAs(cfg, select, Replay(cfg, select, w, fs), f)
    decreases |fs|
  {
    hide Execute, RunsAs;
    if fs == [] {
      assert (fs + [f])[1..] == [];
    } else {
      assert (fs + [f])[1..] == fs[1..] + [f];
      ReplayAppend(cfg, select, Execute(cfg, select, w, fs[0].out), fs[1..], f);
    }
  }

  /** Replay reads only the outputs. */
  lemma {:induction false} ReplayVoid(cfg: Config, select: Selector, w: Worker, fs: seq<Flight>, gone: set<RequestId>)
    requires cfg.Valid()
    ensures Replay(cfg, select, w, Void(fs, gone)) == Replay(cfg, select, w, fs)
    ensures Faithful(cfg, select, w, Void(fs, gone)) <==> Faithful(cfg, select, w, fs)
    decreases |fs|
  {
    hide Execute, Update, StepRaises, Forward;
    if fs != [] {
      assert Void(fs, gone)[1..] == Void(fs[1..], gone);
      ReplayVoid(cfg, select, Execute(cfg, select, w, fs[0].out), fs[1..], gone);
    }
  }

  // ---------------------------------------------------------------- the initial state

  lemma InitialInv(cfg: Config, select: Selector, sys: System)
    requires cfg.Valid() && Initial(sys)
    ensures SystemInv(cfg, select, sys)
  {
    assert Holdings(sys.s) == map[];
  }

  // ---------------------------------------------------------------- host events between passes

  lemma HistoryFrame(cfg: Config, s: Sched, s': Sched, fs: seq<Flight>, acked: nat)
    requires s'.tables == s.tables && s'.deferred == s.deferred && s'.pending == s.pending
    requires Waiting(cfg, s, fs) && Protected(s, fs) && Stamped(s, acked)
    ensures Waiting(cfg, s', fs) && Protected(s', fs) && Stamped(s', acked)
  {
    assert forall r :: TableOf(s', r) == TableOf(s, r) && ReleasesOf(s', r) == ReleasesOf(s, r);
    assert forall r, b, i :: HeldThrough(s, r, b, i) ==> HeldThrough(s', r, b, i);
    assert forall r, b, i :: DestinationHeld(s, r, b, i) ==> DestinationHeld(s', r, b, i);
    assert forall i, r :: 0 <= i < |fs| && ProtectedFor(s, fs[i], r, i) ==> ProtectedFor(s', fs[i], r, i);
  }

  lemma AddPreserves(cfg: Config, select: Selector, sys: System, e: Event, sys': System)
    requires cfg.Valid() && SystemInv(cfg, select, sys) && e.EAdd? && Next(cfg, select, sys, e, sys')
    ensures SystemInv(cfg, select, sys')
  {
    hide Inv, Replay, Faithful, Balanced, AgreeAt;
    AddKeeps(cfg, sys.s, e.r, e.info, e.eligible);
    var lw := Logical(cfg, select, sys);
    RequestFacts(cfg, sys.s, e.r);
    HistoryFrame(cfg, sys.s, sys'.s, sys.flight, sys.acked);
    forall q | q in sys'.s.tables ensures AgreeAt(sys'.s, lw, q) {
      assert AgreeAt(sys.s, lw, q);
      assert SameAt(sys.s, sys'.s, q);
      AgreeFrame(sys.s, sys'.s, lw, lw, q);
    }
  }

  lemma RollbackPreserves(cfg: Config, select: Selector, sys: System, e: Event, sys': System)
    requires cfg.Valid() && SystemInv(cfg, select, sys) && e.ERollback? && Next(cfg, select, sys, e, sys')
    ensures SystemInv(cfg, select, sys')
  {
    hide Inv, Replay, Faithful, Balanced, AgreeAt;
    RollbackKeeps(cfg, sys.s, e.r, e.n);
    var lw := Logical(cfg, select, sys);
    HistoryFrame(cfg, sys.s, sys'.s, sys.flight, sys.acked);
    forall q | q in sys'.s.tables ensures AgreeAt(sys'.s, lw, q) {
      assert AgreeAt(sys.s, lw, q);
      RollbackAgrees(cfg, sys.s, e.r, e.n, lw, q);
    }
  }

  /** The two parties agree on tables and anchors, not on how many of the computed tokens will stay. */
  lemma RollbackAgrees(cfg: Config, s: Sched, r: RequestId, n: nat, lw: Worker, q: RequestId)
    requires CanRollback(cfg, s, r, n) && AgreeAt(s, lw, q)
    ensures AgreeAt(Rollback(s, r, n), lw, q)
  {
  }

  lemma FreedPreserves(cfg: Config, select: Selector, sys: System, e: Event, sys': System)
    requires cfg.Valid() && SystemInv(cfg, select, sys) && (e.EFinish? || e.EPreempt?) && Next(cfg, select, sys, e, sys')
    ensures SystemInv(cfg, select, sys')
  {
    hide Inv, Replay, Faithful, Balanced, Agree, Quiet, Held, Waiting, Protected, Stamped, Owing;
    if e.EFinish? { FinishKeeps(cfg, sys.s, e.r); } else { PreemptKeeps(cfg, sys.s, e.r); }
    assert Void(sys.flight, {e.r})[sys.executed..] == Void(sys.flight[sys.executed..], {e.r});
    ReplayVoid(cfg, select, sys.w, sys.flight[sys.executed..], {e.r});
    FreedMirrors(sys.s, e, sys'.s, Logical(cfg, select, sys));
    FreedHistory(cfg, select, sys, e, sys');
  }

  lemma FreedLocal(s: Sched, r: RequestId, q: RequestId)
    requires q != r
    ensures SameAt(s, Finish(s, r), q) && SameAt(s, Preempt(s, r), q)
  {
    hide Held;
  }

  lemma FreedMirrors(s: Sched, e: Event, s': Sched, lw: Worker)
    requires e.EFinish? || e.EPreempt?
    requires s' == if e.EFinish? then Finish(s, e.r) else Preempt(s, e.r)
    requires Agree(s, lw) && Quiet(s, lw, s.finished + s.preempted) && Owing(s)
    ensures Agree(s', lw) && Quiet(s', lw, s'.finished + s'.preempted) && Owing(s')
  {
    hide Held, AgreeAt;
    forall q | q in s'.tables ensures AgreeAt(s', lw, q) {
      FreedLocal(s, e.r, q);
      AgreeFrame(s, s', lw, lw, q);
    }
  }

  lemma FreedHistory(cfg: Config, select: Selector, sys: System, e: Event, sys': System)
    requires cfg.Valid() && SystemInv(cfg, select, sys) && (e.EFinish? || e.EPreempt?) && Next(cfg, select, sys, e, sys')
    ensures Waiting(cfg, sys'.s, sys'.flight) && Protected(sys'.s, sys'.flight) && Stamped(sys'.s, sys'.acked)
  {
    hide Inv, Logical, Faithful, Held, Mirrors, Owing;
    forall r | r in sys'.s.pending && !sys'.s.pending[r].ready ensures PlanInFlight(sys'.flight, r, sys'.s.pending[r].plan) {
      var i :| 0 <= i < |sys.flight| && Get(sys.flight[i].out.plans, r) == Some(sys.s.pending[r].plan);
      assert sys'.flight[i].out == sys.flight[i].out;
    }
    forall i, r | 0 <= i < |sys'.flight| ensures ProtectedFor(sys'.s, sys'.flight[i], r, i) {
      assert ProtectedFor(sys.s, sys.flight[i], r, i);
      FreedLists(sys.s, e.r, r);
      if r != e.r { FreedProtects(sys.s, sys'.s, sys.flight[i], sys'.flight[i], r, i); }
    }
    forall r, k | 0 <= k < |ReleasesOf(sys'.s, r)|
      ensures ReleasesOf(sys'.s, r)[k].stamp <= sys'.acked + ReleasesOf(sys'.s, r)[k].remaining
    {
      FreedLists(sys.s, e.r, r);
    }
  }

  lemma FreedLists(s: Sched, r: RequestId, q: RequestId)
    ensures ReleasesOf(Finish(s, r), q) == ReleasesOf(Preempt(s, r), q) == if q == r then [] else ReleasesOf(s, q)
    ensures TableOf(Finish(s, r), q) == TableOf(Preempt(s, r), q) == if q == r then [] else TableOf(s, q)
    ensures q != r ==> Get(Finish(s, r).pending, q) == Get(Preempt(s, r).pending, q) == Get(s.pending, q)
    ensures q != r ==> (q in Finish(s, r).tables <==> q in s.tables) && (q in Preempt(s, r).tables <==> q in s.tables)
  {
    hide Held;
  }

  lemma FreedProtects(s: Sched, s': Sched, f: Flight, f': Flight, r: RequestId, i: nat)
    requires ProtectedFor(s, f, r, i)
    requires f'.out == f.out && f'.tables == f.tables && (r in f'.live ==> r in f.live)
    requires (r in s'.tables <==> r in s.tables) && TableOf(s', r) == TableOf(s, r)
    requires ReleasesOf(s', r) == ReleasesOf(s, r) && Get(s'.pending, r) == Get(s.pending, r)
    ensures ProtectedFor(s', f', r, i)
  {
    hide ReleasesOf, TableOf;
    assert forall b :: HeldThrough(s, r, b, i) ==> HeldThrough(s', r, b, i);
    assert forall b :: DestinationHeld(s, r, b, i) ==> DestinationHeld(s', r, b, i);
  }

  // ---------------------------------------------------------------- the worker runs an output

  lemma ExecuteEnabled(cfg: Config, select: Selector, sys: System, sys': System)
    requires cfg.Valid() && Next(cfg, select, sys, EExecute, sys')
    ensures sys.executed < |sys.flight|
  {
  }

  lemma ExecutePreserves(cfg: Config, select: Selector, sys: System, sys': System)
    requires sys.executed < |sys.flight|
    requires cfg.Valid() && SystemInv(cfg, select, sys) && Next(cfg, select, sys, EExecute, sys')
    ensures SystemInv(cfg, select, sys')
    ensures RunsAs(cfg, select, sys.w, sys.flight[sys.executed])
  {
    hide Inv, Execute, RunsAs, Agree, Quiet, Rooted, Waiting, Protected, Stamped, Owing;
    var fs := sys.flight[sys.executed..];
    assert fs[0] == sys.flight[sys.executed];
    assert fs[1..] == sys.flight[sys'.executed..];
  }
}
