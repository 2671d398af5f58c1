// Processing one acknowledged output: acknowledge, drain, commit.

module AcknowledgeStep {
  import opened Common
  import opened SchedulerModel
  import opened SchedulerInvariant
  import opened SchedulerSteps
  import opened WorkerModel
  import opened Agreement
  import opened Protocol
  import opened ProtocolInvariant

  /** The parts of the scheduler that acknowledging, draining and committing leave alone. */
  ghost predicate Fixed(s: Sched, t: Sched) {
    && t.tables.Keys == s.tables.Keys
    && t.finished == s.finished && t.preempted == s.preempted && t.issued == s.issued
  }

  // ---------------------------------------------------------------- acknowledging

  lemma AcknowledgeAgrees(s: Sched, r: RequestId, plan: Plan, lw: Worker)
    requires Agree(s, lw)
    ensures Agree(Acknowledge(s, r, plan), lw)
  {
    var t := Acknowledge(s, r, plan);
    forall q | q in t.tables ensures AgreeAt(t, lw, q) { assert AgreeAt(s, lw, q); }
  }

  ghost predicate Marked(s: Sched, t: Sched, r: RequestId, marks: bool) {
    && (r in t.pending <==> r in s.pending)
    && (r in s.pending ==>
          && t.pending[r].plan == s.pending[r].plan
          && (t.pending[r].ready <==> s.pending[r].ready || marks))
  }

  /** Request `r` is acknowledged by this output. */
  ghost predicate Acked(s: Sched, r: RequestId, ids: seq<RequestId>, plans: map<RequestId, Plan>) {
    r in ids && r in s.pending && Get(plans, r) == Some(s.pending[r].plan)
  }

  lemma AcknowledgeHere(s: Sched, r: RequestId, plan: Plan)
    ensures var t := Acknowledge(s, r, plan);
      && Fixed(s, t) && t.tables == s.tables && t.deferred == s.deferred
      && (forall q :: q != r ==> Marked(s, t, q, false))
      && Marked(s, t, r, r in s.pending && s.pending[r].plan == plan)
  {
  }

  lemma {:induction false} AcknowledgeAllAt(s: Sched, ids: seq<RequestId>, plans: map<RequestId, Plan>, r: RequestId)
    requires forall i :: 0 <= i < |ids| ==> ids[i] in plans
    ensures Marked(s, AcknowledgeAll(s, ids, plans), r, Acked(s, r, ids, plans))
    decreases |ids|
  {
    hide Acknowledge;
    if ids != [] {
      var q := ids[0];
      AcknowledgeHere(s, q, plans[q]);
      assert ids == [q] + ids[1..];
      AcknowledgeAllAt(Acknowledge(s, q, plans[q]), ids[1..], plans, r);
      assert Marked(s, Acknowledge(s, q, plans[q]), r, r == q && q in s.pending && s.pending[q].plan == plans[q]);
    }
  }

  lemma {:induction false} AcknowledgeAllEffect(cfg: Config, s: Sched, ids: seq<RequestId>, plans: map<RequestId, Plan>, lw: Worker)
    requires cfg.Valid() && Inv(cfg, s) && Agree(s, lw)
    requires forall i :: 0 <= i < |ids| ==> ids[i] in plans
    ensures var t := AcknowledgeAll(s, ids, plans);
      && Inv(cfg, t) && Agree(t, lw) && Fixed(s, t)
      && t.tables == s.tables && t.deferred == s.deferred
      && forall r :: Marked(s, t, r, Acked(s, r, ids, plans))
    decreases |ids|
  {
    hide Inv, Agree, Acknowledge;
    if ids != [] {
      var r := ids[0];
      var t := Acknowledge(s, r, plans[r]);
      AcknowledgeHere(s, r, plans[r]);
      AcknowledgeKeeps(cfg, s, r, plans[r]);
      AcknowledgeAgrees(s, r, plans[r], lw);
      assert ids == [r] + ids[1..];
      AcknowledgeAllEffect(cfg, t, ids[1..], plans, lw);
      forall q ensures Marked(s, AcknowledgeAll(s, ids, plans), q, Acked(s, q, ids, plans)) {
        assert Marked(t, AcknowledgeAll(s, ids, plans), q, Acked(t, q, ids[1..], plans));
        assert Marked(s, t, q, q == r && r in s.pending && s.pending[r].plan == plans[r]);
      }
    }
  }

  // ---------------------------------------------------------------- draining

  lemma DrainAgrees(s: Sched, r: RequestId, lw: Worker)
    requires Agree(s, lw)
    ensures Agree(Drain(s, r), lw)
  {
    hide Retained, Expired;
    var t := Drain(s, r);
    forall q | q in t.tables ensures AgreeAt(t, lw, q) { assert AgreeAt(s, lw, q); }
  }

  lemma DrainHere(s: Sched, r: RequestId, q: RequestId)
    ensures ReleasesOf(Drain(s, r), q) == if q == r then Retained(ReleasesOf(s, q)) else ReleasesOf(s, q)
  {
    hide Expired;
  }

  lemma {:induction false} DrainAllEffect(cfg: Config, s: Sched, ids: seq<RequestId>, lw: Worker)
    requires cfg.Valid() && Inv(cfg, s) && Agree(s, lw) && Distinct(ids)
    ensures var t := DrainAll(s, ids);
      && Inv(cfg, t) && Agree(t, lw) && Fixed(s, t)
      && t.tables == s.tables && t.pending == s.pending
      && forall q :: ReleasesOf(t, q) == if q in ids then Retained(ReleasesOf(s, q)) else ReleasesOf(s, q)
    decreases |ids|
  {
    hide Inv, Agree, Retained, ReleasesOf, Expired;
    if ids != [] {
      var r, rest := ids[0], ids[1..];
      var t := Drain(s, r);
      assert ids == [r] + rest;
      assert r !in rest;
      DrainKeeps(cfg, s, r);
      DrainAgrees(s, r, lw);
      DrainAllEffect(cfg, t, rest, lw);
      forall q ensures ReleasesOf(t, q) == if q == r then Retained(ReleasesOf(s, q)) else ReleasesOf(s, q) {
        DrainHere(s, r, q);
      }
    }
  }

  /** Ageing keeps every release that still had more than one output to wait for. */
  lemma RetainedFinds(rs: seq<Release>, k: nat)
    requires k < |rs| && rs[k].remaining > 1
    ensures exists l :: 0 <= l < |Retained(rs)| && Retained(rs)[l] == rs[k].(remaining := rs[k].remaining - 1)
  {
    var aged := rs[0].(remaining := rs[0].remaining - 1);
    var head := if aged.remaining <= 0 then [] else [aged];
    if k == 0 {
      assert Retained(rs)[0] == aged;
    } else {
      RetainedFinds(rs[1..], k - 1);
      var l :| 0 <= l < |Retained(rs[1..])| && Retained(rs[1..])[l] == rs[k].(remaining := rs[k].remaining - 1);
      assert Retained(rs)[|head| + l] == Retained(rs[1..])[l];
    }
  }

  lemma RetainedComes(rs: seq<Release>, l: nat)
    requires l < |Retained(rs)|
    ensures exists k :: 0 <= k < |rs| && Retained(rs)[l] == rs[k].(remaining := rs[k].remaining - 1)
  {
    var aged := rs[0].(remaining := rs[0].remaining - 1);
    var head := if aged.remaining <= 0 then [] else [aged];
    if l < |head| {
      assert Retained(rs)[l] == rs[0].(remaining := rs[0].remaining - 1);
    } else {
      assert Retained(rs)[l] == Retained(rs[1..])[l - |head|];
      RetainedComes(rs[1..], l - |head|);
      var k :| 0 <= k < |rs[1..]| && Retained(rs[1..])[l - |head|] == rs[1..][k].(remaining := rs[1..][k].remaining - 1);
      assert rs[k + 1] == rs[1..][k];
    }
  }

  /** One acknowledgement later, what had to survive `i + 1` of them has to survive `i`. */
  lemma DrainHolds(s: Sched, t: Sched, r: RequestId, b: BlockId, i: nat)
    requires TableOf(t, r) == TableOf(s, r)
    requires ReleasesOf(t, r) == Retained(ReleasesOf(s, r)) || ReleasesOf(s, r) == []
    requires HeldThrough(s, r, b, i + 1)
    ensures HeldThrough(t, r, b, i)
  {
    if b !in TableOf(s, r) {
      var rs := ReleasesOf(s, r);
      var k :| 0 <= k < |rs| && rs[k].remaining > i + 1 && b in rs[k].blocks;
      RetainedFinds(rs, k);
    }
  }

  lemma DrainStamps(s: Sched, t: Sched, r: RequestId, acked: nat)
    requires forall k :: 0 <= k < |ReleasesOf(s, r)| ==> ReleasesOf(s, r)[k].stamp <= acked + ReleasesOf(s, r)[k].remaining
    requires ReleasesOf(t, r) == Retained(ReleasesOf(s, r))
    ensures forall k :: 0 <= k < |ReleasesOf(t, r)| ==> ReleasesOf(t, r)[k].stamp <= acked + 1 + ReleasesOf(t, r)[k].remaining
  {
    hide Retained;
    forall l | 0 <= l < |ReleasesOf(t, r)| ensures ReleasesOf(t, r)[l].stamp <= acked + 1 + ReleasesOf(t, r)[l].remaining {
      RetainedComes(ReleasesOf(s, r), l);
    }
  }

  // ---------------------------------------------------------------- committing

  lemma CommitAgrees(cfg: Config, s: Sched, r: RequestId, defer: nat, lw: Worker)
    requires cfg.Valid() && Inv(cfg, s) && Agree(s, lw)
    ensures Agree(Commit(s, r, defer), lw)
  {
    hide Balanced, CeilDiv, Inv, ActiveOk, TableOk, ReleasesOk, FreezeOk;
    var t := Commit(s, r, defer);
    if r in s.pending && s.pending[r].ready {
      RequestFacts(cfg, s, r);
      SchedulerSteps.Known(s, r);
      assert PendingOk(cfg, s, r);
      forall q | q in t.tables ensures AgreeAt(t, lw, q) {
        assert AgreeAt(s, lw, q);
        if q != r {
          CommitLocal(s, r, defer);
          AgreeFrame(s, t, lw, lw, q);
        }
      }
    }
  }

  lemma CommitFixed(cfg: Config, s: Sched, r: RequestId, defer: nat)
    requires cfg.Valid() && Inv(cfg, s)
    ensures var t := Commit(s, r, defer);
      && Fixed(s, t)
      && t.pending == (if r in s.pending && s.pending[r].ready then s.pending - {r} else s.pending)
  {
    hide Balanced, CeilDiv, TableOk, ActiveOk, ReleasesOk;
    RequestFacts(cfg, s, r);
    SchedulerSteps.Known(s, r);
    if r in s.pending { assert PendingOk(cfg, s, r); }
  }

  lemma CommitReleases(s: Sched, r: RequestId, defer: nat, q: RequestId)
    requires r in s.pending && s.pending[r].ready ==> Commits(s, r)
    ensures ReleasesOf(Commit(s, r, defer), q) ==
      if q == r && Commits(s, r) && defer > 0
      then ReleasesOf(s, q) + [Release(s.tables[r], defer, s.issued)] else ReleasesOf(s, q)
    ensures q != r || !Commits(s, r) ==> TableOf(Commit(s, r, defer), q) == TableOf(s, q)
  {
  }

  lemma CommitsWhenReady(cfg: Config, s: Sched, r: RequestId)
    requires cfg.Valid() && Inv(cfg, s)
    ensures r in s.pending && s.pending[r].ready ==> Commits(s, r)
  {
    hide Balanced, CeilDiv, TableOk, ActiveOk, ReleasesOk;
    RequestFacts(cfg, s, r);
    SchedulerSteps.Known(s, r);
    if r in s.pending { assert PendingOk(cfg, s, r); }
  }

  lemma CommitHolds(cfg: Config, s: Sched, r: RequestId, defer: nat, q: RequestId, b: BlockId, i: nat)
    requires cfg.Valid() && Inv(cfg, s)
    requires i < defer && HeldThrough(s, q, b, i)
    ensures HeldThrough(Commit(s, r, defer), q, b, i)
  {
    hide Inv, Commit, CeilDiv;
    CommitsWhenReady(cfg, s, r);
    CommitReleases(s, r, defer, q);
    var t := Commit(s, r, defer);
    var rs := ReleasesOf(s, q);
    if b !in TableOf(s, q) {
      var k :| 0 <= k < |rs| && rs[k].remaining > i && b in rs[k].blocks;
      assert ReleasesOf(t, q)[k] == rs[k];
    } else if q == r && Commits(s, r) {
      assert ReleasesOf(t, r)[|rs|] == Release(s.tables[r], defer, s.issued);
    }
  }

  /** A commit turns the reservation into the table. */
  lemma CommitSecures(cfg: Config, s: Sched, r: RequestId, defer: nat, q: RequestId, b: BlockId, i: nat)
    requires cfg.Valid() && Inv(cfg, s)
    requires i < defer && DestinationHeld(s, q, b, i)
    ensures DestinationHeld(Commit(s, r, defer), q, b, i)
  {
    hide Inv, CeilDiv, HeldThrough, Balanced, ActiveOk, TableOk, ReleasesOk;
    if q in s.pending && b in s.pending[q].plan.destination {
      CommitsWhenReady(cfg, s, r);
      RequestFacts(cfg, s, q);
      SchedulerSteps.Known(s, q);
      if q == r && Commits(s, r) {
        assert b in TableOf(Commit(s, r, defer), q);
        TableHolds(Commit(s, r, defer), q, b, i);
      }
    } else {
      CommitHolds(cfg, s, r, defer, q, b, i);
    }
  }

  lemma TableHolds(s: Sched, r: RequestId, b: BlockId, i: nat)
    requires b in TableOf(s, r)
    ensures HeldThrough(s, r, b, i)
  {
  }

  lemma CommitStamps(cfg: Config, s: Sched, r: RequestId, defer: nat, acked: nat)
    requires cfg.Valid() && Inv(cfg, s) && Stamped(s, acked) && s.issued <= acked + defer
    ensures Stamped(Commit(s, r, defer), acked)
  {
    hide Inv, Commit, CeilDiv, ReleasesOf;
    CommitsWhenReady(cfg, s, r);
    var t := Commit(s, r, defer);
    forall q, k | 0 <= k < |ReleasesOf(t, q)| ensures ReleasesOf(t, q)[k].stamp <= acked + ReleasesOf(t, q)[k].remaining {
      CommitReleases(s, r, defer, q);
    }
  }

  lemma {:induction false} CommitAllEffect(cfg: Config, s: Sched, ids: seq<RequestId>, defer: nat, lw: Worker, acked: nat)
    requires cfg.Valid() && Inv(cfg, s) && Agree(s, lw)
    requires Stamped(s, acked) && s.issued <= acked + defer
    ensures var t := CommitAll(s, ids, defer);
      && Inv(cfg, t) && Agree(t, lw) && Fixed(s, t) && Stamped(t, acked)
      && (forall r :: Get(t.pending, r) == if r in ids && r in s.pending && s.pending[r].ready then None else Get(s.pending, r))
    decreases |ids|
  {
    hide Inv, Agree, Commit, Stamped, CeilDiv;
    if ids != [] {
      var r := ids[0];
      var t := Commit(s, r, defer);
      assert ids == [r] + ids[1..];
      CommitKeeps(cfg, s, r, defer);
      CommitAgrees(cfg, s, r, defer, lw);
      CommitFixed(cfg, s, r, defer);
      CommitStamps(cfg, s, r, defer, acked);
      CommitAllEffect(cfg, t, ids[1..], defer, lw, acked);
    }
  }

  lemma {:induction false} CommitAllHolds(cfg: Config, s: Sched, ids: seq<RequestId>, defer: nat, q: RequestId, b: BlockId, i: nat)
    requires cfg.Valid() && Inv(cfg, s)
    requires i < defer && HeldThrough(s, q, b, i)
    ensures HeldThrough(CommitAll(s, ids, defer), q, b, i)
    decreases |ids|
  {
    hide Inv, Commit, HeldThrough, CeilDiv;
    if ids != [] {
      CommitKeeps(cfg, s, ids[0], defer);
      CommitHolds(cfg, s, ids[0], defer, q, b, i);
      CommitAllHolds(cfg, Commit(s, ids[0], defer), ids[1..], defer, q, b, i);
    }
  }

  lemma {:induction false} CommitAllSecures(cfg: Config, s: Sched, ids: seq<RequestId>, defer: nat, q: RequestId, b: BlockId, i: nat)
    requires cfg.Valid() && Inv(cfg, s)
    requires i < defer && DestinationHeld(s, q, b, i)
    ensures DestinationHeld(CommitAll(s, ids, defer), q, b, i)
    decreases |ids|
  {
    hide Inv, Commit, DestinationHeld, CeilDiv;
    if ids != [] {
      CommitKeeps(cfg, s, ids[0], defer);
      CommitSecures(cfg, s, ids[0], defer, q, b, i);
      CommitAllSecures(cfg, Commit(s, ids[0], defer), ids[1..], defer, q, b, i);
    }
  }

  /** The loop meets neither of its errors in a reachable state. */
  predicate CommitLoopRaises(s: Sched, ids: seq<RequestId>, defer: nat)
    decreases |ids|
  {
    ids != [] && (CommitRaises(s, ids[0]) || CommitLoopRaises(Commit(s, ids[0], defer), ids[1..], defer))
  }

  lemma {:induction false} CommitAllNeverRaises(cfg: Config, s: Sched, ids: seq<RequestId>, defer: nat)
    requires cfg.Valid() && Inv(cfg, s)
    ensures !CommitLoopRaises(s, ids, defer)
    decreases |ids|
  {
    hide Inv, Commit, CommitRaises, CeilDiv;
    if ids != [] {
      CommitNeverRaises(cfg, s, ids[0]);
      CommitKeeps(cfg, s, ids[0], defer);
      CommitAllNeverRaises(cfg, Commit(s, ids[0], defer), ids[1..], defer);
    }
  }

  // ---------------------------------------------------------------- the whole step

  lemma AcknowledgedPlans(cfg: Config, s: Sched, t: Sched, u: Sched, fs: seq<Flight>, acks: seq<RequestId>, waiting: seq<RequestId>)
    requires |fs| > 0 && Waiting(cfg, s, fs)
    requires Enumerates(acks, fs[0].out.plans.Keys) && Enumerates(waiting, s.pending.Keys)
    requires forall r :: Marked(s, t, r, Acked(s, r, acks, fs[0].out.plans))
    requires if cfg.asynchronous
             then forall r :: Get(u.pending, r) == if r in waiting && r in t.pending && t.pending[r].ready then None else Get(t.pending, r)
             else u.pending == t.pending
    ensures Waiting(cfg, u, fs[1..])
  {
    forall r | r in u.pending
      ensures (cfg.asynchronous ==> !u.pending[r].ready)
      ensures !u.pending[r].ready ==> PlanInFlight(fs[1..], r, u.pending[r].plan)
    {
      assert Marked(s, t, r, Acked(s, r, acks, fs[0].out.plans));
      assert r in s.pending && u.pending[r] == t.pending[r];
      if !u.pending[r].ready {
        var i :| 0 <= i < |fs| && Get(fs[i].out.plans, r) == Some(s.pending[r].plan);
        assert i > 0;
        assert fs[1..][i - 1] == fs[i];
      }
    }
  }

  /** The asynchronous part of `after_output`: drain, then commit. */
  lemma DrainThenCommit(cfg: Config, t: Sched, draining: seq<RequestId>, waiting: seq<RequestId>, lw: Worker,
                        fs: seq<Flight>, acked: nat)
    requires cfg.Valid() && cfg.asynchronous && Inv(cfg, t) && Agree(t, lw)
    requires Enumerates(draining, t.deferred.Keys)
    requires 0 < |fs| <= cfg.maxBatches && t.issued == acked + |fs|
    requires Stamped(t, acked) && Protected(t, fs)
    ensures var u := CommitAll(DrainAll(t, draining), waiting, cfg.Defer());
      && Inv(cfg, u) && Agree(u, lw) && Fixed(t, u)
      && Stamped(u, acked + 1) && Protected(u, fs[1..])
      && (forall r :: Get(u.pending, r) == if r in waiting && r in t.pending && t.pending[r].ready then None else Get(t.pending, r))
  {
    hide Inv, Agree, CeilDiv, ReleasesOf, HeldThrough, Retained, DrainAll, CommitAll;
    var d := DrainAll(t, draining);
    DrainAllEffect(cfg, t, draining, lw);
    forall q ensures ReleasesOf(d, q) == Retained(ReleasesOf(t, q)) {
      if q !in draining { NoReleases(t, q); }
    }
    assert Stamped(d, acked + 1) by {
      forall q, k | 0 <= k < |ReleasesOf(d, q)|
        ensures ReleasesOf(d, q)[k].stamp <= acked + 1 + ReleasesOf(d, q)[k].remaining
      {
        DrainStamps(t, d, q, acked);
      }
    }
    CommitAllEffect(cfg, d, waiting, cfg.Defer(), lw, acked + 1);
    var u := CommitAll(d, waiting, cfg.Defer());
    forall i, r | 0 <= i < |fs[1..]| ensures ProtectedFor(u, fs[1..][i], r, i) {
      var f := fs[i + 1];
      assert fs[1..][i] == f && ProtectedFor(t, f, r, i + 1);
      if r in f.live {
        forall b | b in f.tables[r] ensures HeldThrough(u, r, b, i) {
          assert TableOf(d, r) == TableOf(t, r);
          DrainHolds(t, d, r, b, i);
          CommitAllHolds(cfg, d, waiting, cfg.Defer(), r, b, i);
        }
        if r in f.out.plans {
          forall b | b in f.out.plans[r].destination ensures DestinationHeld(u, r, b, i) {
            assert TableOf(d, r) == TableOf(t, r);
            if !(r in t.pending && b in t.pending[r].plan.destination) { DrainHolds(t, d, r, b, i); }
            CommitAllSecures(cfg, d, waiting, cfg.Defer(), r, b, i);
          }
        }
      }
    }
  }

  lemma NoReleases(s: Sched, q: RequestId)
    requires q !in s.deferred
    ensures ReleasesOf(s, q) == [] == Retained(ReleasesOf(s, q))
  {
  }

  lemma MirrorsFrame(cfg: Config, select: Selector, sys: System, sys': System)
    requires cfg.Valid() && sys.executed <= |sys.flight| && sys'.executed <= |sys'.flight|
    requires Logical(cfg, select, sys') == Logical(cfg, select, sys)
    requires Fixed(sys.s, sys'.s) && Owing(sys.s) && Mirrors(cfg, select, sys)
    requires Agree(sys'.s, Logical(cfg, select, sys))
    ensures Mirrors(cfg, select, sys') && Owing(sys'.s)
  {
    hide Agree, Logical, Rooted;
    assert forall r :: r in sys'.s.tables <==> r in sys'.s.tables.Keys;
    assert forall r :: r in sys.s.tables <==> r in sys.s.tables.Keys;
  }

  /** The hook keeps what the scheduler promises about itself and about the outputs still in flight. */
  lemma AfterOutputKeeps(cfg: Config, s: Sched, acks: seq<RequestId>, draining: seq<RequestId>, waiting: seq<RequestId>,
                         fs: seq<Flight>, lw: Worker, acked: nat)
    requires cfg.Valid() && Inv(cfg, s) && Agree(s, lw) && Waiting(cfg, s, fs) && Protected(s, fs) && Stamped(s, acked)
    requires 0 < |fs| <= (if cfg.asynchronous then cfg.maxBatches else 1) && s.issued == acked + |fs|
    requires Enumerates(acks, fs[0].out.plans.Keys) && Enumerates(draining, s.deferred.Keys) && Enumerates(waiting, s.pending.Keys)
    ensures var u := AfterOutput(cfg, s, fs[0].out.plans, acks, draining, waiting);
      && Inv(cfg, u) && Agree(u, lw) && Fixed(s, u)
      && Waiting(cfg, u, fs[1..]) && Protected(u, fs[1..]) && Stamped(u, acked + 1)
  {
    hide Inv, Agree, Waiting, Protected, Stamped, Marked, CeilDiv, AcknowledgeAll, DrainAll, CommitAll;
    var plans := fs[0].out.plans;
    var t := AcknowledgeAll(s, acks, plans);
    AcknowledgeAllEffect(cfg, s, acks, plans, lw);
    forall r | r in s.pending ensures r in t.pending && t.pending[r].plan == s.pending[r].plan {
      MarkedPlan(s, t, r, Acked(s, r, acks, plans));
    }
    AcknowledgeHistory(s, t, fs, acked);
    if cfg.asynchronous {
      DrainThenCommit(cfg, t, draining, waiting, lw, fs, acked);
    } else {
      SynchronousHistory(t, fs, acked);
    }
    AcknowledgedPlans(cfg, s, t, AfterOutput(cfg, s, plans, acks, draining, waiting), fs, acks, waiting);
  }

  lemma AcknowledgePreserves(cfg: Config, select: Selector, sys: System, e: Event, sys': System)
    requires cfg.Valid() && SystemInv(cfg, select, sys) && e.EAcknowledge? && Next(cfg, select, sys, e, sys')
    ensures SystemInv(cfg, select, sys')
  {
    hide Inv, Agree, Replay, Faithful, Waiting, Protected, Stamped, Owing, Rooted, Quiet, Logical, AfterOutput;
    AfterOutputKeeps(cfg, sys.s, e.acks, e.draining, e.waiting, sys.flight, Logical(cfg, select, sys), sys.acked);
    StillToRun(cfg, select, sys, sys');
    MirrorsFrame(cfg, select, sys, sys');
  }

  lemma StillToRun(cfg: Config, select: Selector, sys: System, sys': System)
    requires cfg.Valid() && 0 < sys.executed <= |sys.flight|
    requires sys'.w == sys.w && sys'.flight == sys.flight[1..] && sys'.executed == sys.executed - 1
    ensures sys'.flight[sys'.executed..] == sys.flight[sys.executed..]
    ensures Logical(cfg, select, sys') == Logical(cfg, select, sys)
  {
    hide Replay;
    assert sys.flight[1..][sys.executed - 1..] == sys.flight[sys.executed..];
  }

  lemma MarkedPlan(s: Sched, t: Sched, r: RequestId, marks: bool)
    requires Marked(s, t, r, marks)
    ensures r in s.pending ==> r in t.pending && t.pending[r].plan == s.pending[r].plan
  {
  }

  lemma AcknowledgeHistory(s: Sched, t: Sched, fs: seq<Flight>, acked: nat)
    requires t.tables == s.tables && t.deferred == s.deferred
    requires forall r :: r in s.pending ==> r in t.pending && t.pending[r].plan == s.pending[r].plan
    requires Protected(s, fs) && Stamped(s, acked)
    ensures Protected(t, fs) && Stamped(t, acked)
  {
    assert forall r :: TableOf(t, r) == TableOf(s, r) && ReleasesOf(t, r) == ReleasesOf(s, r);
    assert forall r, b, i :: HeldThrough(s, r, b, i) ==> HeldThrough(t, r, b, i);
    assert forall r, b, i :: DestinationHeld(s, r, b, i) ==> DestinationHeld(t, r, b, i);
    assert forall i, r :: 0 <= i < |fs| && ProtectedFor(s, fs[i], r, i) ==> ProtectedFor(t, fs[i], r, i);
  }

  lemma SynchronousHistory(t: Sched, fs: seq<Flight>, acked: nat)
    requires |fs| == 1 && Protected(t, fs) && Stamped(t, acked)
    ensures Protected(t, fs[1..]) && Stamped(t, acked + 1)
  {
    hide ReleasesOf;
    assert forall r, k :: 0 <= k < |ReleasesOf(t, r)| ==> ReleasesOf(t, r)[k].stamp <= acked + ReleasesOf(t, r)[k].remaining;
  }
}
