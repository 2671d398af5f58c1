// One scheduling pass: the host's decisions between the plugin's two hooks, and the output it builds.

module Schedule {
  import opened Common
  import opened SchedulerModel
  import opened SchedulerInvariant
  import opened SchedulerSteps
  import opened WorkerModel
  import opened Agreement

  datatype HostOp =
    | HPreempt(r: RequestId)
    | HGrow(r: RequestId, added: seq<BlockId>, n: nat)
    | HAdmit(r: RequestId, hits: seq<BlockId>, added: seq<BlockId>, n: nat, resumed: bool)

  /** The scheduler together with the output under construction. */
  datatype Build = Build(s: Sched, out: Output)

  function Without<T(==)>(xs: seq<T>, x: T): seq<T> {
    if xs == [] then [] else (if xs[0] == x then [] else [xs[0]]) + Without(xs[1..], x)
  }

  function Opening(s: Sched): Output {
    Output(s.finished, s.preempted, [], map[], map[])
  }

  predicate Enabled(cfg: Config, b: Build, op: HostOp) {
    match op
    case HPreempt(r) => r in b.s.requests
    case HGrow(r, added, n) => CanGrow(cfg, b.s, r, added, n) && r !in b.out.entries
    case HAdmit(r, hits, added, n, _) => CanAdmit(cfg, b.s, r, hits, added, n)
  }

  function Operate(cfg: Config, b: Build, op: HostOp): Build
    requires Enabled(cfg, b, op)
  {
    match op
    case HPreempt(r) =>
      Build(Preempt(b.s, r),
            b.out.(preempted := b.out.preempted + {r}, order := Without(b.out.order, r), entries := b.out.entries - {r}))
    case HGrow(r, added, n) =>
      Build(Grow(b.s, r, added, n),
            b.out.(order := b.out.order + [r],
                   entries := b.out.entries[r := Entry(false, false, added, b.s.requests[r].computed, n, b.s.requests[r].info)]))
    case HAdmit(r, hits, added, n, resumed) =>
      Build(Admit(cfg, b.s, r, hits, added, n),
            b.out.(order := b.out.order + [r],
                   entries := b.out.entries[r := Entry(true, resumed, hits + added, |hits| * cfg.blockSize, n, b.s.requests[r].info)]))
  }

  // ---------------------------------------------------------------- the building invariant

  ghost predicate EntryOk(cfg: Config, s: Sched, out: Output, r: RequestId) {
    r in out.entries ==>
      && r in s.tables && r in s.requests && r !in s.pending
      && out.entries[r].count > 0
      && out.entries[r].computed + out.entries[r].count == s.requests[r].computed
      && out.entries[r].info == s.requests[r].info
      && Schedulable(cfg, s, r)
  }

  /** Scheduled requests are not waiting for a compression to be acknowledged. */
  ghost predicate Settled(cfg: Config, s: Sched) {
    !cfg.asynchronous ==> s.pending == map[]
  }

  /** If the output were sent now, the worker would agree with the scheduler. */
  ghost predicate Building(cfg: Config, lw: Worker, b: Build)
    requires cfg.Valid()
  {
    && Inv(cfg, b.s) && Rooted(lw) && Settled(cfg, b.s)
    && Agree(b.s, Update(lw, b.out))
    && Quiet(b.s, Update(lw, b.out), {})
    && b.out.finished == b.s.finished && b.out.preempted == b.s.preempted && b.out.plans == map[]
    && Enumerates(b.out.order, b.out.entries.Keys)
    && (forall r :: EntryOk(cfg, b.s, b.out, r))
    && (forall r :: r in b.s.tables && r !in b.out.entries ==> r !in b.out.finished && r !in b.out.preempted)
  }

  lemma WithoutEnumerates<T>(xs: seq<T>, x: T, keys: set<T>)
    requires Enumerates(xs, keys)
    ensures Enumerates(Without(xs, x), keys - {x})
  {
    if xs != [] {
      var rest := keys - {xs[0]};
      assert forall i :: 0 <= i < |xs[1..]| ==> xs[1..][i] == xs[i + 1];
      assert Enumerates(xs[1..], rest) by {
        forall k | k in rest ensures k in xs[1..] {
          assert k in xs;
          assert xs == [xs[0]] + xs[1..];
        }
      }
      WithoutEnumerates(xs[1..], x, rest);
      var tail := Without(xs[1..], x);
      if xs[0] == x {
        assert Without(xs, x) == tail;
        assert rest - {x} == keys - {x};
      } else {
        assert Without(xs, x) == [xs[0]] + tail;
        assert xs[0] !in tail;
        assert forall k :: k in keys - {x} ==> k == xs[0] || k in rest - {x};
      }
    }
  }

  lemma AppendEnumerates<T>(xs: seq<T>, x: T, keys: set<T>)
    requires Enumerates(xs, keys) && x !in keys
    ensures Enumerates(xs + [x], keys + {x})
  {
    var ys := xs + [x];
    assert forall i :: 0 <= i < |xs| ==> ys[i] == xs[i];
    assert ys[|xs|] == x;
    forall k | k in keys + {x} ensures k in ys {
      if k != x { assert k in xs; }
    }
  }

  // ---------------------------------------------------------------- one host decision

  lemma OperateLocal(cfg: Config, b: Build, op: HostOp, q: RequestId)
    requires Enabled(cfg, b, op) && q != op.r
    ensures SameAt(b.s, Operate(cfg, b, op).s, q)
    ensures SameOrders(b.out, Operate(cfg, b, op).out, q)
  {
  }

  lemma OperateKeepsInv(cfg: Config, lw: Worker, b: Build, op: HostOp)
    requires cfg.Valid() && Building(cfg, lw, b) && Enabled(cfg, b, op)
    ensures Inv(cfg, Operate(cfg, b, op).s) && Settled(cfg, Operate(cfg, b, op).s)
    ensures op.HGrow? ==> op.r !in b.s.pending
  {
    hide RequestOk, Agree, Quiet, Balanced, CeilDiv, Held;
    match op
    case HPreempt(r) => PreemptKeeps(cfg, b.s, r);
    case HGrow(r, added, n) =>
      NotWaiting(cfg, b.s, r);
      GrowKeeps(cfg, b.s, r, added, n);
    case HAdmit(r, hits, added, n, _) => AdmitKeeps(cfg, b.s, r, hits, added, n);
  }

  /** The host's freeze rule is enough to keep a waiting request out of the batch. */
  lemma NotWaiting(cfg: Config, s: Sched, r: RequestId)
    requires cfg.Valid() && Inv(cfg, s) && Settled(cfg, s) && Schedulable(cfg, s, r)
    ensures r !in s.pending
  {
    assert RequestOk(cfg, s, r);
  }

  lemma GrowAgrees(cfg: Config, lw: Worker, b: Build, op: HostOp)
    requires cfg.Valid() && Building(cfg, lw, b) && Enabled(cfg, b, op) && op.HGrow? && op.r !in b.s.pending
    ensures var b' := Operate(cfg, b, op); AgreeAt(b'.s, Update(lw, b'.out), op.r)
  {
    hide Inv, Settled, Quiet, Update, EntryOk, CeilDiv;
    var r, b' := op.r, Operate(cfg, b, op);
    assert AgreeAt(b.s, Update(lw, b.out), r);
    UpdateUntouched(lw, b.out, r);
    UpdateAppended(lw, b'.out, r);
  }

  lemma AdmitAgrees(cfg: Config, lw: Worker, b: Build, op: HostOp)
    requires cfg.Valid() && Building(cfg, lw, b) && Enabled(cfg, b, op) && op.HAdmit?
    ensures var b' := Operate(cfg, b, op); AgreeAt(b'.s, Update(lw, b'.out), op.r)
  {
    hide Settled, Update, CeilDiv, Balanced;
    var r, b' := op.r, Operate(cfg, b, op);
    assert RequestOk(cfg, b.s, r);
    assert EntryOk(cfg, b.s, b.out, r);
    if !IsReset(b'.out, r) {
      UpdateUntouched(lw, b.out, r);
      assert r !in Update(lw, b.out).pending && r !in Update(lw, b.out).active;
      assert r !in lw.pending && r !in lw.active;
    }
    UpdateAdmitted(lw, b'.out, r);
  }

  lemma OperateAgrees(cfg: Config, lw: Worker, b: Build, op: HostOp)
    requires cfg.Valid() && Building(cfg, lw, b) && Enabled(cfg, b, op)
    ensures Agree(Operate(cfg, b, op).s, Update(lw, Operate(cfg, b, op).out))
  {
    hide Inv, Settled, Update, EntryOk, Quiet, AgreeAt;
    var b' := Operate(cfg, b, op);
    forall q | q in b'.s.tables ensures AgreeAt(b'.s, Update(lw, b'.out), q) {
      if q == op.r {
        OperateKeepsInv(cfg, lw, b, op);
        if op.HGrow? { GrowAgrees(cfg, lw, b, op); } else { AdmitAgrees(cfg, lw, b, op); }
      } else {
        OperateLocal(cfg, b, op, q);
        UpdateLocal(lw, b.out, b'.out, q);
        AgreeFrame(b.s, b'.s, Update(lw, b.out), Update(lw, b'.out), q);
      }
    }
  }

  lemma OperateQuiet(cfg: Config, lw: Worker, b: Build, op: HostOp)
    requires cfg.Valid() && Building(cfg, lw, b) && Enabled(cfg, b, op)
    ensures Quiet(Operate(cfg, b, op).s, Update(lw, Operate(cfg, b, op).out), {})
  {
    hide Inv, Settled, Update, EntryOk, Agree;
    var b' := Operate(cfg, b, op);
    var u, u' := Update(lw, b.out), Update(lw, b'.out);
    forall q | q !in b'.s.tables ensures q !in u'.pending && q !in u'.active {
      if q == op.r {
        UpdateReset(lw, b'.out, q);
      } else {
        OperateLocal(cfg, b, op, q);
        UpdateLocal(lw, b.out, b'.out, q);
        assert q !in u.pending && q !in u.active;
      }
    }
  }

  lemma OperateEntries(cfg: Config, lw: Worker, b: Build, op: HostOp)
    requires cfg.Valid() && Building(cfg, lw, b) && Enabled(cfg, b, op)
    ensures var b' := Operate(cfg, b, op);
      && (forall r :: EntryOk(cfg, b'.s, b'.out, r))
      && (forall r :: r in b'.s.tables && r !in b'.out.entries ==> r !in b'.out.finished && r !in b'.out.preempted)
  {
    hide Settled, Update, Agree, Quiet, RequestOk, CeilDiv, Balanced;
    var b' := Operate(cfg, b, op);
    forall q ensures EntryOk(cfg, b'.s, b'.out, q) {
      assert EntryOk(cfg, b.s, b.out, q);
      if q == op.r {
        OperateKeepsInv(cfg, lw, b, op);
        if op.HAdmit? { NoTransaction(cfg, b.s, q); }
      } else {
        OperateLocal(cfg, b, op, q);
      }
    }
    forall q | q in b'.s.tables && q !in b'.out.entries ensures q !in b'.out.finished && q !in b'.out.preempted {
      OperateLocal(cfg, b, op, q);
    }
  }

  lemma NoTransaction(cfg: Config, s: Sched, r: RequestId)
    requires cfg.Valid() && Inv(cfg, s) && r in s.requests && r !in s.tables
    ensures r !in s.pending && r !in s.active && r !in s.deferred
  {
    assert RequestOk(cfg, s, r);
  }

  lemma OperateOrder(cfg: Config, lw: Worker, b: Build, op: HostOp)
    requires cfg.Valid() && Building(cfg, lw, b) && Enabled(cfg, b, op)
    ensures Enumerates(Operate(cfg, b, op).out.order, Operate(cfg, b, op).out.entries.Keys)
  {
    hide Inv, Settled, Update, Agree, Quiet;
    var b' := Operate(cfg, b, op);
    match op
    case HPreempt(r) =>
      WithoutEnumerates(b.out.order, r, b.out.entries.Keys);
      assert b'.out.entries.Keys == b.out.entries.Keys - {r};
    case HGrow(r, _, _) =>
      AppendEnumerates(b.out.order, r, b.out.entries.Keys);
      assert b'.out.entries.Keys == b.out.entries.Keys + {r};
    case HAdmit(r, _, _, _, _) =>
      assert EntryOk(cfg, b.s, b.out, r);
      AppendEnumerates(b.out.order, r, b.out.entries.Keys);
      assert b'.out.entries.Keys == b.out.entries.Keys + {r};
  }

  lemma OperateKeeps(cfg: Config, lw: Worker, b: Build, op: HostOp)
    requires cfg.Valid() && Building(cfg, lw, b) && Enabled(cfg, b, op)
    ensures Building(cfg, lw, Operate(cfg, b, op))
  {
    hide Inv, Settled, Update, Agree, Quiet, EntryOk, Enumerates;
    OperateKeepsInv(cfg, lw, b, op);
    OperateAgrees(cfg, lw, b, op);
    OperateQuiet(cfg, lw, b, op);
    OperateEntries(cfg, lw, b, op);
    OperateOrder(cfg, lw, b, op);
  }
}
