// Arming compressions at the end of a scheduling pass, and their execution on the worker.

module Dispatch {
  import opened Common
  import opened SchedulerModel
  import opened SchedulerInvariant
  import opened SchedulerSteps
  import opened WorkerModel

  /** What any selection policy owes the caller: sorted, exactly the budget, both windows kept. */
  predicate GoodKeep(keep: seq<nat>, n: nat, budget: nat, prefix: nat, recent: nat) {
    && |keep| == budget
    && (forall i, j :: 0 <= i < j < |keep| ==> keep[i] < keep[j])
    && (forall i :: 0 <= i < |keep| ==> keep[i] < n)
    && prefix + recent <= budget <= n
    && (forall i :: 0 <= i < prefix ==> keep[i] == i)
    && (forall i :: budget - recent <= i < budget ==> keep[i] == n - budget + i)
  }

  ghost predicate GoodSelector(cfg: Config, select: Selector) {
    forall cells :: |cells| >= cfg.threshold ==> GoodKeep(select(cells), |cells|, cfg.budget, cfg.prefix, cfg.recent)
  }

  // ---------------------------------------------------------------- the arming loop

  /** Request `r` was armed: private destination, frozen source, everything else as before. */
  ghost predicate Armed(cfg: Config, s: Sched, s': Sched, r: RequestId, drafts: bool, dst: seq<BlockId>, plan: Plan)
    requires cfg.Valid()
  {
    && r in s.requests && r in s'.requests
    && Eligible(cfg, s, r, drafts) && |TableOf(s, r)| >= cfg.Keep()
    && r in s'.pending && s'.pending[r].plan == plan == PlanFor(cfg, s, r, dst) && s'.pending[r].reserved == dst && !s'.pending[r].ready
    && Get(s'.tables, r) == Get(s.tables, r) && Get(s'.active, r) == Get(s.active, r)
    && Get(s'.deferred, r) == Get(s.deferred, r)
    && s'.requests[r].info == s.requests[r].info && s'.requests[r].computed == s.requests[r].computed
  }

  ghost predicate ArmEffect(cfg: Config, s: Sched, s': Sched, plans: map<RequestId, Plan>,
                            order: seq<RequestId>, drafts: set<RequestId>, supply: Supply)
    requires cfg.Valid()
  {
    && (forall r :: r !in plans ==> SameAt(s, s', r))
    && (forall r :: r in plans ==>
          r in order && Armed(cfg, s, s', r, r in drafts, supply(r), plans[r]))
    && s'.requests.Keys == s.requests.Keys
    && s'.finished == s.finished && s'.preempted == s.preempted && s'.issued == s.issued
  }

  lemma ArmLocal(cfg: Config, s: Sched, r: RequestId, drafts: bool, dst: seq<BlockId>, q: RequestId)
    requires cfg.Valid() && q != r
    ensures SameAt(s, Arm(cfg, s, r, drafts, dst), q)
  {
    hide CeilDiv;
  }

  lemma ArmedFrame(cfg: Config, s: Sched, t: Sched, s': Sched, r: RequestId, drafts: bool, dst: seq<BlockId>, plan: Plan)
    requires cfg.Valid() && SameAt(s, t, r) && Armed(cfg, t, s', r, drafts, dst, plan)
    ensures Armed(cfg, s, s', r, drafts, dst, plan)
  {
    hide CeilDiv;
  }

  lemma ArmedThenSame(cfg: Config, s: Sched, t: Sched, s': Sched, r: RequestId, drafts: bool, dst: seq<BlockId>, plan: Plan)
    requires cfg.Valid() && Armed(cfg, s, t, r, drafts, dst, plan) && SameAt(t, s', r)
    ensures Armed(cfg, s, s', r, drafts, dst, plan)
  {
    hide CeilDiv;
  }

  lemma ArmHere(cfg: Config, s: Sched, r: RequestId, drafts: bool, dst: seq<BlockId>)
    requires cfg.Valid()
    ensures var t := Arm(cfg, s, r, drafts, dst);
      && (if Arms(cfg, s, r, drafts) then Armed(cfg, s, t, r, drafts, dst, PlanFor(cfg, s, r, dst)) else t == s)
      && t.requests.Keys == s.requests.Keys
      && t.finished == s.finished && t.preempted == s.preempted && t.issued == s.issued
  {
    hide CeilDiv;
  }

  lemma {:induction false} ArmAllEffect(cfg: Config, s: Sched, order: seq<RequestId>, drafts: set<RequestId>, supply: Supply)
    requires cfg.Valid() && Distinct(order)
    ensures ArmEffect(cfg, s, ArmAll(cfg, s, order, drafts, supply), PlansOf(cfg, s, order, drafts, supply), order, drafts, supply)
    decreases |order|
  {
    hide Armed, SameAt, Arm, Arms, PlanFor, CeilDiv, ArmEffect, Attached;
    if order == [] {
      EmptyBatch(cfg, s, order, drafts, supply);
    } else {
      var r, rest := order[0], order[1..];
      var t := Arm(cfg, s, r, r in drafts, supply(r));
      assert order == [r] + rest;
      assert r !in rest;
      ArmAllEffect(cfg, t, rest, drafts, supply);
      ArmEffectNext(cfg, s, t, ArmAll(cfg, s, order, drafts, supply), r, rest, drafts, supply, PlansOf(cfg, t, rest, drafts, supply));
    }
  }

  lemma EmptyBatch(cfg: Config, s: Sched, order: seq<RequestId>, drafts: set<RequestId>, supply: Supply)
    requires cfg.Valid() && order == []
    ensures ArmEffect(cfg, s, s, map[], order, drafts, supply)
  {
    SameAtRefl(s);
  }

  /** The effect of the rest of the batch, extended by its first request. */
  lemma ArmEffectNext(cfg: Config, s: Sched, t: Sched, s': Sched, r: RequestId, rest: seq<RequestId>, drafts: set<RequestId>,
                      supply: Supply, later: map<RequestId, Plan>)
    requires cfg.Valid() && r !in rest && t == Arm(cfg, s, r, r in drafts, supply(r))
    requires ArmEffect(cfg, t, s', later, rest, drafts, supply)
    ensures ArmEffect(cfg, s, s', Attached(cfg, s, r, r in drafts, supply(r)) + later, [r] + rest, drafts, supply)
  {
    hide Armed, SameAt, Arm, Arms, PlanFor, CeilDiv;
    var dst, plans := supply(r), Attached(cfg, s, r, r in drafts, supply(r)) + later;
    ArmHere(cfg, s, r, r in drafts, dst);
    assert r !in later;
    forall q | q != r ensures SameAt(s, t, q) { ArmLocal(cfg, s, r, r in drafts, dst, q); }
    forall q | q in plans ensures q in [r] + rest && Armed(cfg, s, s', q, q in drafts, supply(q), plans[q]) {
      if q == r {
        ArmedThenSame(cfg, s, t, s', r, r in drafts, dst, plans[r]);
      } else {
        ArmedFrame(cfg, s, t, s', q, q in drafts, supply(q), plans[q]);
      }
    }
    forall q | q !in plans ensures SameAt(s, s', q) {
      if q != r { SameAtTrans(s, t, s', q); }
    }
  }

  lemma SameAtRefl(s: Sched)
    ensures forall r :: SameAt(s, s, r)
  {
  }

  lemma SameAtTrans(s: Sched, t: Sched, s': Sched, q: RequestId)
    requires SameAt(s, t, q) && SameAt(t, s', q)
    ensures SameAt(s, s', q)
  {
  }

  predicate ArmingRaises(cfg: Config, s: Sched, order: seq<RequestId>, drafts: set<RequestId>, supply: Supply)
    requires cfg.Valid()
    decreases |order|
  {
    order != [] &&
    (|| ArmRaises(cfg, s, order[0], order[0] in drafts)
     || ArmingRaises(cfg, Arm(cfg, s, order[0], order[0] in drafts, supply(order[0])), order[1..], drafts, supply))
  }

  /** Arming a whole batch keeps the invariant and never meets the "too few blocks" error. */
  lemma {:induction false} ArmAllKeeps(cfg: Config, s: Sched, order: seq<RequestId>, drafts: set<RequestId>, supply: Supply)
    requires cfg.Valid() && Inv(cfg, s) && CanArmAll(cfg, s, order, drafts, supply)
    requires Distinct(order)
    requires forall i :: 0 <= i < |order| ==> order[i] in s.tables && Schedulable(cfg, s, order[i])
    ensures Inv(cfg, ArmAll(cfg, s, order, drafts, supply))
    ensures !ArmingRaises(cfg, s, order, drafts, supply)
    decreases |order|
  {
    hide Inv, Arm, Arms, CeilDiv, Eligible, ArmRaises, CanArm;
    if order != [] {
      var r := order[0];
      var t := Arm(cfg, s, r, r in drafts, supply(r));
      ArmNeverRaises(cfg, s, r, r in drafts);
      ArmKeeps(cfg, s, r, r in drafts, supply(r));
      forall i | 0 <= i < |order[1..]| ensures order[1..][i] in t.tables && Schedulable(cfg, t, order[1..][i]) {
        assert order[1..][i] == order[i + 1];
        ArmLocal(cfg, s, r, r in drafts, supply(r), order[i + 1]);
      }
      ArmAllKeeps(cfg, t, order[1..], drafts, supply);
    }
  }

  // ---------------------------------------------------------------- the worker's side

  /** Everything the worker checks before it compresses, and that the source fits its table. */
  ghost predicate PlanFits(cfg: Config, w: Worker, out: Output, r: RequestId)
    requires cfg.Valid()
  {
    && r in out.plans && r in out.entries && r in w.requests && r !in w.pending
    && w.requests[r].info.maxTokens >= cfg.minOutput
    && (r !in w.active ==> Semantic(w, out, r) == w.requests[r].info.prompt)
    && Semantic(w, out, r) == out.plans[r].semantic
    && PhysicalOf(w, out, r) >= cfg.threshold
    && PhysicalOf(w, out, r) <= |w.requests[r].table| * cfg.blockSize
    && |w.requests[r].table| >= cfg.Keep()
    && w.requests[r].table == out.plans[r].source
    && |out.plans[r].destination| == cfg.Keep()
    && (forall b :: b in out.plans[r].destination ==> b !in out.plans[r].source)
    && out.plans[r].physical == cfg.budget
  }

  lemma FitsRuns(cfg: Config, select: Selector, w: Worker, out: Output, r: RequestId)
    requires cfg.Valid() && GoodSelector(cfg, select) && PlanFits(cfg, w, out, r)
    ensures !Ignores(cfg, w, out, r) && !CompressRaises(cfg, select, w, out, r)
    ensures GoodKeep(KeptIndices(cfg, select, w, out, r), PhysicalOf(w, out, r), cfg.budget, cfg.prefix, cfg.recent)
  {
    hide CeilDiv, Config.Keep;
    var cells := Gather(w.mem, w.requests[r].table, cfg.blockSize, PhysicalOf(w, out, r));
    assert KeptIndices(cfg, select, w, out, r) == select(cells);
  }

  lemma CompressHere(cfg: Config, select: Selector, w: Worker, out: Output, r: RequestId)
    requires cfg.Valid() && GoodSelector(cfg, select)
    requires r in out.plans ==> PlanFits(cfg, w, out, r)
    ensures var w' := CompressOne(cfg, select, w, out, r);
      && !CompressRaises(cfg, select, w, out, r)
      && w'.requests == w.requests && w'.active == w.active
      && w'.pending == if r in out.plans
           then w.pending[r := WPending(out.plans[r].semantic, cfg.budget, out.plans[r].destination)] else w.pending
  {
    hide CeilDiv, PlanFits, KeptIndices;
    if r in out.plans {
      FitsRuns(cfg, select, w, out, r);
      assert PlanFits(cfg, w, out, r) ==> Semantic(w, out, r) == out.plans[r].semantic by { FitsSemantic(cfg, w, out, r); }
    }
  }

  lemma FitsSemantic(cfg: Config, w: Worker, out: Output, r: RequestId)
    requires cfg.Valid()
    ensures PlanFits(cfg, w, out, r) ==> r in w.requests && r in out.entries && Semantic(w, out, r) == out.plans[r].semantic
  {
  }

  lemma FitsFrame(cfg: Config, w: Worker, w': Worker, out: Output, r: RequestId)
    requires cfg.Valid() && PlanFits(cfg, w, out, r)
    requires w'.requests == w.requests && w'.active == w.active && r !in w'.pending
    ensures PlanFits(cfg, w', out, r)
  {
  }

  /** The worker executes every plan of a fitting batch; no guard skips and no check fails. */
  lemma {:induction false} CompressEffect(cfg: Config, select: Selector, w: Worker, out: Output, order: seq<RequestId>)
    requires cfg.Valid() && GoodSelector(cfg, select) && Distinct(order)
    requires forall i :: 0 <= i < |order| && order[i] in out.plans ==> PlanFits(cfg, w, out, order[i])
    ensures var w' := Compress(cfg, select, w, out, order);
      && !StepRaises(cfg, select, w, out, order)
      && w'.requests == w.requests && w'.active == w.active
      && (forall r :: r in order && r in out.plans ==>
            Get(w'.pending, r) == Some(WPending(out.plans[r].semantic, cfg.budget, out.plans[r].destination)))
      && (forall r :: !(r in order && r in out.plans) ==> Get(w'.pending, r) == Get(w.pending, r))
    decreases |order|
  {
    hide PlanFits, CompressOne, CompressRaises, CeilDiv, GoodSelector;
    if order != [] {
      var r, rest := order[0], order[1..];
      assert order == [r] + rest;
      assert r !in rest;
      CompressHere(cfg, select, w, out, r);
      var t := CompressOne(cfg, select, w, out, r);
      forall i | 0 <= i < |rest| && rest[i] in out.plans ensures PlanFits(cfg, t, out, rest[i]) {
        assert rest[i] == order[i + 1];
        assert rest[i] !in w.pending by { FitsIdle(cfg, w, out, rest[i]); }
        FitsFrame(cfg, w, t, out, rest[i]);
      }
      CompressEffect(cfg, select, t, out, rest);
    }
  }

  lemma FitsIdle(cfg: Config, w: Worker, out: Output, r: RequestId)
    requires cfg.Valid() && PlanFits(cfg, w, out, r)
    ensures r !in w.pending
  {
  }
}
