// Each scheduler operation keeps the invariant.

module SchedulerSteps {
  import opened Common
  import opened Ledger
  import opened SchedulerModel
  import opened SchedulerInvariant

  // ---------------------------------------------------------------- small facts

  /** A privately held block sits in exactly one place. */
  lemma HeldOnce(s: Sched, r: RequestId, b: BlockId)
    requires Balanced(s) && r in s.requests && s.pool.Private(b)
    ensures Held(s, r)[b] <= 1
  {
    HeldWithin(s, r);
  }

  lemma InTable(s: Sched, r: RequestId, j: nat)
    requires r in s.tables && j < |s.tables[r]|
    ensures multiset(TableOf(s, r))[s.tables[r][j]] >= 1
  {
    assert s.tables[r][j] in multiset(TableOf(s, r));
  }

  lemma InReserved(s: Sched, r: RequestId, j: nat)
    requires r in s.pending && j < |s.pending[r].reserved|
    ensures multiset(ReservedOf(s, r))[s.pending[r].reserved[j]] >= 1
  {
    assert s.pending[r].reserved[j] in multiset(ReservedOf(s, r));
  }

  /** Dropping what is held elsewhere leaves a private table block private. */
  lemma TablePrivacy(cfg: Config, s: Sched, r: RequestId, dropped: multiset<BlockId>, refs': multiset<BlockId>)
    requires cfg.Valid() && Inv(cfg, s) && r in s.tables
    requires dropped <= multiset(ReservedOf(s, r)) + Blocks(ReleasesOf(s, r))
    requires refs' == s.pool.refs - dropped
    ensures forall j :: 0 <= j < |s.tables[r]| && Writable(cfg, s, r, j) ==> refs'[s.tables[r][j]] == 1
  {
    forall j | 0 <= j < |s.tables[r]| && Writable(cfg, s, r, j) ensures refs'[s.tables[r][j]] == 1 {
      HeldOnce(s, r, s.tables[r][j]);
      InTable(s, r, j);
      assert dropped[s.tables[r][j]] == 0;
    }
  }

  lemma ReservedPrivacy(cfg: Config, s: Sched, r: RequestId, dropped: multiset<BlockId>, refs': multiset<BlockId>)
    requires cfg.Valid() && Inv(cfg, s) && r in s.pending
    requires dropped <= multiset(TableOf(s, r)) + Blocks(ReleasesOf(s, r))
    requires refs' == s.pool.refs - dropped
    ensures forall j :: 0 <= j < |s.pending[r].reserved| ==> refs'[s.pending[r].reserved[j]] == 1
  {
    forall j | 0 <= j < |s.pending[r].reserved| ensures refs'[s.pending[r].reserved[j]] == 1 {
      HeldOnce(s, r, s.pending[r].reserved[j]);
      InReserved(s, r, j);
      assert dropped[s.pending[r].reserved[j]] == 0;
    }
  }

  lemma Known(s: Sched, r: RequestId)
    requires Domain(s)
    ensures r in s.tables || r in s.pending || r in s.active || r in s.deferred ==> r in s.requests
  {
    if r in s.tables || r in s.pending || r in s.active || r in s.deferred {
      assert r in s.tables.Keys + s.pending.Keys + s.active.Keys + s.deferred.Keys;
    }
  }

  lemma RequestFacts(cfg: Config, s: Sched, r: RequestId)
    requires cfg.Valid() && Inv(cfg, s)
    ensures Balanced(s) && Domain(s)
    ensures r in s.requests ==> RequestOk(cfg, s, r)
  {
  }

  lemma BlocksAppend(rs: seq<Release>, x: Release)
    ensures Blocks(rs + [x]) == Blocks(rs) + multiset(x.blocks)
  {
    if rs != [] {
      assert (rs + [x])[1..] == rs[1..] + [x];
      BlocksAppend(rs[1..], x);
    } else {
      assert ([] + [x])[1..] == [];
    }
  }

  // ---------------------------------------------------------------- plugin operations

  lemma DiscardBooks(s: Sched, r: RequestId)
    requires r in s.pending && r in s.requests
    ensures Books(s, Discard(s, r), r, multiset{}, multiset(s.pending[r].reserved))
  {
    hide Blocks;
    var s' := Discard(s, r);
    assert TableOf(s', r) == TableOf(s, r);
    assert ReservedOf(s', r) == [];
    assert ReleasesOf(s', r) == ReleasesOf(s, r);
    assert Held(s', r) + multiset(ReservedOf(s, r)) == Held(s, r);
  }

  lemma DiscardOk(cfg: Config, s: Sched, r: RequestId)
    requires cfg.Valid() && Inv(cfg, s) && r in s.pending && r in s.requests
    ensures RequestOk(cfg, Discard(s, r), r)
  {
    hide Held, Blocks, Balanced, CeilDiv, Config.Keep, Inv;
    RequestFacts(cfg, s, r);
    TablePrivacy(cfg, s, r, multiset(s.pending[r].reserved), Discard(s, r).pool.refs);
  }

  lemma DiscardKeeps(cfg: Config, s: Sched, r: RequestId)
    requires cfg.Valid() && Inv(cfg, s)
    ensures Inv(cfg, Discard(s, r))
  {
    hide Held, Books, RequestOk;
    if r in s.pending {
      Known(s, r);
      DiscardBooks(s, r);
      DiscardOk(cfg, s, r);
      StepKeeps(cfg, s, Discard(s, r), r, multiset{}, multiset(s.pending[r].reserved));
    }
  }

  // -- commit

  predicate Commits(s: Sched, r: RequestId) {
    r in s.pending && s.pending[r].ready && r in s.requests && r in s.tables && !CommitRaises(s, r)
  }

  function CommitDrops(s: Sched, r: RequestId, defer: nat): multiset<BlockId> {
    if defer > 0 then multiset{} else multiset(TableOf(s, r))
  }

  lemma CommitBooks(s: Sched, r: RequestId, defer: nat)
    requires Commits(s, r)
    ensures Books(s, Commit(s, r, defer), r, multiset{}, CommitDrops(s, r, defer))
  {
    hide Held;
    CommitHeld(s, r, defer);
    var refs, drops := s.pool.refs, CommitDrops(s, r, defer);
    assert refs + multiset{} == refs && (defer > 0 ==> refs - drops == refs);
  }

  lemma CommitHeld(s: Sched, r: RequestId, defer: nat)
    requires Commits(s, r)
    ensures Held(Commit(s, r, defer), r) + CommitDrops(s, r, defer) == Held(s, r)
  {
    hide Blocks;
    var s' := Commit(s, r, defer);
    assert TableOf(s', r) == ReservedOf(s, r) && ReservedOf(s', r) == [];
    if defer > 0 {
      var released := Release(s.tables[r], defer, s.issued);
      assert ReleasesOf(s', r) == ReleasesOf(s, r) + [released];
      BlocksAppend(ReleasesOf(s, r), released);
      assert Held(s', r) == Held(s, r);
    } else {
      assert ReleasesOf(s', r) == ReleasesOf(s, r);
      assert Held(s', r) + multiset(s.tables[r]) == Held(s, r);
    }
  }

  lemma CommitTableOk(cfg: Config, s: Sched, r: RequestId, defer: nat)
    requires cfg.Valid() && Inv(cfg, s) && Commits(s, r)
    ensures TableOk(cfg, Commit(s, r, defer), r)
  {
    hide Held, Blocks, Inv, CeilDiv, Balanced, Domain, ReleasesOk, TableOk, ActiveOk;
    RequestFacts(cfg, s, r);
    var s' := Commit(s, r, defer);
    ReservedPrivacy(cfg, s, r, CommitDrops(s, r, defer), s'.pool.refs);
    assert Physical(s', r) == cfg.budget;
    assert forall j :: 0 <= j < |s'.tables[r]| ==> s'.pool.Private(s'.tables[r][j]);
    CommitTableFinish(cfg, s', r);
  }

  lemma CommitTableFinish(cfg: Config, s: Sched, r: RequestId)
    requires cfg.Valid() && r in s.tables && r in s.requests
    requires Physical(s, r) <= |s.tables[r]| * cfg.blockSize
    requires forall j :: 0 <= j < |s.tables[r]| ==> s.pool.Private(s.tables[r][j])
    ensures TableOk(cfg, s, r)
  {
  }

  lemma CommitOk(cfg: Config, s: Sched, r: RequestId, defer: nat)
    requires cfg.Valid() && Inv(cfg, s) && Commits(s, r)
    ensures RequestOk(cfg, Commit(s, r, defer), r)
  {
    hide Held, Blocks, Inv, CeilDiv, Balanced, Domain, TableOk;
    RequestFacts(cfg, s, r);
    CommitTableOk(cfg, s, r, defer);
  }

  lemma CommitNeverRaises(cfg: Config, s: Sched, r: RequestId)
    requires cfg.Valid() && Inv(cfg, s)
    ensures !CommitRaises(s, r)
  {
    if r in s.pending && r in s.requests { assert RequestOk(cfg, s, r); }
  }

  lemma CommitLocal(s: Sched, r: RequestId, defer: nat)
    requires Commits(s, r)
    ensures Local(s, Commit(s, r, defer), r)
  {
  }

  lemma CommitKeeps(cfg: Config, s: Sched, r: RequestId, defer: nat)
    requires cfg.Valid() && Inv(cfg, s)
    ensures Inv(cfg, Commit(s, r, defer))
  {
    hide Held, Books, Local, Inv, CeilDiv, Balanced;
    RequestFacts(cfg, s, r);
    if r in s.pending && s.pending[r].ready {
      Known(s, r);
      CommitBooks(s, r, defer);
      CommitLocal(s, r, defer);
      CommitOk(cfg, s, r, defer);
      StepKeeps(cfg, s, Commit(s, r, defer), r, multiset{}, CommitDrops(s, r, defer));
    }
  }

  // -- drain

  lemma RetainedExpired(rs: seq<Release>)
    ensures Blocks(Retained(rs)) + Expired(rs) == Blocks(rs)
    ensures forall i :: 0 <= i < |Retained(rs)| ==> Retained(rs)[i].remaining > 0
  {
    if rs != [] {
      RetainedExpired(rs[1..]);
      var aged := rs[0].(remaining := rs[0].remaining - 1);
      if aged.remaining > 0 {
        assert Retained(rs) == [aged] + Retained(rs[1..]);
        assert Retained(rs)[1..] == Retained(rs[1..]);
      } else {
        assert Retained(rs) == Retained(rs[1..]);
      }
    }
  }

  lemma DrainBooks(s: Sched, r: RequestId)
    requires r in s.deferred && r in s.requests
    ensures Books(s, Drain(s, r), r, multiset{}, Expired(s.deferred[r]))
  {
    hide Blocks, Retained, Expired;
    var s' := Drain(s, r);
    assert TableOf(s', r) == TableOf(s, r) && ReservedOf(s', r) == ReservedOf(s, r);
    assert ReleasesOf(s', r) == Retained(s.deferred[r]);
    RetainedExpired(s.deferred[r]);
    assert Held(s', r) + Expired(s.deferred[r]) == Held(s, r);
  }

  lemma DrainOk(cfg: Config, s: Sched, r: RequestId)
    requires cfg.Valid() && Inv(cfg, s) && r in s.deferred && r in s.requests
    ensures RequestOk(cfg, Drain(s, r), r)
  {
    hide Blocks, Retained, Expired, Held, Balanced;
    assert RequestOk(cfg, s, r);
    RetainedExpired(s.deferred[r]);
    var s' := Drain(s, r);
    var dropped := Expired(s.deferred[r]);
    assert dropped <= Blocks(ReleasesOf(s, r));
    if r in s.tables { TablePrivacy(cfg, s, r, dropped, s'.pool.refs); }
    if r in s.pending { ReservedPrivacy(cfg, s, r, dropped, s'.pool.refs); }
    assert PendingOk(cfg, s', r) && ActiveOk(cfg, s', r);
    assert TableOk(cfg, s', r) && ReleasesOk(s', r);
  }

  lemma DrainKeeps(cfg: Config, s: Sched, r: RequestId)
    requires cfg.Valid() && Inv(cfg, s)
    ensures Inv(cfg, Drain(s, r))
  {
    hide Held, Books, RequestOk;
    if r in s.deferred {
      Known(s, r);
      DrainBooks(s, r);
      DrainOk(cfg, s, r);
      StepKeeps(cfg, s, Drain(s, r), r, multiset{}, Expired(s.deferred[r]));
    }
  }

  // -- acknowledge

  /** Steps that leave every reference where it was. */
  lemma NoBooks(s: Sched, s': Sched, r: RequestId)
    requires TableOf(s', r) == TableOf(s, r) && ReservedOf(s', r) == ReservedOf(s, r)
    requires ReleasesOf(s', r) == ReleasesOf(s, r)
    requires s'.pool.refs == s.pool.refs && s'.pool.overdrawn == s.pool.overdrawn
    requires forall b :: b in s'.pool.hashed ==> b in s.pool.hashed || b in multiset(TableOf(s, r))
    ensures Books(s, s', r, multiset{}, multiset{})
  {
    hide Blocks;
  }

  lemma AcknowledgeOk(cfg: Config, s: Sched, r: RequestId, plan: Plan)
    requires cfg.Valid() && RequestOk(cfg, s, r)
    ensures RequestOk(cfg, Acknowledge(s, r, plan), r)
  {
    hide CeilDiv;
  }

  lemma AcknowledgeLocal(s: Sched, r: RequestId, plan: Plan)
    requires r in s.requests
    ensures var t := Acknowledge(s, r, plan);
      && Local(s, t, r) && t.pool == s.pool
      && TableOf(t, r) == TableOf(s, r) && ReservedOf(t, r) == ReservedOf(s, r) && ReleasesOf(t, r) == ReleasesOf(s, r)
  {
  }

  lemma AcknowledgeKeeps(cfg: Config, s: Sched, r: RequestId, plan: Plan)
    requires cfg.Valid() && Inv(cfg, s)
    ensures Inv(cfg, Acknowledge(s, r, plan))
  {
    hide Held, Books, RequestOk, Inv, CeilDiv, Balanced, ReservedOf, ReleasesOf, TableOf, Local;
    RequestFacts(cfg, s, r);
    if r in s.pending {
      Known(s, r);
      var s' := Acknowledge(s, r, plan);
      AcknowledgeLocal(s, r, plan);
      NoBooks(s, s', r);
      AcknowledgeOk(cfg, s, r, plan);
      StepKeeps(cfg, s, s', r, multiset{}, multiset{});
    }
  }

  // -- arm

  lemma DistinctOnce<T>(bs: seq<T>, i: nat)
    requires Distinct(bs) && i < |bs|
    ensures multiset(bs)[bs[i]] == 1
  {
    var rest := bs[..i] + bs[i + 1..];
    assert bs == bs[..i] + [bs[i]] + bs[i + 1..];
    assert multiset(bs) == multiset(rest) + multiset{bs[i]};
    assert bs[i] !in rest;
  }

  lemma RepeatedTwice<T>(bs: seq<T>, i: nat, j: nat)
    requires i < j < |bs| && bs[i] == bs[j]
    ensures multiset(bs)[bs[i]] >= 2
  {
    assert bs == bs[..i] + [bs[i]] + bs[i + 1..j] + [bs[j]] + bs[j + 1..];
  }

  /** Blocks fresh from the pool have one holder and no hash. */
  lemma TakenPrivate(p: Pool, bs: seq<BlockId>)
    requires p.CanTake(bs)
    ensures forall i :: 0 <= i < |bs| ==> p.Take(bs).Private(bs[i])
  {
    forall i | 0 <= i < |bs| ensures p.Take(bs).Private(bs[i]) { DistinctOnce(bs, i); }
  }

  /** A block that already has its one holder is not handed out. */
  lemma TakeKeepsPrivate(p: Pool, bs: seq<BlockId>, b: BlockId)
    requires p.CanTake(bs) && p.Private(b)
    ensures p.Take(bs).Private(b)
  {
    assert b !in bs;
    assert multiset(bs)[b] == 0;
  }

  lemma KeepPositive(cfg: Config)
    requires cfg.Valid()
    ensures cfg.Keep() > 0
  {
  }

  lemma ArmNeverRaises(cfg: Config, s: Sched, r: RequestId, drafts: bool)
    requires cfg.Valid() && Inv(cfg, s) && r in s.tables
    ensures !ArmRaises(cfg, s, r, drafts)
  {
    if Eligible(cfg, s, r, drafts) {
      assert RequestOk(cfg, s, r);
      assert Physical(s, r) == PhysicalAt(s, r, s.requests[r].computed) > cfg.budget;
      if |s.tables[r]| < cfg.Keep() { MulMonotone(|s.tables[r]|, cfg.Keep(), cfg.blockSize); }
    }
  }

  lemma AddedFree(p: Pool, added: seq<BlockId>, b: BlockId)
    requires p.CanTake(added) && b in multiset(added)
    ensures p.refs[b] == 0
  {
    assert b in added;
  }

  lemma ArmHeld(cfg: Config, s: Sched, r: RequestId, drafts: bool, dst: seq<BlockId>)
    requires cfg.Valid() && Arms(cfg, s, r, drafts)
    ensures Held(Arm(cfg, s, r, drafts, dst), r) == Held(s, r) + multiset(dst)
  {
    hide Blocks, CeilDiv;
    var s' := Arm(cfg, s, r, drafts, dst);
    assert TableOf(s', r) == TableOf(s, r) && ReleasesOf(s', r) == ReleasesOf(s, r);
    assert ReservedOf(s, r) == [] && ReservedOf(s', r) == dst;
  }

  lemma ArmBooks(cfg: Config, s: Sched, r: RequestId, drafts: bool, dst: seq<BlockId>)
    requires cfg.Valid() && Arms(cfg, s, r, drafts) && s.pool.CanTake(dst)
    ensures Books(s, Arm(cfg, s, r, drafts, dst), r, multiset(dst), multiset{})
  {
    hide Held, CeilDiv, Arms, Pool.CanTake;
    ArmHeld(cfg, s, r, drafts, dst);
    forall b | b in multiset(dst) ensures s.pool.refs[b] == 0 { AddedFree(s.pool, dst, b); }
  }

  lemma ArmOk(cfg: Config, s: Sched, r: RequestId, drafts: bool, dst: seq<BlockId>)
    requires cfg.Valid() && RequestOk(cfg, s, r)
    requires Arms(cfg, s, r, drafts) && CanArm(cfg, s, r, drafts, dst) && Schedulable(cfg, s, r)
    ensures RequestOk(cfg, Arm(cfg, s, r, drafts, dst), r)
  {
    hide CeilDiv, Pool.Private, Pool.Take, Pool.CanTake;
    var s' := Arm(cfg, s, r, drafts, dst);
    KeepPositive(cfg);
    assert r in s.tables;
    TakenPrivate(s.pool, dst);
    forall j | 0 <= j < |s.tables[r]| && Writable(cfg, s', r, j) ensures s'.pool.Private(s.tables[r][j]) {
      assert Writable(cfg, s, r, j);
      TakeKeepsPrivate(s.pool, dst, s.tables[r][j]);
    }
    assert Physical(s', r) == Physical(s, r);
  }

  lemma ArmKeeps(cfg: Config, s: Sched, r: RequestId, drafts: bool, dst: seq<BlockId>)
    requires cfg.Valid() && Inv(cfg, s) && CanArm(cfg, s, r, drafts, dst) && Schedulable(cfg, s, r)
    ensures Inv(cfg, Arm(cfg, s, r, drafts, dst))
  {
    hide Held, Books, RequestOk, Inv, CeilDiv, Balanced;
    RequestFacts(cfg, s, r);
    if Arms(cfg, s, r, drafts) {
      ArmBooks(cfg, s, r, drafts, dst);
      ArmOk(cfg, s, r, drafts, dst);
      StepKeeps(cfg, s, Arm(cfg, s, r, drafts, dst), r, multiset(dst), multiset{});
    }
  }

  // -- free

  lemma FreedBooks(s: Sched, s': Sched, r: RequestId)
    requires r !in s'.tables && r !in s'.pending && r !in s'.deferred
    requires s'.pool == s.pool.Drop(Held(s, r))
    ensures Books(s, s', r, multiset{}, Held(s, r))
  {
  }

  lemma FreeKeeps(cfg: Config, s: Sched, r: RequestId)
    requires cfg.Valid() && Inv(cfg, s) && r in s.requests
    ensures Inv(cfg, Free(s, r))
  {
    hide Held, Books, Inv, CeilDiv, Balanced;
    RequestFacts(cfg, s, r);
    FreedBooks(s, Free(s, r), r);
    StepKeeps(cfg, s, Free(s, r), r, multiset{}, Held(s, r));
  }

  lemma PreemptKeeps(cfg: Config, s: Sched, r: RequestId)
    requires cfg.Valid() && Inv(cfg, s) && r in s.requests
    ensures Inv(cfg, Preempt(s, r))
  {
    hide Held, Books, Inv, CeilDiv, Balanced;
    RequestFacts(cfg, s, r);
    FreedBooks(s, Preempt(s, r), r);
    StepKeeps(cfg, s, Preempt(s, r), r, multiset{}, Held(s, r));
  }

  lemma NothingHeld(s: Sched, r: RequestId)
    requires r !in s.tables && r !in s.pending && r !in s.deferred
    ensures Held(s, r) == multiset{}
  {
  }

  lemma SameRequest(cfg: Config, s: Sched, s': Sched, q: RequestId)
    requires cfg.Valid() && RequestOk(cfg, s, q) && SameAt(s, s', q) && s'.pool == s.pool
    ensures RequestOk(cfg, s', q)
  {
    hide CeilDiv, Pool.Private;
    assert forall j :: Writable(cfg, s', q, j) <==> Writable(cfg, s, q, j);
  }

  /** The request's maps changed only by the arrival or departure of a request that owns nothing. */
  ghost predicate Bare(s: Sched, s': Sched, r: RequestId) {
    && r !in s.tables && r !in s.pending && r !in s.active && r !in s.deferred
    && s'.pool == s.pool
    && s'.tables == s.tables && s'.pending == s.pending && s'.active == s.active && s'.deferred == s.deferred
  }

  lemma BareKeeps(cfg: Config, s: Sched, s': Sched, r: RequestId, q: RequestId)
    requires cfg.Valid() && Inv(cfg, s) && Bare(s, s', r)
    requires q in s.requests && q in s'.requests && s.requests[q] == s'.requests[q]
    ensures RequestOk(cfg, s', q) && Held(s', q) == Held(s, q)
  {
    hide CeilDiv, Blocks, Held, RequestOk;
    SameRequest(cfg, s, s', q);
    SameHeld(s, s', q);
  }

  /** Forgetting a request that owns nothing. */
  lemma ForgetKeeps(cfg: Config, s: Sched, r: RequestId, s': Sched)
    requires cfg.Valid() && Inv(cfg, s) && r in s.requests
    requires Bare(s, s', r) && s'.requests == s.requests - {r}
    ensures Inv(cfg, s')
  {
    hide CeilDiv, Blocks, Held, RequestOk;
    NothingHeld(s, r);
    forall q | q in s'.requests ensures RequestOk(cfg, s', q) && Held(s', q) == Held(s, q) {
      BareKeeps(cfg, s, s', r, q);
    }
    assert Holdings(s') == Holdings(s) - {r};
    Split(Holdings(s), r);
  }

  lemma FinishKeeps(cfg: Config, s: Sched, r: RequestId)
    requires cfg.Valid() && Inv(cfg, s) && r in s.requests
    ensures Inv(cfg, Finish(s, r))
  {
    hide Held, Inv, CeilDiv;
    FreeKeeps(cfg, s, r);
    ForgetKeeps(cfg, Free(s, r), r, Finish(s, r));
  }

  lemma AddKeeps(cfg: Config, s: Sched, r: RequestId, info: Info, eligible: int)
    requires cfg.Valid() && Inv(cfg, s) && r !in s.requests && eligible < FROZEN
    ensures Inv(cfg, Add(s, r, info, eligible))
  {
    hide CeilDiv, Blocks, Held, RequestOk;
    var s' := Add(s, r, info, eligible);
    Known(s, r);
    NothingHeld(s', r);
    forall q | q in s.requests ensures RequestOk(cfg, s', q) && Held(s', q) == Held(s, q) {
      BareKeeps(cfg, s, s', r, q);
    }
    assert RequestOk(cfg, s', r) by { Idle(cfg, s', r); }
    assert Holdings(s') == Holdings(s)[r := multiset{}];
    Insert(Holdings(s), r, multiset{});
  }

  lemma Idle(cfg: Config, s: Sched, r: RequestId)
    requires cfg.Valid() && r !in s.tables && r !in s.pending && r !in s.active && r !in s.deferred
    requires FreezeOk(cfg, s, r)
    ensures RequestOk(cfg, s, r)
  {
  }

  // -- grow

  lemma GrowHeld(s: Sched, r: RequestId, added: seq<BlockId>, n: nat)
    ensures Held(Grow(s, r, added, n), r) == Held(s, r) + multiset(added)
  {
    hide Blocks;
    var s' := Grow(s, r, added, n);
    assert TableOf(s', r) == TableOf(s, r) + added;
    assert ReservedOf(s', r) == ReservedOf(s, r) && ReleasesOf(s', r) == ReleasesOf(s, r);
  }

  lemma GrowBooks(cfg: Config, s: Sched, r: RequestId, added: seq<BlockId>, n: nat)
    requires CanGrow(cfg, s, r, added, n)
    ensures Books(s, Grow(s, r, added, n), r, multiset(added), multiset{})
  {
    hide Held, Pool.CanTake;
    GrowHeld(s, r, added, n);
    forall b | b in multiset(added) ensures s.pool.refs[b] == 0 { AddedFree(s.pool, added, b); }
  }

  lemma GrowOk(cfg: Config, s: Sched, r: RequestId, added: seq<BlockId>, n: nat)
    requires cfg.Valid() && RequestOk(cfg, s, r) && r !in s.pending && CanGrow(cfg, s, r, added, n)
    ensures RequestOk(cfg, Grow(s, r, added, n), r)
  {
    hide CeilDiv, Pool.Private, Pool.Take, Pool.CanTake;
    var s' := Grow(s, r, added, n);
    TakenPrivate(s.pool, added);
    forall j | 0 <= j < |s'.tables[r]| && Writable(cfg, s', r, j) ensures s'.pool.Private(s'.tables[r][j]) {
      if j < |s.tables[r]| {
        assert Writable(cfg, s, r, j);
        TakeKeepsPrivate(s.pool, added, s.tables[r][j]);
      } else {
        assert s'.tables[r][j] == added[j - |s.tables[r]|];
      }
    }
  }

  lemma GrowKeeps(cfg: Config, s: Sched, r: RequestId, added: seq<BlockId>, n: nat)
    requires cfg.Valid() && Inv(cfg, s) && r !in s.pending && CanGrow(cfg, s, r, added, n)
    ensures Inv(cfg, Grow(s, r, added, n))
  {
    hide Held, Books, RequestOk, Inv, CeilDiv, Balanced;
    RequestFacts(cfg, s, r);
    GrowBooks(cfg, s, r, added, n);
    GrowOk(cfg, s, r, added, n);
    StepKeeps(cfg, s, Grow(s, r, added, n), r, multiset(added), multiset{});
  }

  // -- admit

  lemma AdmitBooks(cfg: Config, s: Sched, r: RequestId, hits: seq<BlockId>, added: seq<BlockId>, n: nat)
    requires CanAdmit(cfg, s, r, hits, added, n)
    ensures Books(s, Admit(cfg, s, r, hits, added, n), r, multiset(hits) + multiset(added), multiset{})
  {
    hide Blocks;
    var s' := Admit(cfg, s, r, hits, added, n);
    assert TableOf(s, r) == [] && TableOf(s', r) == hits + added;
    assert ReservedOf(s', r) == ReservedOf(s, r) && ReleasesOf(s', r) == ReleasesOf(s, r);
    assert multiset(hits + added) == multiset(hits) + multiset(added);
    assert forall b :: b in multiset(hits) ==> b in hits;
    forall b | b in multiset(hits) + multiset(added) ensures s.pool.refs[b] == 0 || b in s.pool.hashed {
      if b in added { assert s.pool.Touch(hits).refs[b] == 0; }
    }
  }

  lemma AdmitOk(cfg: Config, s: Sched, r: RequestId, hits: seq<BlockId>, added: seq<BlockId>, n: nat)
    requires cfg.Valid() && RequestOk(cfg, s, r) && CanAdmit(cfg, s, r, hits, added, n)
    ensures RequestOk(cfg, Admit(cfg, s, r, hits, added, n), r)
  {
    hide CeilDiv, Pool.Private, Pool.Take, Pool.CanTake;
    var s' := Admit(cfg, s, r, hits, added, n);
    TakenPrivate(s.pool.Touch(hits), added);
    forall j | 0 <= j < |s'.tables[r]| && Writable(cfg, s', r, j) ensures s'.pool.Private(s'.tables[r][j]) {
      if j < |hits| { MulMonotone(j + 1, |hits|, cfg.blockSize); }
      assert s'.tables[r][j] == added[j - |hits|];
    }
  }

  lemma AdmitKeeps(cfg: Config, s: Sched, r: RequestId, hits: seq<BlockId>, added: seq<BlockId>, n: nat)
    requires cfg.Valid() && Inv(cfg, s) && CanAdmit(cfg, s, r, hits, added, n)
    ensures Inv(cfg, Admit(cfg, s, r, hits, added, n))
  {
    hide Held, Books, RequestOk, Inv, CeilDiv, Balanced;
    RequestFacts(cfg, s, r);
    AdmitBooks(cfg, s, r, hits, added, n);
    AdmitOk(cfg, s, r, hits, added, n);
    StepKeeps(cfg, s, Admit(cfg, s, r, hits, added, n), r, multiset(hits) + multiset(added), multiset{});
  }

  // -- rejected drafts

  lemma RollbackOk(cfg: Config, s: Sched, r: RequestId, n: nat)
    requires cfg.Valid() && RequestOk(cfg, s, r) && CanRollback(cfg, s, r, n)
    ensures RequestOk(cfg, Rollback(s, r, n), r)
  {
    hide CeilDiv, Pool.Private;
    var s' := Rollback(s, r, n);
    forall j | 0 <= j < |s.tables[r]| && Writable(cfg, s', r, j) ensures s'.pool.Private(s.tables[r][j]) {
      if r in s.active { assert Writable(cfg, s, r, j); }
    }
  }

  lemma RollbackKeeps(cfg: Config, s: Sched, r: RequestId, n: nat)
    requires cfg.Valid() && Inv(cfg, s) && CanRollback(cfg, s, r, n)
    ensures Inv(cfg, Rollback(s, r, n))
  {
    hide Held, Books, RequestOk, Inv, CeilDiv, Balanced;
    RequestFacts(cfg, s, r);
    RollbackOk(cfg, s, r, n);
    NoBooks(s, Rollback(s, r, n), r);
    StepKeeps(cfg, s, Rollback(s, r, n), r, multiset{}, multiset{});
  }

  // -- the prefix-hash hook

  lemma CacheBlocksOk(cfg: Config, s: Sched, r: RequestId, count: nat)
    requires cfg.Valid() && Inv(cfg, s) && CanCache(cfg, s, r, count)
    ensures RequestOk(cfg, CacheBlocks(s, r, count), r)
  {
    hide CeilDiv, Blocks, Inv, Balanced, Domain;
    RequestFacts(cfg, s, r);
    var s' := CacheBlocks(s, r, count);
    if r !in s.active {
      forall j | 0 <= j < |s.tables[r]| && Writable(cfg, s', r, j) ensures s'.pool.Private(s.tables[r][j]) {
        assert Writable(cfg, s, r, j);
        HeldOnce(s, r, s.tables[r][j]);
        if j < count { MulMonotone(j + 1, count, cfg.blockSize); }
        forall i | 0 <= i < count ensures s.tables[r][i] != s.tables[r][j] {
          if s.tables[r][i] == s.tables[r][j] { RepeatedTwice(s.tables[r], i, j); }
        }
      }
    }
  }

  lemma CacheBlocksKeeps(cfg: Config, s: Sched, r: RequestId, count: nat)
    requires cfg.Valid() && Inv(cfg, s) && CanCache(cfg, s, r, count)
    ensures Inv(cfg, CacheBlocks(s, r, count))
  {
    hide Held, Books, RequestOk, Inv, CeilDiv, Balanced;
    RequestFacts(cfg, s, r);
    var s' := CacheBlocks(s, r, count);
    CacheBlocksOk(cfg, s, r, count);
    forall b | b in s'.pool.hashed ensures b in s.pool.hashed || b in multiset(TableOf(s, r)) {
      if b !in s.pool.hashed { assert b in s.tables[r]; }
    }
    NoBooks(s, s', r);
    StepKeeps(cfg, s, s', r, multiset{}, multiset{});
  }
}
