// The scheduler half, `SchedulerCompressionState`: dictionaries updated in place around a host scheduler.
// Every method is proved equal to the operation of the same name in `SchedulerModel`.

module SchedulerState {
  import opened Common
  import opened SchedulerModel
  import opened SchedulerInvariant
  import opened SchedulerSteps
  import opened AcknowledgeStep
  import opened Dispatch

  /** The host's pool, reduced to its contract: fresh distinct blocks out, one reference back per free. */
  class BlockPool {
    const universe: set<BlockId>
    var refs: multiset<BlockId>
    var hashed: set<BlockId>
    var overdrawn: bool

    constructor (universe: set<BlockId>)
      ensures View() == Pool(universe, multiset{}, {}, false)
    {
      this.universe := universe;
      refs := multiset{};
      hashed, overdrawn := {}, false;
    }

    function View(): Pool
      reads this
    {
      Pool(universe, refs, hashed, overdrawn)
    }

    method FreeBlocks(blocks: seq<BlockId>)
      modifies `refs, `overdrawn
      ensures View() == old(View()).Drop(multiset(blocks))
    {
      overdrawn := overdrawn || !(multiset(blocks) <= refs);
      refs := refs - multiset(blocks);
    }

    method GetNewBlocks(n: nat) returns (blocks: seq<BlockId>)
      requires n <= |View().Unreferenced()|
      modifies this
      ensures |blocks| == n && old(View()).CanTake(blocks)
      ensures View() == old(View()).Take(blocks)
    {
      var free := View().Unreferenced();
      blocks := [];
      while |blocks| < n
        invariant |blocks| <= n && |blocks| + |free| == |View().Unreferenced()|
        invariant free <= View().Unreferenced() && View().CanTake(blocks)
        invariant forall i :: 0 <= i < |blocks| ==> blocks[i] !in free
      {
        var b :| b in free;
        blocks := blocks + [b];
        free := free - {b};
      }
      refs, hashed := refs + multiset(blocks), hashed - set b | b in blocks;
    }
  }

  /** The host scheduler and its cache manager. `issued` is history: the outputs issued so far. */
  class Host {
    const pool: BlockPool
    var requests: map<RequestId, Request>
    var tables: map<RequestId, seq<BlockId>>
    var cached: map<RequestId, nat>
    var finished: set<RequestId>
    var preempted: set<RequestId>
    var issued: nat

    constructor (pool: BlockPool)
      ensures this.pool == pool && requests == map[] && tables == map[] && cached == map[]
      ensures finished == {} && preempted == {} && issued == 0
    {
      this.pool := pool;
      requests, tables, cached := map[], map[], map[];
      finished, preempted, issued := {}, {}, 0;
    }

    /** The host's own `free`, reduced to its contract: the table's blocks go back once. */
    method Free(r: RequestId)
      modifies `tables, `cached, pool`refs, pool`overdrawn
      ensures tables == old(tables) - {r} && cached == old(cached) - {r}
      ensures pool.View() == old(pool.View()).Drop(multiset(if r in old(tables) then old(tables)[r] else []))
    {
      pool.FreeBlocks(if r in tables then tables[r] else []);
      tables := tables - {r};
      cached := cached - {r};
    }
  }

  class SchedulerCompressionState {
    const cfg: Config
    const host: Host
    var pending: map<RequestId, Pending>
    var active: map<RequestId, Anchor>
    var deferred: map<RequestId, seq<Release>>

    constructor (cfg: Config, host: Host)
      ensures this.cfg == cfg && this.host == host
      ensures pending == map[] && active == map[] && deferred == map[]
    {
      this.cfg, this.host := cfg, host;
      pending, active, deferred := map[], map[], map[];
    }

    /** The state that the model's operations are about. */
    function Abs(): Sched
      reads this, host, host.pool
    {
      Sched(host.requests, host.tables, host.cached, pending, active, deferred,
            host.finished, host.preempted, host.issued, host.pool.View())
    }

    // -------------------------------------------------------------- discarding

    method DiscardPending(r: RequestId)
      modifies `pending, host`requests, host.pool`refs, host.pool`overdrawn
      ensures Abs() == Discard(old(Abs()), r)
      ensures cfg.Valid() && old(Inv(cfg, Abs())) ==> Inv(cfg, Abs()) && !host.pool.overdrawn
    {
      if cfg.Valid() && Inv(cfg, Abs()) { DiscardKeeps(cfg, Abs(), r); }
      if r !in pending {
        return;
      }
      var p := pending[r];
      pending := pending - {r};
      host.pool.FreeBlocks(p.reserved);
      if r in host.requests && p.previous.Some? {
        host.requests := host.requests[r := host.requests[r].(eligible := p.previous.value)];
      }
    }

    /** The loop that both hooks run over finished and preempted requests. */
    method ResetRequests(ids: set<RequestId>) returns (ghost order: seq<RequestId>)
      modifies `pending, `active, host`requests, host.pool`refs, host.pool`overdrawn
      ensures Enumerates(order, ids) && Abs() == ResetAll(old(Abs()), order)
    {
      var todo := ids;
      order := [];
      while todo != {}
        invariant todo <= ids && Enumerates(order, ids - todo)
        invariant Abs() == ResetAll(old(Abs()), order)
      {
        var r :| r in todo;
        ResetAllSnoc(old(Abs()), order, r);
        EnumeratesStep(order, ids, todo, r);
        DiscardPending(r);
        active := active - {r};
        todo := todo - {r};
        order := order + [r];
      }
      assert ids - todo == ids;
    }

    // -------------------------------------------------------------- committing

    /** One pass of the commit loop; `ok` is false where `_commit_pending` raises. */
    method CommitOne(r: RequestId, defer: nat) returns (ok: bool)
      modifies this, host, host.pool`refs, host.pool`overdrawn
      ensures Abs() == Commit(old(Abs()), r, defer)
      ensures ok <==> !CommitRaises(old(Abs()), r)
      ensures !ok <==>
        && r in old(pending) && old(pending)[r].ready && r in old(host.requests) && r in old(host.tables)
        && old(host.tables)[r] != old(pending)[r].plan.source
    {
      ok := true;
      if r !in pending || !pending[r].ready {
        return;
      }
      if r !in host.requests || r !in host.tables {
        DiscardPending(r);
        return;
      }
      var p, source := pending[r], host.tables[r];
      if source != p.plan.source {
        DiscardPending(r);
        return false;
      }
      host.tables := host.tables[r := p.reserved];
      if defer > 0 {
        var releases := if r in deferred then deferred[r] else [];
        deferred := deferred[r := releases + [Release(source, defer, host.issued)]];
      } else {
        host.pool.FreeBlocks(source);
      }
      host.cached := host.cached[r := 0];
      active := active[r := Anchor(p.plan.semantic, p.plan.physical)];
      if p.previous.Some? {
        host.requests := host.requests[r := host.requests[r].(eligible := p.previous.value)];
      }
      pending := pending - {r};
    }

    /** The commit loop over a snapshot of the pending dictionary; it stops where `_commit_pending` raises. */
    method CommitPending(defer: nat) returns (failed: Option<RequestId>, ghost order: seq<RequestId>)
      modifies this, host, host.pool`refs, host.pool`overdrawn
      ensures !CommitLoopRaises(old(Abs()), order, defer)
      ensures failed.None? ==> Enumerates(order, old(pending).Keys) && Abs() == CommitAll(old(Abs()), order, defer)
      ensures failed.Some? ==>
        var t := CommitAll(old(Abs()), order, defer); CommitRaises(t, failed.value) && Abs() == Discard(t, failed.value)
      ensures cfg.Valid() && old(Inv(cfg, Abs())) ==> failed.None? && Inv(cfg, Abs())
    {
      var ids := pending.Keys;
      var todo := ids;
      order := [];
      failed := None;
      while todo != {}
        invariant todo <= ids && Enumerates(order, ids - todo)
        invariant Abs() == CommitAll(old(Abs()), order, defer) && !CommitLoopRaises(old(Abs()), order, defer)
        invariant cfg.Valid() && old(Inv(cfg, Abs())) ==> Inv(cfg, Abs())
      {
        var r :| r in todo;
        ghost var before := Abs();
        CommitAllSnoc(old(Abs()), order, r, defer);
        EnumeratesStep(order, ids, todo, r);
        var ok := CommitOne(r, defer);
        CommitMeaning(cfg, before, r, defer);
        if !ok {
          return Some(r), order;
        }
        todo := todo - {r};
        order := order + [r];
      }
      assert ids - todo == ids;
    }

    // -------------------------------------------------------------- releasing

    /** Counts every release down; the expired ones go back to the pool. */
    method AgeReleases(releases: seq<Release>) returns (retained: seq<Release>)
      modifies host.pool`refs, host.pool`overdrawn
      ensures retained == Retained(releases)
      ensures host.pool.View() == old(host.pool.View()).Drop(Expired(releases))
    {
      hide Retained, Expired, Pool.Drop;
      DropNothing(host.pool.View());
      retained := [];
      ghost var freed := multiset{};
      assert releases[0..] == releases;
      for i := 0 to |releases|
        invariant Aged(releases, i, retained, freed)
        invariant host.pool.View() == old(host.pool.View()).Drop(freed)
      {
        AgedNext(releases, i, retained, freed);
        var aged := releases[i].(remaining := releases[i].remaining - 1);
        if aged.remaining <= 0 {
          DropTwice(old(host.pool.View()), freed, multiset(aged.blocks));
          freed := freed + multiset(aged.blocks);
          host.pool.FreeBlocks(aged.blocks);
        } else {
          retained := retained + [aged];
        }
      }
      AllAged(releases, retained, freed);
    }

    method DrainOne(r: RequestId)
      modifies `deferred, host.pool`refs, host.pool`overdrawn
      ensures Abs() == Drain(old(Abs()), r)
    {
      if r !in deferred {
        return;
      }
      var retained := AgeReleases(deferred[r]);
      deferred := if retained != [] then deferred[r := retained] else deferred - {r};
    }

    method DrainDeferredReleases() returns (ghost order: seq<RequestId>)
      modifies `deferred, host.pool`refs, host.pool`overdrawn
      ensures Enumerates(order, old(deferred).Keys) && Abs() == DrainAll(old(Abs()), order)
      ensures cfg.Valid() && old(Inv(cfg, Abs())) ==> Inv(cfg, Abs())
    {
      var ids := deferred.Keys;
      var todo := ids;
      order := [];
      while todo != {}
        invariant todo <= ids && Enumerates(order, ids - todo)
        invariant Abs() == DrainAll(old(Abs()), order)
        invariant cfg.Valid() && old(Inv(cfg, Abs())) ==> Inv(cfg, Abs())
      {
        var r :| r in todo;
        DrainAllSnoc(old(Abs()), order, r);
        EnumeratesStep(order, ids, todo, r);
        if cfg.Valid() && old(Inv(cfg, Abs())) { DrainKeeps(cfg, Abs(), r); }
        DrainOne(r);
        todo := todo - {r};
        order := order + [r];
      }
      assert ids - todo == ids;
    }

    // -------------------------------------------------------------- the hooks

    /** `before_schedule`. */
    method BeforeSchedule() returns (failed: Option<RequestId>, ghost finished: seq<RequestId>, ghost waiting: seq<RequestId>)
      modifies this, host, host.pool`refs, host.pool`overdrawn
      ensures Enumerates(finished, old(host.finished))
      ensures failed.None? ==> Abs() == SchedulerModel.BeforeSchedule(cfg, old(Abs()), finished, waiting)
      ensures failed.None? && !cfg.asynchronous ==> Enumerates(waiting, ResetAll(old(Abs()), finished).pending.Keys)
      ensures cfg.Valid() && Inv(cfg, ResetAll(old(Abs()), finished)) ==> failed.None? && Inv(cfg, Abs())
    {
      failed, waiting := None, [];
      finished := ResetRequests(host.finished);
      if cfg.asynchronous {
        return;
      }
      failed, waiting := CommitPending(0);
    }

    /** `after_output` together with `after_model_output`. */
    method AfterOutput(plans: map<RequestId, Plan>)
      returns (failed: Option<RequestId>, ghost acks: seq<RequestId>, ghost draining: seq<RequestId>, ghost waiting: seq<RequestId>)
      modifies this, host, host.pool`refs, host.pool`overdrawn
      ensures Enumerates(acks, plans.Keys)
      ensures failed.None? ==> Abs() == SchedulerModel.AfterOutput(cfg, old(Abs()), plans, acks, draining, waiting)
      ensures failed.None? && cfg.asynchronous ==>
        Enumerates(draining, old(deferred).Keys) && Enumerates(waiting, old(pending).Keys)
      ensures cfg.Valid() && old(Inv(cfg, Abs())) ==> failed.None? && Inv(cfg, Abs())
    {
      failed, draining, waiting := None, [], [];
      acks := AcknowledgePlans(plans);
      if cfg.asynchronous {
        draining := DrainDeferredReleases();
        failed, waiting := CommitPending(if cfg.maxBatches > 1 then cfg.maxBatches - 1 else 0);
      }
    }

    method AcknowledgePlans(plans: map<RequestId, Plan>) returns (ghost order: seq<RequestId>)
      modifies `pending
      ensures Enumerates(order, plans.Keys) && Abs() == AcknowledgeAll(old(Abs()), order, plans)
      ensures pending.Keys == old(pending).Keys
      ensures forall q | q in pending :: (
        && pending[q].plan == old(pending)[q].plan
        && (pending[q].ready <==> old(pending)[q].ready || Get(plans, q) == Some(pending[q].plan)))
      ensures cfg.Valid() && old(Inv(cfg, Abs())) ==> Inv(cfg, Abs())
    {
      var todo := plans.Keys;
      order := [];
      while todo != {}
        invariant todo <= plans.Keys && Enumerates(order, plans.Keys - todo)
        invariant Abs() == AcknowledgeAll(old(Abs()), order, plans) && pending.Keys == old(pending).Keys
        invariant cfg.Valid() && old(Inv(cfg, Abs())) ==> Inv(cfg, Abs())
      {
        var r :| r in todo;
        if cfg.Valid() && old(Inv(cfg, Abs())) { AcknowledgeKeeps(cfg, Abs(), r, plans[r]); }
        AcknowledgeAllSnoc(old(Abs()), order, r, plans);
        EnumeratesStep(order, plans.Keys, todo, r);
        if r in pending && pending[r].plan == plans[r] {
          pending := pending[r := pending[r].(ready := true)];
        }
        todo := todo - {r};
        order := order + [r];
      }
      assert plans.Keys - todo == plans.Keys;
      forall q | q in pending ensures pending[q].plan == old(pending)[q].plan
        && (pending[q].ready <==> old(pending)[q].ready || Get(plans, q) == Some(pending[q].plan))
      {
        AcknowledgeAllAt(old(Abs()), order, plans, q);
      }
    }

    /** One iteration of the arming loop. */
    method ArmOne(r: RequestId, drafts: bool) returns (ok: bool, plan: Option<Plan>, ghost given: seq<BlockId>)
      requires cfg.Valid()
      modifies `pending, host`requests, host.pool
      ensures ok <==> !ArmRaises(cfg, old(Abs()), r, drafts)
      ensures CanArm(cfg, old(Abs()), r, drafts, given) && Abs() == Arm(cfg, old(Abs()), r, drafts, given)
      ensures Attached(cfg, old(Abs()), r, drafts, given) == if plan.Some? then map[r := plan.value] else map[]
    {
      ok, plan, given := true, None, [];
      if drafts || r in pending || r !in host.requests {
        return;
      }
      var request := host.requests[r];
      if request.info.maxTokens < cfg.minOutput {
        return;
      }
      var semantic := request.computed;
      var physical := semantic;
      if r !in active {
        if semantic != request.info.prompt {
          return;
        }
      } else {
        physical := active[r].physical + semantic - active[r].semantic;
      }
      if physical < cfg.threshold || (cfg.speculative && r in active) {
        return;
      }
      var blocks := if r in host.tables then host.tables[r] else [];
      var keep := CeilDiv(cfg.budget, cfg.blockSize);
      if |blocks| < keep {
        ok := false;
        return;
      }
      if |host.pool.View().Unreferenced()| < keep {
        return;
      }
      var destination := host.pool.GetNewBlocks(keep);
      given := destination;
      var p := Plan(semantic, cfg.budget, blocks, destination);
      var previous: Option<int> := None;
      if cfg.asynchronous {
        previous := Some(request.eligible);
        host.requests := host.requests[r := request.(eligible := FROZEN)];
      }
      pending := pending[r := Pending(p, destination, false, previous)];
      plan := Some(p);
    }

    /** The arming loop, in scheduling order; it stops where `after_schedule` raises. */
    method ArmScheduled(order: seq<RequestId>, drafts: set<RequestId>)
      returns (ok: bool, plans: map<RequestId, Plan>, ghost given: map<RequestId, seq<BlockId>>)
      requires cfg.Valid() && Distinct(order)
      modifies `pending, host`requests, host.pool
      ensures ok <==> !ArmingRaises(cfg, old(Abs()), order, drafts, Given(given))
      ensures ok ==>
        && CanArmAll(cfg, old(Abs()), order, drafts, Given(given))
        && Abs() == ArmAll(cfg, old(Abs()), order, drafts, Given(given))
        && plans == PlansOf(cfg, old(Abs()), order, drafts, Given(given))
    {
      hide Arm, Attached, ArmRaises, CanArm, CeilDiv, ArmedSoFar, Abs;
      ghost var s := Abs();
      ok, plans, given := true, map[], map[];
      NothingArmed(cfg, s, order, drafts);
      for i := 0 to |order|
        invariant ArmedSoFar(cfg, s, order, i, drafts, given, Abs(), plans)
      {
        var r := order[i];
        ghost var t, earlier, had := Abs(), given, plans;
        var fine, plan, blocks := ArmOne(r, r in drafts);
        given := given[r := blocks];
        if plan.Some? {
          plans := plans[r := plan.value];
        }
        ArmedNext(cfg, s, order, i, drafts, earlier, t, had, blocks, Abs(), plans);
        if !fine {
          ok := false;
          return;
        }
      }
      AllArmed(cfg, s, order, drafts, given, Abs(), plans);
    }

    /** `after_schedule`: reset what left the batch, then arm what qualifies. */
    method AfterSchedule(finished: set<RequestId>, preempted: set<RequestId>, order: seq<RequestId>, drafts: set<RequestId>)
      returns (ok: bool, plans: map<RequestId, Plan>, ghost resets: seq<RequestId>, ghost given: map<RequestId, seq<BlockId>>)
      requires cfg.Valid() && Distinct(order)
      modifies `pending, `active, host`requests, host.pool
      ensures Enumerates(resets, finished + preempted)
      ensures ok <==> !ArmingRaises(cfg, ResetAll(old(Abs()), resets), order, drafts, Given(given))
      ensures ok ==>
        && CanArmAll(cfg, ResetAll(old(Abs()), resets), order, drafts, Given(given))
        && Abs() == ArmAll(cfg, ResetAll(old(Abs()), resets), order, drafts, Given(given))
        && plans == PlansOf(cfg, ResetAll(old(Abs()), resets), order, drafts, Given(given))
    {
      resets := ResetRequests(finished + preempted);
      ok, plans, given := ArmScheduled(order, drafts);
    }

    method FreeReleases(releases: seq<Release>)
      modifies host.pool`refs, host.pool`overdrawn
      ensures host.pool.View() == old(host.pool.View()).Drop(Blocks(releases))
    {
      hide Blocks, Freed, Pool.Drop;
      ghost var freed := multiset{};
      DropNothing(host.pool.View());
      FreedNone(releases);
      for i := 0 to |releases|
        invariant Freed(releases, i, freed)
        invariant host.pool.View() == old(host.pool.View()).Drop(freed)
      {
        FreedNext(releases, i, freed);
        DropTwice(old(host.pool.View()), freed, multiset(releases[i].blocks));
        freed := freed + multiset(releases[i].blocks);
        host.pool.FreeBlocks(releases[i].blocks);
      }
      FreedAll(releases, freed);
    }

    /** The plugin's part of `free`: forget the request's compression state and give its blocks back. */
    method ForgetRequest(r: RequestId)
      modifies `pending, `active, `deferred, host`requests, host.pool`refs, host.pool`overdrawn
      ensures pending == old(pending) - {r} && active == old(active) - {r} && deferred == old(deferred) - {r}
      ensures host.requests == Thaw(old(Abs()), r, if r in old(pending) then old(pending)[r].previous else None)
      ensures host.pool.View() ==
        old(host.pool.View()).Drop(multiset(ReservedOf(old(Abs()), r))).Drop(Blocks(ReleasesOf(old(Abs()), r)))
    {
      hide Blocks, Pool.Drop;
      active := active - {r};
      ForgetPending(r);
      var releases := if r in deferred then deferred[r] else [];
      deferred := deferred - {r};
      FreeReleases(releases);
    }

    method ForgetPending(r: RequestId)
      modifies `pending, host`requests, host.pool`refs, host.pool`overdrawn
      ensures pending == old(pending) - {r}
      ensures host.requests == Thaw(old(Abs()), r, if r in old(pending) then old(pending)[r].previous else None)
      ensures host.pool.View() == old(host.pool.View()).Drop(multiset(ReservedOf(old(Abs()), r)))
    {
      hide Pool.Drop;
      DropNothing(host.pool.View());
      if r in pending {
        var p := pending[r];
        pending := pending - {r};
        host.pool.FreeBlocks(p.reserved);
        if p.previous.Some? && r in host.requests {
          host.requests := host.requests[r := host.requests[r].(eligible := p.previous.value)];
        }
      }
    }

    /** The `free` wrapper around the host's own `free`. */
    method FreeRequest(r: RequestId)
      modifies this, host, host.pool`refs, host.pool`overdrawn
      ensures Abs() == Free(old(Abs()), r)
      ensures cfg.Valid() && old(Inv(cfg, Abs())) && r in old(host.requests) ==> Inv(cfg, Abs()) && !host.pool.overdrawn
    {
      hide Thaw, Blocks, ReservedOf, ReleasesOf, SchedulerModel.Free, Pool.Drop, Inv;
      ghost var s := Abs();
      FreeMeaning(cfg, s, r);
      ForgetRequest(r);
      host.Free(r);
      FreeParts(s, r, Abs());
    }

    /** The attention group's `cache_blocks` hook: registering is refused for compressed requests. */
    method CacheBlocks(r: RequestId, count: nat)
      requires r in host.tables && count <= |host.tables[r]|
      modifies host`cached, host.pool`hashed
      ensures Abs() == SchedulerModel.CacheBlocks(old(Abs()), r, count)
    {
      if r in active {
        return;
      }
      host.pool.hashed := host.pool.hashed + Front(host.tables[r], count);
      host.cached := host.cached[r := count];
    }
  }

  // ---------------------------------------------------------------- lists of releases

  /** The loop has counted down `rs[..i]`, kept `retained` and freed `freed`. */
  ghost predicate Aged(rs: seq<Release>, i: nat, retained: seq<Release>, freed: multiset<BlockId>)
    requires i <= |rs|
  {
    retained + Retained(rs[i..]) == Retained(rs) && freed + Expired(rs[i..]) == Expired(rs)
  }

  lemma AgedNext(rs: seq<Release>, i: nat, retained: seq<Release>, freed: multiset<BlockId>)
    requires i < |rs| && Aged(rs, i, retained, freed)
    ensures if rs[i].remaining - 1 <= 0 then Aged(rs, i + 1, retained, freed + multiset(rs[i].blocks))
            else Aged(rs, i + 1, retained + [rs[i].(remaining := rs[i].remaining - 1)], freed)
  {
    assert rs[i..][1..] == rs[i + 1..];
  }

  lemma AllAged(rs: seq<Release>, retained: seq<Release>, freed: multiset<BlockId>)
    requires Aged(rs, |rs|, retained, freed)
    ensures retained == Retained(rs) && freed == Expired(rs)
  {
    assert rs[|rs|..] == [];
  }

  /** The loop has freed `freed`, the blocks of `rs[..i]`. */
  ghost predicate Freed(rs: seq<Release>, i: nat, freed: multiset<BlockId>)
    requires i <= |rs|
  {
    freed + Blocks(rs[i..]) == Blocks(rs)
  }

  lemma FreedNone(rs: seq<Release>)
    ensures Freed(rs, 0, multiset{})
  {
    assert rs[0..] == rs;
  }

  lemma FreedNext(rs: seq<Release>, i: nat, freed: multiset<BlockId>)
    requires i < |rs| && Freed(rs, i, freed)
    ensures Freed(rs, i + 1, freed + multiset(rs[i].blocks))
  {
    assert rs[i..][1..] == rs[i + 1..];
  }

  lemma FreedAll(rs: seq<Release>, freed: multiset<BlockId>)
    requires Freed(rs, |rs|, freed)
    ensures freed == Blocks(rs)
  {
    assert rs[|rs|..] == [];
  }

  lemma DropTwice(p: Pool, a: multiset<BlockId>, b: multiset<BlockId>)
    ensures p.Drop(a + b) == p.Drop(a).Drop(b)
  {
  }

  lemma DropNothing(p: Pool)
    ensures p.Drop(multiset{}) == p && p.Drop(multiset([])) == p
  {
  }

  lemma MergeThree<K, V>(a: map<K, V>, b: map<K, V>, c: map<K, V>)
    ensures a + (b + c) == a + b + c
  {
  }

  /** Freeing part by part drops all that the request holds. */
  lemma FreeParts(s: Sched, r: RequestId, t: Sched)
    requires t.pending == s.pending - {r} && t.active == s.active - {r} && t.deferred == s.deferred - {r}
    requires t.tables == s.tables - {r} && t.cached == s.cached - {r}
    requires t.requests == Thaw(s, r, if r in s.pending then s.pending[r].previous else None)
    requires t.pool == s.pool.Drop(multiset(ReservedOf(s, r))).Drop(Blocks(ReleasesOf(s, r))).Drop(multiset(TableOf(s, r)))
    requires t.finished == s.finished && t.preempted == s.preempted && t.issued == s.issued
    ensures t == Free(s, r)
  {
    hide Blocks, ReservedOf, ReleasesOf, TableOf, Thaw, Pool.Drop;
    DropTwice(s.pool, multiset(ReservedOf(s, r)), Blocks(ReleasesOf(s, r)));
    DropTwice(s.pool, multiset(ReservedOf(s, r)) + Blocks(ReleasesOf(s, r)), multiset(TableOf(s, r)));
    assert Held(s, r) == multiset(ReservedOf(s, r)) + Blocks(ReleasesOf(s, r)) + multiset(TableOf(s, r));
  }

  // ---------------------------------------------------------------- folding over a snapshot

  lemma EnumeratesStep<K>(order: seq<K>, ids: set<K>, todo: set<K>, r: K)
    requires todo <= ids && Enumerates(order, ids - todo) && r in todo
    ensures Enumerates(order + [r], ids - (todo - {r}))
  {
    var next := order + [r];
    assert forall i :: 0 <= i < |order| ==> next[i] == order[i];
    forall k | k in ids - (todo - {r}) ensures k in next {
      if k == r { assert next[|order|] == r; } else { assert k in order; }
    }
  }

  lemma {:induction false} ResetAllSnoc(s: Sched, ids: seq<RequestId>, r: RequestId)
    ensures ResetAll(s, ids + [r]) == Reset(ResetAll(s, ids), r)
    decreases |ids|
  {
    hide Reset;
    if ids == [] {
      assert (ids + [r])[1..] == [];
    } else {
      assert (ids + [r])[1..] == ids[1..] + [r];
      ResetAllSnoc(Reset(s, ids[0]), ids[1..], r);
    }
  }

  lemma {:induction false} DrainAllSnoc(s: Sched, ids: seq<RequestId>, r: RequestId)
    ensures DrainAll(s, ids + [r]) == Drain(DrainAll(s, ids), r)
    decreases |ids|
  {
    hide Drain;
    if ids == [] {
      assert (ids + [r])[1..] == [];
    } else {
      assert (ids + [r])[1..] == ids[1..] + [r];
      DrainAllSnoc(Drain(s, ids[0]), ids[1..], r);
    }
  }

  lemma {:induction false} CommitAllSnoc(s: Sched, ids: seq<RequestId>, r: RequestId, defer: nat)
    ensures CommitAll(s, ids + [r], defer) == Commit(CommitAll(s, ids, defer), r, defer)
    ensures CommitLoopRaises(s, ids + [r], defer) <==>
            CommitLoopRaises(s, ids, defer) || CommitRaises(CommitAll(s, ids, defer), r)
    decreases |ids|
  {
    hide Commit, CommitRaises;
    if ids == [] {
      assert (ids + [r])[1..] == [];
    } else {
      assert (ids + [r])[1..] == ids[1..] + [r];
      CommitAllSnoc(Commit(s, ids[0], defer), ids[1..], r, defer);
    }
  }

  lemma {:induction false} AcknowledgeAllSnoc(s: Sched, ids: seq<RequestId>, r: RequestId, plans: map<RequestId, Plan>)
    requires r in plans && forall i :: 0 <= i < |ids| ==> ids[i] in plans
    ensures AcknowledgeAll(s, ids + [r], plans) == Acknowledge(AcknowledgeAll(s, ids, plans), r, plans[r])
    decreases |ids|
  {
    hide Acknowledge;
    if ids == [] {
      assert (ids + [r])[1..] == [];
    } else {
      assert (ids + [r])[1..] == ids[1..] + [r];
      AcknowledgeAllSnoc(Acknowledge(s, ids[0], plans[ids[0]]), ids[1..], r, plans);
    }
  }

  // ---------------------------------------------------------------- the invariant along the hooks

  lemma CommitMeaning(cfg: Config, s: Sched, r: RequestId, defer: nat)
    ensures CommitRaises(s, r) ==> Commit(s, r, defer) == Discard(s, r)
    ensures cfg.Valid() && Inv(cfg, s) ==> !CommitRaises(s, r) && Inv(cfg, Commit(s, r, defer))
  {
    hide Inv;
    if cfg.Valid() && Inv(cfg, s) {
      CommitNeverRaises(cfg, s, r);
      CommitKeeps(cfg, s, r, defer);
    }
  }

  lemma FreeMeaning(cfg: Config, s: Sched, r: RequestId)
    ensures cfg.Valid() && Inv(cfg, s) && r in s.requests ==> Inv(cfg, Free(s, r)) && !Free(s, r).pool.overdrawn
  {
    hide RequestOk, Domain, Held;
    if cfg.Valid() && Inv(cfg, s) && r in s.requests { FreeKeeps(cfg, s, r); }
  }

  // ---------------------------------------------------------------- the arming loop

  /** The pool's answers, as a supply for the model's arming loop. */
  ghost function Given(given: map<RequestId, seq<BlockId>>): Supply {
    r => if r in given then given[r] else []
  }

  /** The arming loop asks the supply only about the requests it visits. */
  lemma {:induction false} ArmAllSupply(cfg: Config, s: Sched, order: seq<RequestId>, drafts: set<RequestId>, f: Supply, g: Supply)
    requires cfg.Valid() && forall i :: 0 <= i < |order| ==> f(order[i]) == g(order[i])
    ensures ArmAll(cfg, s, order, drafts, f) == ArmAll(cfg, s, order, drafts, g)
    ensures PlansOf(cfg, s, order, drafts, f) == PlansOf(cfg, s, order, drafts, g)
    ensures CanArmAll(cfg, s, order, drafts, f) <==> CanArmAll(cfg, s, order, drafts, g)
    ensures ArmingRaises(cfg, s, order, drafts, f) <==> ArmingRaises(cfg, s, order, drafts, g)
    decreases |order|
  {
    hide Arm, Attached, ArmRaises, CanArm, CeilDiv;
    if order != [] {
      ArmAllSupply(cfg, Arm(cfg, s, order[0], order[0] in drafts, f(order[0])), order[1..], drafts, f, g);
    }
  }

  lemma {:induction false} ArmAllSnoc(cfg: Config, s: Sched, ids: seq<RequestId>, r: RequestId, drafts: set<RequestId>, supply: Supply)
    requires cfg.Valid()
    ensures var t := ArmAll(cfg, s, ids, drafts, supply);
      && ArmAll(cfg, s, ids + [r], drafts, supply) == Arm(cfg, t, r, r in drafts, supply(r))
      && (CanArmAll(cfg, s, ids + [r], drafts, supply) <==>
            CanArmAll(cfg, s, ids, drafts, supply) && CanArm(cfg, t, r, r in drafts, supply(r)))
      && (ArmingRaises(cfg, s, ids + [r], drafts, supply) <==>
            ArmingRaises(cfg, s, ids, drafts, supply) || ArmRaises(cfg, t, r, r in drafts))
    decreases |ids|
  {
    hide Arm, Arms, ArmRaises, CanArm, PlanFor, CeilDiv, Config.Valid;
    if ids == [] {
      assert (ids + [r])[1..] == [];
    } else {
      assert (ids + [r])[1..] == ids[1..] + [r];
      ArmAllSnoc(cfg, Arm(cfg, s, ids[0], ids[0] in drafts, supply(ids[0])), ids[1..], r, drafts, supply);
    }
  }

  lemma {:induction false} PlansSnoc(cfg: Config, s: Sched, ids: seq<RequestId>, r: RequestId, drafts: set<RequestId>, supply: Supply)
    requires cfg.Valid()
    ensures var t := ArmAll(cfg, s, ids, drafts, supply);
      PlansOf(cfg, s, ids + [r], drafts, supply) == PlansOf(cfg, s, ids, drafts, supply) +
        Attached(cfg, t, r, r in drafts, supply(r))
    decreases |ids|
  {
    hide Arm, Attached, CeilDiv, Config.Valid;
    if ids == [] {
      assert (ids + [r])[1..] == [];
    } else {
      assert (ids + [r])[1..] == ids[1..] + [r];
      var q, next := ids[0], Arm(cfg, s, ids[0], ids[0] in drafts, supply(ids[0]));
      PlansSnoc(cfg, next, ids[1..], r, drafts, supply);
      var t := ArmAll(cfg, s, ids, drafts, supply);
      MergeThree(Attached(cfg, s, q, q in drafts, supply(q)),
                 PlansOf(cfg, next, ids[1..], drafts, supply),
                 Attached(cfg, t, r, r in drafts, supply(r)));
    }
  }

  /** The loop has visited `order[..i]` without an error, and has reached state `t`. */
  ghost predicate ArmedSoFar(cfg: Config, s: Sched, order: seq<RequestId>, i: nat, drafts: set<RequestId>,
                             given: map<RequestId, seq<BlockId>>, t: Sched, plans: map<RequestId, Plan>)
    requires cfg.Valid() && i <= |order|
  {
    && !ArmingRaises(cfg, s, order[..i], drafts, Given(given))
    && CanArmAll(cfg, s, order[..i], drafts, Given(given))
    && t == ArmAll(cfg, s, order[..i], drafts, Given(given))
    && plans == PlansOf(cfg, s, order[..i], drafts, Given(given))
  }

  lemma NothingArmed(cfg: Config, s: Sched, order: seq<RequestId>, drafts: set<RequestId>)
    requires cfg.Valid()
    ensures ArmedSoFar(cfg, s, order, 0, drafts, map[], s, map[])
  {
  }

  /** One more visited request. */
  lemma ArmedNext(cfg: Config, s: Sched, order: seq<RequestId>, i: nat, drafts: set<RequestId>,
                  earlier: map<RequestId, seq<BlockId>>, t: Sched, had: map<RequestId, Plan>,
                  blocks: seq<BlockId>, t': Sched, plans: map<RequestId, Plan>)
    requires cfg.Valid() && Distinct(order) && i < |order|
    requires ArmedSoFar(cfg, s, order, i, drafts, earlier, t, had)
    requires CanArm(cfg, t, order[i], order[i] in drafts, blocks)
    requires t' == Arm(cfg, t, order[i], order[i] in drafts, blocks)
    requires plans == had + Attached(cfg, t, order[i], order[i] in drafts, blocks)
    ensures ArmRaises(cfg, t, order[i], order[i] in drafts) ==>
      ArmingRaises(cfg, s, order, drafts, Given(earlier[order[i] := blocks]))
    ensures !ArmRaises(cfg, t, order[i], order[i] in drafts) ==>
      ArmedSoFar(cfg, s, order, i + 1, drafts, earlier[order[i] := blocks], t', plans)
  {
    hide Arm, Attached, ArmRaises, CanArm, CeilDiv;
    var r, given := order[i], earlier[order[i] := blocks];
    assert order[..i + 1] == order[..i] + [r];
    ArmAllSupply(cfg, s, order[..i], drafts, Given(earlier), Given(given));
    ArmAllSnoc(cfg, s, order[..i], r, drafts, Given(given));
    PlansSnoc(cfg, s, order[..i], r, drafts, Given(given));
    if ArmRaises(cfg, t, r, r in drafts) { ArmingPrefix(cfg, s, order, i + 1, drafts, Given(given)); }
  }

  lemma AllArmed(cfg: Config, s: Sched, order: seq<RequestId>, drafts: set<RequestId>,
                 given: map<RequestId, seq<BlockId>>, t: Sched, plans: map<RequestId, Plan>)
    requires cfg.Valid() && ArmedSoFar(cfg, s, order, |order|, drafts, given, t, plans)
    ensures !ArmingRaises(cfg, s, order, drafts, Given(given)) && CanArmAll(cfg, s, order, drafts, Given(given))
    ensures t == ArmAll(cfg, s, order, drafts, Given(given)) && plans == PlansOf(cfg, s, order, drafts, Given(given))
  {
    assert order[..|order|] == order;
  }

  /** An error met on a prefix is met by the whole loop. */
  lemma {:induction false} ArmingPrefix(cfg: Config, s: Sched, order: seq<RequestId>, i: nat, drafts: set<RequestId>, supply: Supply)
    requires cfg.Valid() && i <= |order| && ArmingRaises(cfg, s, order[..i], drafts, supply)
    ensures ArmingRaises(cfg, s, order, drafts, supply)
    decreases |order|
  {
    hide Arm, ArmRaises, CeilDiv;
    assert order[..i][1..] == order[1..][..i - 1];
    if !ArmRaises(cfg, s, order[0], order[0] in drafts) {
      ArmingPrefix(cfg, Arm(cfg, s, order[0], order[0] in drafts, supply(order[0])), order[1..], i - 1, drafts, supply);
    }
  }
}
