// The scheduler's transaction state as a value, and what each operation does to it.
// `SchedulerState.dfy` implements these operations with mutable dictionaries.

module SchedulerModel {
  import opened Common

  type RequestId = string
  type BlockId = nat
  type Token = int

  /** The eligible step that keeps a request out of every batch (1 << 62). */
  const FROZEN: int := 0x4000_0000_0000_0000

  datatype Config = Config(
    threshold: nat, budget: nat, minOutput: nat, blockSize: nat,
    asynchronous: bool, maxBatches: nat, speculative: bool,
    prefix: nat, recent: nat)
  {
    /** What configuration checks guarantee before any of this code runs. */
    predicate Valid() {
      && 0 < budget < threshold
      && 0 < blockSize && budget % blockSize == 0
      && 0 < maxBatches
      && prefix + recent <= budget
    }

    /** Blocks reserved for one compacted request. */
    function Keep(): (k: nat)
      requires Valid()
      ensures k * blockSize == budget
    {
      CeilDivExact(budget, blockSize);
      CeilDiv(budget, blockSize)
    }

    /** How many outputs an asynchronous commit waits before releasing source blocks. */
    function Defer(): nat {
      if asynchronous && maxBatches > 0 then maxBatches - 1 else 0
    }
  }

  lemma CeilDivExact(n: nat, d: nat)
    requires d > 0 && n % d == 0
    ensures CeilDiv(n, d) * d == n
  {
    CeilDivLeast(n, d, n / d);
    assert n == (n / d) * d;
  }

  datatype Plan = Plan(semantic: nat, physical: nat, source: seq<BlockId>, destination: seq<BlockId>)

  datatype Anchor = Anchor(semantic: nat, physical: nat) {
    function Removed(): int { semantic - physical }
  }

  datatype Pending = Pending(plan: Plan, reserved: seq<BlockId>, ready: bool, previous: Option<int>)

  /** `stamp` is history: how many outputs had been issued when the release was created. */
  datatype Release = Release(blocks: seq<BlockId>, remaining: int, stamp: nat)

  /** What never changes about a request; `tokens` is its whole eventual token sequence. */
  datatype Info = Info(prompt: nat, maxTokens: nat, tokens: seq<Token>)

  datatype Request = Request(info: Info, computed: nat, eligible: int)

  /** The host's block pool: reference counts, and the blocks registered under a prefix hash. `overdrawn` is
      history: some block was once freed more often than it was referenced. */
  datatype Pool = Pool(universe: set<BlockId>, refs: multiset<BlockId>, hashed: set<BlockId>, overdrawn: bool) {
    function Unreferenced(): set<BlockId> {
      set b | b in universe && refs[b] == 0
    }

    predicate CanTake(bs: seq<BlockId>) {
      Distinct(bs) && forall i :: 0 <= i < |bs| ==> bs[i] in universe && refs[bs[i]] == 0
    }

    /** Handing out a block also evicts any prefix hash it still carried. */
    function Take(bs: seq<BlockId>): Pool {
      this.(refs := refs + multiset(bs), hashed := hashed - set b | b in bs)
    }

    function Touch(bs: seq<BlockId>): Pool {
      this.(refs := refs + multiset(bs))
    }

    /** Freeing gives one reference back per occurrence, and does not check that the reference exists. */
    function Drop(bs: multiset<BlockId>): Pool {
      this.(refs := refs - bs, overdrawn := overdrawn || !(bs <= refs))
    }

    /** One holder, and invisible to prefix lookups. */
    predicate Private(b: BlockId) {
      refs[b] == 1 && b !in hashed
    }
  }

  datatype Sched = Sched(
    requests: map<RequestId, Request>,
    tables: map<RequestId, seq<BlockId>>,
    cached: map<RequestId, nat>,
    pending: map<RequestId, Pending>,
    active: map<RequestId, Anchor>,
    deferred: map<RequestId, seq<Release>>,
    finished: set<RequestId>,
    preempted: set<RequestId>,
    issued: nat,
    pool: Pool)

  // ---------------------------------------------------------------- derived views

  function TableOf(s: Sched, r: RequestId): seq<BlockId> {
    if r in s.tables then s.tables[r] else []
  }

  function ReservedOf(s: Sched, r: RequestId): seq<BlockId> {
    if r in s.pending then s.pending[r].reserved else []
  }

  function ReleasesOf(s: Sched, r: RequestId): seq<Release> {
    if r in s.deferred then s.deferred[r] else []
  }

  function Blocks(rs: seq<Release>): multiset<BlockId> {
    if rs == [] then multiset{} else multiset(rs[0].blocks) + Blocks(rs[1..])
  }

  /** Every block reference the request owns, with multiplicity. */
  function Held(s: Sched, r: RequestId): multiset<BlockId> {
    multiset(TableOf(s, r)) + multiset(ReservedOf(s, r)) + Blocks(ReleasesOf(s, r))
  }

  ghost function Holdings(s: Sched): map<RequestId, multiset<BlockId>> {
    map r | r in s.requests :: Held(s, r)
  }

  function Removed(active: Option<Anchor>): int {
    if active.Some? then active.value.Removed() else 0
  }

  /** `_physical_tokens`: the attention group's length for a semantic length. */
  function PhysicalTokens(semantic: nat, active: Option<Anchor>): nat {
    var n := semantic - Removed(active);
    if n < 0 then 0 else n
  }

  /** Tokens of the request that occupy slots of its current table. */
  function Physical(s: Sched, r: RequestId): nat
    requires r in s.requests
  {
    PhysicalTokens(s.requests[r].computed, Get(s.active, r))
  }

  // ---------------------------------------------------------------- plugin operations

  function Thaw(s: Sched, r: RequestId, previous: Option<int>): map<RequestId, Request> {
    if r in s.requests && previous.Some?
    then s.requests[r := s.requests[r].(eligible := previous.value)]
    else s.requests
  }

  /** `_discard_pending`. */
  function Discard(s: Sched, r: RequestId): Sched {
    if r !in s.pending then s
    else s.(pending := s.pending - {r},
            pool := s.pool.Drop(multiset(s.pending[r].reserved)),
            requests := Thaw(s, r, s.pending[r].previous))
  }

  function Reset(s: Sched, r: RequestId): Sched {
    var d := Discard(s, r);
    d.(active := d.active - {r})
  }

  predicate CommitRaises(s: Sched, r: RequestId) {
    && r in s.pending && s.pending[r].ready
    && r in s.requests && r in s.tables
    && s.tables[r] != s.pending[r].plan.source
  }

  /** One iteration of `_commit_pending`. */
  function Commit(s: Sched, r: RequestId, defer: nat): Sched {
    if r !in s.pending || !s.pending[r].ready then s
    else if r !in s.requests || r !in s.tables || CommitRaises(s, r) then Discard(s, r)
    else
      var p := s.pending[r];
      var released := s.tables[r];
      s.(tables := s.tables[r := p.reserved],
         deferred := if defer > 0
                     then s.deferred[r := ReleasesOf(s, r) + [Release(released, defer, s.issued)]]
                     else s.deferred,
         pool := if defer > 0 then s.pool else s.pool.Drop(multiset(released)),
         cached := s.cached[r := 0],
         active := s.active[r := Anchor(p.plan.semantic, p.plan.physical)],
         requests := Thaw(s, r, p.previous),
         pending := s.pending - {r})
  }

  function Retained(rs: seq<Release>): seq<Release> {
    if rs == [] then []
    else
      var aged := rs[0].(remaining := rs[0].remaining - 1);
      (if aged.remaining <= 0 then [] else [aged]) + Retained(rs[1..])
  }

  function Expired(rs: seq<Release>): multiset<BlockId> {
    if rs == [] then multiset{}
    else (if rs[0].remaining - 1 <= 0 then multiset(rs[0].blocks) else multiset{}) + Expired(rs[1..])
  }

  /** One iteration of `_drain_deferred_releases`. */
  function Drain(s: Sched, r: RequestId): Sched {
    if r !in s.deferred then s
    else
      var kept := Retained(s.deferred[r]);
      s.(deferred := if kept == [] then s.deferred - {r} else s.deferred[r := kept],
         pool := s.pool.Drop(Expired(s.deferred[r])))
  }

  /** One iteration of the acknowledgement loop in `after_output`. */
  function Acknowledge(s: Sched, r: RequestId, plan: Plan): Sched {
    if r in s.pending && s.pending[r].plan == plan
    then s.(pending := s.pending[r := s.pending[r].(ready := true)])
    else s
  }

  /** The guards of `after_schedule` that decide whether a scheduled request is compressed. */
  predicate Eligible(cfg: Config, s: Sched, r: RequestId, drafts: bool) {
    && !drafts
    && r !in s.pending
    && r in s.requests
    && s.requests[r].info.maxTokens >= cfg.minOutput
    && (r !in s.active ==> s.requests[r].computed == s.requests[r].info.prompt)
    && PhysicalAt(s, r, s.requests[r].computed) >= cfg.threshold
    && !(cfg.speculative && r in s.active)
  }

  function PhysicalAt(s: Sched, r: RequestId, semantic: nat): int {
    if r in s.active then s.active[r].physical + semantic - s.active[r].semantic else semantic
  }

  predicate ArmRaises(cfg: Config, s: Sched, r: RequestId, drafts: bool)
    requires cfg.Valid()
  {
    Eligible(cfg, s, r, drafts) && |TableOf(s, r)| < cfg.Keep()
  }

  /** Whether `after_schedule` asks the pool for a private destination. */
  predicate Arms(cfg: Config, s: Sched, r: RequestId, drafts: bool)
    requires cfg.Valid()
  {
    && Eligible(cfg, s, r, drafts)
    && |TableOf(s, r)| >= cfg.Keep()
    && |s.pool.Unreferenced()| >= cfg.Keep()
  }

  function PlanFor(cfg: Config, s: Sched, r: RequestId, dst: seq<BlockId>): Plan
    requires r in s.requests
  {
    Plan(s.requests[r].computed, cfg.budget, TableOf(s, r), dst)
  }

  /** One iteration of the arming loop; `dst` is what the pool hands out when it is asked. */
  function Arm(cfg: Config, s: Sched, r: RequestId, drafts: bool, dst: seq<BlockId>): Sched
    requires cfg.Valid()
  {
    if !Arms(cfg, s, r, drafts) then s
    else
      var previous := if cfg.asynchronous then Some(s.requests[r].eligible) else None;
      s.(pool := s.pool.Take(dst),
         requests := if cfg.asynchronous
                     then s.requests[r := s.requests[r].(eligible := FROZEN)] else s.requests,
         pending := s.pending[r := Pending(PlanFor(cfg, s, r, dst), dst, false, previous)])
  }

  /** The `free` wrapper: plugin state first, then the host frees the request's table. */
  function Free(s: Sched, r: RequestId): Sched {
    s.(active := s.active - {r},
       pending := s.pending - {r},
       deferred := s.deferred - {r},
       tables := s.tables - {r},
       cached := s.cached - {r},
       requests := Thaw(s, r, if r in s.pending then s.pending[r].previous else None),
       pool := s.pool.Drop(Held(s, r)))
  }

  function Front(table: seq<BlockId>, count: nat): set<BlockId>
    requires count <= |table|
  {
    set i | 0 <= i < count :: table[i]
  }

  /** The `cache_blocks` hook: the host registers full blocks unless the request is compressed. */
  function CacheBlocks(s: Sched, r: RequestId, count: nat): Sched {
    if r in s.active || r !in s.tables || count > |s.tables[r]| then s
    else s.(pool := s.pool.(hashed := s.pool.hashed + Front(s.tables[r], count)),
            cached := s.cached[r := count])
  }

  // ---------------------------------------------------------------- whole hooks

  function ResetAll(s: Sched, ids: seq<RequestId>): Sched
    decreases |ids|
  {
    if ids == [] then s else ResetAll(Reset(s, ids[0]), ids[1..])
  }

  function CommitAll(s: Sched, ids: seq<RequestId>, defer: nat): Sched
    decreases |ids|
  {
    if ids == [] then s else CommitAll(Commit(s, ids[0], defer), ids[1..], defer)
  }

  function DrainAll(s: Sched, ids: seq<RequestId>): Sched
    decreases |ids|
  {
    if ids == [] then s else DrainAll(Drain(s, ids[0]), ids[1..])
  }

  function AcknowledgeAll(s: Sched, ids: seq<RequestId>, plans: map<RequestId, Plan>): Sched
    requires forall i :: 0 <= i < |ids| ==> ids[i] in plans
    decreases |ids|
  {
    if ids == [] then s else AcknowledgeAll(Acknowledge(s, ids[0], plans[ids[0]]), ids[1..], plans)
  }

  /** `before_schedule`. */
  function BeforeSchedule(cfg: Config, s: Sched, finished: seq<RequestId>, waiting: seq<RequestId>): Sched {
    var t := ResetAll(s, finished);
    if cfg.asynchronous then t else CommitAll(t, waiting, 0)
  }

  /** `after_output`: acknowledge, then in asynchronous mode drain and commit. */
  function AfterOutput(cfg: Config, s: Sched, plans: map<RequestId, Plan>, acks: seq<RequestId>,
                       draining: seq<RequestId>, waiting: seq<RequestId>): Sched
    requires forall i :: 0 <= i < |acks| ==> acks[i] in plans
  {
    var t := AcknowledgeAll(s, acks, plans);
    if cfg.asynchronous then CommitAll(DrainAll(t, draining), waiting, cfg.Defer()) else t
  }

  /** What the pool would hand to each request if it is armed. */
  type Supply = RequestId -> seq<BlockId>

  function ArmAll(cfg: Config, s: Sched, order: seq<RequestId>, drafts: set<RequestId>, supply: Supply): Sched
    requires cfg.Valid()
    decreases |order|
  {
    if order == [] then s
    else ArmAll(cfg, Arm(cfg, s, order[0], order[0] in drafts, supply(order[0])), order[1..], drafts, supply)
  }

  /** The plan that one iteration attaches to the output, if any. */
  function Attached(cfg: Config, s: Sched, r: RequestId, drafts: bool, dst: seq<BlockId>): map<RequestId, Plan>
    requires cfg.Valid()
  {
    if Arms(cfg, s, r, drafts) then map[r := PlanFor(cfg, s, r, dst)] else map[]
  }

  /** The plans that the arming loop attaches to the output. */
  function PlansOf(cfg: Config, s: Sched, order: seq<RequestId>, drafts: set<RequestId>, supply: Supply): map<RequestId, Plan>
    requires cfg.Valid()
    decreases |order|
  {
    if order == [] then map[]
    else
      var r := order[0];
      Attached(cfg, s, r, r in drafts, supply(r)) + PlansOf(cfg, Arm(cfg, s, r, r in drafts, supply(r)), order[1..], drafts, supply)
  }

  /** The pool's promise along the arming loop. */
  predicate CanArm(cfg: Config, s: Sched, r: RequestId, drafts: bool, dst: seq<BlockId>)
    requires cfg.Valid()
  {
    Arms(cfg, s, r, drafts) ==> |dst| == cfg.Keep() && s.pool.CanTake(dst)
  }

  predicate CanArmAll(cfg: Config, s: Sched, order: seq<RequestId>, drafts: set<RequestId>, supply: Supply)
    requires cfg.Valid()
    decreases |order|
  {
    order == [] ||
    (&& CanArm(cfg, s, order[0], order[0] in drafts, supply(order[0]))
     && CanArmAll(cfg, Arm(cfg, s, order[0], order[0] in drafts, supply(order[0])), order[1..], drafts, supply))
  }

  // ---------------------------------------------------------------- host operations

  function Preempt(s: Sched, r: RequestId): Sched {
    var f := Free(s, r);
    f.(requests := if r in f.requests then f.requests[r := f.requests[r].(computed := 0)] else f.requests,
       preempted := s.preempted + {r})
  }

  function Finish(s: Sched, r: RequestId): Sched {
    var f := Free(s, r);
    f.(requests := f.requests - {r}, finished := s.finished + {r})
  }

  function Add(s: Sched, r: RequestId, info: Info, eligible: int): Sched {
    s.(requests := s.requests[r := Request(info, 0, eligible)])
  }

  function Advance(s: Sched, r: RequestId, computed: nat): map<RequestId, Request> {
    if r in s.requests then s.requests[r := s.requests[r].(computed := computed)] else s.requests
  }

  /** The host schedules `n` more tokens of a running request and appends blocks to its table. */
  function Grow(s: Sched, r: RequestId, added: seq<BlockId>, n: nat): Sched {
    s.(tables := s.tables[r := TableOf(s, r) + added],
       pool := s.pool.Take(added),
       requests := Advance(s, r, (if r in s.requests then s.requests[r].computed else 0) + n))
  }

  /** The host admits a waiting request: prefix hits first, then added blocks. */
  function Admit(cfg: Config, s: Sched, r: RequestId, hits: seq<BlockId>, added: seq<BlockId>, n: nat): Sched {
    s.(tables := s.tables[r := hits + added],
       pool := s.pool.Touch(hits).Take(added),
       requests := Advance(s, r, |hits| * cfg.blockSize + n))
  }

  /** The host never schedules a request whose eligible step is out of reach. */
  predicate Schedulable(cfg: Config, s: Sched, r: RequestId) {
    r in s.requests && (cfg.asynchronous ==> s.requests[r].eligible < FROZEN)
  }

  predicate CanGrow(cfg: Config, s: Sched, r: RequestId, added: seq<BlockId>, n: nat) {
    && Schedulable(cfg, s, r) && r in s.tables && n > 0
    && s.pool.CanTake(added)
    && s.requests[r].computed + n <= |s.requests[r].info.tokens|
    && PhysicalTokens(s.requests[r].computed + n, Get(s.active, r)) <= (|s.tables[r]| + |added|) * cfg.blockSize
  }

  predicate CanAdmit(cfg: Config, s: Sched, r: RequestId, hits: seq<BlockId>, added: seq<BlockId>, n: nat) {
    && Schedulable(cfg, s, r) && r !in s.tables && n > 0
    && (forall i :: 0 <= i < |hits| ==> hits[i] in s.pool.hashed)
    && s.pool.Touch(hits).CanTake(added)
    && |hits| * cfg.blockSize + n <= |s.requests[r].info.tokens|
    && |hits| * cfg.blockSize + n <= (|hits| + |added|) * cfg.blockSize
  }

  /** The host takes back tokens that were computed for rejected drafts. */
  function Rollback(s: Sched, r: RequestId, n: nat): Sched
    requires r in s.requests && n <= s.requests[r].computed
  {
    s.(requests := Advance(s, r, s.requests[r].computed - n))
  }

  /** Drafts follow the prompt and the last compression, are not in flight while a compression waits, and are
      neither hashed nor shared: the blocks they were stored in are the request's own. */
  predicate CanRollback(cfg: Config, s: Sched, r: RequestId, n: nat) {
    && r in s.requests && r in s.tables && r !in s.pending && n <= s.requests[r].computed
    && (r in s.active ==> s.active[r].semantic <= s.requests[r].computed - n)
    && forall j :: 0 <= j < |s.tables[r]| && s.requests[r].computed - n < (j + 1) * cfg.blockSize ==> s.pool.Private(s.tables[r][j])
  }

  /** The host only registers blocks that are full of computed tokens. */
  predicate CanCache(cfg: Config, s: Sched, r: RequestId, count: nat) {
    && r in s.requests && r in s.tables && r !in s.pending
    && count <= |s.tables[r]| && count * cfg.blockSize <= s.requests[r].computed
  }
}
