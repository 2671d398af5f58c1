// Which tokens a request's compacted cache stands for, and that its slots really hold them.

module KVContent {
  import opened Common
  import opened SchedulerModel
  import opened WorkerModel
  import opened Schedule
  import opened Dispatch
  import opened Protocol
  import opened ProtocolInvariant

  // ---------------------------------------------------------------- views of the token history

  function Range(start: nat, n: nat): (r: seq<nat>)
    ensures |r| == n && forall i :: 0 <= i < n ==> r[i] == start + i
  {
    seq(n, i requires 0 <= i < n => start + i)
  }

  function Pick(view: seq<nat>, keep: seq<nat>): (r: seq<nat>)
    requires forall i :: 0 <= i < |keep| ==> keep[i] < |view|
    ensures |r| == |keep| && forall i :: 0 <= i < |keep| ==> r[i] == view[keep[i]]
  {
    seq(|keep|, i requires 0 <= i < |keep| => view[keep[i]])
  }

  /** An order-preserving subsequence of the positions below `computed` that begins with the protected
      prefix and ends with the latest protected window. Without compression it is all of them; after a
      compression at `since` it has no gap from the window that was protected then. */
  ghost predicate Shape(cfg: Config, view: seq<nat>, computed: nat, since: Option<nat>) {
    && (forall i, j :: 0 <= i < j < |view| ==> view[i] < view[j])
    && (forall i :: 0 <= i < |view| ==> view[i] < computed)
    && (forall i :: 0 <= i < |view| && i < cfg.prefix ==> view[i] == i)
    && (forall i :: 0 <= i < |view| && |view| - cfg.recent <= i ==> view[i] == computed - |view| + i)
    && (since.Some? ==>
          && since.value <= computed && |view| == cfg.budget + computed - since.value
          && (forall i :: 0 <= i < |view| && i < cfg.budget ==> view[i] < since.value)
          && (forall i :: 0 <= i < |view| && cfg.budget - cfg.recent <= i ==> view[i] == since.value - cfg.budget + i))
    && (since.None? ==> view == Range(0, computed))
  }

  lemma ShapeFull(cfg: Config, computed: nat)
    ensures Shape(cfg, Range(0, computed), computed, None)
  {
  }

  lemma ExtendSorted(view: seq<nat>, computed: nat, n: nat)
    requires forall i, j :: 0 <= i < j < |view| ==> view[i] < view[j]
    requires forall i :: 0 <= i < |view| ==> view[i] < computed
    ensures var next := view + Range(computed, n);
      && (forall i, j :: 0 <= i < j < |next| ==> next[i] < next[j])
      && (forall i :: 0 <= i < |next| ==> next[i] < computed + n)
  {
  }

  /** Decoding appends the newest positions. */
  lemma ShapeExtend(cfg: Config, view: seq<nat>, computed: nat, n: nat, since: Option<nat>)
    requires cfg.Valid() && Shape(cfg, view, computed, since)
    ensures Shape(cfg, view + Range(computed, n), computed + n, since)
  {
    hide CeilDiv;
    var next := view + Range(computed, n);
    ExtendSorted(view, computed, n);
    if since.None? { assert next == Range(0, computed + n); }
    forall i | 0 <= i < |next| && |next| - cfg.recent <= i ensures next[i] == computed + n - |next| + i {
      if i < |view| { assert view[i] == computed - |view| + i; }
    }
  }

  /** Rejected drafts leave the view from its end, down to the last compression at most. */
  lemma ShapeCut(cfg: Config, view: seq<nat>, computed: nat, n: nat, since: Option<nat>)
    requires cfg.Valid() && Shape(cfg, view, computed, since)
    requires n <= computed && (since.Some? ==> since.value <= computed - n)
    ensures n <= |view| && Shape(cfg, view[..|view| - n], computed - n, since)
  {
    if since.None? {
      assert view[..|view| - n] == Range(0, computed - n);
    } else {
      hide Config.Valid, CeilDiv;
      var next := view[..|view| - n];
      CutSorted(view, |view| - n);
      assert computed - n - |next| == since.value - cfg.budget;
      forall i | 0 <= i < |next| && |next| - cfg.recent <= i ensures next[i] == computed - n - |next| + i {
        assert next[i] == view[i] && cfg.budget - cfg.recent <= i;
      }
      forall i | 0 <= i < |next| ensures next[i] < computed - n { CutBelow(cfg, view, computed, n, since.value, i); }
    }
  }

  lemma CutSorted(view: seq<nat>, n: nat)
    requires n <= |view| && forall i, j :: 0 <= i < j < |view| ==> view[i] < view[j]
    ensures forall i, j :: 0 <= i < j < n ==> view[..n][i] < view[..n][j]
  {
  }

  lemma CutBelow(cfg: Config, view: seq<nat>, computed: nat, n: nat, since: nat, i: nat)
    requires cfg.Valid() && Shape(cfg, view, computed, Some(since)) && n <= computed && since <= computed - n && i < |view| - n
    ensures view[i] < computed - n
  {
  }

  /** Compressing keeps a good subsequence of a good subsequence. */
  lemma ShapePick(cfg: Config, view: seq<nat>, computed: nat, since: Option<nat>, keep: seq<nat>)
    requires cfg.Valid() && Shape(cfg, view, computed, since)
    requires GoodKeep(keep, |view|, cfg.budget, cfg.prefix, cfg.recent)
    ensures Shape(cfg, Pick(view, keep), computed, Some(computed))
  {
    var next := Pick(view, keep);
    forall i, j | 0 <= i < j < |next| ensures next[i] < next[j] {
      assert keep[i] < keep[j];
    }
    forall i | 0 <= i < |next| && |next| - cfg.recent <= i ensures next[i] == computed - |next| + i {
      assert keep[i] == |view| - cfg.budget + i;
    }
  }

  // ---------------------------------------------------------------- stored views

  /** The table a request will use at its next step: a waiting compression already counts. */
  function CommittedTable(s: Sched, r: RequestId): seq<BlockId> {
    if r in s.pending then s.pending[r].reserved else TableOf(s, r)
  }

  function CommittedAnchor(s: Sched, r: RequestId): Option<Anchor> {
    if r in s.pending then Some(Anchor(s.pending[r].plan.semantic, s.pending[r].plan.physical)) else Get(s.active, r)
  }

  function Since(anchor: Option<Anchor>): Option<nat> {
    if anchor.Some? then Some(anchor.value.semantic) else None
  }

  /** Physical token `i` of the table holds the cell of the `i`-th position of the view. */
  ghost predicate Stored(mem: Memory, table: seq<BlockId>, bs: nat, info: Info, view: seq<nat>)
    requires bs > 0
  {
    forall i: nat :: i < |view| ==> i / bs < |table| && Read(mem, At(table, bs, i)) == Tag(info, view[i])
  }

  ghost predicate ViewAt(cfg: Config, mem: Memory, table: seq<BlockId>, info: Info,
                         anchor: Option<Anchor>, computed: nat, view: seq<nat>)
    requires cfg.Valid()
  {
    && Shape(cfg, view, computed, Since(anchor))
    && |view| == PhysicalTokens(computed, anchor)
    && Stored(mem, table, cfg.blockSize, info, view)
  }

  ghost predicate ViewOk(cfg: Config, s: Sched, mem: Memory, r: RequestId, views: map<RequestId, seq<nat>>)
    requires cfg.Valid()
  {
    && r in s.requests && r in views
    && ViewAt(cfg, mem, CommittedTable(s, r), s.requests[r].info, CommittedAnchor(s, r), s.requests[r].computed, views[r])
  }

  /** What a prefix hash promises about a block is what the block holds. */
  ghost predicate Promised(cfg: Config, hashed: set<BlockId>, mem: Memory, promise: map<BlockId, seq<Cell>>) {
    forall b :: b in hashed ==>
      b in promise && |promise[b]| == cfg.blockSize && forall o: nat :: o < cfg.blockSize ==> Read(mem, (b, o)) == promise[b][o]
  }

  // ---------------------------------------------------------------- the annotated system

  /** The protocol with two history maps: the view of every request, and what each hash promises. */
  datatype KV = KV(sys: System, views: map<RequestId, seq<nat>>, promise: map<BlockId, seq<Cell>>)

  /** The host's prefix lookup returns blocks hashed for exactly this token prefix. */
  predicate HitsMatch(cfg: Config, promise: map<BlockId, seq<Cell>>, info: Info, hits: seq<BlockId>) {
    forall i :: 0 <= i < |hits| ==> hits[i] in promise && promise[hits[i]] == Tags(info, i * cfg.blockSize, cfg.blockSize)
  }

  predicate AllMatch(cfg: Config, promise: map<BlockId, seq<Cell>>, b: Build, ops: seq<HostOp>)
    requires AllEnabled(cfg, b, ops)
    decreases |ops|
  {
    ops == [] ||
    (&& (ops[0].HAdmit? ==> ops[0].r in b.s.requests && HitsMatch(cfg, promise, b.s.requests[ops[0].r].info, ops[0].hits))
     && AllMatch(cfg, promise, Operate(cfg, b, ops[0]), ops[1..]))
  }

  /** Registering the first `count` blocks of a table. */
  function Register(cfg: Config, promise: map<BlockId, seq<Cell>>, table: seq<BlockId>, info: Info, count: nat): map<BlockId, seq<Cell>>
    requires count <= |table|
    decreases count
  {
    if count == 0 then promise
    else Register(cfg, promise, table, info, count - 1)[table[count - 1] := Tags(info, (count - 1) * cfg.blockSize, cfg.blockSize)]
  }

  function RegisterOne(cfg: Config, promise: map<BlockId, seq<Cell>>, s: Sched, r: RequestId, count: nat): map<BlockId, seq<Cell>> {
    if r in s.active || r !in s.tables || count > |s.tables[r]| || r !in s.requests then promise
    else Register(cfg, promise, s.tables[r], s.requests[r].info, count)
  }

  function RegisterAll(cfg: Config, promise: map<BlockId, seq<Cell>>, s: Sched, caches: seq<(RequestId, nat)>): map<BlockId, seq<Cell>>
    decreases |caches|
  {
    if caches == [] then promise
    else RegisterAll(cfg, RegisterOne(cfg, promise, s, caches[0].0, caches[0].1), CacheBlocks(s, caches[0].0, caches[0].1), caches[1..])
  }

  /** The view before this step's tokens, and with them. */
  function Prior(views: map<RequestId, seq<nat>>, entries: map<RequestId, Entry>, r: RequestId): seq<nat> {
    if r in entries && entries[r].full then Range(0, entries[r].computed)
    else if r in views then views[r] else []
  }

  function Base(views: map<RequestId, seq<nat>>, entries: map<RequestId, Entry>, r: RequestId): seq<nat> {
    Prior(views, entries, r) + if r in entries then Range(entries[r].computed, entries[r].count) else []
  }

  /** The worker right after the forward pass of an output. */
  function AfterForward(cfg: Config, w: Worker, out: Output): Worker
    requires cfg.Valid()
  {
    var u := Update(w, out);
    u.(mem := Forward(cfg, u, out.order, out.entries))
  }

  function KeptBy(cfg: Config, select: Selector, w: Worker, out: Output, r: RequestId): seq<nat>
    requires cfg.Valid()
  {
    var v := AfterForward(cfg, w, out);
    if r in v.requests && r in out.entries then KeptIndices(cfg, select, v, out, r) else []
  }

  function NewView(cfg: Config, select: Selector, w: Worker, out: Output, views: map<RequestId, seq<nat>>, r: RequestId): seq<nat>
    requires cfg.Valid()
  {
    var base, keep := Base(views, out.entries, r), KeptBy(cfg, select, w, out, r);
    if r in out.plans && forall i :: 0 <= i < |keep| ==> keep[i] < |base| then Pick(base, keep) else base
  }

  ghost predicate NextKV(cfg: Config, select: Selector, k: KV, e: Event, k': KV)
    requires cfg.Valid()
  {
    && k.sys.executed <= |k.sys.flight|
    && Next(cfg, select, k.sys, e, k'.sys)
    && match e
       case EFinish(r) => k'.views == k.views - {r} && k'.promise == k.promise
       case EPreempt(r) => k'.views == k.views - {r} && k'.promise == k.promise
       case ERollback(r, n) =>
         && k'.promise == k.promise
         && k'.views == if r in k.views && n <= |k.views[r]| then k.views[r := k.views[r][..|k.views[r]| - n]] else k.views
       case ESchedule(p) =>
         var t := BeforeSchedule(cfg, k.sys.s, p.finished, p.waiting);
         var ops := OperateAll(cfg, Build(t, Opening(t)), p.ops);
         var b := Scheduled(cfg, k.sys.s, p);
         && AllMatch(cfg, k.promise, Build(t, Opening(t)), p.ops)
         && k'.promise == RegisterAll(cfg, k.promise, ops.s, p.caches)
         && k'.views == map r | r in b.s.tables :: NewView(cfg, select, Logical(cfg, select, k.sys), b.out, k.views, r)
       case _ => k'.views == k.views && k'.promise == k.promise
  }

  ghost predicate KVInv(cfg: Config, select: Selector, k: KV)
    requires cfg.Valid()
  {
    && SystemInv(cfg, select, k.sys)
    && var s, mem := k.sys.s, Logical(cfg, select, k.sys).mem;
    && (forall r :: r in s.tables ==> ViewOk(cfg, s, mem, r, k.views))
    && Promised(cfg, s.pool.hashed, mem, k.promise)
  }
}
