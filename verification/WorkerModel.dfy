// The worker's view of the same transactions: what one scheduler output does to it.

module WorkerModel {
  import opened Common
  import opened SchedulerModel

  /** One KV slot of the attention group, as (logical block, offset inside it). */
  type Loc = (BlockId, nat)

  /** A slot's content, named by the token prefix whose last token it was computed for. */
  type Cell = seq<Token>

  type Memory = map<Loc, Cell>

  /** The selection method: which of a request's physical tokens to keep. */
  type Selector = seq<Cell> -> seq<nat>

  /** `full` entries carry a whole block table (new and resumed requests); others append. */
  datatype Entry = Entry(full: bool, resumed: bool, blocks: seq<BlockId>, computed: nat, count: nat, info: Info)

  datatype Output = Output(
    finished: set<RequestId>, preempted: set<RequestId>,
    order: seq<RequestId>, entries: map<RequestId, Entry>, plans: map<RequestId, Plan>)

  datatype WRequest = WRequest(table: seq<BlockId>, computed: nat, info: Info)

  datatype WPending = WPending(semantic: nat, physical: nat, blocks: seq<BlockId>)

  datatype Worker = Worker(
    requests: map<RequestId, WRequest>,
    pending: map<RequestId, WPending>,
    active: map<RequestId, Anchor>,
    mem: Memory)

  // ---------------------------------------------------------------- state update

  predicate IsReset(out: Output, r: RequestId) {
    || r in out.finished || r in out.preempted
    || (r in out.entries && out.entries[r].resumed)
  }

  /** `before_update_states`: drop reset requests, then switch tables that wait for their next step. */
  function BeforeUpdate(w: Worker, out: Output): Worker {
    var kept := map r | r in w.pending && !IsReset(out, r) :: w.pending[r];
    var live := map r | r in w.active && !IsReset(out, r) :: w.active[r];
    var switched := map r | r in kept && r in out.entries && r in w.requests :: Anchor(kept[r].semantic, kept[r].physical);
    Worker(
      map r | r in w.requests :: if r in switched then w.requests[r].(table := kept[r].blocks) else w.requests[r],
      map r | r in kept && r !in out.entries :: kept[r],
      live + switched,
      w.mem)
  }

  /** The host's own update: finished requests go, scheduled ones get their blocks and lengths. */
  function HostUpdate(w: Worker, out: Output): Worker {
    var stay := map r | r in w.requests && r !in out.finished :: w.requests[r];
    w.(requests := stay + map r | r in out.entries ::
         var e := out.entries[r];
         WRequest(if e.full || r !in stay then e.blocks else stay[r].table + e.blocks, e.computed, e.info))
  }

  /** `after_update_states`: forget transactions of requests the runner no longer knows. */
  function AfterUpdate(w: Worker): Worker {
    w.(pending := map r | r in w.pending && r in w.requests :: w.pending[r],
       active := map r | r in w.active && r in w.requests :: w.active[r])
  }

  function Update(w: Worker, out: Output): Worker {
    AfterUpdate(HostUpdate(BeforeUpdate(w, out), out))
  }

  // ---------------------------------------------------------------- memory

  function Read(mem: Memory, at: Loc): Cell {
    if at in mem then mem[at] else []
  }

  /** The slot of physical token `i` under a block table. */
  function At(table: seq<BlockId>, blockSize: nat, i: nat): Loc
    requires blockSize > 0 && i / blockSize < |table|
  {
    (table[i / blockSize], i % blockSize)
  }

  function Gather(mem: Memory, table: seq<BlockId>, blockSize: nat, n: nat): (cells: seq<Cell>)
    requires blockSize > 0 && n <= |table| * blockSize
    ensures |cells| == n
  {
    seq(n, i requires 0 <= i < n => DivBelow(i, blockSize, |table|); Read(mem, At(table, blockSize, i)))
  }

  /** Store consecutive physical tokens; positions past the table are not stored. */
  function Write(mem: Memory, table: seq<BlockId>, blockSize: nat, start: nat, cells: seq<Cell>): Memory
    requires blockSize > 0
    decreases |cells|
  {
    if cells == [] then mem
    else
      var next := if start / blockSize < |table| then mem[At(table, blockSize, start) := cells[0]] else mem;
      Write(next, table, blockSize, start + 1, cells[1..])
  }

  function Tag(info: Info, p: nat): Cell {
    if p < |info.tokens| then info.tokens[..p + 1] else []
  }

  function Tags(info: Info, start: nat, n: nat): (cells: seq<Cell>)
    ensures |cells| == n
  {
    seq(n, i requires 0 <= i < n => Tag(info, start + i))
  }

  /** The forward pass stores each scheduled token at its position minus the request's offset. */
  function Forward(cfg: Config, w: Worker, order: seq<RequestId>, entries: map<RequestId, Entry>): Memory
    requires cfg.Valid()
    decreases |order|
  {
    if order == [] then w.mem
    else
      var r := order[0];
      var mem := if r in w.requests && r in entries
        then Write(w.mem, w.requests[r].table, cfg.blockSize,
                   PhysicalTokens(entries[r].computed, Get(w.active, r)),
                   Tags(w.requests[r].info, entries[r].computed, entries[r].count))
        else w.mem;
      Forward(cfg, w.(mem := mem), order[1..], entries)
  }

  // ---------------------------------------------------------------- compression

  function Semantic(w: Worker, out: Output, r: RequestId): nat
    requires r in w.requests && r in out.entries
  {
    w.requests[r].computed + out.entries[r].count
  }

  function PhysicalOf(w: Worker, out: Output, r: RequestId): int
    requires r in w.requests && r in out.entries
  {
    var semantic := Semantic(w, out, r);
    if r in w.active then w.active[r].physical + semantic - w.active[r].semantic else semantic
  }

  /** The guards that pass silently over a plan. */
  predicate Ignores(cfg: Config, w: Worker, out: Output, r: RequestId) {
    || r !in out.plans || r !in out.entries
    || r in w.pending
    || r !in w.requests
    || w.requests[r].info.maxTokens < cfg.minOutput
    || (r !in w.active && Semantic(w, out, r) != w.requests[r].info.prompt)
    || (Semantic(w, out, r) == out.plans[r].semantic && PhysicalOf(w, out, r) < cfg.threshold)
  }

  /** The disagreements that stop the worker. */
  predicate CompressRaises(cfg: Config, select: Selector, w: Worker, out: Output, r: RequestId)
    requires cfg.Valid()
  {
    && !Ignores(cfg, w, out, r)
    && var source, plan := w.requests[r].table, out.plans[r];
    (|| Semantic(w, out, r) != plan.semantic
     || |source| < cfg.Keep()
     || source != plan.source
     || |plan.destination| != cfg.Keep()
     || (exists b :: b in plan.destination && b in source)
     || PhysicalOf(w, out, r) > |source| * cfg.blockSize
     || |KeptIndices(cfg, select, w, out, r)| != cfg.budget
     || exists i :: 0 <= i < cfg.budget && KeptIndices(cfg, select, w, out, r)[i] >= PhysicalOf(w, out, r))
  }

  function KeptIndices(cfg: Config, select: Selector, w: Worker, out: Output, r: RequestId): seq<nat>
    requires cfg.Valid() && r in w.requests && r in out.entries
  {
    var n := PhysicalOf(w, out, r);
    if 0 <= n <= |w.requests[r].table| * cfg.blockSize
    then select(Gather(w.mem, w.requests[r].table, cfg.blockSize, n)) else []
  }

  function Picked(cells: seq<Cell>, keep: seq<nat>): (r: seq<Cell>)
    requires forall j :: 0 <= j < |keep| ==> keep[j] < |cells|
    ensures |r| == |keep| && forall j :: 0 <= j < |keep| ==> r[j] == cells[keep[j]]
  {
    seq(|keep|, j requires 0 <= j < |keep| => cells[keep[j]])
  }

  /** Gather the kept cells, then write them densely into the destination. */
  function Materialize(mem: Memory, source: seq<BlockId>, destination: seq<BlockId>, blockSize: nat, n: nat, keep: seq<nat>): Memory
    requires blockSize > 0 && n <= |source| * blockSize
    requires forall i :: 0 <= i < |keep| ==> keep[i] < n
  {
    Write(mem, destination, blockSize, 0, Picked(Gather(mem, source, blockSize, n), keep))
  }

  /** One iteration of `compress_scheduled_requests`. */
  function CompressOne(cfg: Config, select: Selector, w: Worker, out: Output, r: RequestId): Worker
    requires cfg.Valid()
  {
    if Ignores(cfg, w, out, r) || CompressRaises(cfg, select, w, out, r) then w
    else
      var plan := out.plans[r];
      var keep := KeptIndices(cfg, select, w, out, r);
      w.(mem := Materialize(w.mem, w.requests[r].table, plan.destination, cfg.blockSize, PhysicalOf(w, out, r), keep),
         pending := w.pending[r := WPending(Semantic(w, out, r), |keep|, plan.destination)])
  }

  function Compress(cfg: Config, select: Selector, w: Worker, out: Output, order: seq<RequestId>): Worker
    requires cfg.Valid()
    decreases |order|
  {
    if order == [] then w
    else Compress(cfg, select, CompressOne(cfg, select, w, out, order[0]), out, order[1..])
  }

  predicate StepRaises(cfg: Config, select: Selector, w: Worker, out: Output, order: seq<RequestId>)
    requires cfg.Valid()
    decreases |order|
  {
    order != [] &&
    (CompressRaises(cfg, select, w, out, order[0])
     || StepRaises(cfg, select, CompressOne(cfg, select, w, out, order[0]), out, order[1..]))
  }

  /** A whole worker step: update states, run the model, compress. */
  function Execute(cfg: Config, select: Selector, w: Worker, out: Output): Worker
    requires cfg.Valid()
  {
    var u := Update(w, out);
    Compress(cfg, select, u.(mem := Forward(cfg, u, out.order, out.entries)), out, out.order)
  }
}
