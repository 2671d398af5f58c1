// What the worker's own cache holds at each of its steps: the view recorded when the output was issued.

module WorkerContent {
  import opened Common
  import opened SchedulerModel
  import opened SchedulerInvariant
  import opened WorkerModel
  import opened Schedule
  import opened Dispatch
  import opened Protocol
  import opened ProtocolInvariant
  import opened PassStep
  import opened KVContent
  import opened KVPass
  import opened KVRun
  import opened Selectors

  /** What the scheduler's side recorded when it issued an output: the view of each scheduled request with
      this step's tokens, and the views after the step's compressions. */
  datatype Issue = Issue(seen: map<RequestId, seq<nat>>, kept: map<RequestId, seq<nat>>)

  function IssueOf(k: KV, k': KV): Issue
    requires k'.sys.flight != []
  {
    var out := k'.sys.flight[|k'.sys.flight| - 1].out;
    Issue(map r | r in out.entries :: Base(k.views, out.entries, r), k'.views)
  }

  /** The records of the outputs in flight after `i` events. */
  ghost function Issued(states: seq<KV>, events: seq<Event>, i: nat): seq<Issue>
    requires i < |states| && |states| == |events| + 1
    decreases i
  {
    if i == 0 then []
    else
      var before := Issued(states, events, i - 1);
      match events[i - 1]
      case ESchedule(_) => if states[i].sys.flight == [] then [] else before + [IssueOf(states[i - 1], states[i])]
      case EAcknowledge(_, _, _) => if before == [] then [] else before[1..]
      case _ => before
  }

  /** While worker `w` runs the output, its own table of request `r` holds the recorded view, and when the
      step ends the destination of the request's plan, if it has one, holds the kept view. */
  ghost predicate EntryHolds(cfg: Config, select: Selector, w: Worker, out: Output, issue: Issue, r: RequestId)
    requires cfg.Valid() && r in out.entries
  {
    var u := Update(w, out);
    && r in u.requests && r in issue.seen
    && var computed := u.requests[r].computed + out.entries[r].count;
    && ViewAt(cfg, AfterForward(cfg, w, out).mem, u.requests[r].table, u.requests[r].info, Get(u.active, r),
              computed, issue.seen[r])
    && (r in out.plans ==>
          && r in issue.kept
          && ViewAt(cfg, Execute(cfg, select, w, out).mem, out.plans[r].destination, u.requests[r].info,
                    Some(Anchor(out.plans[r].semantic, out.plans[r].physical)), computed, issue.kept[r]))
  }

  ghost predicate StepHolds(cfg: Config, select: Selector, w: Worker, out: Output, issue: Issue)
    requires cfg.Valid()
  {
    forall r :: r in out.entries ==> EntryHolds(cfg, select, w, out, issue, r)
  }

  ghost predicate AllHold(cfg: Config, select: Selector, w: Worker, fs: seq<Flight>, issues: seq<Issue>)
    requires cfg.Valid()
    decreases |fs|
  {
    && |fs| == |issues|
    && (fs != [] ==>
          && StepHolds(cfg, select, w, fs[0].out, issues[0])
          && AllHold(cfg, select, Execute(cfg, select, w, fs[0].out), fs[1..], issues[1..]))
  }

  // ---------------------------------------------------------------- issuing

  lemma SeenHolds(cfg: Config, select: Selector, lw: Worker, views: map<RequestId, seq<nat>>, promise: map<BlockId, seq<Cell>>,
                  m: Build, h: Build, b: Build, caches: seq<(RequestId, nat)>, drafts: set<RequestId>, supply: Supply, r: RequestId)
    requires cfg.Valid() && Staged(cfg, select, lw, views, promise, m, h, b, caches, drafts, supply)
    requires r in b.out.entries
    ensures var u := Update(lw, b.out);
      && r in u.requests
      && ViewAt(cfg, AfterForward(cfg, lw, b.out).mem, u.requests[r].table, u.requests[r].info, Get(u.active, r),
                u.requests[r].computed + b.out.entries[r].count, Base(views, b.out.entries, r))
  {
    hide Inv, Building, Arm, Arms, CeilDiv, ViewAt, Update, Base, PlansOf, ArmAll;
    EntryAgrees(cfg, lw, m, r);
    ForwardHas(cfg, lw, views, promise, m, r);
    ForwardSame(cfg, lw, h, b.out);
    UpdateIgnoresPlans(lw, h.out, b.out.plans);
  }

  lemma KeptHolds(cfg: Config, select: Selector, lw: Worker, views: map<RequestId, seq<nat>>, promise: map<BlockId, seq<Cell>>,
                  m: Build, h: Build, b: Build, caches: seq<(RequestId, nat)>, drafts: set<RequestId>, supply: Supply, r: RequestId)
    requires cfg.Valid() && Staged(cfg, select, lw, views, promise, m, h, b, caches, drafts, supply)
    requires r in b.out.entries && r in b.out.plans
    ensures var u := Update(lw, b.out);
      && r in u.requests && r in b.s.tables
      && ViewAt(cfg, Execute(cfg, select, lw, b.out).mem, b.out.plans[r].destination, u.requests[r].info,
                Some(Anchor(b.out.plans[r].semantic, b.out.plans[r].physical)),
                u.requests[r].computed + b.out.entries[r].count, NewView(cfg, select, lw, b.out, views, r))
  {
    hide Inv, Building, Having, Arm, Arms, CeilDiv, ViewAt, Update, Execute, NewView, PlansOf, ArmAll, SameBooks;
    EntryAgrees(cfg, lw, h, r);
    UpdateIgnoresPlans(lw, h.out, b.out.plans);
    DispatchedPending(cfg, lw, h, b, drafts, supply);
    SourceIsTable(cfg, b.s, r);
    CompressedView(cfg, select, lw, views, promise, m, h, b, caches, drafts, supply, r);
  }

  lemma StagedEntryHolds(cfg: Config, select: Selector, lw: Worker, views: map<RequestId, seq<nat>>, promise: map<BlockId, seq<Cell>>,
                         m: Build, h: Build, b: Build, caches: seq<(RequestId, nat)>, drafts: set<RequestId>, supply: Supply,
                         issue: Issue, r: RequestId)
    requires cfg.Valid() && Staged(cfg, select, lw, views, promise, m, h, b, caches, drafts, supply)
    requires r in b.out.entries && r in issue.seen && issue.seen[r] == Base(views, b.out.entries, r)
    requires r in b.s.tables ==> r in issue.kept && issue.kept[r] == NewView(cfg, select, lw, b.out, views, r)
    ensures EntryHolds(cfg, select, lw, b.out, issue, r)
  {
    hide Staged, ViewAt, Update, Execute, AfterForward, NewView, Base;
    SeenHolds(cfg, select, lw, views, promise, m, h, b, caches, drafts, supply, r);
    if r in b.out.plans { KeptHolds(cfg, select, lw, views, promise, m, h, b, caches, drafts, supply, r); }
  }

  lemma IssueHolds(cfg: Config, select: Selector, k: KV, e: Event, k': KV)
    requires cfg.Valid() && GoodSelector(cfg, select)
    requires KVInv(cfg, select, k) && e.ESchedule? && NextKV(cfg, select, k, e, k')
    ensures k'.sys.flight == Void(k.sys.flight, Scheduled(cfg, k.sys.s, e.pass).out.preempted) + [Snapshot(Scheduled(cfg, k.sys.s, e.pass))]
    ensures k'.sys.w == k.sys.w && k'.sys.executed == k.sys.executed
    ensures StepHolds(cfg, select, Logical(cfg, select, k.sys), Scheduled(cfg, k.sys.s, e.pass).out, IssueOf(k, k'))
  {
    hide Inv, Mirrors, Waiting, ProtocolInvariant.Protected, Stamped, Faithful, Building, Having, CeilDiv, Arm, Arms, Operate, Enabled, CacheBlocks,
      ViewOk, Promised, Execute, GoodSelector, NewView, CanArm, CanCache, Opening, Staged, Base, EntryHolds, Counted, Owing;
    var p, lw := e.pass, Logical(cfg, select, k.sys);
    var t := BeforeSchedule(cfg, k.sys.s, p.finished, p.waiting);
    var m := OperateAll(cfg, Build(t, Opening(t)), p.ops);
    var h := Hosted(cfg, k.sys.s, p);
    var b := Dispatched(cfg, h, p.drafts, p.supply);
    PassStages(cfg, select, k, p, lw, t, m, h, b);
    ScheduleLogical(cfg, select, k.sys, e, k'.sys, h, b);
    assert k'.sys.flight[|k.sys.flight|].out == b.out;
    forall r | r in b.out.entries ensures EntryHolds(cfg, select, lw, b.out, IssueOf(k, k'), r) {
      StagedEntryHolds(cfg, select, lw, k.views, k.promise, m, h, b, p.caches, p.drafts, p.supply, IssueOf(k, k'), r);
    }
  }

  // ---------------------------------------------------------------- the queue

  lemma {:induction false} AllHoldAppend(cfg: Config, select: Selector, w: Worker, fs: seq<Flight>, issues: seq<Issue>, f: Flight, issue: Issue)
    requires cfg.Valid() && AllHold(cfg, select, w, fs, issues)
    requires StepHolds(cfg, select, Replay(cfg, select, w, fs), f.out, issue)
    ensures AllHold(cfg, select, w, fs + [f], issues + [issue])
    decreases |fs|
  {
    hide StepHolds, Execute;
    if fs == [] {
      assert (fs + [f])[1..] == [] && (issues + [issue])[1..] == [];
    } else {
      assert (fs + [f])[1..] == fs[1..] + [f] && (issues + [issue])[1..] == issues[1..] + [issue];
      AllHoldAppend(cfg, select, Execute(cfg, select, w, fs[0].out), fs[1..], issues[1..], f, issue);
    }
  }

  lemma {:induction false} AllHoldVoid(cfg: Config, select: Selector, w: Worker, fs: seq<Flight>, issues: seq<Issue>, gone: set<RequestId>)
    requires cfg.Valid() && AllHold(cfg, select, w, fs, issues)
    ensures AllHold(cfg, select, w, Void(fs, gone), issues)
    decreases |fs|
  {
    hide StepHolds, Execute;
    if fs != [] {
      assert Void(fs, gone)[1..] == Void(fs[1..], gone);
      AllHoldVoid(cfg, select, Execute(cfg, select, w, fs[0].out), fs[1..], issues[1..], gone);
    }
  }

  /** The outputs still to run, with their records. */
  ghost predicate QueueHolds(cfg: Config, select: Selector, sys: System, issues: seq<Issue>)
    requires cfg.Valid()
  {
    && |issues| == |sys.flight| && sys.executed <= |sys.flight|
    && AllHold(cfg, select, sys.w, sys.flight[sys.executed..], issues[sys.executed..])
  }

  /** One more output at the end of the queue. */
  lemma QueueAppend(cfg: Config, select: Selector, sys: System, sys': System, issues: seq<Issue>, b: Build, issue: Issue)
    requires cfg.Valid() && QueueHolds(cfg, select, sys, issues)
    requires sys'.flight == Void(sys.flight, b.out.preempted) + [Snapshot(b)]
    requires sys'.w == sys.w && sys'.executed == sys.executed
    requires StepHolds(cfg, select, Logical(cfg, select, sys), b.out, issue)
    ensures QueueHolds(cfg, select, sys', issues + [issue])
  {
    hide StepHolds, Execute, Snapshot;
    var n, gone := sys.executed, b.out.preempted;
    var fs := sys.flight[n..];
    AllHoldVoid(cfg, select, sys.w, fs, issues[n..], gone);
    ReplayVoid(cfg, select, sys.w, fs, gone);
    SnapshotOut(b);
    AllHoldAppend(cfg, select, sys.w, Void(fs, gone), issues[n..], Snapshot(b), issue);
    assert sys'.flight[n..] == Void(fs, gone) + [Snapshot(b)];
    assert (issues + [issue])[n..] == issues[n..] + [issue];
  }

  lemma ScheduleQueue(cfg: Config, select: Selector, k: KV, e: Event, k': KV, issues: seq<Issue>)
    requires cfg.Valid() && GoodSelector(cfg, select) && KVInv(cfg, select, k) && e.ESchedule? && NextKV(cfg, select, k, e, k')
    requires QueueHolds(cfg, select, k.sys, issues)
    ensures k'.sys.flight != [] && QueueHolds(cfg, select, k'.sys, issues + [IssueOf(k, k')])
  {
    hide KVInv, GoodSelector, StepHolds, QueueHolds, Scheduled, PassEnabled, PassSnapshots, BeforeSchedule, OperateAll, RegisterAll,
      NewView, AllMatch, IssueOf, Snapshot, Logical;
    IssueHolds(cfg, select, k, e, k');
    QueueAppend(cfg, select, k.sys, k'.sys, issues, Scheduled(cfg, k.sys.s, e.pass), IssueOf(k, k'));
  }

  lemma SnapshotOut(b: Build)
    ensures Snapshot(b).out == b.out
  {
  }

  lemma OtherQueue(cfg: Config, select: Selector, sys: System, e: Event, sys': System, issues: seq<Issue>)
    requires cfg.Valid() && !e.ESchedule? && Next(cfg, select, sys, e, sys') && QueueHolds(cfg, select, sys, issues)
    ensures e.EAcknowledge? ==> issues != []
    ensures QueueHolds(cfg, select, sys', if e.EAcknowledge? then issues[1..] else issues)
  {
    hide StepHolds, Execute, AfterOutput, Held;
    var n, fs := sys.executed, sys.flight[sys.executed..];
    match e
    case EAdd(_, _, _) =>
    case ERollback(_, _) =>
    case EFinish(r) =>
      AllHoldVoid(cfg, select, sys.w, fs, issues[n..], {r});
      assert sys'.flight[n..] == Void(fs, {r});
    case EPreempt(r) =>
      AllHoldVoid(cfg, select, sys.w, fs, issues[n..], {r});
      assert sys'.flight[n..] == Void(fs, {r});
    case EExecute =>
      assert sys.flight[n + 1..] == fs[1..] && issues[n + 1..] == issues[n..][1..];
    case EAcknowledge(_, _, _) =>
      assert sys.flight[1..][n - 1..] == fs && issues[1..][n - 1..] == issues[n..];
  }

  lemma {:induction false} QueueAlwaysHolds(cfg: Config, select: Selector, states: seq<KV>, events: seq<Event>, i: nat)
    requires cfg.Valid() && GoodSelector(cfg, select) && IsKVRun(cfg, select, states, events) && i < |states|
    ensures QueueHolds(cfg, select, states[i].sys, Issued(states, events, i))
    decreases i
  {
    hide GoodSelector, KVInv, QueueHolds, IssueOf, Next;
    if i == 0 {
      InitialQueue(cfg, select, states[0].sys);
    } else {
      QueueAlwaysHolds(cfg, select, states, events, i - 1);
      WholeRunContent(cfg, select, states, events, i - 1);
      var k, e, k' := states[i - 1], events[i - 1], states[i];
      assert NextKV(cfg, select, k, e, k');
      if e.ESchedule? {
        ScheduleQueue(cfg, select, k, e, k', Issued(states, events, i - 1));
      } else {
        OtherQueue(cfg, select, k.sys, e, k'.sys, Issued(states, events, i - 1));
      }
    }
  }

  lemma InitialQueue(cfg: Config, select: Selector, sys: System)
    requires cfg.Valid() && Initial(sys)
    ensures QueueHolds(cfg, select, sys, [])
  {
  }

  // ---------------------------------------------------------------- whole runs

  /** At every worker step of every run, under either policy: when the step's tokens have been stored, the
      worker's own table of each scheduled request holds, slot by slot, the view recorded when the output
      was issued, and when the step ends each plan's destination holds the kept view. Both are
      order-preserving subsequences of the computed tokens with the protected tokens at their ends. */
  lemma WorkerStepContent(cfg: Config, segments: nat, v3: bool, scoring: Scoring, states: seq<KV>, events: seq<Event>, i: nat)
    requires cfg.Valid() && segments > 0 && scoring.Valid()
    requires IsKVRun(cfg, SelectorOf(cfg, segments, v3, scoring), states, events)
    requires i < |events| && events[i].EExecute?
    ensures var sys, issues := states[i].sys, Issued(states, events, i);
      && sys.executed < |sys.flight| == |issues|
      && StepHolds(cfg, SelectorOf(cfg, segments, v3, scoring), sys.w, sys.flight[sys.executed].out, issues[sys.executed])
  {
    hide SelectorOf, GoodSelector, StepHolds, Execute, Initial;
    var select := SelectorOf(cfg, segments, v3, scoring);
    PoliciesAreGood(cfg, segments, v3, scoring);
    QueueAlwaysHolds(cfg, select, states, events, i);
    assert NextKV(cfg, select, states[i], events[i], states[i + 1]);
  }
}
