// A concrete run that compresses a request, so that the theorems about runs speak of something.

module Witness {
  import opened Common
  import opened SchedulerModel
  import opened WorkerModel
  import opened Schedule
  import opened Protocol
  import opened ProtocolTheorems

  const CFG: Config := Config(2, 1, 0, 1, true, 2, false, 0, 0)

  const INFO: Info := Info(2, 8, [10, 11, 12])

  const POOL: Pool := Pool({0, 1, 2, 3}, multiset{}, {}, false)

  function Begin(): Sched {
    Sched(map[], map[], map[], map[], map[], map[], {}, {}, 0, POOL)
  }

  function Added(): Sched {
    Begin().(requests := map["r" := Request(INFO, 0, 0)])
  }

  const SUPPLY: Supply := _ => [2]

  const PLAN: Plan := Plan(2, 1, [0, 1], [2])

  const PASS: Pass := Pass([], [], [HAdmit("r", [], [0, 1], 2, false)], [], [], {}, SUPPLY)

  const ENTRY: Entry := Entry(true, false, [0, 1], 0, 2, INFO)

  function Admitted(): Sched {
    Added().(requests := map["r" := Request(INFO, 2, 0)], tables := map["r" := [0, 1]],
             pool := Pool({0, 1, 2, 3}, multiset{0, 1}, {}, false))
  }

  const OUT: Output := Output({}, {}, ["r"], map["r" := ENTRY], map[])

  lemma AdmitsRequest()
    ensures Enabled(CFG, Build(Added(), Opening(Added())), PASS.ops[0])
    ensures Operate(CFG, Build(Added(), Opening(Added())), PASS.ops[0]) == Build(Admitted(), OUT)
  {
    var op := PASS.ops[0];
    var s := Added();
    assert s.pool.Touch([]).refs == multiset{};
    assert CanAdmit(CFG, s, "r", [], [0, 1], 2);
    var t := Admit(CFG, s, "r", [], [0, 1], 2);
    assert [] + [0, 1] == [0, 1];
    assert t.pool.refs == multiset{0, 1};
    assert t.pool.hashed == {};
    assert t == Admitted();
  }

  function Waiting(): Sched {
    Admitted().(requests := map["r" := Request(INFO, 2, FROZEN)],
                pending := map["r" := Pending(PLAN, [2], false, Some(0))],
                pool := Pool({0, 1, 2, 3}, multiset{0, 1, 2}, {}, false))
  }

  lemma ArmsRequest()
    ensures CanArmAll(CFG, Admitted(), ["r"], {}, SUPPLY)
    ensures ArmAll(CFG, Admitted(), ["r"], {}, SUPPLY) == Waiting()
    ensures PlansOf(CFG, Admitted(), ["r"], {}, SUPPLY) == map["r" := PLAN]
  {
    var s := Admitted();
    KeepsOne();
    assert 2 in s.pool.Unreferenced();
    assert {2} <= s.pool.Unreferenced();
    AtLeastOneMember(s.pool.Unreferenced(), 2);
    assert Arms(CFG, s, "r", false);
    assert SUPPLY("r") == [2];
    var t := Arm(CFG, s, "r", false, [2]);
    assert t.pool.refs == multiset{0, 1, 2};
    assert t.pool.hashed == {};
    assert t == Waiting();
    assert ["r"][1..] == [];
    assert "r" !in {};
  }

  lemma KeepsOne()
    ensures CFG.Valid() && CFG.Keep() == 1
  {
    CeilDivLeast(1, 1, 1);
    CeilDivLeast(1, 1, 0);
  }

  lemma AtLeastOneMember<T>(s: set<T>, x: T)
    requires x in s
    ensures |s| >= 1
  {
  }

  const ISSUED: Output := OUT.(plans := map["r" := PLAN])

  lemma PassRuns()
    ensures CFG.Valid() && PassEnabled(CFG, Added(), PASS) && PassSnapshots(CFG, Added(), PASS)
    ensures Scheduled(CFG, Added(), PASS) == Build(Waiting().(issued := 1), ISSUED)
  {
    KeepsOne();
    AdmitsRequest();
    ArmsRequest();
    var t := BeforeSchedule(CFG, Added(), [], []);
    assert t == Added();
    var b := Build(Added(), Opening(Added()));
    assert PASS.ops[1..] == [];
    assert AllEnabled(CFG, b, PASS.ops);
    assert OperateAll(CFG, b, PASS.ops) == Build(Admitted(), OUT);
    assert Hosted(CFG, Added(), PASS) == Build(Admitted(), OUT);
    assert ResetAll(Admitted(), []) == Admitted();
  }

  function Committed(): Sched {
    Waiting().(issued := 1, requests := map["r" := Request(INFO, 2, 0)], tables := map["r" := [2]], cached := map["r" := 0],
               pending := map[], active := map["r" := Anchor(2, 1)], deferred := map["r" := [Release([0, 1], 1, 1)]])
  }

  lemma AcknowledgementCommits()
    ensures "r" in ISSUED.plans
    ensures AfterOutput(CFG, Waiting().(issued := 1), ISSUED.plans, ["r"], [], ["r"]) == Committed()
  {
    var s := Waiting().(issued := 1);
    var t := Acknowledge(s, "r", PLAN);
    assert ["r"][1..] == [];
    assert t == s.(pending := map["r" := Pending(PLAN, [2], true, Some(0))]);
    assert AcknowledgeAll(s, ["r"], ISSUED.plans) == t;
    assert DrainAll(t, []) == t;
    var c := Commit(t, "r", 1);
    assert c.tables == map["r" := [2]] && c.cached == map["r" := 0];
    assert c.requests == map["r" := Request(INFO, 2, 0)];
    assert c.pending == map[] && c.active == map["r" := Anchor(2, 1)];
    assert ReleasesOf(t, "r") + [Release([0, 1], 1, 1)] == [Release([0, 1], 1, 1)];
    assert c.deferred == map["r" := [Release([0, 1], 1, 1)]];
    assert c == Committed();
    assert CommitAll(t, ["r"], 1) == c;
  }

  function Idle(): Worker {
    Worker(map[], map[], map[], map[])
  }

  function Sent(): seq<Flight>
  {
    PassRuns();
    [Snapshot(Scheduled(CFG, Added(), PASS))]
  }

  lemma SentIs()
    ensures |Sent()| == 1 && Sent()[0].out == ISSUED && Sent()[1..] == []
  {
    PassRuns();
  }

  lemma ScheduleStep(select: Selector)
    ensures CFG.Valid()
    ensures Next(CFG, select, System(Added(), Idle(), [], 0, 0), ESchedule(PASS),
                 System(Waiting().(issued := 1), Idle(), Sent(), 0, 0))
  {
    hide PassEnabled, PassSnapshots, Scheduled, Snapshot, Waiting, Added;
    PassRuns();
    assert Void([], ISSUED.preempted) == [];
    assert [] + Sent() == Sent();
  }

  lemma ExecuteStep(select: Selector)
    ensures CFG.Valid()
    ensures Next(CFG, select, System(Waiting().(issued := 1), Idle(), Sent(), 0, 0), EExecute,
                 System(Waiting().(issued := 1), Execute(CFG, select, Idle(), ISSUED), Sent(), 1, 0))
  {
    hide Execute, Waiting, Sent;
    KeepsOne();
    SentIs();
  }

  lemma AckStep(select: Selector, w: Worker)
    ensures CFG.Valid()
    ensures Next(CFG, select, System(Waiting().(issued := 1), w, Sent(), 1, 0), EAcknowledge(["r"], [], ["r"]),
                 System(Committed(), w, [], 0, 1))
  {
    hide AfterOutput, Sent;
    KeepsOne();
    SentIs();
    AcknowledgementCommits();
  }

  lemma AddStep(select: Selector)
    ensures CFG.Valid() && Initial(System(Begin(), Idle(), [], 0, 0))
    ensures Next(CFG, select, System(Begin(), Idle(), [], 0, 0), EAdd("r", INFO, 0), System(Added(), Idle(), [], 0, 0))
  {
    KeepsOne();
    assert Add(Begin(), "r", INFO, 0) == Added();
  }

  /** The protocol can compress: five states from the empty system, a request's table has been switched to
      its destination, and its two source blocks wait for the outputs that may still use them. */
  lemma CompressionReachable(select: Selector) returns (states: seq<System>, events: seq<Event>)
    ensures CFG.Valid() && IsRun(CFG, select, states, events) && |states| == 5
    ensures states[4].s == Committed() && states[4].s.tables["r"] == [2] && states[4].s.active["r"].Removed() == 1
    ensures states[4].s.deferred["r"] == [Release([0, 1], 1, 1)] && states[4].s.pool.refs == multiset{0, 1, 2}
  {
    hide Next, Initial, Execute, Sent;
    AddStep(select);
    ScheduleStep(select);
    ExecuteStep(select);
    var w := Execute(CFG, select, Idle(), ISSUED);
    AckStep(select, w);
    states := [System(Begin(), Idle(), [], 0, 0), System(Added(), Idle(), [], 0, 0),
               System(Waiting().(issued := 1), Idle(), Sent(), 0, 0), System(Waiting().(issued := 1), w, Sent(), 1, 0),
               System(Committed(), w, [], 0, 1)];
    events := [EAdd("r", INFO, 0), ESchedule(PASS), EExecute, EAcknowledge(["r"], [], ["r"])];
  }
}
