/** Interleavings that show what does not hold. Two calls for one run, a cancel, and the second call is told
    AlreadyRunning after the first has given back its permits and before it finalises: the cancelled run ends as
    failed, and the token of the first call is gone before it returns. And in the same gap a second run of the
    project is claimed, so that two of its rows are running. */
module EngineLimits {
  import opened Wrappers
  import opened Runs
  import opened Engine
  import opened EngineSafety
  import opened Continuations
  import Locks = ProjectLocks
  import Fault = EarlyFault

  // ---- The scene: run 0 of project 0, with no stage, and two calls for it ----

  function Fresh(): Run {
    NewRun(0, 1, "main", None, None, [])
  }

  function Started(): Run {
    Fresh().(status := Running, owner := Some(0))
  }

  function Scene(run: Run, pc0: Pc, pc1: Pc, running: map<RunId, ExecId>, tokens: set<ExecId>, locks: Locks.LockTable,
                 free: nat): State {
    State(map[0 := run], map[0 := 1], map[], [Executor(0, false, pc0), Executor(0, false, pc1)], running, tokens,
          tokens, locks, free, 1, {})
  }

  /** Both calls refer to the one semaphore; call 0 or call 1 may hold it. */
  function Table(holds0: bool, holds1: bool): Locks.LockTable {
    Locks.LockTable(map[0 := 0], [if holds0 || holds1 then 0 else 1],
                    map[0 := Locks.Handle(0, 0, holds0), 1 := Locks.Handle(0, 0, holds1)])
  }

  /** When call 0 has let go. */
  function TableWithout0(holds1: bool): Locks.LockTable {
    Locks.LockTable(map[0 := 0], [if holds1 then 0 else 1], map[1 := Locks.Handle(0, 0, holds1)])
  }

  lemma TwoCalls()
    ensures Reachable(Scene(Fresh(), TakeLock, TakeLock, map[], {}, Locks.EmptyTable, 1))
  {
    hide Reachable;
    var s0 := Initial(1);
    StartsReachable(1);
    var s1 := State(map[0 := Fresh()], map[0 := 1], map[], [], map[], {}, {}, Locks.EmptyTable, 1, 1, {});
    ReachableStep(s0, Create(0, 0, "main"), s1);
    var s2 := s1.(execs := [Executor(0, false, Lookup)]);
    ReachableStep(s1, Call(0, false), s2);
    var s3 := s2.(execs := [Executor(0, false, Lookup), Executor(0, false, Lookup)]);
    ReachableStep(s2, Call(0, false), s3);
    var s4 := Scene(Fresh(), TakeLock, Lookup, map[], {}, Locks.EmptyTable, 1);
    ReachableStep(s3, Do(0, Go), s4);
    ReachableStep(s4, Do(1, Go), Scene(Fresh(), TakeLock, TakeLock, map[], {}, Locks.EmptyTable, 1));
  }

  lemma BothQueue()
    ensures Reachable(Scene(Fresh(), WaitProject, WaitProject, map[], {}, Table(false, false), 1))
  {
    hide Reachable;
    TwoCalls();
    var s0 := Scene(Fresh(), TakeLock, TakeLock, map[], {}, Locks.EmptyTable, 1);
    var t := Locks.LockTable(map[0 := 0], [1], map[0 := Locks.Handle(0, 0, false)]);
    assert Locks.Take(Locks.EmptyTable, 0, 0) == t;
    var s1 := Scene(Fresh(), WaitProject, TakeLock, map[], {}, t, 1);
    ReachableStep(s0, Do(0, Go), s1);
    assert t.refs[0].lock == 0;
    assert Locks.Pruned(t) == t.entries;
    assert Locks.Take(t, 0, 1) == Table(false, false);
    ReachableStep(s1, Do(1, Go), Scene(Fresh(), WaitProject, WaitProject, map[], {}, Table(false, false), 1));
  }

  lemma FirstClaims()
    ensures Reachable(Scene(Started(), Inside(CheckStart), WaitProject, map[0 := 0], {}, Table(true, false), 0))
  {
    hide Reachable;
    BothQueue();
    var s0 := Scene(Fresh(), WaitProject, WaitProject, map[], {}, Table(false, false), 1);
    var s1 := Scene(Fresh(), WaitGlobal, WaitProject, map[], {}, Table(true, false), 1);
    assert Locks.Acquire(Table(false, false), 0) == Table(true, false);
    ReachableStep(s0, Do(0, Go), s1);
    var s2 := Scene(Fresh(), Register, WaitProject, map[], {}, Table(true, false), 0);
    ReachableStep(s1, Do(0, Go), s2);
    var s3 := Scene(Fresh(), Claim, WaitProject, map[0 := 0], {}, Table(true, false), 0);
    ReachableStep(s2, Do(0, Go), s3);
    ReachableStep(s3, Do(0, Go),
                  Scene(Started(), Inside(CheckStart), WaitProject, map[0 := 0], {}, Table(true, false), 0));
  }

  lemma FirstIsCancelled()
    ensures Reachable(Scene(Started(), Finalise(WasCancelled), WaitProject, map[0 := 0], {0}, TableWithout0(false), 1))
  {
    hide Reachable;
    FirstClaims();
    var s0 := Scene(Started(), Inside(CheckStart), WaitProject, map[0 := 0], {}, Table(true, false), 0);
    var s1 := s0.(handles := {0});
    ReachableStep(s0, CancelLookup(0), s1);
    var s2 := Scene(Started(), Inside(CheckStart), WaitProject, map[0 := 0], {0}, Table(true, false), 0);
    ReachableStep(s1, CancelToken(0), s2);
    var s3 := Scene(Started(), DropGlobal(WasCancelled), WaitProject, map[0 := 0], {0}, Table(true, false), 0);
    assert s2.runs[0 := s2.runs[0]] == s2.runs;
    ReachableStep(s2, Do(0, Go), s3);
    var s4 := Scene(Started(), DropProject(WasCancelled), WaitProject, map[0 := 0], {0}, Table(true, false), 1);
    ReachableStep(s3, Do(0, Go), s4);
    assert Locks.Release(Table(true, false), 0) == TableWithout0(false);
    ReachableStep(s4, Do(0, Go),
                  Scene(Started(), Finalise(WasCancelled), WaitProject, map[0 := 0], {0}, TableWithout0(false), 1));
  }

  lemma SecondIsADuplicate()
    ensures Reachable(Scene(Started(), Finalise(WasCancelled), DropGlobal(AlreadyRunning), map[0 := 0], {0},
                            TableWithout0(true), 0))
  {
    hide Reachable;
    FirstIsCancelled();
    var s0 := Scene(Started(), Finalise(WasCancelled), WaitProject, map[0 := 0], {0}, TableWithout0(false), 1);
    assert Locks.Acquire(TableWithout0(false), 1) == TableWithout0(true);
    var s1 := Scene(Started(), Finalise(WasCancelled), WaitGlobal, map[0 := 0], {0}, TableWithout0(true), 1);
    ReachableStep(s0, Do(1, Go), s1);
    var s2 := Scene(Started(), Finalise(WasCancelled), Register, map[0 := 0], {0}, TableWithout0(true), 0);
    ReachableStep(s1, Do(1, Go), s2);
    ReachableStep(s2, Do(1, Go),
                  Scene(Started(), Finalise(WasCancelled), DropGlobal(AlreadyRunning), map[0 := 0], {0},
                        TableWithout0(true), 0));
  }

  /** A cancel was accepted, the claimant saw it, and the run is failed for good. */
  lemma CancelledRunMayFail() returns (s: State)
    ensures Reachable(s) && |s.execs| == 2 && TokenCancelled(s, 0, 0)
    ensures s.execs[0].pc == Finalise(WasCancelled) && s.runs[0].status == Failed
    ensures s.execs[1] == Executor(0, false, Deregister(AlreadyRunning))
  {
    hide Reachable;
    SecondIsADuplicate();
    var s0 := Scene(Started(), Finalise(WasCancelled), DropGlobal(AlreadyRunning), map[0 := 0], {0},
                    TableWithout0(true), 0);
    var s1 := Scene(Started(), Finalise(WasCancelled), DropProject(AlreadyRunning), map[0 := 0], {0},
                    TableWithout0(true), 1);
    ReachableStep(s0, Do(1, Go), s1);
    var s2 := Scene(Started(), Finalise(WasCancelled), Finalise(AlreadyRunning), map[0 := 0], {0},
                    Locks.LockTable(map[0 := 0], [1], map[]), 1);
    assert Locks.Release(TableWithout0(true), 1) == s2.locks;
    ReachableStep(s1, Do(1, Go), s2);
    s := Apply(s2, Do(1, Go));
    ReachableStep(s2, Do(1, Go), s);
  }

  /** The claimant of a run has not returned, and its token is not in the map: the duplicate removed it. */
  lemma TokenMayBeGone() returns (s: State)
    ensures Reachable(s) && |s.execs| == 2 && 0 in s.runs && s.runs[0].owner == Some(0)
    ensures !s.execs[0].pc.Returned? && 0 !in s.running
  {
    hide Reachable;
    var s0 := CancelledRunMayFail();
    s := Apply(s0, Do(1, Go));
    ReachableStep(s0, Do(1, Go), s);
  }

  /** Run 0 waits for its finaliser, its second call queues, and a third call executes run 1. */
  function Crowd(run: Run, pc: Pc, running: map<RunId, ExecId>, locks: Locks.LockTable, free: nat): State {
    State(map[0 := Started(), 1 := run], map[0 := 2], map[],
          [Executor(0, false, Finalise(WasCancelled)), Executor(0, false, WaitProject), Executor(1, false, pc)],
          running, {0}, {0}, locks, free, 1, {})
  }

  function Second(): Run {
    NewRun(0, 2, "main", None, None, [])
  }

  /** Call 1 waits for the semaphore; call 2 waits for it or holds it. */
  function CrowdTable(holds2: bool): Locks.LockTable {
    Locks.LockTable(map[0 := 0], [if holds2 then 0 else 1],
                    map[1 := Locks.Handle(0, 0, false), 2 := Locks.Handle(0, 0, holds2)])
  }

  lemma ThirdCallQueues()
    ensures Reachable(Crowd(Second(), WaitProject, map[0 := 0], CrowdTable(false), 1))
  {
    hide Reachable;
    FirstIsCancelled();
    var s0 := Scene(Started(), Finalise(WasCancelled), WaitProject, map[0 := 0], {0}, TableWithout0(false), 1);
    var s1 := s0.(runs := map[0 := Started(), 1 := Second()], counters := map[0 := 2]);
    ReachableStep(s0, Create(1, 0, "main"), s1);
    var s2 := Crowd(Second(), Lookup, map[0 := 0], TableWithout0(false), 1);
    ReachableStep(s1, Call(1, false), s2);
    var s3 := Crowd(Second(), TakeLock, map[0 := 0], TableWithout0(false), 1);
    ReachableStep(s2, Do(2, Go), s3);
    assert TableWithout0(false).refs[1].lock == 0;
    assert Locks.Pruned(TableWithout0(false)) == map[0 := 0];
    assert Locks.Take(TableWithout0(false), 0, 2) == CrowdTable(false);
    ReachableStep(s3, Do(2, Go), Crowd(Second(), WaitProject, map[0 := 0], CrowdTable(false), 1));
  }

  /** Two rows of one project are running at once: what is exclusive is `execute_inner`, not the status. */
  lemma TwoRowsMayBeRunning() returns (s: State)
    ensures Reachable(s) && 0 in s.runs && 1 in s.runs && s.runs[0].project == s.runs[1].project
    ensures s.runs[0].status == Running && s.runs[1].status == Running
  {
    hide Reachable;
    ThirdCallQueues();
    var s0 := Crowd(Second(), WaitProject, map[0 := 0], CrowdTable(false), 1);
    assert Locks.Acquire(CrowdTable(false), 2) == CrowdTable(true);
    var s1 := Crowd(Second(), WaitGlobal, map[0 := 0], CrowdTable(true), 1);
    ReachableStep(s0, Do(2, Go), s1);
    var s2 := Crowd(Second(), Register, map[0 := 0], CrowdTable(true), 0);
    ReachableStep(s1, Do(2, Go), s2);
    var s3 := Crowd(Second(), Claim, map[0 := 0, 1 := 2], CrowdTable(true), 0);
    ReachableStep(s2, Do(2, Go), s3);
    s := Apply(s3, Do(2, Go));
    ReachableStep(s3, Do(2, Go), s);
  }

  // ---- A cancellation between a check and what it guards ----

  lemma SameRun(s: State)
    requires 0 in s.runs
    ensures s.runs[0 := s.runs[0]] == s.runs
  {
  }

  lemma FirstPassesItsChecks()
    ensures Reachable(Scene(Started(), Inside(MarkSuccess), WaitProject, map[0 := 0], {}, Table(true, false), 0))
  {
    hide Reachable;
    FirstClaims();
    var s0 := Scene(Started(), Inside(CheckStart), WaitProject, map[0 := 0], {}, Table(true, false), 0);
    SameRun(s0);
    var s1 := Scene(Started(), Inside(Load), WaitProject, map[0 := 0], {}, Table(true, false), 0);
    ReachableStep(s0, Do(0, Go), s1);
    var s2 := Scene(Started(), Inside(Prepare), WaitProject, map[0 := 0], {}, Table(true, false), 0);
    ReachableStep(s1, Do(0, Go), s2);
    var s3 := Scene(Started(), Inside(StageTop(0)), WaitProject, map[0 := 0], {}, Table(true, false), 0);
    ReachableStep(s2, Do(0, Go), s3);
    ReachableStep(s3, Do(0, Go),
                  Scene(Started(), Inside(MarkSuccess), WaitProject, map[0 := 0], {}, Table(true, false), 0));
  }

  /** The final check is behind the claimant when it is cancelled: the run can still become a success. */
  lemma CancelledRunMaySucceed() returns (s: State)
    ensures Reachable(s) && TokenCancelled(s, 0, 0) && AboutToSucceed(s, 0)
    ensures s.runs[0].status == Running && MaySucceed(s, 0)
  {
    hide Reachable, MaySucceed;
    FirstPassesItsChecks();
    var s0 := Scene(Started(), Inside(MarkSuccess), WaitProject, map[0 := 0], {}, Table(true, false), 0);
    var s1 := s0.(handles := {0});
    ReachableStep(s0, CancelLookup(0), s1);
    s := s1.(cancelled := {0});
    ReachableStep(s1, CancelToken(0), s);
    CancellationStopsSuccess(s, 0, 0);
  }

  const BUILD := StageDef("build", "make", true, 60)

  /** Run 0 with one stage, and one call for it. */
  function OneStage(status: Status, stage: Status, owner: Option<ExecId>): Run {
    Run(0, 1, "main", None, [BUILD], None, status, [Cell(stage, [], false)], owner, [])
  }

  function Alone(run: Run, pc: Pc, running: map<RunId, ExecId>, locks: Locks.LockTable, free: nat): State {
    State(map[0 := run], map[0 := 1], map[0 := [BUILD]], [Executor(0, false, pc)], running, {}, {}, locks, free, 1, {})
  }

  function Held(holds: bool): Locks.LockTable {
    Locks.LockTable(map[0 := 0], [if holds then 0 else 1], map[0 := Locks.Handle(0, 0, holds)])
  }

  lemma AloneQueues()
    ensures Reachable(Alone(OneStage(Pending, Pending, None), WaitProject, map[], Held(false), 1))
  {
    hide Reachable;
    var run := OneStage(Pending, Pending, None);
    var s0 := Initial(1);
    StartsReachable(1);
    var s1 := s0.(config := map[0 := [BUILD]]);
    ReachableStep(s0, Put(0, [BUILD]), s1);
    var s2 := s1.(runs := map[0 := run], counters := map[0 := 1]);
    assert FreshCells([BUILD]) == run.cells;
    ReachableStep(s1, Create(0, 0, "main"), s2);
    var s3 := Alone(run, Lookup, map[], Locks.EmptyTable, 1);
    ReachableStep(s2, Call(0, false), s3);
    var s4 := Alone(run, TakeLock, map[], Locks.EmptyTable, 1);
    ReachableStep(s3, Do(0, Go), s4);
    assert Locks.Take(Locks.EmptyTable, 0, 0) == Held(false);
    ReachableStep(s4, Do(0, Go), Alone(run, WaitProject, map[], Held(false), 1));
  }

  lemma AloneClaims()
    ensures Reachable(Alone(OneStage(Running, Pending, Some(0)), Inside(CheckStart), map[0 := 0], Held(true), 0))
  {
    hide Reachable;
    AloneQueues();
    var run := OneStage(Pending, Pending, None);
    var s0 := Alone(run, WaitProject, map[], Held(false), 1);
    assert Locks.Acquire(Held(false), 0) == Held(true);
    var s1 := Alone(run, WaitGlobal, map[], Held(true), 1);
    ReachableStep(s0, Do(0, Go), s1);
    var s2 := Alone(run, Register, map[], Held(true), 0);
    ReachableStep(s1, Do(0, Go), s2);
    var s3 := Alone(run, Claim, map[0 := 0], Held(true), 0);
    ReachableStep(s2, Do(0, Go), s3);
    ReachableStep(s3, Do(0, Go),
                  Alone(OneStage(Running, Pending, Some(0)), Inside(CheckStart), map[0 := 0], Held(true), 0));
  }

  lemma AloneComesToItsStage()
    ensures Reachable(Alone(OneStage(Running, Pending, Some(0)), Inside(StageTop(0)), map[0 := 0], Held(true), 0))
  {
    hide Reachable;
    AloneClaims();
    var run := OneStage(Running, Pending, Some(0));
    var s0 := Alone(run, Inside(CheckStart), map[0 := 0], Held(true), 0);
    SameRun(s0);
    var s1 := Alone(run, Inside(Load), map[0 := 0], Held(true), 0);
    ReachableStep(s0, Do(0, Go), s1);
    var s2 := Alone(run, Inside(Prepare), map[0 := 0], Held(true), 0);
    ReachableStep(s1, Do(0, Go), s2);
    ReachableStep(s2, Do(0, Go), Alone(run, Inside(StageTop(0)), map[0 := 0], Held(true), 0));
  }

  lemma AloneLaunches()
    ensures Reachable(Alone(OneStage(Running, Running, Some(0)), Inside(Spawn(0)), map[0 := 0], Held(true), 0))
  {
    hide Reachable;
    AloneComesToItsStage();
    var run, marked := OneStage(Running, Pending, Some(0)), OneStage(Running, Running, Some(0));
    var s0 := Alone(run, Inside(StageTop(0)), map[0 := 0], Held(true), 0);
    SameRun(s0);
    var s1 := Alone(run, Inside(ClaimStage(0)), map[0 := 0], Held(true), 0);
    ReachableStep(s0, Do(0, Go), s1);
    assert SetCell(run, 0, Running) == marked by {
      assert [Cell(Pending, [], false)][0 := Cell(Running, [], false)] == [Cell(Running, [], false)];
    }
    assert map[0 := run][0 := marked] == map[0 := marked];
    var s2 := Alone(marked, Inside(Launch(0)), map[0 := 0], Held(true), 0);
    ReachableStep(s1, Do(0, Go), s2);
    SameRun(s2);
    ReachableStep(s2, Do(0, Go), Alone(marked, Inside(Spawn(0)), map[0 := 0], Held(true), 0));
  }

  /** The check before the spawn is behind the executor when the run is cancelled: its command still starts. */
  lemma CancelledRunMayStartACommand() returns (s: State)
    ensures Reachable(s) && TokenCancelled(s, 0, 0) && AboutToSpawn(s, 0) && MayStartCommand(s, 0)
  {
    hide Reachable, MayStartCommand;
    AloneLaunches();
    var s0 := Alone(OneStage(Running, Running, Some(0)), Inside(Spawn(0)), map[0 := 0], Held(true), 0);
    var s1 := s0.(handles := {0});
    ReachableStep(s0, CancelLookup(0), s1);
    s := s1.(cancelled := {0});
    ReachableStep(s1, CancelToken(0), s);
    CancellationStopsCommands(s, 0, 0);
  }

  // ---- A fault before the claim ----

  /** For a run that waits for its claim the fault would break the pattern of its stages ... */
  lemma EarlyFaultMayBreakPattern() returns (s: State)
    ensures Reachable(s) && 0 in s.runs && !WellShaped(Finish(s.runs[0], Failed))
  {
    hide Reachable;
    AloneQueues();
    s := Alone(OneStage(Pending, Pending, None), WaitProject, map[], Held(false), 1);
    assert s.runs[0].defs[0].enabled;
    Fault.PatternBreaksExactlyWhen(s, 0);
  }

  /** ... and under a claimant about to start a command it would fail a run whose rows change afterwards. */
  lemma EarlyFaultMayBeOverwritten() returns (s: State)
    ensures Reachable(s) && 0 in s.runs
    ensures Finish(s.runs[0], Failed).status == Failed
    ensures Fault.MayOverwrite(Fault.AfterFault(s, 0), 0, Finish(s.runs[0], Failed))
  {
    hide Reachable, Fault.MayOverwrite;
    AloneLaunches();
    s := Alone(OneStage(Running, Running, Some(0)), Inside(Spawn(0)), map[0 := 0], Held(true), 0);
    Fault.OverwrittenExactlyWhen(s, 0, 0);
  }
}
