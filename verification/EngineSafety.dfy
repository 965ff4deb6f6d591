/** Safety of the engine: who is inside, which commands are started and after what, what a cancelled
    token still lets happen, and what is left when a call returns. */
module EngineSafety {
  import opened Wrappers
  import opened Runs
  import opened Engine
  import opened Ownership
  import opened EngineInvariant
  import opened EngineSteps
  import opened EngineTheorems
  import opened LogListing
  import Locks = ProjectLocks

  // ---- Locks and permits ----

  /** No two executors are between the project permit and its release for runs of one project. */
  lemma OneExecutorPerProject(s: State, x: ExecId, y: ExecId)
    requires Reachable(s) && x < |s.execs| && y < |s.execs|
    requires HoldsProject(s.execs[x].pc) && HoldsProject(s.execs[y].pc)
    ensures s.execs[x].run in s.runs && s.execs[y].run in s.runs
    ensures s.runs[s.execs[x].run].project == s.runs[s.execs[y].run].project ==> x == y
  {
    ReachableInv(s);
    hide Reachable, Inv;
    LockFacts(s, x);
    LockFacts(s, y);
    if s.runs[s.execs[x].run].project == s.runs[s.execs[y].run].project {
      OneInside(s, x, y);
    }
  }

  /** Free permits and permits held always add up to max(max_concurrency, 1), and nobody who still waits
      for a project holds one. */
  lemma PermitsAreConserved(s: State, maxConcurrency: nat, evs: seq<Event>)
    requires Valid(Initial(maxConcurrency), evs) && s == After(Initial(maxConcurrency), evs)
    ensures s.free + Holders(s.execs) == if maxConcurrency > 1 then maxConcurrency else 1
    ensures forall e: ExecId :: e < |s.execs| && HoldsGlobal(s.execs[e].pc) ==> Locks.Holds(s.locks, e)
  {
    InvAfter(Initial(maxConcurrency), evs);
    CapacityNeverChanges(Initial(maxConcurrency), evs);
    forall e: ExecId | e < |s.execs| && HoldsGlobal(s.execs[e].pc) ensures Locks.Holds(s.locks, e) {
      hide Inv;
      LockFacts(s, e);
    }
  }

  lemma {:induction false} CapacityNeverChanges(s: State, evs: seq<Event>)
    requires Valid(s, evs)
    ensures After(s, evs).capacity == s.capacity
    decreases |evs|
  {
    if evs != [] {
      hide Step, CanStep;
      if evs[0].Do? {
        StepFrame(s, evs[0].e, evs[0].c);
      }
      CapacityNeverChanges(Apply(s, evs[0]), evs[1..]);
    }
  }

  // ---- The statements of the claimant ----

  /** The guarded UPDATEs inside `execute_inner` always find the row they are for, so StateConflict never
      happens, and the two without a guard only ever write over `running`. */
  lemma ClaimantMeetsNobody(s: State, e: ExecId)
    requires Inv(s) && e < |s.execs| && s.execs[e].pc.Inside?
    ensures var Executor(r, _, pc) := s.execs[e];
            && r in s.runs && InRange(pc.at, s.runs[r]) && s.runs[r].owner == Some(e)
            && s.runs[r].status == Running
            && (pc.at.ClaimStage? ==> s.runs[r].cells[pc.at.i].status == Pending)
            && (pc.at.FinishStage? ==> s.runs[r].cells[pc.at.i].status == Running)
  {
    hide Inv;
    Facts(s, e);
    KnownInRange(s.execs[e].pc.at, s.runs[s.execs[e].run]);
    hide LocksOk, TokenOk, Unclaimed;
  }

  // ---- Commands ----

  /** A command of a run is started only by its claimant, for an enabled stage marked running, when every
      enabled stage before it is recorded as a success. */
  lemma StartsOnlyAfterSuccess(s: State, ev: Event, r: RunId)
    requires Reachable(s) && Enabled(s, ev) && r in s.runs
    ensures r in Apply(s, ev).runs
    ensures var run := s.runs[r];
            Apply(s, ev).runs[r].spawned == run.spawned ||
            exists i: nat ::
              && i < |run.defs| && |run.cells| == |run.defs|
              && Apply(s, ev).runs[r].spawned == run.spawned + [i]
              && run.spawned == EnabledBelow(run.defs, i)
              && run.defs[i].enabled && run.cells[i].status == Running
              && forall j :: 0 <= j < i && run.defs[j].enabled ==> run.cells[j].status == Success
  {
    ReachableInv(s);
    hide Reachable, Inv, Step, CanStep;
    OnlyTheseWrite(s, ev, r);
    if ev.Do? && s.execs[ev.e].run == r {
      ExecutorStarts(s, ev.e, ev.c);
    }
  }

  lemma ExecutorStarts(s: State, e: ExecId, c: Choice)
    requires Inv(s) && e < |s.execs| && CanStep(s, e, c) && s.execs[e].run in s.runs
    ensures s.execs[e].run in Step(s, e, c).runs
    ensures var Executor(r, _, pc) := s.execs[e];
            Step(s, e, c).runs[r].spawned ==
            s.runs[r].spawned + if pc.Inside? && pc.at.Spawn? && c.Go? then [pc.at.i] else []
    ensures s.execs[e].pc.Inside? && s.execs[e].pc.at.Spawn? ==>
              AtWork(s.runs[s.execs[e].run], s.execs[e].pc.at.i, false)
  {
    hide Inv;
    Facts(s, e);
    var Executor(r, git, pc) := s.execs[e];
    hide TokenOk, Unclaimed, Advance, Fits;
    if pc.Inside? {
      AdvanceStarts(pc.at, s.runs[r], git, e in s.cancelled, c);
    } else {
      hide RunOk, ExecOk, Leave;
      LeaveStartsNothing(s, e);
      hide CanStep;
    }
  }

  lemma AdvanceStarts(at: Point, run: Run, git: bool, cancelled: bool, c: Choice)
    requires InRange(at, run) && Fits(at, run, cancelled, c)
    ensures Advance(at, run, git, cancelled, c).run.spawned == run.spawned + if at.Spawn? && c.Go? then [at.i] else []
  {
  }

  lemma LeaveStartsNothing(s: State, e: ExecId)
    requires e < |s.execs| && CanStep(s, e, Go) && !s.execs[e].pc.Inside? && s.execs[e].run in s.runs
    ensures !Entering(s.execs[e].pc) ==> s.execs[e].run in Leave(s, e).runs
                                         && Leave(s, e).runs[s.execs[e].run].spawned == s.runs[s.execs[e].run].spawned
  {
    hide Locks.Release, Rewrite, Enter;
  }

  /** The commands started for a run, by all executors together, are a prefix of its enabled stages in
      position order: none twice, none skipped, none disabled. */
  lemma CommandTrace(s: State, r: RunId)
    requires Reachable(s) && r in s.runs
    ensures s.runs[r].spawned <= EnabledBelow(s.runs[r].defs, |s.runs[r].defs|)
    ensures forall a, b :: 0 <= a < b < |s.runs[r].spawned| ==> s.runs[r].spawned[a] < s.runs[r].spawned[b]
    ensures forall i :: i in s.runs[r].spawned ==>
                          && 0 <= i < |s.runs[r].defs| && s.runs[r].defs[i].enabled
                          && forall j :: 0 <= j < i && s.runs[r].defs[j].enabled ==> j in s.runs[r].spawned
  {
    ReachableInv(s);
    hide Reachable, Inv;
    RunFact(s, r);
    var run := s.runs[r];
    var k := 0;
    if run.owner.Some? {
      k := SpawnedBound(s.execs[run.owner.value].pc, run);
    }
    EnabledBelowGrows(run.defs, k, |run.defs|);
    EnabledBelowIncreases(run.defs, k);
    EnabledBelowMeans(run.defs, k);
  }

  lemma SpawnedBound(pc: Pc, run: Run) returns (k: nat)
    requires Known(pc, run)
    ensures k <= |run.defs| && run.spawned == EnabledBelow(run.defs, k)
  {
    if Ended(run) {
      k :| k <= |run.defs| && run.spawned == EnabledBelow(run.defs, k);
    } else if pc.Inside? {
      KnownAtAbandoned(pc.at, run);
      k := AbandonedBound(run, StageOf(pc.at, run), true);
    } else {
      var j: nat :| AbandonedAt(run, j, pc.res.Fault?);
      k := AbandonedBound(run, j, pc.res.Fault?);
    }
  }

  lemma AbandonedBound(run: Run, j: nat, fault: bool) returns (k: nat)
    requires AbandonedAt(run, j, fault)
    ensures k <= |run.defs| && run.spawned == EnabledBelow(run.defs, k)
  {
    k := if Between(run, j) || AtWork(run, j, false) then j else j + 1;
  }

  lemma {:induction false} EnabledBelowIncreases(defs: seq<StageDef>, k: nat)
    requires k <= |defs|
    ensures forall a, b :: 0 <= a < b < |EnabledBelow(defs, k)| ==> EnabledBelow(defs, k)[a] < EnabledBelow(defs, k)[b]
  {
    if k > 0 {
      EnabledBelowIncreases(defs, k - 1);
      NotYetSpawned(defs, k - 1);
      var ys := EnabledBelow(defs, k - 1);
      forall a | 0 <= a < |ys| ensures ys[a] < k - 1 {
        assert ys[a] in ys;
      }
    }
  }

  // ---- Returning ----

  /** When the call that claimed a run returns, the run is terminal, none of its stages is pending or
      running, and no call that has returned has a token left in the map. */
  lemma ReturnLeavesTerminal(s: State, e: ExecId)
    requires Inv(s) && e < |s.execs| && s.execs[e].pc.Returned?
    ensures forall q :: q in s.running ==> s.running[q] != e
    ensures OwnersOutcome(s.execs[e].pc.res) ==>
              var r := s.execs[e].run;
              && r in s.runs && s.runs[r].owner == Some(e) && Terminal(s.runs[r].status)
              && forall i :: 0 <= i < |s.runs[r].cells| ==> !s.runs[r].cells[i].status.Pending?
                                                            && !s.runs[r].cells[i].status.Running?
  {
    forall q | q in s.running ensures s.running[q] != e {
      assert TokenOk(s.runs, s.execs, s.running, q);
    }
    hide Inv;
    Facts(s, e);
    if OwnersOutcome(s.execs[e].pc.res) {
      EndedHasNothingOpen(s.runs[s.execs[e].run]);
    }
  }

  lemma EndedHasNothingOpen(run: Run)
    requires Ended(run)
    ensures Terminal(run.status)
    ensures forall i :: 0 <= i < |run.cells| ==> !run.cells[i].status.Pending? && !run.cells[i].status.Running?
  {
  }

  /** What the finaliser of a cancelled claimant makes of its run: cancelled, exactly if the database still
      has it running; otherwise a duplicate that was told AlreadyRunning has failed it in between. */
  lemma CancelledUnlessDuplicateFailedIt(s: State, e: ExecId)
    requires Reachable(s) && e < |s.execs| && s.execs[e].pc == Finalise(WasCancelled)
    ensures CanStep(s, e, Go)
    ensures var r := s.execs[e].run;
            && r in s.runs && r in Step(s, e, Go).runs
            && Step(s, e, Go).runs[r].status == (if s.runs[r].status == Running then Cancelled else Failed)
            && (s.runs[r].status != Running ==> s.runs[r].status == Failed)
  {
    ReachableInv(s);
    hide Reachable, Inv;
    Facts(s, e);
    hide LocksOk, TokenOk, Unclaimed;
  }

  // ---- Cancellation ----

  /** `e` has claimed `r` and its token is cancelled. */
  ghost predicate TokenCancelled(s: State, r: RunId, e: ExecId) {
    r in s.runs && s.runs[r].owner == Some(e) && e < |s.execs| && s.execs[e].run == r && e in s.cancelled
  }

  /** The check in the executor is behind it and the spawn before it. */
  predicate AboutToSpawn(s: State, e: ExecId) {
    e < |s.execs| && s.execs[e].pc.Inside? && s.execs[e].pc.at.Spawn?
  }

  /** The final check is behind it and the UPDATE to success before it. */
  predicate AboutToSucceed(s: State, e: ExecId) {
    e < |s.execs| && s.execs[e].pc == Inside(MarkSuccess)
  }

  /** With the token cancelled, no step inside `execute_inner` leads to a spawn or to the final UPDATE. */
  lemma AdvanceCancelled(at: Point, run: Run, git: bool, c: Choice)
    requires InRange(at, run) && Fits(at, run, true, c)
    ensures var m := Advance(at, run, git, true, c);
            && !(m.pc.Inside? && (m.pc.at.Spawn? || m.pc.at.MarkSuccess?))
            && |m.run.spawned| <= |run.spawned| + (if at.Spawn? then 1 else 0)
            && (m.run.status == Success ==> run.status == Success || at.MarkSuccess?)
  {
  }

  /** What is left of a cancelled run to happen. */
  function SpawnsLeft(s: State, r: RunId, e: ExecId): nat
    requires r in s.runs
  {
    |s.runs[r].spawned| + if AboutToSpawn(s, e) then 1 else 0
  }

  predicate SuccessLeft(s: State, r: RunId, e: ExecId)
    requires r in s.runs
  {
    s.runs[r].status == Success || AboutToSucceed(s, e)
  }

  lemma CancelledOwnStep(s: State, c: Choice, r: RunId, e: ExecId)
    requires Inv(s) && TokenCancelled(s, r, e) && CanStep(s, e, c)
    ensures TokenCancelled(Step(s, e, c), r, e)
    ensures SpawnsLeft(Step(s, e, c), r, e) <= SpawnsLeft(s, r, e)
    ensures SuccessLeft(Step(s, e, c), r, e) ==> SuccessLeft(s, r, e)
  {
    hide Inv, Advance, Fits, Enter, Leave;
    Facts(s, e);
    hide TokenOk, Known, Unclaimed;
    var pc := s.execs[e].pc;
    if pc.Inside? {
      hide RunOk;
      AdvanceCancelled(pc.at, s.runs[r], s.execs[e].git, c);
      AdvanceKeepsSkeleton(pc.at, s.runs[r], s.execs[e].git, true, c);
    } else {
      RunFact(s, r);
      CancelledLeave(s, r, e);
    }
  }

  lemma CancelledLeave(s: State, r: RunId, e: ExecId)
    requires TokenCancelled(s, r, e) && CanStep(s, e, Go) && !s.execs[e].pc.Inside? && !Entering(s.execs[e].pc)
    ensures TokenCancelled(Leave(s, e), r, e)
    ensures SpawnsLeft(Leave(s, e), r, e) <= SpawnsLeft(s, r, e)
    ensures SuccessLeft(Leave(s, e), r, e) ==> SuccessLeft(s, r, e)
  {
    hide Locks.Release, Rewrite;
  }

  lemma FinishKeepsTheRest(run: Run, to: Status)
    requires to != Success
    ensures Finish(run, to).spawned == run.spawned && Finish(run, to).owner == run.owner
    ensures Finish(run, to).status == Success ==> run.status == Success
  {
  }

  lemma OthersStep(s: State, x: ExecId, c: Choice, r: RunId, e: ExecId)
    requires Inv(s) && x < |s.execs| && CanStep(s, x, c) && TokenCancelled(s, r, e) && x != e
    ensures TokenCancelled(Step(s, x, c), r, e)
    ensures SpawnsLeft(Step(s, x, c), r, e) <= SpawnsLeft(s, r, e)
    ensures SuccessLeft(Step(s, x, c), r, e) ==> SuccessLeft(s, r, e)
  {
    hide Inv, Known, Unclaimed, Step, CanStep, Finish;
    StepFrame(s, x, c);
    StepWritesOnlyOwnRun(s, x, c, r);
    if Step(s, x, c).runs[r] != s.runs[r] {
      Facts(s, x);
      RunFact(s, r);
      KnownIsClaimed(s.execs[e].pc, s.runs[r]);
      FinishKeepsTheRest(s.runs[r], if s.execs[x].pc.res.WasCancelled? then Cancelled else Failed);
    }
  }

  lemma CancelledStep(s: State, ev: Event, r: RunId, e: ExecId)
    requires Inv(s) && Enabled(s, ev) && TokenCancelled(s, r, e)
    ensures TokenCancelled(Apply(s, ev), r, e)
    ensures SpawnsLeft(Apply(s, ev), r, e) <= SpawnsLeft(s, r, e)
    ensures SuccessLeft(Apply(s, ev), r, e) ==> SuccessLeft(s, r, e)
  {
    hide Inv, Step, CanStep, Rewrite;
    if ev.Do? {
      if ev.e == e {
        CancelledOwnStep(s, ev.c, r, e);
      } else {
        OthersStep(s, ev.e, ev.c, r, e);
      }
    }
  }

  lemma {:induction false} CancelledAfter(s: State, evs: seq<Event>, r: RunId, e: ExecId)
    requires Inv(s) && Valid(s, evs) && TokenCancelled(s, r, e)
    ensures TokenCancelled(After(s, evs), r, e)
    ensures SpawnsLeft(After(s, evs), r, e) <= SpawnsLeft(s, r, e)
    ensures SuccessLeft(After(s, evs), r, e) ==> SuccessLeft(s, r, e)
    decreases |evs|
  {
    hide Inv, Apply, Enabled, TokenCancelled, AboutToSpawn, AboutToSucceed;
    if evs != [] {
      CancelledStep(s, evs[0], r, e);
      ApplyKeepsInv(s, evs[0]);
      CancelledAfter(Apply(s, evs[0]), evs[1..], r, e);
    }
  }

  /** Some continuation starts another command of the run. */
  ghost predicate MayStartCommand(s: State, r: RunId) {
    exists evs: seq<Event> :: Valid(s, evs) && r in s.runs && r in After(s, evs).runs
                              && After(s, evs).runs[r].spawned != s.runs[r].spawned
  }

  /** Some continuation makes the run a success. */
  ghost predicate MaySucceed(s: State, r: RunId) {
    exists evs: seq<Event> :: Valid(s, evs) && r in After(s, evs).runs && After(s, evs).runs[r].status == Success
  }

  /** Once the claimant's token is cancelled, a command can still be started exactly when the executor has
      made its last check and not yet spawned; and then only that one command. */
  lemma CancellationStopsCommands(s: State, r: RunId, e: ExecId)
    requires Reachable(s) && TokenCancelled(s, r, e)
    ensures MayStartCommand(s, r) <==> AboutToSpawn(s, e)
    ensures forall evs: seq<Event> :: Valid(s, evs) ==>
                                        r in After(s, evs).runs
                                        && |After(s, evs).runs[r].spawned| <= |s.runs[r].spawned| + 1
  {
    ReachableInv(s);
    hide Reachable, Inv, FullListing;
    forall evs: seq<Event> | Valid(s, evs)
      ensures r in After(s, evs).runs && |After(s, evs).runs[r].spawned| <= |s.runs[r].spawned| + 1
      ensures !AboutToSpawn(s, e) ==> After(s, evs).runs[r].spawned == s.runs[r].spawned
    {
      hide TokenCancelled, AboutToSpawn;
      CancelledAfter(s, evs, r, e);
      RunsEvolve(s, evs, r);
    }
    if AboutToSpawn(s, e) {
      SpawnHappens(s, r, e);
    }
  }

  lemma SpawnHappens(s: State, r: RunId, e: ExecId)
    requires Inv(s) && TokenCancelled(s, r, e) && AboutToSpawn(s, e)
    ensures MayStartCommand(s, r)
  {
    hide Inv;
    Facts(s, e);
    KnownInRange(s.execs[e].pc.at, s.runs[r]);
    hide Known, Unclaimed, TokenOk;
    assert CanStep(s, e, Go);
    OneEvent(s, Do(e, Go));
    assert Step(s, e, Go).runs[r].spawned == s.runs[r].spawned + [s.execs[e].pc.at.i];
  }

  /** Once the claimant's token is cancelled, the run can still become a success exactly when the final
      check is behind the claimant and the UPDATE before it. */
  lemma CancellationStopsSuccess(s: State, r: RunId, e: ExecId)
    requires Reachable(s) && TokenCancelled(s, r, e) && s.runs[r].status != Success
    ensures MaySucceed(s, r) <==> AboutToSucceed(s, e)
  {
    ReachableInv(s);
    hide Reachable, Inv;
    forall evs: seq<Event> | Valid(s, evs) && !AboutToSucceed(s, e)
      ensures r in After(s, evs).runs && After(s, evs).runs[r].status != Success
    {
      hide TokenCancelled, AboutToSpawn;
      CancelledAfter(s, evs, r, e);
      RunsEvolve(s, evs, r);
    }
    if AboutToSucceed(s, e) {
      SuccessHappens(s, r, e);
    }
  }

  lemma SuccessHappens(s: State, r: RunId, e: ExecId)
    requires Inv(s) && TokenCancelled(s, r, e) && AboutToSucceed(s, e)
    ensures MaySucceed(s, r)
  {
    hide Inv;
    Facts(s, e);
    KnownInRange(s.execs[e].pc.at, s.runs[r]);
    InsideIsRunning(s.execs[e].pc.at, s.runs[r]);
    hide Known, Unclaimed, TokenOk;
    assert CanStep(s, e, Go);
    OneEvent(s, Do(e, Go));
  }

  // ---- A fault before the claim ----

  ghost predicate HasEnabledStage(run: Run) {
    exists i :: 0 <= i < |run.defs| && run.defs[i].enabled
  }

  /** When an executor that claimed nothing runs `fail_running_run` on a run (a database error in its first
      query would do that), the rows stay right exactly if the run is not pending with an enabled stage
      and not in the hands of a claimant that has not left yet. */
  lemma EarlyFaultHarmlessExactlyWhen(s: State, r: RunId)
    requires Reachable(s) && r in s.runs
    ensures RunOk(s.runs[r := Finish(s.runs[r], Failed)], s.execs, r) <==>
            match s.runs[r].owner
            case None => s.runs[r].status.Cancelled? || !HasEnabledStage(s.runs[r])
            case Some(o) => Terminal(s.runs[r].status) || (o < |s.execs| && Gone(s.execs[o].pc))
  {
    ReachableInv(s);
    hide Reachable, Inv;
    RunFact(s, r);
    var run := s.runs[r];
    if run.owner.Some? {
      ForeignFinishOfClaimed(s.execs[run.owner.value].pc, run);
    } else {
      ForeignFinishOfUnclaimed(run);
    }
    hide Known, Unclaimed, Finish, HasEnabledStage;
    FinishKeepsTheRest(run, Failed);
  }

  lemma ForeignFinishOfClaimed(pc: Pc, run: Run)
    requires Known(pc, run)
    ensures Known(pc, Finish(run, Failed)) <==> Terminal(run.status) || Gone(pc)
  {
    KnownIsClaimed(pc, run);
    if Ended(run) {
      EndedIsFinal(run, Failed);
    } else if Gone(pc) {
      DuplicateFinaliserKeepsKnown(pc, run);
    } else {
      NotEndedIsRunning(pc, run);
      hide Rewrite;
    }
  }

  lemma ForeignFinishOfUnclaimed(run: Run)
    requires Unclaimed(run)
    ensures Unclaimed(Finish(run, Failed)) <==> run.status.Cancelled? || !HasEnabledStage(run)
  {
    var after := Finish(run, Failed);
    if run.status.Pending? && HasEnabledStage(run) {
      var i :| 0 <= i < |run.defs| && run.defs[i].enabled;
      assert after.cells[i].status == Skipped;
    } else {
      assert after.cells == run.cells;
    }
  }
}
