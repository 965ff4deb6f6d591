/** What a database error before the claim would do: `execute_mode` answers it with `fail_running_run`, which
    looks neither at who has claimed the run nor, for the stages, at the status of the run. */
module EarlyFault {
  import opened Wrappers
  import opened Runs
  import opened Engine
  import opened Ownership
  import opened EngineInvariant
  import opened EngineSteps
  import opened EngineTheorems
  import opened EngineSafety
  import Locks = ProjectLocks

  // ---- The rows at once ----

  lemma {:induction false} StatusIsListed(run: Run, i: nat)
    requires |run.cells| == |run.defs| && i < |run.defs| && run.defs[i].enabled
    ensures run.cells[i].status in EnabledStatuses(run.defs, run.cells)
    decreases i
  {
    HeadAndTail(run);
    if i > 0 {
      StatusIsListed(Tail(run), i - 1);
    }
  }

  lemma UnclaimedAfterFault(run: Run)
    requires Unclaimed(run)
    ensures WellShaped(Finish(run, Failed)) <==> !(run.status.Pending? && HasEnabledStage(run))
  {
    var after := Finish(run, Failed);
    if run.status.Pending? && HasEnabledStage(run) {
      var i :| 0 <= i < |run.defs| && run.defs[i].enabled;
      StatusIsListed(after, i);
    } else {
      assert after.cells == run.cells;
      UnclaimedWellShaped(run);
    }
  }

  lemma ClaimedAfterFault(pc: Pc, run: Run)
    requires Known(pc, run)
    ensures WellShaped(Finish(run, Failed))
  {
    hide WellShaped, Finish;
    if Ended(run) {
      EndedIsFinal(run, Failed);
      EndedWellShaped(run);
    } else {
      var k := AbandonedSomewhere(pc, run);
      FinishEnds(run, k, true, Failed);
      EndedWellShaped(Finish(run, Failed));
    }
  }

  lemma AbandonedSomewhere(pc: Pc, run: Run) returns (k: nat)
    requires Known(pc, run) && !Ended(run)
    ensures AbandonedAt(run, k, true)
  {
    if pc.Inside? {
      KnownAtAbandoned(pc.at, run);
      k := StageOf(pc.at, run);
    } else {
      k :| AbandonedAt(run, k, pc.res.Fault?);
    }
  }

  /** The fault breaks the pattern of a run's stages if and only if the run is pending and has an enabled stage. */
  lemma PatternBreaksExactlyWhen(s: State, r: RunId)
    requires Reachable(s) && r in s.runs
    ensures WellShaped(Finish(s.runs[r], Failed)) <==> !(s.runs[r].status.Pending? && HasEnabledStage(s.runs[r]))
  {
    ReachableInv(s);
    hide Reachable, Inv, WellShaped, Finish, Known, Unclaimed;
    RunFact(s, r);
    if s.runs[r].owner.Some? {
      KnownIsClaimed(s.execs[s.runs[r].owner.value].pc, s.runs[r]);
      ClaimedAfterFault(s.execs[s.runs[r].owner.value].pc, s.runs[r]);
    } else {
      UnclaimedAfterFault(s.runs[r]);
    }
  }

  // ---- The rows later: a claimant that does not know that its run was failed ----

  ghost function AfterFault(s: State, r: RunId): State
    requires r in s.runs
  {
    s.(runs := s.runs[r := Finish(s.runs[r], Failed)])
  }

  /** The same columns; what was spawned is history. */
  predicate SameRows(a: Run, b: Run) {
    a.status == b.status && a.cells == b.cells && a.commit == b.commit
  }

  /** Some continuation changes the rows. */
  ghost predicate MayOverwrite(s: State, r: RunId, row: Run) {
    exists evs: seq<Event> :: Valid(s, evs) && r in After(s, evs).runs && !SameRows(row, After(s, evs).runs[r])
  }

  /** The claimant has an unguarded write before it that differs from what a fault has written. */
  predicate WritesOn(at: Point, run: Run)
    requires InRange(at, run)
  {
    match at
    case Launch(_) | Spawn(_) | Executing(_) => true
    case Drain(i, exit) => !exit.Broken? || (i in run.spawned && LogBytes(run.cells[i].logs) < MAX_LOG_BYTES)
    case SaveTruncated(i, exit, flag) => exit.Succeeded? || flag != run.cells[i].truncated
    case FinishStage(_, ok) => ok
    case _ => false
  }

  /** Between the claim of a stage and its result. */
  predicate AtWorkOn(at: Point) {
    at.Launch? || at.Spawn? || at.Executing? || at.Drain? || at.SaveTruncated? || at.FinishStage?
  }

  /** The row is failed, nothing of it is open, and the stage at work is failed. */
  ghost predicate Failing(at: Point, row: Run) {
    && InRange(at, row) && row.status == Failed && Closed(row)
    && (AtWorkOn(at) ==> row.cells[at.i].status == Failed)
  }

  ghost predicate Closed(row: Run) {
    && Terminal(row.status)
    && forall i :: 0 <= i < |row.cells| ==> !row.cells[i].status.Pending? && !row.cells[i].status.Running?
  }

  lemma FaultFails(at: Point, run: Run)
    requires Known(Inside(at), run)
    ensures InRange(at, run) && Failing(at, Finish(run, Failed))
    ensures WritesOn(at, Finish(run, Failed)) <==> WritesOn(at, run)
  {
    InsideIsRunning(at, run);
  }

  lemma FaultCloses(pc: Pc, run: Run)
    requires Known(pc, run)
    ensures Closed(Finish(run, Failed))
  {
    hide Finish;
    if Ended(run) {
      EndedIsFinal(run, Failed);
      EndedHasNothingOpen(run);
    } else {
      var k := AbandonedSomewhere(pc, run);
      FinishEnds(run, k, true, Failed);
      EndedHasNothingOpen(Finish(run, Failed));
    }
  }

  lemma CloseIsFinal(row: Run, to: Status)
    requires Closed(row)
    ensures Finish(row, to) == row
  {
    assert Finish(row, to).cells == row.cells;
  }

  /** Where no such write is before it, the claimant leaves the rows as they are until it is out. */
  lemma CalmAdvance(at: Point, row: Run, git: bool, cancelled: bool, c: Choice)
    requires Failing(at, row) && !WritesOn(at, row) && Fits(at, row, cancelled, c)
    ensures var m := Advance(at, row, git, cancelled, c);
            m.run == row && (m.pc.Inside? ==> Failing(m.pc.at, row) && !WritesOn(m.pc.at, row))
  {
    var m := Advance(at, row, git, cancelled, c);
    assert m.run.cells == row.cells;
  }

  /** Nobody will change the rows of `r`: its claimant `e` is out, or calm. */
  ghost predicate Quiet(s: State, r: RunId, e: ExecId, row: Run) {
    && r in s.runs && s.runs[r] == row && Closed(row)
    && forall y: ExecId :: y < |s.execs| && s.execs[y].run == r && s.execs[y].pc.Inside? ==>
                             y == e && Failing(s.execs[y].pc.at, row) && !WritesOn(s.execs[y].pc.at, row)
  }

  /** One gets inside only by a claim. */
  lemma ComesInside(s: State, y: ExecId)
    requires y < |s.execs| && CanStep(s, y, Go) && !s.execs[y].pc.Inside?
    ensures y < |Step(s, y, Go).execs|
    ensures Step(s, y, Go).execs[y].pc.Inside? ==> s.execs[y].pc.Claim? && s.runs[s.execs[y].run].status == Pending
  {
    hide Advance, Fits, Finish, Locks.Take, Locks.Acquire, Locks.CanAcquire, Locks.Release;
    if Entering(s.execs[y].pc) {
      hide Leave;
      EnterFrame(s, y);
    } else {
      hide Enter;
      LeaveFrame(s, y);
      LeavesForGood(s, y);
      hide Leave;
    }
  }

  lemma LeavesForGood(s: State, y: ExecId)
    requires y < |s.execs| && CanStep(s, y, Go) && !s.execs[y].pc.Inside? && !Entering(s.execs[y].pc)
    ensures y < |Leave(s, y).execs| && !Leave(s, y).execs[y].pc.Inside?
  {
    hide Finish, Locks.Release, CanStep;
    match s.execs[y].pc
    case DropGlobal(_) =>
    case DropProject(_) =>
    case Finalise(_) =>
    case _ =>
  }

  lemma StaysQuiet(s: State, ev: Event, r: RunId, e: ExecId, row: Run)
    requires Enabled(s, ev) && Quiet(s, r, e, row)
    ensures Quiet(Apply(s, ev), r, e, row)
  {
    hide Step, CanStep, WritesOn, Failing, Closed;
    assert row.status != Pending by { ClosedIsTerminal(row); }
    if ev.Do? {
      QuietStep(s, ev.e, ev.c, r, e, row);
    } else if ev == CancelUnclaimed(r) {
      CancelOnlyPending(row);
    }
  }

  lemma ClosedIsTerminal(row: Run)
    requires Closed(row)
    ensures row.status != Pending
  {
  }

  lemma QuietStep(s: State, y: ExecId, c: Choice, r: RunId, e: ExecId, row: Run)
    requires y < |s.execs| && CanStep(s, y, c) && Quiet(s, r, e, row)
    ensures Quiet(Step(s, y, c), r, e, row)
  {
    hide WritesOn, Failing, Closed, Advance, Fits, Enter, Leave;
    ClosedIsTerminal(row);
    StepFrame(s, y, c);
    StepWritesOnlyOwnRun(s, y, c, r);
    if s.execs[y].run == r {
      if s.execs[y].pc.Inside? {
        CalmAdvance(s.execs[y].pc.at, row, s.execs[y].git, y in s.cancelled, c);
      } else {
        hide Step, CanStep;
        assert c == Go by { OutsideGoes(s, y, c); }
        ComesInside(s, y);
        CloseIsFinal(row, Failed);
        CloseIsFinal(row, Cancelled);
      }
    }
  }

  lemma OutsideGoes(s: State, y: ExecId, c: Choice)
    requires y < |s.execs| && CanStep(s, y, c) && !s.execs[y].pc.Inside?
    ensures c == Go
  {
  }

  lemma {:induction false} QuietAfter(s: State, evs: seq<Event>, r: RunId, e: ExecId, row: Run)
    requires Valid(s, evs) && Quiet(s, r, e, row)
    ensures Quiet(After(s, evs), r, e, row)
    decreases |evs|
  {
    hide Apply, Enabled, Quiet;
    if evs != [] {
      StaysQuiet(s, evs[0], r, e, row);
      QuietAfter(Apply(s, evs[0]), evs[1..], r, e, row);
    }
  }

  lemma OverwritesLater(s: State, ev: Event, r: RunId, row: Run)
    requires Enabled(s, ev) && MayOverwrite(Apply(s, ev), r, row)
    ensures MayOverwrite(s, r, row)
  {
    hide Apply, Enabled, SameRows;
    var s' := Apply(s, ev);
    var evs: seq<Event> :| Valid(s', evs) && r in After(s', evs).runs && !SameRows(row, After(s', evs).runs[r]);
    assert ([ev] + evs)[1..] == evs;
    assert Valid(s, [ev] + evs) && After(s, [ev] + evs) == After(s', evs);
  }

  lemma OverwrittenNow(s: State, r: RunId, row: Run)
    requires r in s.runs && !SameRows(row, s.runs[r])
    ensures MayOverwrite(s, r, row)
  {
    assert Valid(s, []) && After(s, []) == s;
  }

  /** The step of the claimant that leads to the write. */
  function Onward(at: Point, run: Run): Choice
    requires InRange(at, run)
  {
    match at
    case Executing(_) => Exits(Succeeded)
    case Drain(i, exit) =>
      if exit.Broken? then Log(LogRow(|run.cells[i].logs|, Stdout, [0])) else Written(!run.cells[i].truncated)
    case _ => Go
  }

  lemma OnwardWrites(at: Point, run: Run, git: bool, cancelled: bool)
    requires Failing(at, run) && WritesOn(at, run)
    ensures Fits(at, run, cancelled, Onward(at, run))
    ensures var m := Advance(at, run, git, cancelled, Onward(at, run));
            || !SameRows(run, m.run)
            || (SameRows(run, m.run) && m.pc.Inside? && Failing(m.pc.at, m.run) && WritesOn(m.pc.at, m.run)
                && Later(at) > Later(m.pc.at))
  {
    var c := Onward(at, run);
    var m := Advance(at, run, git, cancelled, c);
    if at.Drain? && at.exit.Broken? {
      assert m.run.cells[at.i].logs != run.cells[at.i].logs;
    } else if at.SaveTruncated? {
      if at.flag == run.cells[at.i].truncated {
        assert m.run.cells == run.cells;
      } else {
        assert m.run.cells[at.i] != run.cells[at.i];
      }
    } else if at.FinishStage? {
      assert m.run.cells[at.i] != run.cells[at.i];
    }
  }

  function Later(at: Point): nat {
    if at.Launch? then 5 else if at.Spawn? then 4 else if at.Executing? then 3 else if at.Drain? then 2
    else if at.SaveTruncated? then 1 else 0
  }

  lemma {:induction false} Overwrites(s: State, r: RunId, e: ExecId, row: Run)
    requires r in s.runs && e < |s.execs| && s.execs[e].run == r && s.execs[e].pc.Inside? && SameRows(row, s.runs[r])
    requires Failing(s.execs[e].pc.at, s.runs[r]) && WritesOn(s.execs[e].pc.at, s.runs[r])
    ensures MayOverwrite(s, r, row)
    decreases Later(s.execs[e].pc.at)
  {
    var Executor(_, git, pc) := s.execs[e];
    hide MayOverwrite, Advance, Fits, WritesOn, Failing, Onward;
    assert InRange(pc.at, s.runs[r]) by { FailingInRange(pc.at, s.runs[r]); }
    var c := Onward(pc.at, s.runs[r]);
    OnwardWrites(pc.at, s.runs[r], git, e in s.cancelled);
    var s' := Apply(s, Do(e, c));
    if SameRows(row, s'.runs[r]) {
      Overwrites(s', r, e, row);
    } else {
      OverwrittenNow(s', r, row);
    }
    OverwritesLater(s, Do(e, c), r, row);
  }

  lemma FailingInRange(at: Point, row: Run)
    requires Failing(at, row)
    ensures InRange(at, row)
  {
  }

  /** The claimant is inside `execute_inner` with such a write before it. */
  predicate StillWrites(s: State, r: RunId, e: ExecId)
    requires r in s.runs
  {
    e < |s.execs| && s.execs[e].pc.Inside? && InRange(s.execs[e].pc.at, s.runs[r])
    && WritesOn(s.execs[e].pc.at, s.runs[r])
  }

  lemma FaultIsOverwritten(s: State, r: RunId, e: ExecId)
    requires Inv(s) && r in s.runs && s.runs[r].owner == Some(e) && StillWrites(s, r, e)
    ensures MayOverwrite(AfterFault(s, r), r, Finish(s.runs[r], Failed))
  {
    hide Inv, Known, Unclaimed, Finish, MayOverwrite, Failing, WritesOn;
    RunFact(s, r);
    FaultFails(s.execs[e].pc.at, s.runs[r]);
    Overwrites(AfterFault(s, r), r, e, Finish(s.runs[r], Failed));
  }

  lemma FaultStays(s: State, r: RunId, e: ExecId)
    requires Inv(s) && r in s.runs && s.runs[r].owner == Some(e) && !StillWrites(s, r, e)
    ensures Closed(Finish(s.runs[r], Failed)) && Quiet(AfterFault(s, r), r, e, Finish(s.runs[r], Failed))
  {
    hide Inv, Known, Unclaimed, Finish, Failing, WritesOn, Closed;
    RunFact(s, r);
    FaultCloses(s.execs[e].pc, s.runs[r]);
    if s.execs[e].pc.Inside? {
      FaultFails(s.execs[e].pc.at, s.runs[r]);
    }
    InsideIsTheClaimant(s, r, e);
  }

  /** After the fault a claimed run is closed; its rows can still change if and only if its claimant is inside
      `execute_inner` with an unguarded write before it. */
  lemma OverwrittenExactlyWhen(s: State, r: RunId, e: ExecId)
    requires Reachable(s) && r in s.runs && s.runs[r].owner == Some(e)
    ensures Closed(Finish(s.runs[r], Failed))
    ensures MayOverwrite(AfterFault(s, r), r, Finish(s.runs[r], Failed)) <==> StillWrites(s, r, e)
  {
    ReachableInv(s);
    hide Reachable, Inv, Known, Finish, MayOverwrite, StillWrites, Closed, Quiet;
    if StillWrites(s, r, e) {
      FaultIsOverwritten(s, r, e);
      assert Closed(Finish(s.runs[r], Failed)) by {
        RunFact(s, r);
        FaultCloses(s.execs[e].pc, s.runs[r]);
      }
    } else {
      FaultStays(s, r, e);
      NeverOverwritten(AfterFault(s, r), r, e, Finish(s.runs[r], Failed));
    }
  }

  lemma InsideIsTheClaimant(s: State, r: RunId, e: ExecId)
    requires Inv(s) && r in s.runs && s.runs[r].owner == Some(e)
    ensures forall y: ExecId :: y < |s.execs| && s.execs[y].run == r && s.execs[y].pc.Inside? ==> y == e
  {
    hide Inv;
    forall y: ExecId | y < |s.execs| && s.execs[y].run == r && s.execs[y].pc.Inside? ensures y == e {
      Facts(s, y);
    }
  }

  lemma NeverOverwritten(s: State, r: RunId, e: ExecId, row: Run)
    requires Quiet(s, r, e, row)
    ensures !MayOverwrite(s, r, row)
  {
    hide Valid, After;
    forall evs: seq<Event> | Valid(s, evs) ensures r in After(s, evs).runs && SameRows(row, After(s, evs).runs[r]) {
      QuietAfter(s, evs, r, e, row);
    }
  }
}
