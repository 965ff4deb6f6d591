/** What the claimant of a run knows about the run's rows at each of its program points, and that
    its own steps keep it. */
module Ownership {
  import opened Wrappers
  import opened Runs
  import opened Engine

  /** The rows of a run nobody has claimed. */
  ghost predicate Unclaimed(run: Run) {
    && run.owner.None?
    && run.spawned == []
    && NoLogsFrom(run, 0)
    && ((run.status.Pending? && Shaped(run, 0, Pending, Pending))
        || (run.status.Cancelled? && Shaped(run, 0, Cancelled, Cancelled)))
  }

  /** Between stages: everything before `k` is done, nothing from `k` on has begun. */
  ghost predicate Between(run: Run, k: nat) {
    && run.status.Running?
    && k <= |run.defs|
    && Shaped(run, k, Pending, Pending)
    && run.spawned == EnabledBelow(run.defs, k)
    && NoLogsFrom(run, k)
  }

  /** Stage `k` is marked as running; its command may have been started. */
  ghost predicate AtWork(run: Run, k: nat, started: bool) {
    && run.status.Running?
    && k < |run.defs| && run.defs[k].enabled
    && Shaped(run, k, Running, Pending)
    && run.spawned == EnabledBelow(run.defs, if started then k + 1 else k)
    && NoLogsFrom(run, if started then k + 1 else k)
  }

  /** Stage `k` has failed; the stages after it are still to be skipped, or are skipped. */
  ghost predicate Stopped(run: Run, k: nat, rest: Status) {
    && run.status.Running?
    && k < |run.defs| && run.defs[k].enabled
    && Shaped(run, k, Failed, rest)
    && run.spawned == EnabledBelow(run.defs, k + 1)
  }

  ghost predicate SpawnedPrefix(run: Run) {
    exists k: nat :: k <= |run.defs| && run.spawned == EnabledBelow(run.defs, k)
  }

  /** Stage `k` is where a claimed run ended. */
  ghost predicate EndedAt(run: Run, k: nat) {
    match run.status
    case Success => k == |run.defs| && Shaped(run, k, Success, Success)
    case Failed => k <= |run.defs|
                   && (Shaped(run, k, Skipped, Skipped)
                       || (k < |run.defs| && run.defs[k].enabled && Shaped(run, k, Failed, Skipped)))
    case Cancelled => k <= |run.defs|
                      && (Shaped(run, k, Skipped, Skipped)
                          || (k < |run.defs| && run.defs[k].enabled && Shaped(run, k, Cancelled, Skipped)))
    case _ => false
  }

  ghost predicate Ended(run: Run) {
    SpawnedPrefix(run) && exists k: nat :: EndedAt(run, k)
  }

  /** Still running in the database, though its claimant has given up at or after stage `k`. */
  ghost predicate AbandonedAt(run: Run, k: nat, fault: bool) {
    || Between(run, k)
    || AtWork(run, k, false) || AtWork(run, k, true)
    || (fault && (Stopped(run, k, Pending) || Stopped(run, k, Skipped)))
  }

  ghost predicate Abandoned(run: Run, fault: bool) {
    exists k: nat :: AbandonedAt(run, k, fault)
  }

  /** The rows when `execute_inner` has returned `res` and nobody else has looked at the run. */
  ghost predicate LeftBehind(run: Run, res: Outcome) {
    match res
    case Done => Ended(run) && !run.status.Cancelled?
    case WasCancelled => Abandoned(run, false)
    case Fault => Abandoned(run, true)
    case _ => false
  }

  /** The claimant's knowledge inside `execute_inner`. */
  ghost predicate KnownAt(at: Point, run: Run) {
    match at
    case CheckStart | Load | Prepare | GitCheck | GitSync | GitRecheck(_) | Record(_) => Between(run, 0)
    case StageTop(i) => Between(run, i)
    case ClaimStage(i) => Between(run, i) && i < |run.defs| && run.defs[i].enabled
    case Launch(i) => AtWork(run, i, false)
    case Spawn(i) => AtWork(run, i, false)
    case Executing(i) => AtWork(run, i, true)
    case Drain(i, exit) => AtWork(run, i, true) || ((exit.Interrupted? || exit.Broken?) && AtWork(run, i, false))
    case SaveTruncated(i, exit, _) => !exit.Broken?
                                      && (AtWork(run, i, true) || (exit.Interrupted? && AtWork(run, i, false)))
    case FinishStage(i, _) => AtWork(run, i, true)
    case SkipRest(i) => Stopped(run, i, Pending)
    case FailRun(i) => Stopped(run, i, Skipped)
    case MarkSuccess => Between(run, |run.defs|)
  }

  ghost predicate Claimants(run: Run) {
    |run.cells| == |run.defs| && AllLogsOk(run) && run.owner.Some?
  }

  /** Only the claimant of a run returns one of these from `execute_inner`. */
  predicate OwnersOutcome(res: Outcome) {
    res.Done? || res.WasCancelled? || res.Fault?
  }

  /** The claimant's knowledge anywhere. Only between its release of the project permit and its own finaliser
      can somebody else (a duplicate that was told AlreadyRunning) have failed the run. */
  ghost predicate Known(pc: Pc, run: Run) {
    && Claimants(run)
    && match pc
       case Inside(at) => KnownAt(at, run)
       case DropGlobal(res) => LeftBehind(run, res)
       case DropProject(res) => LeftBehind(run, res)
       case Finalise(res) => LeftBehind(run, res)
                             || ((res.WasCancelled? || res.Fault?) && Ended(run) && run.status.Failed?)
       case Deregister(res) => Ended(run) && OwnersOutcome(res)
       case Returned(res) => Ended(run) && OwnersOutcome(res)
       case _ => false
  }

  /** The columns a step of the claimant never touches. */
  predicate SameSkeleton(a: Run, b: Run) {
    a.project == b.project && a.number == b.number && a.branch == b.branch && a.retryOf == b.retryOf && a.defs == b.defs
    && a.owner == b.owner
  }

  lemma AdvanceKeepsSkeleton(at: Point, run: Run, git: bool, cancelled: bool, c: Choice)
    requires InRange(at, run) && Fits(at, run, cancelled, c)
    ensures SameSkeleton(run, Advance(at, run, git, cancelled, c).run)
  {
  }

  lemma KnownInRange(at: Point, run: Run)
    requires Known(Inside(at), run)
    ensures InRange(at, run)
  {
  }

  lemma AdvanceStaysOrLeaves(at: Point, run: Run, git: bool, cancelled: bool, c: Choice)
    requires InRange(at, run) && Fits(at, run, cancelled, c)
    ensures var m := Advance(at, run, git, cancelled, c); m.pc.Inside? || (m.pc.DropGlobal? && OwnersOutcome(m.pc.res))
  {
  }

  /** The claimant's steps keep what it knows. */
  lemma AdvanceKeepsKnown(at: Point, run: Run, git: bool, cancelled: bool, c: Choice)
    requires Known(Inside(at), run) && InRange(at, run) && Fits(at, run, cancelled, c)
    ensures var m := Advance(at, run, git, cancelled, c); Known(m.pc, m.run)
  {
    if c.Fails? && !at.Spawn? {
      FailKeepsKnown(at, run, cancelled, c);
    } else if c.Log? {
      LogKeepsKnown(at, run, c.row);
    } else if at.StageTop? {
      TopKeepsKnown(at, run, git, cancelled, c);
    } else if at.ClaimStage? {
      ClaimStageKeepsKnown(at, run, git, cancelled, c);
    } else if at.Launch? || at.Spawn? || at.Executing? || at.Drain? {
      CommandKeepsKnown(at, run, git, cancelled, c);
    } else if at.SaveTruncated? {
      SaveKeepsKnown(at, run, git, cancelled, c);
    } else if at.FinishStage? {
      FinishStageKeepsKnown(at, run, git, cancelled, c);
    } else if at.SkipRest? || at.FailRun? {
      GiveUpKeepsKnown(at, run, git, cancelled, c);
    } else {
      PrologueKeepsKnown(at, run, git, cancelled, c);
    }
  }

  lemma FailKeepsKnown(at: Point, run: Run, cancelled: bool, c: Choice)
    requires Known(Inside(at), run) && InRange(at, run) && Fits(at, run, cancelled, c) && c.Fails?
    ensures Known(DropGlobal(Fault), run)
  {
    var k := if AtStage(at) then at.i else if at.MarkSuccess? then |run.defs| else 0;
    assert AbandonedAt(run, k, true);
  }

  lemma LogKeepsKnown(at: Point, run: Run, row: LogRow)
    requires (at.Executing? || at.Drain?) && Known(Inside(at), run) && at.i in run.spawned
    requires Appendable(run.cells[at.i].logs, row)
    ensures Known(Inside(at), run.(cells := run.cells[at.i := run.cells[at.i].(logs := run.cells[at.i].logs + [row])]))
  {
    AppendLog(run.cells[at.i].logs, row);
    if AtWork(run, at.i, false) {
      NotYetSpawned(run.defs, at.i);
    }
    hide LogBytes, Appendable, EnabledBelow;
  }

  lemma {:induction false} NotYetSpawned(defs: seq<StageDef>, k: nat)
    requires k <= |defs|
    ensures forall i :: i in EnabledBelow(defs, k) ==> i < k
  {
    if k > 0 {
      NotYetSpawned(defs, k - 1);
    }
  }

  lemma PrologueKeepsKnown(at: Point, run: Run, git: bool, cancelled: bool, c: Choice)
    requires Known(Inside(at), run) && InRange(at, run) && Fits(at, run, cancelled, c)
    requires !AtStage(at) && !at.StageTop? && !c.Fails?
    ensures var m := Advance(at, run, git, cancelled, c); Known(m.pc, m.run)
  {
    var m := Advance(at, run, git, cancelled, c);
    if m.pc.DropGlobal? {
      if at.MarkSuccess? {
        assert EndedAt(m.run, |run.defs|);
      } else {
        assert AbandonedAt(run, 0, false);
      }
    }
  }

  lemma TopKeepsKnown(at: Point, run: Run, git: bool, cancelled: bool, c: Choice)
    requires at.StageTop? && Known(Inside(at), run) && InRange(at, run) && Fits(at, run, cancelled, c) && !c.Fails?
    ensures var m := Advance(at, run, git, cancelled, c); Known(m.pc, m.run)
  {
    var m := Advance(at, run, git, cancelled, c);
    if m.pc.DropGlobal? {
      assert AbandonedAt(run, at.i, false);
    } else if m.pc.Inside? && m.pc.at.StageTop? {
      assert Shaped(m.run, at.i + 1, Pending, Pending);
    }
  }

  lemma ClaimStageKeepsKnown(at: Point, run: Run, git: bool, cancelled: bool, c: Choice)
    requires at.ClaimStage? && Known(Inside(at), run) && InRange(at, run) && Fits(at, run, cancelled, c) && !c.Fails?
    ensures var m := Advance(at, run, git, cancelled, c); Known(m.pc, m.run)
  {
    assert Shaped(Advance(at, run, git, cancelled, c).run, at.i, Running, Pending);
  }

  lemma CommandKeepsKnown(at: Point, run: Run, git: bool, cancelled: bool, c: Choice)
    requires at.Launch? || at.Spawn? || at.Executing? || at.Drain?
    requires Known(Inside(at), run) && InRange(at, run) && Fits(at, run, cancelled, c) && !c.Log?
    requires (c.Fails? ==> at.Spawn?)
    ensures var m := Advance(at, run, git, cancelled, c); Known(m.pc, m.run)
  {
    var m := Advance(at, run, git, cancelled, c);
    if m.pc.DropGlobal? {
      assert AbandonedAt(run, at.i, m.pc.res.Fault?);
    }
  }

  lemma SaveKeepsKnown(at: Point, run: Run, git: bool, cancelled: bool, c: Choice)
    requires at.SaveTruncated? && Known(Inside(at), run) && InRange(at, run) && Fits(at, run, cancelled, c) && !c.Fails?
    ensures var m := Advance(at, run, git, cancelled, c); Known(m.pc, m.run)
  {
    var m := Advance(at, run, git, cancelled, c);
    assert AtWork(run, at.i, true) ==> AtWork(m.run, at.i, true);
    assert AtWork(run, at.i, false) ==> AtWork(m.run, at.i, false);
    if m.pc.DropGlobal? {
      assert AbandonedAt(m.run, at.i, false);
    }
  }

  lemma FinishStageKeepsKnown(at: Point, run: Run, git: bool, cancelled: bool, c: Choice)
    requires at.FinishStage? && Known(Inside(at), run) && InRange(at, run) && Fits(at, run, cancelled, c) && !c.Fails?
    ensures var m := Advance(at, run, git, cancelled, c); Known(m.pc, m.run)
  {
    var m := Advance(at, run, git, cancelled, c);
    if at.ok {
      assert Shaped(m.run, at.i + 1, Pending, Pending);
    } else {
      assert Shaped(m.run, at.i, Failed, Pending);
    }
  }

  lemma GiveUpKeepsKnown(at: Point, run: Run, git: bool, cancelled: bool, c: Choice)
    requires (at.SkipRest? || at.FailRun?) && Known(Inside(at), run) && InRange(at, run)
    requires Fits(at, run, cancelled, c) && !c.Fails?
    ensures var m := Advance(at, run, git, cancelled, c); Known(m.pc, m.run)
  {
    var m := Advance(at, run, git, cancelled, c);
    if at.FailRun? {
      assert EndedAt(m.run, at.i);
      assert m.run.spawned == EnabledBelow(m.run.defs, at.i + 1);
    } else {
      assert Shaped(m.run, at.i, Failed, Skipped);
    }
  }

  // ---- Finalisers ----

  /** Giving the permits back changes nothing the claimant knows. */
  lemma LeavingKeepsKnown(res: Outcome, run: Run)
    ensures Known(DropGlobal(res), run) <==> Known(DropProject(res), run)
    ensures Known(DropProject(res), run) ==> Known(Finalise(res), run)
    ensures Known(Finalise(Done), run) ==> Known(Returned(Done), run)
    ensures Known(Deregister(res), run) <==> Known(Returned(res), run)
  {
    hide Claimants, Ended, Abandoned;
  }

  /** The claim turns an unclaimed pending run into what its claimant then knows. */
  lemma ClaimMakesKnown(run: Run, e: ExecId)
    requires Unclaimed(run) && run.status.Pending?
    ensures Known(Inside(CheckStart), run.(status := Running, owner := Some(e)))
  {
    assert EnabledBelow(run.defs, 0) == [];
  }

  lemma KnownIsClaimed(pc: Pc, run: Run)
    requires Known(pc, run)
    ensures !run.status.Pending? && (Terminal(run.status) <==> Ended(run))
  {
  }

  /** A finaliser does nothing to a run that has ended. */
  lemma EndedIsFinal(run: Run, to: Status)
    requires Ended(run)
    ensures Finish(run, to) == run
  {
    var cells := Finish(run, to).cells;
    forall i | 0 <= i < |run.cells| ensures cells[i] == run.cells[i] {
    }
    assert cells == run.cells;
  }

  lemma FinishEnds(run: Run, k: nat, fault: bool, to: Status)
    requires AbandonedAt(run, k, fault) && (to.Failed? || (to.Cancelled? && !fault))
    ensures Ended(Finish(run, to)) && Finish(run, to).status == to
  {
    var done := Finish(run, to);
    if Between(run, k) {
      assert Shaped(done, k, Skipped, Skipped);
    } else if Stopped(run, k, Pending) || Stopped(run, k, Skipped) {
      assert Shaped(done, k, Failed, Skipped);
    } else {
      assert Shaped(done, k, to, Skipped);
    }
    assert EndedAt(done, k);
    assert done.spawned == run.spawned && done.defs == run.defs;
  }

  /** The claimant's own finaliser ends the run. */
  lemma OwnFinaliserEnds(res: Outcome, run: Run, to: Status)
    requires Known(Finalise(res), run) && !res.Done?
    requires to == if res.WasCancelled? then Cancelled else Failed
    ensures Known(Deregister(res), Finish(run, to))
  {
    if Ended(run) {
      EndedIsFinal(run, to);
    } else {
      var k: nat :| AbandonedAt(run, k, res.Fault?);
      FinishEnds(run, k, res.Fault?, to);
    }
  }

  /** The finaliser of a duplicate call leaves the claimant with what it may know. */
  lemma DuplicateFinaliserKeepsKnown(pc: Pc, run: Run)
    requires (pc.Finalise? || pc.Deregister? || pc.Returned?) && Known(pc, run)
    ensures Known(pc, Finish(run, Failed))
  {
    if Ended(run) {
      EndedIsFinal(run, Failed);
    } else {
      var k: nat :| AbandonedAt(run, k, pc.res.Fault?);
      FinishEnds(run, k, pc.res.Fault?, Failed);
    }
  }
}
