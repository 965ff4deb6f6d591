/** What the invariant means for a user: over every interleaving of executors, duplicates, cancels,
    retries and configuration changes. */
module EngineTheorems {
  import opened Wrappers
  import opened Runs
  import opened Engine
  import opened Ownership
  import opened EngineInvariant
  import opened EngineSteps
  import opened LogListing
  import Locks = ProjectLocks

  // ---- Stage patterns ----

  lemma EndedWellShaped(run: Run)
    requires Ended(run)
    ensures WellShaped(run)
  {
    var k: nat :| EndedAt(run, k);
    if run.status.Success? {
      AllSuccess(run);
    } else if Shaped(run, k, Skipped, Skipped) {
      CutMatches(run, k, Skipped);
    } else {
      MarkedMatches(run, k, run.status, Skipped);
    }
  }

  lemma AbandonedWellShaped(run: Run, k: nat, fault: bool)
    requires AbandonedAt(run, k, fault)
    ensures WellShaped(run)
  {
    if Between(run, k) {
      CutMatches(run, k, Pending);
    } else if AtWork(run, k, false) || AtWork(run, k, true) {
      MarkedMatches(run, k, Running, Pending);
    } else if Stopped(run, k, Pending) {
      MarkedMatches(run, k, Failed, Pending);
    } else {
      MarkedMatches(run, k, Failed, Skipped);
    }
  }

  /** The stage the claimant has come to. */
  function StageOf(at: Point, run: Run): nat {
    if AtStage(at) || at.StageTop? then at.i else if at.MarkSuccess? then |run.defs| else 0
  }

  /** Inside `execute_inner` the claimant's run is as if it were abandoned on the spot. */
  lemma KnownAtAbandoned(at: Point, run: Run)
    requires KnownAt(at, run)
    ensures AbandonedAt(run, StageOf(at, run), true)
  {
  }

  lemma KnownWellShaped(pc: Pc, run: Run)
    requires Known(pc, run)
    ensures WellShaped(run)
  {
    hide WellShaped;
    if Ended(run) {
      EndedWellShaped(run);
    } else if pc.Inside? {
      KnownAtAbandoned(pc.at, run);
      AbandonedWellShaped(run, StageOf(pc.at, run), true);
    } else {
      assert Abandoned(run, pc.res.Fault?);
      var k: nat :| AbandonedAt(run, k, pc.res.Fault?);
      AbandonedWellShaped(run, k, pc.res.Fault?);
    }
  }

  /** In every reachable state the enabled stages of every run match the pattern of its status, and the
      disabled ones are skipped. */
  lemma StagePatterns(s: State, r: RunId)
    requires Reachable(s) && r in s.runs
    ensures WellShaped(s.runs[r])
  {
    ReachableInv(s);
    hide Known, Unclaimed, WellShaped, Reachable, LocksOk, ExecOk, TokenOk;
    assert RunOk(s.runs, s.execs, r);
    if s.runs[r].owner.Some? {
      KnownWellShaped(s.execs[s.runs[r].owner.value].pc, s.runs[r]);
    } else {
      UnclaimedWellShaped(s.runs[r]);
    }
  }

  lemma UnclaimedWellShaped(run: Run)
    requires Unclaimed(run)
    ensures WellShaped(run)
  {
    UniformStatuses(run, run.status);
  }

  // ---- Ownership ----

  /** Which events can write a run's rows while its claimant is inside `execute_inner`, or before anyone
      has claimed it, or after it has ended. */
  ghost predicate MayWrite(s: State, r: RunId, ev: Event)
    requires r in s.runs
  {
    if s.runs[r].owner.None? then
      ev == CancelUnclaimed(r) || (ev.Do? && ev.e < |s.execs| && s.execs[ev.e] == Executor(r, s.execs[ev.e].git, Claim))
    else
      && !Ended(s.runs[r])
      && ev.Do? && ev.e < |s.execs| && s.execs[ev.e].run == r
      && (ev.e == s.runs[r].owner.value || Duplicate(s.execs[ev.e].pc))
  }

  /** The next step is a finaliser transaction. */
  predicate FinalisesRows(pc: Pc) {
    pc.Finalise? && !pc.res.Done? && !pc.res.NotPending?
  }

  lemma StepWritesOnlyOwnRun(s: State, e: ExecId, c: Choice, r: RunId)
    requires e < |s.execs| && CanStep(s, e, c) && r in s.runs
    ensures r in Step(s, e, c).runs
    ensures Step(s, e, c).runs[r] != s.runs[r] ==>
              s.execs[e].run == r && (s.execs[e].pc.Claim? || s.execs[e].pc.Inside? || FinalisesRows(s.execs[e].pc))
    ensures FinalisesRows(s.execs[e].pc) && s.execs[e].run == r ==>
              Step(s, e, c).runs[r] == Finish(s.runs[r], if s.execs[e].pc.res.WasCancelled? then Cancelled else Failed)
    ensures s.execs[e].pc.Claim? && s.runs[r].status != Pending ==> Step(s, e, c).runs[r] == s.runs[r]
  {
    hide Finish, Fits, Advance, InRange, Locks.Take, Locks.Acquire, Locks.CanAcquire, Locks.Release;
    if s.execs[e].pc.Inside? {
      hide Enter, Leave;
    } else if Entering(s.execs[e].pc) {
      hide Leave;
    } else {
      hide Enter;
    }
  }

  /** No event but these changes a row of the run, statuses and logs included. In particular the UPDATEs
      without a guard (lines 274 and 286) meet no other writer, and a terminal run never changes again. */
  lemma OnlyTheseWrite(s: State, ev: Event, r: RunId)
    requires Inv(s) && Enabled(s, ev) && r in s.runs
    ensures r in Apply(s, ev).runs
    ensures Apply(s, ev).runs[r] != s.runs[r] ==> MayWrite(s, r, ev)
  {
    hide Inv, Known, Unclaimed, Ended, Step, CanStep, Finish, CancelUnstarted;
    assert RunOk(s.runs, s.execs, r) by { RunFact(s, r); }
    if ev.Do? {
      StepWritesOnlyOwnRun(s, ev.e, ev.c, r);
      if s.execs[ev.e].run == r {
        StepWriterMayWrite(s, ev.e, ev.c);
      }
    } else if ev == CancelUnclaimed(r) && s.runs[r].owner.Some? {
      KnownIsClaimed(s.execs[s.runs[r].owner.value].pc, s.runs[r]);
      CancelOnlyPending(s.runs[r]);
    }
  }

  lemma CancelOnlyPending(run: Run)
    requires run.status != Pending
    ensures CancelUnstarted(run) == run
  {
  }

  lemma RunFact(s: State, r: RunId)
    requires Inv(s) && r in s.runs
    ensures RunOk(s.runs, s.execs, r)
  {
  }

  lemma StepWriterMayWrite(s: State, e: ExecId, c: Choice)
    requires Inv(s) && e < |s.execs| && CanStep(s, e, c) && s.execs[e].run in s.runs
    ensures s.execs[e].run in Step(s, e, c).runs
    ensures Step(s, e, c).runs[s.execs[e].run] != s.runs[s.execs[e].run] ==> MayWrite(s, s.execs[e].run, Do(e, c))
  {
    hide Inv, Known, Unclaimed, Step, CanStep, Finish, Ended;
    Facts(s, e);
    var Executor(r, git, pc) := s.execs[e];
    var run := s.runs[r];
    StepWritesOnlyOwnRun(s, e, c, r);
    if Step(s, e, c).runs[r] != run {
      if run.owner.Some? {
        KnownIsClaimed(s.execs[run.owner.value].pc, run);
        if pc.Inside? {
          InsideNotEnded(pc, run);
        } else if Ended(run) {
          EndedIsFinal(run, if pc.res.WasCancelled? then Cancelled else Failed);
        }
      }
    }
  }

  lemma InsideNotEnded(pc: Pc, run: Run)
    requires Known(pc, run) && pc.Inside?
    ensures !Ended(run)
  {
  }

  // ---- How the rows of a run may change over time ----

  /** `b` is a later state of the rows `a`. */
  ghost predicate Evolves(a: Run, b: Run) {
    && a.project == b.project && a.number == b.number && a.branch == b.branch && a.retryOf == b.retryOf
    && a.defs == b.defs
    && (a.owner.Some? ==> b.owner == a.owner)
    && (a.status != Pending ==> b.status != Pending)
    && (Terminal(a.status) ==> b == a)
    && a.spawned <= b.spawned
    && FullListing(a) <= FullListing(b)
  }

  lemma AdvanceKeepsLogs(at: Point, run: Run, git: bool, cancelled: bool, c: Choice)
    requires InRange(at, run) && Fits(at, run, cancelled, c) && !c.Log?
    ensures var after := Advance(at, run, git, cancelled, c).run;
            && run.spawned <= after.spawned
            && |after.cells| == |run.cells|
            && forall i :: 0 <= i < |run.cells| ==> after.cells[i].logs == run.cells[i].logs
  {
  }

  lemma AdvanceLogs(at: Point, run: Run, git: bool, cancelled: bool, c: Choice)
    requires Known(Inside(at), run) && InRange(at, run) && Fits(at, run, cancelled, c) && c.Log?
    ensures var after := Advance(at, run, git, cancelled, c).run;
            && after == run.(cells := after.cells)
            && FullListing(run) <= FullListing(after)
  {
    if AtWork(run, at.i, false) {
      NotYetSpawned(run.defs, at.i);
    }
    AppendExtendsListing(run.cells, at.i, c.row);
  }

  lemma AdvanceEvolves(at: Point, run: Run, git: bool, cancelled: bool, c: Choice)
    requires Known(Inside(at), run) && InRange(at, run) && Fits(at, run, cancelled, c)
    ensures Evolves(run, Advance(at, run, git, cancelled, c).run)
  {
    hide Known, Fits;
    var after := Advance(at, run, git, cancelled, c).run;
    InsideIsRunning(at, run);
    AdvanceKeepsSkeleton(at, run, git, cancelled, c);
    if c.Log? {
      AdvanceLogs(at, run, git, cancelled, c);
    } else {
      AdvanceKeepsLogs(at, run, git, cancelled, c);
      SameLogsSameListing(run.cells, after.cells, |run.cells|);
      hide Advance;
    }
    assert after.status != Pending by { AdvanceNotPending(at, run, git, cancelled, c); }
  }

  lemma AdvanceNotPending(at: Point, run: Run, git: bool, cancelled: bool, c: Choice)
    requires InRange(at, run) && Fits(at, run, cancelled, c) && run.status != Pending
    ensures Advance(at, run, git, cancelled, c).run.status != Pending
  {
  }

  lemma InsideIsRunning(at: Point, run: Run)
    requires Known(Inside(at), run)
    ensures run.status == Running && run.owner.Some?
  {
  }

  lemma SameCellsSameListing(a: Run, b: Run)
    requires a.cells == b.cells
    ensures FullListing(a) == FullListing(b)
  {
  }

  lemma RewriteEvolves(run: Run, to: Status)
    requires !Terminal(run.status) && to != Pending
    ensures run.status == Running ==> Evolves(run, Finish(run, to))
    ensures Evolves(run, CancelUnstarted(run))
  {
    SameLogsSameListing(run.cells, Finish(run, to).cells, |run.cells|);
    SameLogsSameListing(run.cells, CancelUnstarted(run).cells, |run.cells|);
  }

  lemma StepEvolves(s: State, e: ExecId, c: Choice)
    requires Inv(s) && e < |s.execs| && CanStep(s, e, c) && s.execs[e].run in s.runs
    ensures s.execs[e].run in Step(s, e, c).runs
    ensures Evolves(s.runs[s.execs[e].run], Step(s, e, c).runs[s.execs[e].run])
  {
    hide Inv, Known, Unclaimed, Advance, Finish, FullListing, Fits;
    Facts(s, e);
    var Executor(r, git, pc) := s.execs[e];
    var run := s.runs[r];
    if pc.Inside? {
      AdvanceEvolves(pc.at, run, git, e in s.cancelled, c);
    } else if Step(s, e, c).runs[r] != run {
      if run.owner.Some? {
        KnownIsClaimed(s.execs[run.owner.value].pc, run);
      }
      SameCellsSameListing(run, run.(status := Running, owner := Some(e)));
      if pc.Finalise? {
        var to := if pc.res.WasCancelled? then Cancelled else Failed;
        if Ended(run) {
          EndedIsFinal(run, to);
        } else {
          NotEndedIsRunning(s.execs[run.owner.value].pc, run);
          RewriteEvolves(run, to);
        }
      }
    }
  }

  lemma NotEndedIsRunning(pc: Pc, run: Run)
    requires Known(pc, run) && !Ended(run)
    ensures run.status == Running
  {
  }

  lemma ApplyEvolves(s: State, ev: Event, r: RunId)
    requires Inv(s) && Enabled(s, ev) && r in s.runs
    ensures r in Apply(s, ev).runs && Evolves(s.runs[r], Apply(s, ev).runs[r])
  {
    hide Inv, Step, CanStep, Known, Unclaimed, FullListing, CancelUnstarted;
    if ev.Do? {
      StepWritesOnlyOwnRun(s, ev.e, ev.c, r);
      if s.execs[ev.e].run == r {
        StepEvolves(s, ev.e, ev.c);
      }
    } else if ev == CancelUnclaimed(r) {
      if s.runs[r].status == Pending {
        RewriteEvolves(s.runs[r], Failed);
      } else {
        CancelOnlyPending(s.runs[r]);
      }
    }
  }

  /** While its claimant is inside `execute_inner`, nothing anybody else does changes a row of the run. */
  lemma ClaimantIsAlone(s: State, ev: Event, e: ExecId)
    requires Inv(s) && Enabled(s, ev) && e < |s.execs| && s.execs[e].pc.Inside?
    requires ev.Do? ==> ev.e != e
    ensures s.execs[e].run in s.runs && s.execs[e].run in Apply(s, ev).runs
    ensures Apply(s, ev).runs[s.execs[e].run] == s.runs[s.execs[e].run]
  {
    hide Inv, Apply, Known, Unclaimed;
    Facts(s, e);
    var r := s.execs[e].run;
    OnlyTheseWrite(s, ev, r);
    if Apply(s, ev).runs[r] != s.runs[r] {
      Facts(s, ev.e);
    }
  }

  /** Over any continuation of any interleaving: the skeleton of a run never changes, it is claimed at most
      once, success, failed and cancelled are final for every column of its rows, the commands started
      are only ever added to, and what was read from its log listing is a prefix of what is read later. */
  lemma {:induction false} RunsEvolve(s: State, evs: seq<Event>, r: RunId)
    requires Inv(s) && Valid(s, evs) && r in s.runs
    ensures r in After(s, evs).runs && Evolves(s.runs[r], After(s, evs).runs[r])
    decreases |evs|
  {
    hide Inv, Apply, Enabled;
    if evs != [] {
      ApplyEvolves(s, evs[0], r);
      ApplyKeepsInv(s, evs[0]);
      RunsEvolve(Apply(s, evs[0]), evs[1..], r);
    }
  }
}
