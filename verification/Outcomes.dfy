/** What the columns of a stage end up as, over any continuation: the flag its log writer returned, and the status
    that the end of its run gives it. */
module Outcomes {
  import opened Wrappers
  import opened Runs
  import opened Engine
  import opened Ownership
  import opened EngineInvariant
  import opened EngineSteps
  import opened EngineTheorems
  import opened TokenMap
  import opened Cancellation

  // ---- logs_truncated ----

  /** The claimant will not come back to stage `i`. */
  predicate PastStage(pc: Pc, i: nat) {
    if pc.Inside? then
      || ((pc.at.FinishStage? || pc.at.SkipRest? || pc.at.FailRun?) && pc.at.i >= i)
      || (pc.at.StageTop? && pc.at.i > i)
      || (AtStage(pc.at) && pc.at.i > i)
      || pc.at.MarkSuccess?
    else Leaving(pc)
  }

  lemma AdvanceStaysPast(at: Point, run: Run, git: bool, cancelled: bool, c: Choice, i: nat)
    requires InRange(at, run) && Fits(at, run, cancelled, c) && PastStage(Inside(at), i) && i < |run.cells|
    ensures var m := Advance(at, run, git, cancelled, c);
            PastStage(m.pc, i) && |m.run.cells| == |run.cells| && m.run.cells[i].truncated == run.cells[i].truncated
  {
  }

  /** `e` is the claimant of `r` and past stage `i`, whose flag is stored. */
  ghost predicate FlagStored(s: State, r: RunId, e: ExecId, i: nat, flag: bool) {
    && Claimant(s, r, e) && PastStage(s.execs[e].pc, i)
    && i < |s.runs[r].cells| && s.runs[r].cells[i].truncated == flag
  }

  lemma FinishKeepsFlags(run: Run, to: Status, i: nat)
    requires i < |run.cells|
    ensures |Finish(run, to).cells| == |run.cells| && Finish(run, to).cells[i].truncated == run.cells[i].truncated
  {
  }

  lemma OwnStepKeepsFlag(s: State, c: Choice, r: RunId, e: ExecId, i: nat, flag: bool)
    requires Inv(s) && FlagStored(s, r, e, i, flag) && CanStep(s, e, c)
    ensures FlagStored(Step(s, e, c), r, e, i, flag)
  {
    hide Inv, Advance, Fits, Finish;
    StaysClaimant(s, Do(e, c), r, e);
    if s.execs[e].pc.Inside? {
      AdvanceStaysPast(s.execs[e].pc.at, s.runs[r], s.execs[e].git, e in s.cancelled, c, i);
    } else {
      hide Step;
      StepWritesOnlyOwnRun(s, e, c, r);
      FinishKeepsFlags(s.runs[r], Cancelled, i);
      FinishKeepsFlags(s.runs[r], Failed, i);
      LeavingStep(s, e, c);
      LeavingStays(s, e);
    }
  }

  lemma LeavingStep(s: State, e: ExecId, c: Choice)
    requires e < |s.execs| && CanStep(s, e, c) && Leaving(s.execs[e].pc)
    ensures c == Go && Step(s, e, c) == Leave(s, e)
  {
    hide Leave, Enter, Advance;
  }

  lemma LeavingStays(s: State, e: ExecId)
    requires e < |s.execs| && CanStep(s, e, Go) && Leaving(s.execs[e].pc)
    ensures e < |Leave(s, e).execs| && Leaving(Leave(s, e).execs[e].pc)
    ensures Leave(s, e).execs[e].pc.res == s.execs[e].pc.res
  {
    hide Finish, Locks.Release, CanStep;
    match s.execs[e].pc
    case DropGlobal(_) =>
    case DropProject(_) =>
    case Finalise(_) =>
    case _ =>
  }

  lemma OthersKeepFlag(s: State, ev: Event, r: RunId, e: ExecId, i: nat, flag: bool)
    requires Inv(s) && FlagStored(s, r, e, i, flag) && Enabled(s, ev) && (ev.Do? ==> ev.e != e)
    ensures FlagStored(Apply(s, ev), r, e, i, flag)
  {
    hide Inv, Step, CanStep, Finish;
    StaysClaimant(s, ev, r, e);
    OnlyTheseWrite(s, ev, r);
    if ev.Do? {
      StepFrame(s, ev.e, ev.c);
      StepWritesOnlyOwnRun(s, ev.e, ev.c, r);
      FinishKeepsFlags(s.runs[r], Cancelled, i);
      FinishKeepsFlags(s.runs[r], Failed, i);
    }
  }

  lemma {:induction false} FlagStays(s: State, evs: seq<Event>, r: RunId, e: ExecId, i: nat, flag: bool)
    requires Inv(s) && FlagStored(s, r, e, i, flag) && Valid(s, evs)
    ensures FlagStored(After(s, evs), r, e, i, flag)
    decreases |evs|
  {
    hide Inv, FlagStored, Apply, Enabled;
    if evs != [] {
      if evs[0].Do? && evs[0].e == e {
        hide Step, CanStep;
        assert Enabled(s, evs[0]) && CanStep(s, e, evs[0].c) && Apply(s, evs[0]) == Step(s, e, evs[0].c) by {
          DoIsStep(s, evs[0]);
        }
        OwnStepKeepsFlag(s, evs[0].c, r, e, i, flag);
      } else {
        OthersKeepFlag(s, evs[0], r, e, i, flag);
      }
      ApplyKeepsInv(s, evs[0]);
      FlagStays(Apply(s, evs[0]), evs[1..], r, e, i, flag);
    }
  }

  lemma DoIsStep(s: State, ev: Event)
    requires ev.Do? && Enabled(s, ev)
    ensures ev.e < |s.execs| && CanStep(s, ev.e, ev.c) && Apply(s, ev) == Step(s, ev.e, ev.c)
  {
  }

  lemma StoredIsThere(s: State, r: RunId, e: ExecId, i: nat, flag: bool)
    requires FlagStored(s, r, e, i, flag)
    ensures r in s.runs && i < |s.runs[r].cells| && s.runs[r].cells[i].truncated == flag
  {
  }

  lemma AdvanceStores(at: Point, run: Run, git: bool, cancelled: bool)
    requires at.SaveTruncated? && InRange(at, run) && Fits(at, run, cancelled, Go)
    ensures var m := Advance(at, run, git, cancelled, Go);
            PastStage(m.pc, at.i) && |m.run.cells| == |run.cells| && m.run.cells[at.i].truncated == at.flag
  {
  }

  lemma SaveStores(s: State, e: ExecId)
    requires Inv(s) && e < |s.execs| && s.execs[e].pc.Inside? && s.execs[e].pc.at.SaveTruncated? && CanStep(s, e, Go)
    ensures FlagStored(Step(s, e, Go), s.execs[e].run, e, s.execs[e].pc.at.i, s.execs[e].pc.at.flag)
  {
    hide Inv, Advance, Fits, Known, Unclaimed;
    var r := s.execs[e].run;
    Facts(s, e);
    OwnerIsClaimant(s, r, e);
    StaysClaimant(s, Do(e, Go), r, e);
    AdvanceStores(s.execs[e].pc.at, s.runs[r], s.execs[e].git, e in s.cancelled);
  }

  /** Whatever the command came to: from the statement on that stores the flag of the log writer, and unless that
      statement fails, the stage has this flag for ever. */
  lemma WritersFlagIsFinal(s: State, e: ExecId, i: nat, exit: Exit, flag: bool, evs: seq<Event>)
    requires Reachable(s) && e < |s.execs| && s.execs[e].pc == Inside(SaveTruncated(i, exit, flag)) && CanStep(s, e, Go)
    requires Valid(Step(s, e, Go), evs)
    ensures var r, later := s.execs[e].run, After(Step(s, e, Go), evs);
            r in later.runs && i < |later.runs[r].cells| && later.runs[r].cells[i].truncated == flag
  {
    ReachableInv(s);
    hide Reachable, Inv, FlagStored, Step, CanStep, Valid, After;
    var r := s.execs[e].run;
    StepKeepsInv(s, e, Go);
    SaveStores(s, e);
    FlagStays(Step(s, e, Go), evs, r, e, i, flag);
    StoredIsThere(After(Step(s, e, Go), evs), r, e, i, flag);
  }

  // ---- Statuses at the end ----

  /** `b` is what the end of a run makes of the rows `a`: a stage at work gets the status of the run, one that has not
      begun is skipped, the others keep theirs. */
  ghost predicate EndedFrom(a: Run, b: Run) {
    && (b.status == Failed || b.status == Cancelled)
    && |b.cells| == |a.cells|
    && forall j :: 0 <= j < |a.cells| ==>
                     && b.cells[j].logs == a.cells[j].logs && b.cells[j].truncated == a.cells[j].truncated
                     && b.cells[j].status == if a.cells[j].status == Running then b.status
                                             else if a.cells[j].status == Pending then Skipped else a.cells[j].status
  }

  lemma FinishEndsFrom(run: Run, to: Status)
    requires run.status == Running && (to == Failed || to == Cancelled)
    ensures EndedFrom(run, Finish(run, to)) && Finish(run, to).status == to
  {
  }

  /** The claimant is on its way out, and the rows are as it left them, or ended from there. */
  ghost predicate LeftAs(s: State, r: RunId, e: ExecId, row: Run) {
    && Claimant(s, r, e) && Leaving(s.execs[e].pc) && (s.execs[e].pc.res.WasCancelled? || s.execs[e].pc.res.Fault?)
    && row.status == Running && (s.runs[r] == row || EndedFrom(row, s.runs[r]))
  }

  lemma StaysLeft(s: State, ev: Event, r: RunId, e: ExecId, row: Run)
    requires Inv(s) && Enabled(s, ev) && LeftAs(s, r, e, row)
    ensures LeftAs(Apply(s, ev), r, e, row)
  {
    hide Inv, Step, CanStep, Finish, EndedFrom;
    StaysClaimant(s, ev, r, e);
    OnlyTheseWrite(s, ev, r);
    if ev.Do? {
      StepFrame(s, ev.e, ev.c);
      StepWritesOnlyOwnRun(s, ev.e, ev.c, r);
      if ev.e == e {
        LeavingStep(s, e, ev.c);
        LeavingStays(s, e);
      }
      if Apply(s, ev).runs[r] != s.runs[r] {
        WriterFindsItRunning(s, ev, r, e, row);
        FinishEndsFrom(row, Cancelled);
        FinishEndsFrom(row, Failed);
      }
    } else if ev == CancelUnclaimed(r) {
      EndedNotPending(s.runs[r], row);
      CancelOnlyPending(s.runs[r]);
    }
  }

  lemma EndedNotPending(b: Run, row: Run)
    requires row.status == Running && (b == row || EndedFrom(row, b))
    ensures b.status != Pending && (Terminal(b.status) <==> b != row)
  {
  }

  /** A row that has ended is not written again. */
  lemma WriterFindsItRunning(s: State, ev: Event, r: RunId, e: ExecId, row: Run)
    requires Inv(s) && Enabled(s, ev) && LeftAs(s, r, e, row)
    requires r in Apply(s, ev).runs && Apply(s, ev).runs[r] != s.runs[r]
    ensures s.runs[r] == row
  {
    hide Inv, Apply, Enabled;
    ApplyEvolves(s, ev, r);
    EndedNotPending(s.runs[r], row);
  }

  lemma {:induction false} LeftAfter(s: State, evs: seq<Event>, r: RunId, e: ExecId, row: Run)
    requires Inv(s) && Valid(s, evs) && LeftAs(s, r, e, row)
    ensures LeftAs(After(s, evs), r, e, row)
    decreases |evs|
  {
    hide Inv, LeftAs, Apply, Enabled;
    if evs != [] {
      StaysLeft(s, evs[0], r, e, row);
      ApplyKeepsInv(s, evs[0]);
      LeftAfter(Apply(s, evs[0]), evs[1..], r, e, row);
    }
  }

  /** A claimant has given up its running run, cancelled or after a fault. Whoever ends the run: a stage that was at
      work ends cancelled if the run does, and failed if the run does; one that had not begun is skipped; the others,
      and all logs and flags, stay as they were. */
  lemma StagesEndWithTheRun(s: State, r: RunId, e: ExecId, evs: seq<Event>, j: nat)
    requires Reachable(s) && r in s.runs && s.runs[r].status == Running && s.runs[r].owner == Some(e)
    requires e < |s.execs| && !s.execs[e].pc.Inside? && j < |s.runs[r].cells|
    requires Valid(s, evs)
    ensures r in After(s, evs).runs && j < |After(s, evs).runs[r].cells|
    ensures var was, now, status := s.runs[r].cells[j], After(s, evs).runs[r].cells[j], After(s, evs).runs[r].status;
            && (status == Running || status == Cancelled || status == Failed)
            && now.logs == was.logs && now.truncated == was.truncated
            && (status == Running ==> now == was)
            && (status == Cancelled && was.status == Running ==> now.status == Cancelled)
            && (status == Failed && was.status == Running ==> now.status == Failed)
            && (status != Running && was.status == Pending ==> now.status == Skipped)
            && (was.status != Running && was.status != Pending ==> now.status == was.status)
  {
    ReachableInv(s);
    hide Reachable, Inv, Valid, After;
    RunningClaimant(s, r, e);
    LeftAfter(s, evs, r, e, s.runs[r]);
  }
}
