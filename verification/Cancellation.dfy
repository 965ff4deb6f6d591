/** How a run can still end as failed once its cancellation has been accepted: exactly which program points of
    the claimant, and which other calls, make that possible. */
module Cancellation {
  import opened Wrappers
  import opened Runs
  import opened Engine
  import opened Ownership
  import opened EngineInvariant
  import opened EngineSteps
  import opened EngineTheorems
  import opened EngineProgress
  import opened TokenMap
  import opened Arrival
  import opened LogListing
  import Locks = ProjectLocks

  /** Some continuation ends with the run failed. */
  ghost predicate MayFail(s: State, r: RunId) {
    exists evs: seq<Event> :: Valid(s, evs) && r in After(s, evs).runs && After(s, evs).runs[r].status == Failed
  }

  /** The claimant looks at its token next. */
  predicate IsTokenCheck(at: Point) {
    at.CheckStart? || at.GitCheck? || at.GitRecheck? || at.StageTop?
  }

  /** The claimant itself can still fail the run: a statement, git or the command that is under way can fail
      before the token is looked at again, or something has already failed. */
  predicate MayFailItself(pc: Pc) {
    (pc.Inside? && !IsTokenCheck(pc.at)) || (Leaving(pc) && pc.res.Fault?)
  }

  /** Told AlreadyRunning, and its finaliser is still to come. */
  predicate UnfinishedDuplicate(pc: Pc) {
    (pc.DropGlobal? || pc.DropProject? || pc.Finalise?) && pc.res.AlreadyRunning?
  }

  /** Call `x` of the run is such a duplicate, or on its way to meet the claimant's token in the map. */
  predicate Threatens(s: State, r: RunId, e: ExecId, x: ExecId) {
    && x < |s.execs| && x != e && s.execs[x].run == r
    && (UnfinishedDuplicate(s.execs[x].pc)
        || (Registered(s, r, e) && (Queueing(s.execs[x].pc) || s.execs[x].pc.Register?)))
  }

  /** The claimant has only token checks before it, or it has seen that it is cancelled. */
  ghost predicate Doomed(s: State, r: RunId, e: ExecId) {
    && Claimant(s, r, e)
    && var pc := s.execs[e].pc;
    || (pc.Inside? && IsTokenCheck(pc.at) && e in s.cancelled)
    || (Leaving(pc) && pc.res.WasCancelled?)
  }

  // ---- If nobody threatens it, a doomed run cannot fail ----

  ghost predicate Unthreatened(s: State, r: RunId, e: ExecId) {
    && Doomed(s, r, e)
    && (s.runs[r].status == Running || s.runs[r].status == Cancelled)
    && forall x :: !Threatens(s, r, e, x)
  }

  lemma CheckStops(at: Point, run: Run, git: bool, c: Choice)
    requires InRange(at, run) && Fits(at, run, true, c) && IsTokenCheck(at)
    ensures var m := Advance(at, run, git, true, c);
            && m.run == run
            && (m.pc == DropGlobal(WasCancelled) || (m.pc.Inside? && IsTokenCheck(m.pc.at)))
  {
  }

  /** A step of the doomed claimant. */
  lemma DoomedStep(s: State, c: Choice, r: RunId, e: ExecId)
    requires Inv(s) && Doomed(s, r, e) && CanStep(s, e, c)
    requires s.runs[r].status == Running || s.runs[r].status == Cancelled
    ensures Doomed(Step(s, e, c), r, e)
    ensures Step(s, e, c).runs[r].status == Running || Step(s, e, c).runs[r].status == Cancelled
  {
    hide Inv, Known, Unclaimed, Fits, Advance, Claimant, Leave;
    ClaimantIs(s, r, e);
    StaysClaimant(s, Do(e, c), r, e);
    StepFrame(s, e, c);
    var pc := s.execs[e].pc;
    if pc.Inside? {
      CheckStops(pc.at, s.runs[r], s.execs[e].git, c);
    } else {
      DoomedLeaves(s, r, e);
    }
  }

  lemma ClaimantIs(s: State, r: RunId, e: ExecId)
    requires Claimant(s, r, e)
    ensures r in s.runs && e < |s.execs| && s.execs[e].run == r && Claimed(s.execs[e].pc)
  {
  }

  lemma DoomedLeaves(s: State, r: RunId, e: ExecId)
    requires e < |s.execs| && s.execs[e].run == r && r in s.runs && CanStep(s, e, Go)
    requires Leaving(s.execs[e].pc) && s.execs[e].pc.res.WasCancelled?
    requires s.runs[r].status == Running || s.runs[r].status == Cancelled
    ensures var s' := Leave(s, e);
            && e < |s'.execs| && r in s'.runs && Leaving(s'.execs[e].pc) && s'.execs[e].pc.res.WasCancelled?
            && (s'.runs[r].status == Running || s'.runs[r].status == Cancelled)
  {
    hide Rewrite, CanStep, Locks.Release;
    match s.execs[e].pc
    case DropGlobal(_) =>
    case DropProject(_) =>
    case Finalise(_) =>
    case _ =>
  }

  /** Nobody becomes a threat who was none. */
  lemma NoNewThreat(s: State, ev: Event, r: RunId, e: ExecId, x: ExecId)
    requires Inv(s) && TokensOk(s) && Enabled(s, ev) && Claimant(s, r, e)
    requires Threatens(Apply(s, ev), r, e, x)
    ensures Threatens(s, r, e, x)
  {
    hide Inv, Step, CanStep, TokensOk;
    EventOnToken(s, ev, r, e);
    if ev.Do? {
      StepFrame(s, ev.e, ev.c);
      if ev.e == x {
        ThreatOfStep(s, x, ev.c, r, e);
      }
    }
  }

  lemma ThreatOfStep(s: State, x: ExecId, c: Choice, r: RunId, e: ExecId)
    requires Inv(s) && TokensOk(s) && x < |s.execs| && CanStep(s, x, c) && Claimant(s, r, e)
    requires Threatens(Step(s, x, c), r, e, x)
    requires Registered(Step(s, x, c), r, e) ==> Registered(s, r, e)
    ensures Threatens(s, r, e, x)
  {
    hide Inv, Step, CanStep, TokensOk, Known, Unclaimed;
    StepFrame(s, x, c);
    Comes(s, x, c);
    RunFact(s, r);
    KnownIsClaimed(s.execs[e].pc, s.runs[r]);
    if s.execs[x].pc.Register? && r in s.running && s.running[r] != e {
      // The token found is that of a claimant, so it is that of `e`.
      TokenFoundIsStale(s, x);
    }
  }

  /** Where the points at which a call threatens a run are reached from. */
  ghost predicate CameFrom(s: State, s': State, x: ExecId)
    requires x < |s.execs|
  {
    && x < |s'.execs|
    && var Executor(r, _, pc) := s.execs[x];
    var to := s'.execs[x].pc;
    && (Queueing(to) || to.Register? ==> Queueing(pc) || (pc.Lookup? && r in s.runs && s.runs[r].status == Pending))
    && (UnfinishedDuplicate(to) ==> UnfinishedDuplicate(pc) || (pc.Register? && r in s.running))
  }

  lemma Comes(s: State, x: ExecId, c: Choice)
    requires x < |s.execs| && CanStep(s, x, c)
    ensures CameFrom(s, Step(s, x, c), x)
  {
    var Executor(r, git, pc) := s.execs[x];
    hide Fits, InRange, Enter, Leave, Advance;
    if pc.Inside? {
      AdvanceStaysOrLeaves(pc.at, s.runs[r], git, x in s.cancelled, c);
    } else {
      hide CameFrom;
      if Entering(pc) {
        EnterComes(s, x);
      } else {
        LeaveComes(s, x);
      }
    }
  }

  lemma EnterComes(s: State, x: ExecId)
    requires x < |s.execs| && CanStep(s, x, Go) && Entering(s.execs[x].pc)
    ensures CameFrom(s, Enter(s, x), x)
  {
    hide Locks.Take, Locks.Acquire, Locks.CanAcquire;
  }

  lemma LeaveComes(s: State, x: ExecId)
    requires x < |s.execs| && CanStep(s, x, Go) && !s.execs[x].pc.Inside? && !Entering(s.execs[x].pc)
    ensures CameFrom(s, Leave(s, x), x)
  {
    hide Finish, Locks.Release;
  }

  /** Only an unfinished duplicate could write the rows of a doomed run besides its claimant. */
  lemma OthersLeaveDoomed(s: State, ev: Event, r: RunId, e: ExecId)
    requires Inv(s) && Enabled(s, ev) && Doomed(s, r, e) && (ev.Do? ==> ev.e != e)
    requires forall x :: !Threatens(s, r, e, x)
    ensures Doomed(Apply(s, ev), r, e) && Apply(s, ev).runs[r] == s.runs[r]
  {
    hide Inv, Step, CanStep;
    StaysClaimant(s, ev, r, e);
    OnlyTheseWrite(s, ev, r);
    if ev.Do? {
      StepFrame(s, ev.e, ev.c);
      StepWritesOnlyOwnRun(s, ev.e, ev.c, r);
      assert !Threatens(s, r, e, ev.e);
    }
  }

  lemma StaysUnthreatened(s: State, ev: Event, r: RunId, e: ExecId)
    requires Inv(s) && TokensOk(s) && Enabled(s, ev) && Unthreatened(s, r, e)
    ensures Unthreatened(Apply(s, ev), r, e)
  {
    hide Inv, TokensOk, Step, CanStep, Threatens, Doomed;
    if ev.Do? && ev.e == e {
      DoomedStep(s, ev.c, r, e);
    } else {
      OthersLeaveDoomed(s, ev, r, e);
    }
    assert Claimant(s, r, e) by { DoomedClaims(s, r, e); }
    forall x ensures !Threatens(Apply(s, ev), r, e, x) {
      if Threatens(Apply(s, ev), r, e, x) {
        NoNewThreat(s, ev, r, e, x);
      }
    }
  }

  lemma DoomedClaims(s: State, r: RunId, e: ExecId)
    requires Doomed(s, r, e)
    ensures Claimant(s, r, e)
  {
  }

  lemma {:induction false} UnthreatenedAfter(s: State, evs: seq<Event>, r: RunId, e: ExecId)
    requires Inv(s) && TokensOk(s) && Valid(s, evs) && Unthreatened(s, r, e)
    ensures Unthreatened(After(s, evs), r, e)
    decreases |evs|
  {
    hide Inv, TokensOk, Apply, Enabled, Unthreatened;
    if evs != [] {
      StaysUnthreatened(s, evs[0], r, e);
      ApplyKeepsInv(s, evs[0]);
      ApplyKeepsTokens(s, evs[0]);
      UnthreatenedAfter(Apply(s, evs[0]), evs[1..], r, e);
    }
  }

  lemma UnthreatenedNeverFails(s: State, r: RunId, e: ExecId)
    requires Inv(s) && TokensOk(s) && Unthreatened(s, r, e)
    ensures !MayFail(s, r)
  {
    hide Inv, TokensOk, Valid, After;
    forall evs: seq<Event> | Valid(s, evs) ensures r in After(s, evs).runs && After(s, evs).runs[r].status != Failed {
      hide Unthreatened;
      UnthreatenedAfter(s, evs, r, e);
      UnthreatenedStatus(After(s, evs), r, e);
    }
  }

  lemma UnthreatenedStatus(s: State, r: RunId, e: ExecId)
    requires Unthreatened(s, r, e)
    ensures r in s.runs && s.runs[r].status != Failed
  {
  }

  // ---- Otherwise it can ----

  lemma FailsLater(s: State, ev: Event, r: RunId)
    requires Enabled(s, ev) && MayFail(Apply(s, ev), r)
    ensures MayFail(s, r)
  {
    hide Apply, Enabled;
    var s' := Apply(s, ev);
    var evs: seq<Event> :| Valid(s', evs) && r in After(s', evs).runs && After(s', evs).runs[r].status == Failed;
    assert ([ev] + evs)[1..] == evs;
    assert Valid(s, [ev] + evs) && After(s, [ev] + evs) == After(s', evs);
  }

  lemma FailsAfter(s: State, evs: seq<Event>, r: RunId)
    requires Valid(s, evs) && MayFail(After(s, evs), r)
    ensures MayFail(s, r)
    decreases |evs|
  {
    hide MayFail, Apply, Enabled;
    if evs != [] {
      FailsAfter(Apply(s, evs[0]), evs[1..], r);
      FailsLater(s, evs[0], r);
    }
  }

  lemma FailedNow(s: State, r: RunId)
    requires r in s.runs && s.runs[r].status == Failed
    ensures MayFail(s, r)
  {
    assert Valid(s, []) && After(s, []) == s;
  }

  /** A call on its way out whose finaliser fails a running run gets there. */
  lemma LeavingFails(s: State, x: ExecId)
    requires Inv(s) && x < |s.execs| && s.execs[x].run in s.runs && s.runs[s.execs[x].run].status == Running
    requires var pc := s.execs[x].pc; (pc.DropGlobal? || pc.DropProject? || pc.Finalise?)
                                      && (pc.res.AlreadyRunning? || pc.res.Fault?)
    ensures MayFail(s, s.execs[x].run)
    decreases if s.execs[x].pc.DropGlobal? then 2 else if s.execs[x].pc.DropProject? then 1 else 0
  {
    hide Inv, MayFail, Advance, Rewrite, Locks.Release;
    var r := s.execs[x].run;
    var c := RunnableCanStep(s, x);
    ApplyKeepsInv(s, Do(x, c));
    var s' := Apply(s, Do(x, c));
    if s.execs[x].pc.Finalise? {
      FailedNow(s', r);
    } else {
      LeavingFails(s', x);
    }
    FailsLater(s, Do(x, c), r);
  }

  /** A claimant at a point that is no token check can fail by itself. */
  lemma InsideFails(s: State, e: ExecId)
    requires Inv(s) && e < |s.execs| && s.execs[e].pc.Inside? && !IsTokenCheck(s.execs[e].pc.at)
    ensures MayFail(s, s.execs[e].run)
    decreases var at := s.execs[e].pc.at; if at.Spawn? || at.Executing? then 1 else 0
  {
    hide Inv, MayFail;
    Facts(s, e);
    var Executor(r, git, pc) := s.execs[e];
    KnownInRange(pc.at, s.runs[r]);
    InsideIsRunning(pc.at, s.runs[r]);
    hide Known, Unclaimed, RunOk, ExecOk, TokenOk;
    var c := if pc.at.Executing? then Exits(Broken) else Fails;
    assert CanStep(s, e, c);
    ApplyKeepsInv(s, Do(e, c));
    FailingStep(s, e, c);
    if pc.at.Spawn? || pc.at.Executing? {
      InsideFails(Apply(s, Do(e, c)), e);
    } else {
      LeavingFails(Apply(s, Do(e, c)), e);
    }
    FailsLater(s, Do(e, c), r);
  }

  lemma FailingStep(s: State, e: ExecId, c: Choice)
    requires e < |s.execs| && s.execs[e].pc.Inside? && !IsTokenCheck(s.execs[e].pc.at) && CanStep(s, e, c)
    requires c == if s.execs[e].pc.at.Executing? then Exits(Broken) else Fails
    ensures var Executor(r, git, pc) := s.execs[e];
            var s' := Step(s, e, c);
            && e < |s'.execs| && s'.execs[e].run == r && r in s'.runs && s'.runs[r].status == s.runs[r].status
            && s'.execs[e].pc ==
               if pc.at.Spawn? || pc.at.Executing? then Inside(Drain(pc.at.i, Broken)) else DropGlobal(Fault)
  {
  }

  /** A doomed claimant that is still inside or holds its permits goes on to its finaliser, and nothing changes
      for the others. */
  lemma DoomedGoesOn(s: State, r: RunId, e: ExecId) returns (c: Choice)
    requires Inv(s) && Doomed(s, r, e) && s.runs[r].status == Running && !Gone(s.execs[e].pc)
    ensures CanStep(s, e, c)
    ensures Doomed(Step(s, e, c), r, e) && Step(s, e, c).runs[r].status == Running
    ensures forall x :: Threatens(s, r, e, x) ==> Threatens(Step(s, e, c), r, e, x)
  {
    hide Inv, Known, Unclaimed, Step, CanStep;
    c := RunnableCanStep(s, e);
    DoomedStep(s, c, r, e);
    StepFrame(s, e, c);
    StepOnTokens(s, e, c);
    StepWritesOnlyOwnRun(s, e, c, r);
    if s.execs[e].pc.Inside? {
      DoomedInside(s, c, r, e);
    }
  }

  lemma DoomedInside(s: State, c: Choice, r: RunId, e: ExecId)
    requires Doomed(s, r, e) && CanStep(s, e, c) && s.execs[e].pc.Inside?
    ensures r in Step(s, e, c).runs && Step(s, e, c).runs[r] == s.runs[r]
  {
    hide Fits, Advance;
    CheckStops(s.execs[e].pc.at, s.runs[r], s.execs[e].git, c);
  }

  lemma {:induction false} ThreatFails(s: State, r: RunId, e: ExecId, x: ExecId)
    requires Inv(s) && TokensOk(s) && Doomed(s, r, e) && s.runs[r].status == Running && Threatens(s, r, e, x)
    ensures MayFail(s, r)
    decreases Total(s)
  {
    hide Inv, TokensOk, MayFail, Step, CanStep, Total;
    if !Gone(s.execs[e].pc) {
      var c := DoomedGoesOn(s, r, e);
      ApplyKeepsInv(s, Do(e, c));
      ApplyKeepsTokens(s, Do(e, c));
      TotalDescends(s, Do(e, c));
      TotalNotNegative(s);
      TotalNotNegative(Step(s, e, c));
      ThreatFails(Step(s, e, c), r, e, x);
      FailsLater(s, Do(e, c), r);
    } else if UnfinishedDuplicate(s.execs[x].pc) {
      LeavingFails(s, x);
    } else {
      var evs := ReachesRegister(s, x);
      ForwardLeavesAside(s, evs, x, r, e);
      MeetsToken(After(s, evs), r, e, x);
      FailsAfter(s, evs, r);
    }
  }

  /** The call finds the claimant's token. */
  lemma MeetsToken(s: State, r: RunId, e: ExecId, x: ExecId)
    requires Inv(s) && x < |s.execs| && s.execs[x].run == r && s.execs[x].pc.Register? && Registered(s, r, e)
    requires r in s.runs && s.runs[r].status == Running
    ensures MayFail(s, r)
  {
    hide Inv, MayFail;
    ApplyKeepsInv(s, Do(x, Go));
    LeavingFails(Apply(s, Do(x, Go)), x);
    FailsLater(s, Do(x, Go), r);
  }

  // ---- Both together ----

  /** Where the claimant of a run that is still running can be. */
  lemma RunningClaimant(s: State, r: RunId, e: ExecId)
    requires Inv(s) && r in s.runs && s.runs[r].status == Running && s.runs[r].owner == Some(e)
    ensures Claimant(s, r, e)
    ensures var pc := s.execs[e].pc;
            pc.Inside? || ((pc.DropGlobal? || pc.DropProject? || pc.Finalise?)
                           && (pc.res.WasCancelled? || pc.res.Fault?))
  {
    hide Inv;
    OwnerIsClaimant(s, r, e);
    RunFact(s, r);
    KnownIsClaimed(s.execs[e].pc, s.runs[r]);
    hide Ended, Unclaimed;
  }

  /** A cancelled run that is still running can end as failed if and only if its claimant can fail it by itself,
      or another call is an unfinished duplicate or can still meet the claimant's token. This holds from the moment
      the token is cancelled up to the claimant's finaliser. */
  lemma CancelledRunFailsExactlyWhen(s: State, r: RunId, e: ExecId)
    requires Reachable(s) && r in s.runs && s.runs[r].status == Running && s.runs[r].owner == Some(e)
    requires e in s.cancelled || (e < |s.execs| && Leaving(s.execs[e].pc) && s.execs[e].pc.res.WasCancelled?)
    ensures MayFail(s, r) <==> (e < |s.execs| && MayFailItself(s.execs[e].pc)) || exists x :: Threatens(s, r, e, x)
  {
    ReachableInv(s);
    ReachableTokens(s);
    hide Reachable, Inv, TokensOk, MayFail, Threatens;
    RunningClaimant(s, r, e);
    if MayFailItself(s.execs[e].pc) {
      if s.execs[e].pc.Inside? {
        InsideFails(s, e);
      } else {
        LeavingFails(s, e);
      }
    } else if x :| Threatens(s, r, e, x) {
      ThreatFails(s, r, e, x);
    } else {
      UnthreatenedNeverFails(s, r, e);
    }
  }

  // ---- Accepted before the claim ----

  /** The token is cancelled when its call is about to claim the run. */
  ghost predicate AboutToClaim(s: State, r: RunId, e: ExecId) {
    e < |s.execs| && s.execs[e].run == r && s.execs[e].pc.Claim? && e in s.cancelled && r in s.runs
    && s.runs[r].owner.None?
  }

  lemma OthersLeaveClaimant(s: State, ev: Event, r: RunId, e: ExecId)
    requires Inv(s) && Enabled(s, ev) && AboutToClaim(s, r, e) && !Registered(s, r, e) && (ev.Do? ==> ev.e != e)
    ensures AboutToClaim(Apply(s, ev), r, e) && !Registered(Apply(s, ev), r, e)
  {
    hide Inv, Step, CanStep;
    OnlyTheseWrite(s, ev, r);
    if ev.Do? {
      StepFrame(s, ev.e, ev.c);
      StepOnTokens(s, ev.e, ev.c);
      if Apply(s, ev).runs[r] != s.runs[r] {
        OneInside(s, ev.e, e);
      }
    }
  }

  lemma ClaimDooms(s: State, r: RunId, e: ExecId)
    requires Inv(s) && TokensOk(s) && AboutToClaim(s, r, e) && s.runs[r].status == Pending
    ensures CanStep(s, e, Go) && Doomed(Step(s, e, Go), r, e) && Step(s, e, Go).runs[r].status == Running
    ensures Step(s, e, Go).running == s.running
    ensures !Registered(s, r, e) ==> Unthreatened(Step(s, e, Go), r, e)
  {
    hide Inv, Known, Unclaimed;
    forall x | Threatens(Step(s, e, Go), r, e, x) ensures Registered(s, r, e) {
      Facts(s, x);
    }
  }

  lemma {:induction false} UnregisteredNeverFails(s: State, evs: seq<Event>, r: RunId, e: ExecId)
    requires Inv(s) && TokensOk(s) && Valid(s, evs) && AboutToClaim(s, r, e) && !Registered(s, r, e)
    requires s.runs[r].status == Pending || s.runs[r].status == Cancelled
    ensures r in After(s, evs).runs && After(s, evs).runs[r].status != Failed
    decreases |evs|
  {
    hide Inv, TokensOk, Apply, Enabled, AboutToClaim, Registered, Unthreatened, FullListing;
    assert r in s.runs by { ClaimantsRun(s, r, e); }
    if evs != [] {
      var s' := Apply(s, evs[0]);
      ApplyKeepsInv(s, evs[0]);
      ApplyKeepsTokens(s, evs[0]);
      if s.runs[r].status == Cancelled {
        RunsEvolve(s, evs, r);
      } else if evs[0].Do? && evs[0].e == e {
        OnlyGo(s, evs[0].c, r, e);
        ClaimDooms(s, r, e);
        UnthreatenedAfter(s', evs[1..], r, e);
        UnthreatenedStatus(After(s', evs[1..]), r, e);
      } else {
        OthersLeaveClaimant(s, evs[0], r, e);
        UnclaimedStatus(s', r, e);
        UnregisteredNeverFails(s', evs[1..], r, e);
      }
    }
  }

  lemma ClaimantsRun(s: State, r: RunId, e: ExecId)
    requires AboutToClaim(s, r, e)
    ensures r in s.runs
  {
  }

  lemma OnlyGo(s: State, c: Choice, r: RunId, e: ExecId)
    requires AboutToClaim(s, r, e) && Enabled(s, Do(e, c))
    ensures c == Go && Apply(s, Do(e, c)) == Step(s, e, Go)
  {
  }

  lemma UnclaimedStatus(s: State, r: RunId, e: ExecId)
    requires Inv(s) && AboutToClaim(s, r, e)
    ensures r in s.runs && (s.runs[r].status == Pending || s.runs[r].status == Cancelled)
  {
    hide Inv;
    RunFact(s, r);
  }

  /** A call that comes now still finds the run pending, and queues behind the claimant. */
  lemma LateCall(s: State, r: RunId, e: ExecId) returns (evs: seq<Event>)
    requires Inv(s) && TokensOk(s) && AboutToClaim(s, r, e) && s.runs[r].status == Pending && Registered(s, r, e)
    ensures Valid(s, evs)
    ensures var s' := After(s, evs);
            && Inv(s') && TokensOk(s') && AboutToClaim(s', r, e) && s'.runs[r].status == Pending && Registered(s', r, e)
            && |s'.execs| == |s.execs| + 1 && s'.execs[|s.execs|] == Executor(r, false, TakeLock)
  {
    hide Inv, TokensOk;
    var x := |s.execs|;
    var called := Apply(s, Call(r, false));
    ApplyKeepsInv(s, Call(r, false));
    ApplyKeepsTokens(s, Call(r, false));
    ApplyKeepsInv(called, Do(x, Go));
    ApplyKeepsTokens(called, Do(x, Go));
    evs := [Call(r, false), Do(x, Go)];
    OneEvent(called, Do(x, Go));
    assert evs[1..] == [Do(x, Go)];
  }

  /** Accepted before the claim: the run can still end as failed if and only if the token is in the map, for
      then a second call can come that meets it. */
  lemma CancelledBeforeItsClaim(s: State, r: RunId, e: ExecId)
    requires Reachable(s) && AboutToClaim(s, r, e) && s.runs[r].status == Pending
    ensures MayFail(s, r) <==> Registered(s, r, e)
  {
    ReachableInv(s);
    ReachableTokens(s);
    hide Reachable, Inv, TokensOk, AboutToClaim, Registered, Step, CanStep, Threatens;
    if Registered(s, r, e) {
      hide MayFail;
      var evs := LateCall(s, r, e);
      var s' := After(s, evs);
      ClaimDooms(s', r, e);
      ApplyKeepsInv(s', Do(e, Go));
      ApplyKeepsTokens(s', Do(e, Go));
      assert Threatens(Step(s', e, Go), r, e, |s.execs|) by { LateThreat(s', r, e, |s.execs|); }
      ThreatFails(Step(s', e, Go), r, e, |s.execs|);
      FailsLater(s', Do(e, Go), r);
      FailsAfter(s, evs, r);
    } else {
      forall evs: seq<Event> | Valid(s, evs) ensures r in After(s, evs).runs && After(s, evs).runs[r].status != Failed {
        UnregisteredNeverFails(s, evs, r, e);
      }
    }
  }

  lemma LateThreat(s: State, r: RunId, e: ExecId, x: ExecId)
    requires AboutToClaim(s, r, e) && CanStep(s, e, Go) && Step(s, e, Go).running == s.running && Registered(s, r, e)
    requires x < |s.execs| && s.execs[x] == Executor(r, false, TakeLock)
    ensures Threatens(Step(s, e, Go), r, e, x)
  {
    hide Fits, InRange;
    StepFrame(s, e, Go);
  }
}
