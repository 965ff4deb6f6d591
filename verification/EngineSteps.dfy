/** Every event keeps the engine's invariant, so it holds in every reachable state. */
module EngineSteps {
  import opened Wrappers
  import opened Runs
  import opened Engine
  import opened Ownership
  import opened EngineInvariant
  import Locks = ProjectLocks

  // ---- Executors ----

  /** The rows only the claimant touches; the checks and statements of lines 151 to 299. */
  lemma InnerKeepsInv(s: State, e: ExecId, c: Choice)
    requires Inv(s) && e < |s.execs| && CanStep(s, e, c) && s.execs[e].pc.Inside?
    ensures Inv(Step(s, e, c))
  {
    hide Inv, Known, Unclaimed, Advance, Fits;
    Facts(s, e);
    var Executor(r, git, pc) := s.execs[e];
    var m := Advance(pc.at, s.runs[r], git, e in s.cancelled, c);
    AdvanceKeepsKnown(pc.at, s.runs[r], git, e in s.cancelled, c);
    AdvanceKeepsSkeleton(pc.at, s.runs[r], git, e in s.cancelled, c);
    AdvanceStaysOrLeaves(pc.at, s.runs[r], git, e in s.cancelled, c);
    ClaimantMoveKeepsInv(s, Step(s, e, c), e, m.pc, m.run);
  }

  /** A claimant inside `execute_inner` writes rows of its own run that it knows. */
  lemma ClaimantMoveKeepsInv(s: State, s': State, e: ExecId, pc: Pc, run: Run)
    requires Inv(s) && e < |s.execs| && s.execs[e].pc.Inside?
    requires (pc.Inside? || (pc.DropGlobal? && OwnersOutcome(pc.res)))
    requires s.execs[e].run in s.runs && SameSkeleton(s.runs[s.execs[e].run], run) && Known(pc, run)
    requires s' == s.(execs := s.execs[e := s.execs[e].(pc := pc)], runs := s.runs[s.execs[e].run := run])
    ensures Inv(s')
  {
    hide Inv, Known, Unclaimed;
    Facts(s, e);
    MoveKeepsInv(s, s', e, pc);
  }

  lemma LookupKeepsInv(s: State, e: ExecId)
    requires Inv(s) && e < |s.execs| && s.execs[e].pc.Lookup?
    ensures Inv(Step(s, e, Go))
  {
    hide Inv, Known, Unclaimed;
    Facts(s, e);
    var s' := Step(s, e, Go);
    MoveKeepsInv(s, s', e, s'.execs[e].pc);
  }

  /** The first three steps of an executor: only its counter and the lock table change. */
  lemma LockMoveKeepsInv(s: State, s': State, e: ExecId, pc: Pc)
    requires Inv(s) && e < |s.execs| && s'.execs == s.execs[e := s.execs[e].(pc := pc)]
    requires s'.runs == s.runs && s'.running == s.running && s'.free == s.free && s'.capacity == s.capacity
    requires (s.execs[e].pc.TakeLock? && pc.WaitProject?) || (s.execs[e].pc.WaitProject? && pc.WaitGlobal?)
    requires LocksOk(s'.runs, s'.execs, s'.locks)
    ensures Inv(s')
  {
    hide LocksOk, Known, Unclaimed;
    Facts(s, e);
    RunsAfterMove(s, s', e, pc);
    ExecsAfterMove(s, s', e, pc);
    TokensAfterMove(s, s', e, pc);
    PermitsAfterMove(s, s', e, pc);
  }

  lemma TakeLockKeepsInv(s: State, e: ExecId)
    requires Inv(s) && e < |s.execs| && s.execs[e].pc.TakeLock? && CanStep(s, e, Go)
    ensures Inv(Step(s, e, Go))
  {
    hide RunOk, ExecOk, TokenOk, Locks.Take, Locks.Inv;
    LockFacts(s, e);
    var s' := Step(s, e, Go);
    Locks.TakeKeepsInv(s.locks, s.runs[s.execs[e].run].project, e);
    Locks.TakeAddsWaiter(s.locks, s.runs[s.execs[e].run].project, e);
    hide Inv;
    assert LocksOk(s'.runs, s'.execs, s'.locks);
    LockMoveKeepsInv(s, s', e, WaitProject);
  }

  lemma WaitProjectKeepsInv(s: State, e: ExecId)
    requires Inv(s) && e < |s.execs| && s.execs[e].pc.WaitProject? && CanStep(s, e, Go)
    ensures Inv(Step(s, e, Go))
  {
    hide RunOk, ExecOk, TokenOk, Locks.Inv;
    LockFacts(s, e);
    var s' := Step(s, e, Go);
    Locks.AcquireKeepsInv(s.locks, e);
    hide Inv;
    assert LocksOk(s'.runs, s'.execs, s'.locks);
    LockMoveKeepsInv(s, s', e, WaitGlobal);
  }

  lemma WaitGlobalKeepsInv(s: State, e: ExecId)
    requires Inv(s) && e < |s.execs| && s.execs[e].pc.WaitGlobal? && CanStep(s, e, Go)
    ensures Inv(Step(s, e, Go))
  {
    hide Inv, Known, Unclaimed;
    Facts(s, e);
    MoveKeepsInv(s, Step(s, e, Go), e, Register);
  }

  /** Two executors that hold the same project's permit are one. */
  lemma OneInside(s: State, x: ExecId, y: ExecId)
    requires Inv(s) && x < |s.execs| && y < |s.execs|
    requires HoldsProject(s.execs[x].pc) && HoldsProject(s.execs[y].pc)
    requires s.execs[x].run in s.runs && s.execs[y].run in s.runs
    requires s.runs[s.execs[x].run].project == s.runs[s.execs[y].run].project
    ensures x == y
  {
    hide Inv;
    LockFacts(s, x);
    LockFacts(s, y);
    Locks.MutualExclusion(s.locks, x, y);
  }

  /** Whoever finds a token when it registers finds that of a claimant that is out of `execute_inner`. */
  lemma TokenFoundIsStale(s: State, e: ExecId)
    requires Inv(s) && e < |s.execs| && s.execs[e].pc.Register? && s.execs[e].run in s.running
    ensures var r := s.execs[e].run;
            r in s.runs && s.runs[r].owner == Some(s.running[r]) && s.running[r] < |s.execs|
            && Gone(s.execs[s.running[r]].pc)
  {
    hide Inv, Known, Unclaimed;
    Facts(s, e);
    var x := s.running[s.execs[e].run];
    if HoldsProject(s.execs[x].pc) {
      OneInside(s, x, e);
    }
  }

  lemma RegisterKeepsInv(s: State, e: ExecId)
    requires Inv(s) && e < |s.execs| && s.execs[e].pc.Register? && CanStep(s, e, Go)
    ensures Inv(Step(s, e, Go))
  {
    hide Inv, Known, Unclaimed;
    Facts(s, e);
    if s.execs[e].run in s.running {
      TokenFoundIsStale(s, e);
      MoveKeepsInv(s, Step(s, e, Go), e, DropGlobal(AlreadyRunning));
    } else {
      var mid := Step(s, e, Go).(running := s.running);
      MoveKeepsInv(s, mid, e, Claim);
      InsertTokenKeepsInv(mid, e);
      assert mid.(running := mid.running[s.execs[e].run := e]) == Step(s, e, Go);
    }
  }

  lemma InsertTokenKeepsInv(s: State, e: ExecId)
    requires Inv(s) && e < |s.execs| && s.execs[e].pc.Claim? && s.execs[e].run !in s.running
    ensures Inv(s.(running := s.running[s.execs[e].run := e]))
  {
    hide LocksOk, RunOk;
    var s' := s.(running := s.running[s.execs[e].run := e]);
    assert ExecOk(s.runs, s.execs, e);
    forall q | q in s'.running ensures TokenOk(s'.runs, s'.execs, s'.running, q) {
      if q != s.execs[e].run {
        assert TokenOk(s.runs, s.execs, s.running, q);
      }
    }
  }

  lemma ClaimKeepsInv(s: State, e: ExecId)
    requires Inv(s) && e < |s.execs| && s.execs[e].pc.Claim? && CanStep(s, e, Go)
    ensures Inv(Step(s, e, Go))
  {
    hide Inv, Known, Unclaimed;
    Facts(s, e);
    var s' := Step(s, e, Go);
    var run := s.runs[s.execs[e].run];
    if run.status == Pending {
      if run.owner.Some? {
        KnownIsClaimed(s.execs[run.owner.value].pc, run);
      }
      ClaimMakesKnown(run, e);
    }
    MoveKeepsInv(s, s', e, s'.execs[e].pc);
  }

  lemma WithdrawKeepsInv(s: State, e: ExecId)
    requires Inv(s) && e < |s.execs| && s.execs[e].pc.Withdraw?
    ensures Inv(Step(s, e, Go))
  {
    hide Inv, Known, Unclaimed;
    Facts(s, e);
    MoveKeepsInv(s, Step(s, e, Go), e, DropGlobal(NotPending));
  }

  lemma DropGlobalKeepsInv(s: State, e: ExecId)
    requires Inv(s) && e < |s.execs| && s.execs[e].pc.DropGlobal?
    ensures Inv(Step(s, e, Go))
  {
    hide Inv, Known, Unclaimed;
    Facts(s, e);
    var Executor(r, _, pc) := s.execs[e];
    if r in s.runs {
      LeavingKeepsKnown(pc.res, s.runs[r]);
    }
    MoveKeepsInv(s, Step(s, e, Go), e, DropProject(pc.res));
  }

  lemma DropProjectLocks(s: State, e: ExecId)
    requires Inv(s) && e < |s.execs| && s.execs[e].pc.DropProject?
    ensures CanStep(s, e, Go) && LocksOk(Step(s, e, Go).runs, Step(s, e, Go).execs, Step(s, e, Go).locks)
  {
    hide RunOk, ExecOk, TokenOk, Locks.Inv;
    LockFacts(s, e);
    Locks.ReleaseKeepsInv(s.locks, e);
  }

  lemma DropProjectKeepsInv(s: State, e: ExecId)
    requires Inv(s) && e < |s.execs| && s.execs[e].pc.DropProject?
    ensures CanStep(s, e, Go) && Inv(Step(s, e, Go))
  {
    hide LocksOk, Known, Unclaimed;
    Facts(s, e);
    DropProjectLocks(s, e);
    var s' := Step(s, e, Go);
    var Executor(r, _, pc) := s.execs[e];
    if r in s.runs {
      LeavingKeepsKnown(pc.res, s.runs[r]);
    }
    RunsAfterMove(s, s', e, Finalise(pc.res));
    ExecsAfterMove(s, s', e, Finalise(pc.res));
    TokensAfterMove(s, s', e, Finalise(pc.res));
    PermitsAfterMove(s, s', e, Finalise(pc.res));
  }

  /** `execute_mode` after NotPending and after Ok: only the token goes. */
  lemma QuietFinaliseKeepsInv(s: State, e: ExecId)
    requires Inv(s) && e < |s.execs| && s.execs[e].pc.Finalise?
    requires (s.execs[e].pc.res.Done? || s.execs[e].pc.res.NotPending?)
    ensures Inv(Step(s, e, Go))
  {
    hide Inv, Known, Unclaimed;
    Facts(s, e);
    var Executor(r, _, pc) := s.execs[e];
    if r in s.runs {
      LeavingKeepsKnown(pc.res, s.runs[r]);
    }
    MoveKeepsInv(s, Step(s, e, Go), e, Returned(pc.res));
  }

  /** The finaliser transactions, of the claimant and of a duplicate. */
  lemma FinaliseKeepsInv(s: State, e: ExecId)
    requires Inv(s) && e < |s.execs| && s.execs[e].pc.Finalise? && !s.execs[e].pc.res.Done?
    requires !s.execs[e].pc.res.NotPending?
    ensures CanStep(s, e, Go) && Inv(Step(s, e, Go))
  {
    hide Inv, Known, Unclaimed, Finish;
    Facts(s, e);
    var Executor(r, _, pc) := s.execs[e];
    var to := if pc.res.WasCancelled? then Cancelled else Failed;
    FinishKeepsSkeleton(s.runs[r], to);
    if pc.res.AlreadyRunning? {
      DuplicateFinaliserKeepsKnown(s.execs[s.runs[r].owner.value].pc, s.runs[r]);
    } else {
      OwnFinaliserEnds(pc.res, s.runs[r], to);
    }
    FinaliserMoveKeepsInv(s, Step(s, e, Go), e, Finish(s.runs[r], to));
  }

  lemma FinishKeepsSkeleton(run: Run, to: Status)
    ensures SameSkeleton(run, Finish(run, to))
  {
  }

  lemma FinaliserMoveKeepsInv(s: State, s': State, e: ExecId, run: Run)
    requires Inv(s) && e < |s.execs| && s.execs[e].pc.Finalise? && !s.execs[e].pc.res.NotPending?
    requires s.execs[e].run in s.runs && SameSkeleton(s.runs[s.execs[e].run], run)
    requires s' == s.(execs := s.execs[e := s.execs[e].(pc := Deregister(s.execs[e].pc.res))],
                   runs := s.runs[s.execs[e].run := run])
    requires RunOk(s'.runs, s'.execs, s.execs[e].run)
    ensures Inv(s')
  {
    hide Inv, Known, Unclaimed;
    Facts(s, e);
    MoveKeepsInv(s, s', e, Deregister(s.execs[e].pc.res));
  }

  lemma DeregisterKeepsInv(s: State, e: ExecId)
    requires Inv(s) && e < |s.execs| && s.execs[e].pc.Deregister?
    ensures Inv(Step(s, e, Go))
  {
    hide Inv, Known, Unclaimed;
    Facts(s, e);
    var Executor(r, _, pc) := s.execs[e];
    if r in s.runs {
      LeavingKeepsKnown(pc.res, s.runs[r]);
    }
    MoveKeepsInv(s, Step(s, e, Go), e, Returned(pc.res));
  }

  lemma StepKeepsInv(s: State, e: ExecId, c: Choice)
    requires Inv(s) && e < |s.execs| && CanStep(s, e, c)
    ensures Inv(Step(s, e, c))
  {
    var pc := s.execs[e].pc;
    if pc.Inside? {
      InnerKeepsInv(s, e, c);
    } else {
      assert c == Go;
      match pc {
        case Lookup => LookupKeepsInv(s, e);
        case TakeLock => TakeLockKeepsInv(s, e);
        case WaitProject => WaitProjectKeepsInv(s, e);
        case WaitGlobal => WaitGlobalKeepsInv(s, e);
        case Register => RegisterKeepsInv(s, e);
        case Claim => ClaimKeepsInv(s, e);
        case Withdraw => WithdrawKeepsInv(s, e);
        case DropGlobal(_) => DropGlobalKeepsInv(s, e);
        case DropProject(_) => DropProjectKeepsInv(s, e);
        case Finalise(res) =>
          if res.Done? || res.NotPending? {
            QuietFinaliseKeepsInv(s, e);
          } else {
            FinaliseKeepsInv(s, e);
          }
        case Deregister(_) => DeregisterKeepsInv(s, e);
        case _ =>
      }
    }
  }

  // ---- Everybody else ----

  lemma CallKeepsInv(s: State, r: RunId, git: bool)
    requires Inv(s)
    ensures Inv(Apply(s, Call(r, git)))
  {
    var s' := Apply(s, Call(r, git));
    assert s'.execs[..|s.execs|] == s.execs;
    forall q | q in s'.runs ensures RunOk(s'.runs, s'.execs, q) {
      assert RunOk(s.runs, s.execs, q);
    }
    forall e: ExecId | e < |s'.execs| ensures ExecOk(s'.runs, s'.execs, e) {
      if e < |s.execs| {
        assert ExecOk(s.runs, s.execs, e);
      }
    }
    forall q | q in s'.running ensures TokenOk(s'.runs, s'.execs, s'.running, q) {
      assert TokenOk(s.runs, s.execs, s.running, q);
    }
  }

  /** Replacing the rows of a run nobody has claimed, or adding a run, disturbs nobody. */
  lemma UnclaimedWriteKeepsInv(s: State, s': State, r: RunId, run: Run)
    requires Inv(s) && Unclaimed(run)
    requires r in s.runs ==> s.runs[r].owner.None? && s.runs[r].project == run.project
    requires s'.runs == s.runs[r := run] && s'.execs == s.execs && s'.running == s.running && s'.locks == s.locks
    requires s'.free == s.free && s'.capacity == s.capacity
    ensures Inv(s')
  {
    forall q | q in s'.runs ensures RunOk(s'.runs, s'.execs, q) {
      assert q != r ==> RunOk(s.runs, s.execs, q);
    }
    forall e: ExecId | e < |s'.execs| ensures ExecOk(s'.runs, s'.execs, e) {
      assert ExecOk(s.runs, s.execs, e);
    }
    forall q | q in s'.running ensures TokenOk(s'.runs, s'.execs, s'.running, q) {
      assert TokenOk(s.runs, s.execs, s.running, q);
    }
  }

  lemma CancelUnclaimedKeepsInv(s: State, r: RunId)
    requires Inv(s) && r in s.runs
    ensures Inv(Apply(s, CancelUnclaimed(r)))
  {
    var run := s.runs[r];
    assert RunOk(s.runs, s.execs, r);
    if run.status == Pending {
      if run.owner.Some? {
        KnownIsClaimed(s.execs[run.owner.value].pc, run);
      }
      UnclaimedWriteKeepsInv(s, Apply(s, CancelUnclaimed(r)), r, CancelUnstarted(run));
    } else {
      assert Apply(s, CancelUnclaimed(r)).runs == s.runs;
    }
  }

  lemma InsertKeepsInv(s: State, id: RunId, p: ProjectId, branch: string, commit: Option<string>,
                       retryOf: Option<RunId>,
                       defs: seq<StageDef>)
    requires Inv(s) && id !in s.runs
    ensures Inv(Insert(s, id, p, branch, commit, retryOf, defs))
  {
    var s' := Insert(s, id, p, branch, commit, retryOf, defs);
    UnclaimedWriteKeepsInv(s, s', id, s'.runs[id]);
  }

  lemma ApplyKeepsInv(s: State, ev: Event)
    requires Inv(s) && Enabled(s, ev)
    ensures Inv(Apply(s, ev))
  {
    match ev
    case Do(e, c) => StepKeepsInv(s, e, c);
    case Call(r, git) => CallKeepsInv(s, r, git);
    case CancelUnclaimed(r) => CancelUnclaimedKeepsInv(s, r);
    case Create(id, p, branch) => InsertKeepsInv(s, id, p, branch, None, None, Configured(s.config, p));
    case RetryCommit(t, id) =>
      InsertKeepsInv(s, id, t.project, t.branch, t.commit, Some(t.source), s.runs[t.source].defs);
    case _ =>
  }

  lemma {:induction false} InvAfter(s: State, evs: seq<Event>)
    requires Inv(s) && Valid(s, evs)
    ensures Inv(After(s, evs))
    decreases |evs|
  {
    if evs != [] {
      ApplyKeepsInv(s, evs[0]);
      InvAfter(Apply(s, evs[0]), evs[1..]);
    }
  }

  lemma InitialInv(maxConcurrency: nat)
    ensures Inv(Initial(maxConcurrency))
  {
  }

  /** The invariant holds in every reachable state of every interleaving. */
  lemma ReachableInv(s: State)
    requires Reachable(s)
    ensures Inv(s)
  {
    var maxConcurrency: nat, evs: seq<Event> :| Valid(Initial(maxConcurrency), evs)
                                                && s == After(Initial(maxConcurrency), evs);
    InvAfter(Initial(maxConcurrency), evs);
  }
}
