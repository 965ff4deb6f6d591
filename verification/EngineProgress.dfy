/** Convergence: as long as commands end and the log writer is served, nothing deadlocks, and executors
    take only so many steps. */
module EngineProgress {
  import opened Runs
  import opened Engine
  import opened Ownership
  import opened EngineInvariant
  import opened EngineSteps
  import opened EngineTheorems
  import Locks = ProjectLocks

  // ---- No deadlock ----

  ghost predicate SomebodyCanStep(s: State) {
    exists e: ExecId, c: Choice :: e < |s.execs| && CanStep(s, e, c)
  }

  /** A choice that is always open inside `execute_inner`: statements commit, git and commands end. */
  function OpenChoice(at: Point): Choice {
    if at.GitSync? then Fails else if at.Executing? then Exits(FailedExit) else if at.Drain? then Written(false) else Go
  }

  lemma InsideCanStep(s: State, e: ExecId)
    requires Inv(s) && e < |s.execs| && s.execs[e].pc.Inside?
    ensures CanStep(s, e, OpenChoice(s.execs[e].pc.at))
  {
    hide Inv;
    Facts(s, e);
    KnownInRange(s.execs[e].pc.at, s.runs[s.execs[e].run]);
    hide Known, Unclaimed;
  }

  /** Whoever does not wait for a permit can go on. */
  lemma RunnableCanStep(s: State, e: ExecId) returns (c: Choice)
    requires Inv(s) && e < |s.execs|
    requires !s.execs[e].pc.Returned? && !s.execs[e].pc.WaitProject? && !s.execs[e].pc.WaitGlobal?
    ensures CanStep(s, e, c)
  {
    hide Inv;
    if s.execs[e].pc.Inside? {
      InsideCanStep(s, e);
      c := OpenChoice(s.execs[e].pc.at);
    } else {
      Facts(s, e);
      LockFacts(s, e);
      if s.execs[e].pc.DropProject? {
        Locks.ReleaseKeepsInv(s.locks, e);
      }
      hide RunOk, TokenOk;
      c := Go;
    }
  }

  /** A waiter for a global permit, or somebody who holds one, can go on. */
  lemma GlobalWaiterCanStep(s: State, e: ExecId) returns (x: ExecId, c: Choice)
    requires Inv(s) && e < |s.execs| && s.execs[e].pc.WaitGlobal?
    ensures x < |s.execs| && CanStep(s, x, c) && (x == e || HoldsGlobal(s.execs[x].pc))
  {
    if s.free > 0 {
      hide Inv;
      x, c := e, Go;
    } else {
      x := HolderExists(s.execs);
      hide Inv;
      c := RunnableCanStep(s, x);
    }
  }

  /** A waiter for a project's permit, or somebody who holds a project's permit, can go on. */
  lemma ProjectWaiterCanStep(s: State, e: ExecId) returns (x: ExecId, c: Choice)
    requires Inv(s) && e < |s.execs| && s.execs[e].pc.WaitProject?
    ensures x < |s.execs| && CanStep(s, x, c) && (x == e || HoldsProject(s.execs[x].pc))
  {
    hide Inv;
    LockFacts(s, e);
    if h: ExecId :| Locks.Holds(s.locks, h) && s.locks.refs[h].project == s.locks.refs[e].project {
      HolderIsRunning(s, h);
      if s.execs[h].pc.WaitGlobal? {
        x, c := GlobalWaiterCanStep(s, h);
      } else {
        x := h;
        c := RunnableCanStep(s, h);
      }
    } else {
      Locks.FreeProjectAdmits(s.locks, e);
      hide Locks.Inv;
      x, c := e, Go;
    }
  }

  lemma HolderIsRunning(s: State, x: ExecId)
    requires Inv(s) && Locks.Holds(s.locks, x)
    ensures x < |s.execs| && HoldsProject(s.execs[x].pc)
  {
  }

  /** Nobody is ever stuck: while one call has not returned, some call can take a step. */
  lemma NoDeadlock(s: State, e: ExecId)
    requires Inv(s) && e < |s.execs| && !s.execs[e].pc.Returned?
    ensures SomebodyCanStep(s)
  {
    hide Inv, CanStep;
    var x, c := e, Go;
    if s.execs[e].pc.WaitProject? {
      x, c := ProjectWaiterCanStep(s, e);
    } else if s.execs[e].pc.WaitGlobal? {
      x, c := GlobalWaiterCanStep(s, e);
    } else {
      c := RunnableCanStep(s, e);
    }
    assert CanStep(s, x, c);
  }

  // ---- The measure ----

  /** More than the steps of one stage: its statements, and at most one log row a byte. */
  const STAGE_STEPS: nat := MAX_LOG_BYTES + 16

  function AfterStage(at: Point, run: Run): nat
    requires AtStage(at) && InRange(at, run)
  {
    6 + (|run.defs| - 1 - at.i) * STAGE_STEPS
  }

  function TopRank(run: Run, i: nat): nat
    requires i <= |run.defs|
  {
    6 + (|run.defs| - i) * STAGE_STEPS
  }

  /** How many steps are at most left inside `execute_inner`. */
  function RankAt(at: Point, run: Run): int
    requires InRange(at, run)
  {
    match at
    case CheckStart => TopRank(run, 0) + 7
    case Load => TopRank(run, 0) + 6
    case Prepare => TopRank(run, 0) + 5
    case GitCheck => TopRank(run, 0) + 4
    case GitSync => TopRank(run, 0) + 3
    case GitRecheck(_) => TopRank(run, 0) + 2
    case Record(_) => TopRank(run, 0) + 1
    case StageTop(i) => TopRank(run, i)
    case ClaimStage(i) => AfterStage(at, run) + STAGE_STEPS - 1
    case Launch(i) => AfterStage(at, run) + STAGE_STEPS - 2
    case Spawn(i) => AfterStage(at, run) + STAGE_STEPS - 3
    case Executing(i) => AfterStage(at, run) + STAGE_STEPS - 4 - LogBytes(run.cells[i].logs)
    case Drain(i, _) => AfterStage(at, run) + STAGE_STEPS - 5 - LogBytes(run.cells[i].logs)
    case SaveTruncated(i, _, _) => AfterStage(at, run) + 3
    case FinishStage(i, _) => AfterStage(at, run) + 2
    case SkipRest(i) => 6
    case FailRun(i) => 5
    case MarkSuccess => 5
  }

  /** How many steps an executor has at most left to take. */
  function Rank(s: State, e: ExecId): int
    requires e < |s.execs|
  {
    var Executor(r, _, pc) := s.execs[e];
    var n := if r in s.runs then |s.runs[r].defs| else 0;
    match pc
    case Lookup => 19 + n * STAGE_STEPS
    case TakeLock => 18 + n * STAGE_STEPS
    case WaitProject => 17 + n * STAGE_STEPS
    case WaitGlobal => 16 + n * STAGE_STEPS
    case Register => 15 + n * STAGE_STEPS
    case Claim => 14 + n * STAGE_STEPS
    case Withdraw => 5
    case Inside(at) => if r in s.runs && InRange(at, s.runs[r]) then RankAt(at, s.runs[r]) else 0
    case DropGlobal(_) => 4
    case DropProject(_) => 3
    case Finalise(_) => 2
    case Deregister(_) => 1
    case Returned(_) => 0
  }

  lemma StageRanks(run: Run, i: nat)
    requires i < |run.defs|
    ensures TopRank(run, i) == TopRank(run, i + 1) + STAGE_STEPS
    ensures TopRank(run, i) >= 6 + STAGE_STEPS
    ensures forall at :: AtStage(at) && at.i == i && InRange(at, run) ==> AfterStage(at, run) == TopRank(run, i + 1)
  {
  }

  /** A claimant's rank is never negative, and positive until it leaves. */
  lemma RankAtPositive(at: Point, run: Run)
    requires Known(Inside(at), run) && InRange(at, run)
    ensures RankAt(at, run) > 4
  {
    if AtStage(at) {
      StageRanks(run, at.i);
      assert LogsOk(run.cells[at.i].logs);
    }
  }

  lemma AdvanceDescends(at: Point, run: Run, git: bool, cancelled: bool, c: Choice)
    requires Known(Inside(at), run) && InRange(at, run) && Fits(at, run, cancelled, c)
    ensures var m := Advance(at, run, git, cancelled, c);
            m.pc.Inside? ==> InRange(m.pc.at, m.run) && RankAt(m.pc.at, m.run) < RankAt(at, run)
  {
    var m := Advance(at, run, git, cancelled, c);
    AdvanceKeepsKnown(at, run, git, cancelled, c);
    AdvanceKeepsSkeleton(at, run, git, cancelled, c);
    if m.pc.Inside? {
      KnownInRange(m.pc.at, m.run);
      if AtStage(at) {
        assert LogsOk(run.cells[at.i].logs);
      }
      hide Known;
      if c.Log? {
        hide Appendable;
        LogDescends(at, run, git, cancelled, c);
        hide Advance;
      } else if AtStage(at) {
        StageRanks(run, at.i);
        StageStepDescends(at, run, git, cancelled, c);
      } else if at.StageTop? {
        if at.i < |run.defs| {
          StageRanks(run, at.i);
        }
      }
    }
  }

  /** Runs that differ in the logs only have ranks that differ by as many bytes. */
  lemma RankCountsBytes(at: Point, a: Run, b: Run)
    requires InRange(at, a) && InRange(at, b) && a.defs == b.defs && (at.Executing? || at.Drain?)
    ensures RankAt(at, a) + LogBytes(a.cells[at.i].logs) == RankAt(at, b) + LogBytes(b.cells[at.i].logs)
  {
    hide LogBytes;
  }

  lemma LogDescends(at: Point, run: Run, git: bool, cancelled: bool, c: Choice)
    requires InRange(at, run) && Fits(at, run, cancelled, c) && c.Log? && LogsOk(run.cells[at.i].logs)
    ensures var m := Advance(at, run, git, cancelled, c);
            m.pc == Inside(at) && InRange(at, m.run) && RankAt(at, m.run) < RankAt(at, run)
  {
    hide RankAt, LogBytes, LogsOk;
    var logs := run.cells[at.i].logs;
    var m := Advance(at, run, git, cancelled, c);
    assert m == Move(Inside(at), run.(cells := run.cells[at.i := run.cells[at.i].(logs := logs + [c.row])]));
    AppendLog(logs, c.row);
    assert 0 < |c.row.data|;
    hide Advance, Fits, Appendable;
    RankCountsBytes(at, run, m.run);
  }

  lemma StageStepDescends(at: Point, run: Run, git: bool, cancelled: bool, c: Choice)
    requires AtStage(at) && InRange(at, run) && Fits(at, run, cancelled, c) && !c.Log?
    requires LogsOk(run.cells[at.i].logs)
    requires AfterStage(at, run) == TopRank(run, at.i + 1)
    ensures var m := Advance(at, run, git, cancelled, c);
            m.pc.Inside? && InRange(m.pc.at, m.run) ==> RankAt(m.pc.at, m.run) < RankAt(at, run)
  {
  }

  function Ranks(s: State): (r: seq<int>)
    ensures |r| == |s.execs|
    ensures forall e: ExecId :: e < |s.execs| ==> r[e] == Rank(s, e)
  {
    seq(|s.execs|, e requires 0 <= e < |s.execs| => Rank(s, e))
  }

  function Sum(xs: seq<int>): int {
    if xs == [] then 0 else Sum(xs[..|xs| - 1]) + xs[|xs| - 1]
  }

  lemma {:induction false} SumUpdate(xs: seq<int>, k: nat, x: int)
    requires k < |xs|
    ensures Sum(xs[k := x]) == Sum(xs) - xs[k] + x
  {
    var n := |xs| - 1;
    if k == n {
      assert xs[k := x][..n] == xs[..n];
    } else {
      assert xs[k := x][..n] == xs[..n][k := x];
      SumUpdate(xs[..n], k, x);
    }
  }

  lemma {:induction false} SumNotNegative(xs: seq<int>)
    requires forall k :: 0 <= k < |xs| ==> xs[k] >= 0
    ensures Sum(xs) >= 0
  {
    if xs != [] {
      SumNotNegative(xs[..|xs| - 1]);
    }
  }

  /** The steps all executors together have at most left. */
  function Total(s: State): int {
    Sum(Ranks(s))
  }

  lemma RankNotNegative(s: State, e: ExecId)
    requires Inv(s) && e < |s.execs|
    ensures Rank(s, e) >= 0
  {
    hide Inv, RankAt, Known, Unclaimed;
    if s.execs[e].pc.Inside? {
      Facts(s, e);
      KnownInRange(s.execs[e].pc.at, s.runs[s.execs[e].run]);
      RankAtPositive(s.execs[e].pc.at, s.runs[s.execs[e].run]);
    }
  }

  /** Every step of an executor uses up some of its own rank ... */
  lemma OwnRankDescends(s: State, e: ExecId, c: Choice)
    requires Inv(s) && e < |s.execs| && CanStep(s, e, c)
    ensures e < |Step(s, e, c).execs| && Rank(Step(s, e, c), e) < Rank(s, e)
  {
    hide Inv, Enter, Leave, Advance, Fits;
    Facts(s, e);
    var Executor(r, git, pc) := s.execs[e];
    if pc.Inside? {
      KnownInRange(pc.at, s.runs[r]);
      RankAtPositive(pc.at, s.runs[r]);
      AdvanceDescends(pc.at, s.runs[r], git, e in s.cancelled, c);
      AdvanceStaysOrLeaves(pc.at, s.runs[r], git, e in s.cancelled, c);
      hide RankAt, Known, Unclaimed;
    } else if Entering(pc) {
      hide Known, Unclaimed;
      EnterDescends(s, e);
    } else {
      hide Known, Unclaimed;
      LeaveDescends(s, e);
    }
  }

  lemma EnterDescends(s: State, e: ExecId)
    requires e < |s.execs| && CanStep(s, e, Go) && Entering(s.execs[e].pc)
    requires s.execs[e].pc.Claim? ==> |s.runs[s.execs[e].run].cells| == |s.runs[s.execs[e].run].defs|
    ensures e < |Enter(s, e).execs| && Rank(Enter(s, e), e) < Rank(s, e)
  {
    hide Locks.Take, Locks.Acquire, Locks.CanAcquire, RankAt;
    EnterFrame(s, e);
    if s.execs[e].pc.Claim? {
      ClaimDescends(s, e);
    } else {
      assert Enter(s, e).runs == s.runs;
      assert !Enter(s, e).execs[e].pc.Inside?;
    }
  }

  lemma ClaimDescends(s: State, e: ExecId)
    requires e < |s.execs| && CanStep(s, e, Go) && s.execs[e].pc.Claim?
    requires |s.runs[s.execs[e].run].cells| == |s.runs[s.execs[e].run].defs|
    ensures e < |Enter(s, e).execs| && Rank(Enter(s, e), e) < Rank(s, e)
  {
  }

  /** How many steps a leaving executor has left. */
  function StepsToReturn(pc: Pc): nat {
    if pc.DropGlobal? then 4 else if pc.DropProject? then 3 else if pc.Finalise? then 2 else if pc.Deregister? then 1
    else 0
  }

  lemma LeavingRank(s: State, e: ExecId)
    requires e < |s.execs| && Leaving(s.execs[e].pc)
    ensures Rank(s, e) == StepsToReturn(s.execs[e].pc)
  {
    hide RankAt;
  }

  lemma LeaveDescends(s: State, e: ExecId)
    requires e < |s.execs| && CanStep(s, e, Go) && !s.execs[e].pc.Inside? && !Entering(s.execs[e].pc)
    ensures e < |Leave(s, e).execs| && Rank(Leave(s, e), e) < Rank(s, e)
  {
    hide Locks.Release, Finish, Rank;
    LeavingRank(s, e);
    LeavingRank(Leave(s, e), e);
  }

  /** An executor's rank depends only on itself, and on the rows of its run if it is the claimant. */
  lemma RankFrame(s: State, s': State, x: ExecId)
    requires x < |s.execs| && x < |s'.execs| && s'.execs[x] == s.execs[x]
    requires var r := s.execs[x].run;
             (r in s'.runs <==> r in s.runs) && (r in s.runs ==> s'.runs[r].defs == s.runs[r].defs)
             && (s.execs[x].pc.Inside? && r in s.runs ==> s'.runs[r] == s.runs[r])
    ensures Rank(s', x) == Rank(s, x)
  {
  }

  /** The event adds run `r`. */
  predicate Adds(ev: Event, r: RunId) {
    (ev.Create? || ev.RetryCommit?) && ev.id == r
  }

  lemma KeysAfter(s: State, ev: Event)
    requires Enabled(s, ev)
    ensures forall r :: r in Apply(s, ev).runs <==> r in s.runs || Adds(ev, r)
  {
    hide Step, CanStep;
    if ev.Do? {
      StepKeepsKeys(s, ev.e, ev.c);
    }
  }

  lemma ExecutorStays(s: State, ev: Event, x: ExecId)
    requires Enabled(s, ev) && x < |s.execs|
    ensures x < |Apply(s, ev).execs| && Apply(s, ev).execs[x].run == s.execs[x].run
    ensures !(ev.Do? && ev.e == x) ==> Apply(s, ev).execs[x] == s.execs[x]
  {
    hide Step, CanStep;
    if ev.Do? {
      StepFrame(s, ev.e, ev.c);
    }
  }

  /** ... and none of anybody else's. */
  lemma OthersKeepRank(s: State, ev: Event, x: ExecId)
    requires Inv(s) && Enabled(s, ev) && x < |s.execs|
    requires !Adds(ev, s.execs[x].run) && !(ev.Do? && ev.e == x)
    ensures x < |Apply(s, ev).execs| && Rank(Apply(s, ev), x) == Rank(s, x)
  {
    hide Inv, Apply, Enabled, Rank;
    var r := s.execs[x].run;
    ExecutorStays(s, ev, x);
    KeysAfter(s, ev);
    if r in s.runs {
      ApplyEvolves(s, ev, r);
      if s.execs[x].pc.Inside? {
        ClaimantIsAlone(s, ev, x);
      }
    }
    RankFrame(s, Apply(s, ev), x);
  }

  lemma StepKeepsKeys(s: State, e: ExecId, c: Choice)
    requires e < |s.execs| && CanStep(s, e, c)
    ensures Step(s, e, c).runs.Keys == s.runs.Keys
  {
    hide Advance, Fits, Finish, InRange, Locks.Take, Locks.Acquire, Locks.CanAcquire, Locks.Release;
    if s.execs[e].pc.Inside? {
      hide Enter, Leave;
    } else if Entering(s.execs[e].pc) {
      hide Leave;
    } else {
      hide Enter;
    }
  }

  /** A step of an executor lowers the total; cancels and configuration changes leave it alone. */
  lemma TotalDescends(s: State, ev: Event)
    requires Inv(s) && Enabled(s, ev) && !ev.Call? && !ev.Create? && !ev.RetryCommit?
    ensures ev.Do? ==> Total(Apply(s, ev)) < Total(s)
    ensures !ev.Do? ==> Total(Apply(s, ev)) == Total(s)
  {
    hide Inv, Step, CanStep, Rank;
    var s' := Apply(s, ev);
    if ev.Do? {
      StepFrame(s, ev.e, ev.c);
      OwnRankDescends(s, ev.e, ev.c);
      SumUpdate(Ranks(s), ev.e, Rank(s', ev.e));
    }
    forall x: ExecId | x < |s.execs| && !(ev.Do? && x == ev.e) ensures Rank(s', x) == Rank(s, x) {
      OthersKeepRank(s, ev, x);
    }
    assert Ranks(s') == if ev.Do? then Ranks(s)[ev.e := Rank(s', ev.e)] else Ranks(s);
  }

  lemma TotalNotNegative(s: State)
    requires Inv(s)
    ensures Total(s) >= 0
  {
    hide Rank;
    forall e: ExecId | e < |s.execs| ensures Rank(s, e) >= 0 {
      RankNotNegative(s, e);
    }
    SumNotNegative(Ranks(s));
  }

  // ---- One call among any others ----

  /** How many steps of a stretch are of call `e`. */
  function StepsOf(evs: seq<Event>, e: ExecId): nat {
    if evs == [] then 0 else (if evs[0].Do? && evs[0].e == e then 1 else 0) + StepsOf(evs[1..], e)
  }

  /** The run exists, or stays unknown. */
  ghost predicate Settled(s: State, evs: seq<Event>, r: RunId) {
    r in s.runs || forall ev :: ev in evs ==> !Adds(ev, r)
  }

  lemma EventOnRank(s: State, ev: Event, e: ExecId)
    requires Inv(s) && Enabled(s, ev) && e < |s.execs| && (s.execs[e].run in s.runs || !Adds(ev, s.execs[e].run))
    ensures e < |Apply(s, ev).execs|
    ensures Rank(Apply(s, ev), e) + (if ev.Do? && ev.e == e then 1 else 0) <= Rank(s, e)
  {
    hide Inv, Step, CanStep, Rank;
    if ev.Do? && ev.e == e {
      StepFrame(s, e, ev.c);
      OwnRankDescends(s, e, ev.c);
    } else {
      OthersKeepRank(s, ev, e);
    }
  }

  /** Whatever happens, new requests included: a call takes at most as many more steps as its own rank says. */
  lemma {:induction false} CallEnds(s: State, evs: seq<Event>, e: ExecId)
    requires Inv(s) && Valid(s, evs) && e < |s.execs| && Settled(s, evs, s.execs[e].run)
    ensures e < |After(s, evs).execs|
    ensures 0 <= Rank(After(s, evs), e) <= Rank(s, e) - StepsOf(evs, e)
    decreases |evs|
  {
    hide Inv, Apply, Enabled, Rank, Adds;
    if evs == [] {
      RankNotNegative(s, e);
    } else {
      assert evs[0] in evs;
      EventOnRank(s, evs[0], e);
      ExecutorStays(s, evs[0], e);
      KeysAfter(s, evs[0]);
      ApplyKeepsInv(s, evs[0]);
      CallEnds(Apply(s, evs[0]), evs[1..], e);
    }
  }

  // ---- All calls together ----

  function StepsTaken(evs: seq<Event>): nat {
    if evs == [] then 0 else (if evs[0].Do? then 1 else 0) + StepsTaken(evs[1..])
  }

  /** The steps of each of the first `n` calls. */
  function Counts(evs: seq<Event>, n: nat): (r: seq<int>)
    ensures |r| == n && forall e: ExecId :: e < n ==> r[e] == StepsOf(evs, e)
  {
    seq(n, e requires 0 <= e < n => StepsOf(evs, e))
  }

  lemma {:induction false} SumOfZeros(xs: seq<int>)
    requires forall k :: 0 <= k < |xs| ==> xs[k] == 0
    ensures Sum(xs) == 0
  {
    if xs != [] {
      SumOfZeros(xs[..|xs| - 1]);
    }
  }

  lemma {:induction false} SumOfCounts(evs: seq<Event>, n: nat)
    requires forall ev :: ev in evs && ev.Do? ==> ev.e < n
    ensures Sum(Counts(evs, n)) == StepsTaken(evs)
  {
    if evs == [] {
      SumOfZeros(Counts(evs, n));
    } else {
      assert evs[0] in evs;
      var rest := Counts(evs[1..], n);
      SumOfCounts(evs[1..], n);
      if evs[0].Do? {
        var e := evs[0].e;
        SumUpdate(rest, e, rest[e] + 1);
        assert Counts(evs, n) == rest[e := rest[e] + 1];
      } else {
        assert Counts(evs, n) == rest;
      }
    }
  }

  lemma {:induction false} SumsAdd(a: seq<int>, b: seq<int>, c: seq<int>)
    requires |a| == |b| == |c| && forall k :: 0 <= k < |a| ==> a[k] + b[k] <= c[k]
    ensures Sum(a) + Sum(b) <= Sum(c)
  {
    if a != [] {
      var n := |a| - 1;
      SumsAdd(a[..n], b[..n], c[..n]);
    }
  }

  /** From any state on, the calls already made take together at most as many more steps as the measure says,
      however they interleave with new calls, new runs, cancels and configuration changes. */
  lemma OpenCallsEnd(s: State, evs: seq<Event>)
    requires Inv(s) && Valid(s, evs)
    requires forall e: ExecId :: e < |s.execs| ==> Settled(s, evs, s.execs[e].run)
    ensures Sum(Counts(evs, |s.execs|)) <= Total(s)
    ensures |After(s, evs).execs| >= |s.execs|
    ensures Sum(Counts(evs, |s.execs|)) + Sum(Ranks(After(s, evs))[..|s.execs|]) <= Total(s)
  {
    hide Inv, Valid, After, Rank, Settled;
    var n, s' := |s.execs|, After(s, evs);
    ExecutorsStay(s, evs);
    forall e: ExecId | e < n
      ensures Ranks(s')[e] >= 0
      ensures Counts(evs, n)[e] + Ranks(s')[..n][e] <= Ranks(s)[e]
    {
      CallEnds(s, evs, e);
    }
    SumsAdd(Counts(evs, n), Ranks(s')[..n], Ranks(s));
    SumNotNegative(Ranks(s')[..n]);
  }

  lemma {:induction false} ExecutorsStay(s: State, evs: seq<Event>)
    requires Valid(s, evs)
    ensures |After(s, evs).execs| == |s.execs| + NewCalls(evs)
    ensures forall ev :: ev in evs && ev.Do? ==> ev.e < |s.execs| + NewCalls(evs)
    decreases |evs|
  {
    hide Step, CanStep;
    if evs != [] {
      if evs[0].Do? {
        StepFrame(s, evs[0].e, evs[0].c);
      }
      ExecutorsStay(Apply(s, evs[0]), evs[1..]);
    }
  }

  function NewCalls(evs: seq<Event>): nat {
    if evs == [] then 0 else (if evs[0].Call? then 1 else 0) + NewCalls(evs[1..])
  }

  lemma {:induction false} NoNewCalls(evs: seq<Event>)
    requires forall ev :: ev in evs ==> !ev.Call?
    ensures NewCalls(evs) == 0
  {
    if evs != [] {
      assert evs[0] in evs;
      NoNewCalls(evs[1..]);
    }
  }

  /** Without new requests those are all the steps there are. With NoDeadlock: they all return. */
  lemma CallsEnd(s: State, evs: seq<Event>)
    requires Inv(s) && Valid(s, evs)
    requires forall ev :: ev in evs ==> !ev.Call? && !ev.Create? && !ev.RetryCommit?
    ensures StepsTaken(evs) + Total(After(s, evs)) <= Total(s)
    ensures Total(After(s, evs)) >= 0
  {
    hide Inv, Valid, After, Rank;
    NoNewCalls(evs);
    ExecutorsStay(s, evs);
    OpenCallsEnd(s, evs);
    SumOfCounts(evs, |s.execs|);
    assert Ranks(After(s, evs))[..|s.execs|] == Ranks(After(s, evs));
    InvAfter(s, evs);
    TotalNotNegative(After(s, evs));
  }

  /** From any reachable state the calls alone can take every one of them to its return; by CallsEnd any way
      of going on for long enough does. */
  lemma {:induction false} AllCanReturn(s: State) returns (evs: seq<Event>)
    requires Inv(s)
    ensures Valid(s, evs) && |After(s, evs).execs| == |s.execs|
    ensures forall ev :: ev in evs ==> ev.Do?
    ensures forall e: ExecId :: e < |s.execs| ==> After(s, evs).execs[e].pc.Returned?
    decreases Total(s)
  {
    hide Inv, CanStep, Step, Total;
    if e: ExecId :| e < |s.execs| && !s.execs[e].pc.Returned? {
      NoDeadlock(s, e);
      var x: ExecId, c: Choice :| x < |s.execs| && CanStep(s, x, c);
      StepFrame(s, x, c);
      TotalDescends(s, Do(x, c));
      ApplyKeepsInv(s, Do(x, c));
      TotalNotNegative(s);
      TotalNotNegative(Step(s, x, c));
      var rest := AllCanReturn(Step(s, x, c));
      evs := [Do(x, c)] + rest;
      assert evs[1..] == rest;
    } else {
      evs := [];
    }
  }
}
