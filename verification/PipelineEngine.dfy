/** The engine in its own form: an object whose maps and rows are changed in place, one method a statement,
    and `execute_mode` around `execute_inner` with its loop over the stages. Between any two steps of a call
    everybody else may take any number of theirs. Every method is a step of the machine in module Engine. */
module PipelineEngine {
  import opened Wrappers
  import opened Runs
  import opened Engine
  import opened Ownership
  import opened EngineInvariant
  import opened EngineSteps
  import opened EngineTheorems
  import opened EngineSafety
  import opened Continuations
  import opened Interference
  import Locks = ProjectLocks

  /** What a call has come to: still queued for a permit when its patience ran out, or returned. */
  datatype Progress = Queued | Finished(res: Outcome)

  class PipelineEngine {
    // The tables.
    var runs: map<RunId, Run>
    var counters: map<ProjectId, nat>
    var config: map<ProjectId, seq<StageDef>>
    // The shared maps and the semaphore.
    var running: map<RunId, ExecId>
    var locks: Locks.LockTable
    var free: nat
    const capacity: nat
    // Tokens made and tokens cancelled; every call makes one.
    var made: nat
    var cancelled: set<ExecId>
    // Where every call is, and what other handlers hold.
    ghost var execs: seq<Executor>
    ghost var handles: set<ExecId>
    ghost var tickets: set<Ticket>

    ghost function View(): State
      reads this
    {
      State(runs, counters, config, execs, running, cancelled, handles, locks, free, capacity, tickets)
    }

    ghost predicate Valid()
      reads this
    {
      Reachable(View()) && made == |execs|
    }

    /** Call `e` executes run `r` and takes the step `pc` next. */
    ghost predicate At(e: ExecId, r: RunId, git: bool, pc: Pc)
      reads this
    {
      Valid() && e < |execs| && execs[e] == Executor(r, git, pc)
    }

    /** The same for a claimant that has read the stages of its run. */
    ghost predicate Inner(e: ExecId, r: RunId, git: bool, stages: seq<StageDef>, at: Point)
      reads this
    {
      At(e, r, git, Inside(at)) && r in runs && runs[r].defs == stages
    }

    constructor (maxConcurrency: nat)
      ensures View() == Initial(maxConcurrency) && Valid()
    {
      hide Reachable;
      runs, counters, config, running, cancelled := map[], map[], map[], map[], {};
      locks := Locks.EmptyTable;
      var permits := if maxConcurrency > 1 then maxConcurrency else 1;
      capacity, free, made := permits, permits, 0;
      execs, handles, tickets := [], {}, {};
      StartsReachable(maxConcurrency);
      new;
    }

    /** What the invariant of the machine says about the object at any time. */
    lemma Rows(r: RunId)
      requires Valid() && r in runs
      ensures WellShaped(runs[r])
      ensures runs[r].spawned <= EnabledBelow(runs[r].defs, |runs[r].defs|)
    {
      hide Reachable, WellShaped;
      StagePatterns(View(), r);
      CommandTrace(View(), r);
    }

    /** Everybody but `e` runs for a while. Callers know no more than the contract, which allows them any
        stretch of events. */
    method Others(e: ExecId)
      requires Valid()
      modifies this
      ensures Interferes(old(View()), View(), e) && made == |execs|
    {
      assert Engine.Valid(View(), []) && View() == After(View(), []) && OthersOnly([], e);
    }

    method Yield(e: ExecId, ghost r: RunId, ghost git: bool, ghost pc: Pc)
      requires At(e, r, git, pc)
      modifies this
      ensures Continues(old(View()), View())
      ensures At(e, r, git, pc) && old(cancelled) <= cancelled
      ensures pc.Inside? ==> r in old(runs) && r in runs && runs[r] == old(runs[r])
    {
      hide Reachable;
      ghost var s := View();
      Others(e);
      Rely(s, View(), e);
    }

    /** A statement fails, if statements may fail at all. */
    method Trouble(faults: bool) returns (fault: bool)
      ensures fault ==> faults
    {
      fault := *;
      fault := fault && faults;
    }

    // ---- Up to the claim ----

    /** SELECT project_id ... WHERE id = ? AND status = 'pending' */
    method Lookup(e: ExecId, r: RunId, ghost git: bool) returns (found: bool)
      requires At(e, r, git, Pc.Lookup)
      modifies this`execs
      ensures Took(old(View()), View(), e, Go)
      ensures found <==> r in old(runs) && old(runs)[r].status == Pending
      ensures At(e, r, git, if found then TakeLock else Finalise(NotPending))
    {
      hide Reachable;
      SoundStep(View(), e, Go);
      found := r in runs && runs[r].status == Pending;
      execs := execs[e := execs[e].(pc := if found then TakeLock else Finalise(NotPending))];
    }

    /** The mutex section of `project_permit`. */
    method TakeProjectLock(e: ExecId, r: RunId, ghost git: bool)
      requires At(e, r, git, TakeLock)
      modifies this`execs, this`locks
      ensures Took(old(View()), View(), e, Go)
      ensures r in runs && Locks.View(locks) == Locks.Queue(Locks.View(old(locks)), runs[r].project, e)
      ensures forall p :: p in locks.entries ==> exists x :: x in locks.refs && locks.refs[x].lock == locks.entries[p]
      ensures At(e, r, git, WaitProject)
    {
      hide Reachable, Inv, Locks.View, Locks.Queue, Locks.Inv;
      ReachableInv(View());
      Facts(View(), e);
      SoundStep(View(), e, Go);
      var p := runs[r].project;
      LockFacts(View(), e);
      Locks.TakeRefinesQueue(locks, p, e);
      Locks.TakePrunes(locks, p, e);
      var entries := Locks.Pruned(locks);
      var permits := locks.permits;
      if p !in entries {
        entries := entries[p := |permits|];
        permits := permits + [1];
      }
      locks := Locks.LockTable(entries, permits, locks.refs[e := Locks.Handle(p, entries[p], false)]);
      execs := execs[e := execs[e].(pc := WaitProject)];
    }

    /** A poll of `lock.acquire_owned()`. */
    method PollProject(e: ExecId, r: RunId, ghost git: bool) returns (ok: bool)
      requires At(e, r, git, WaitProject)
      modifies this`execs, this`locks
      ensures ok <==> Locks.CanEnter(Locks.View(old(locks)), e)
      ensures if ok then Took(old(View()), View(), e, Go) else View() == old(View())
      ensures ok ==> e in Locks.View(old(locks)).queued && Locks.View(locks) == Locks.Enter(Locks.View(old(locks)), e)
      ensures At(e, r, git, if ok then WaitGlobal else WaitProject)
    {
      hide Reachable, Inv;
      ReachableInv(View());
      LockFacts(View(), e);
      Locks.AcquireRefinesEnter(locks, e);
      var h := locks.refs[e];
      ok := h.lock < |locks.permits| && locks.permits[h.lock] > 0;
      if ok {
        SoundStep(View(), e, Go);
        locks := locks.(permits := locks.permits[h.lock := locks.permits[h.lock] - 1],
        refs := locks.refs[e := h.(holds := true)]);
        execs := execs[e := execs[e].(pc := WaitGlobal)];
      }
    }

    /** A poll of `self.concurrency.acquire()`. */
    method PollGlobal(e: ExecId, r: RunId, ghost git: bool) returns (ok: bool)
      requires At(e, r, git, WaitGlobal)
      modifies this`execs, this`free
      ensures ok <==> old(free) > 0
      ensures if ok then Took(old(View()), View(), e, Go) else View() == old(View())
      ensures ok ==> free == old(free) - 1
      ensures At(e, r, git, if ok then Pc.Register else WaitGlobal)
    {
      hide Reachable;
      ok := free > 0;
      if ok {
        SoundStep(View(), e, Go);
        free := free - 1;
        execs := execs[e := execs[e].(pc := Pc.Register)];
      }
    }

    /** The mutex section that registers the token. */
    method Register(e: ExecId, r: RunId, ghost git: bool) returns (ok: bool)
      requires At(e, r, git, Pc.Register)
      modifies this`execs, this`running
      ensures Took(old(View()), View(), e, Go)
      ensures running == if r in old(running) then old(running) else old(running)[r := e]
      ensures ok <==> r !in old(running)
      ensures At(e, r, git, if ok then Pc.Claim else DropGlobal(AlreadyRunning))
    {
      hide Reachable;
      SoundStep(View(), e, Go);
      ok := r !in running;
      if ok {
        running := running[r := e];
      }
      execs := execs[e := execs[e].(pc := if ok then Pc.Claim else DropGlobal(AlreadyRunning))];
    }

    /** UPDATE pipeline_runs SET status = 'running' WHERE id = ? AND status = 'pending' */
    method Claim(e: ExecId, r: RunId, ghost git: bool) returns (claimed: bool)
      requires At(e, r, git, Pc.Claim)
      modifies this`execs, this`runs
      ensures Took(old(View()), View(), e, Go)
      ensures r in old(runs) && (claimed <==> old(runs)[r].status == Pending)
      ensures claimed ==> runs == old(runs)[r := old(runs)[r].(status := Running, owner := Some(e))]
      ensures !claimed ==> runs == old(runs)
      ensures At(e, r, git, if claimed then Inside(CheckStart) else Pc.Withdraw)
    {
      hide Reachable, Inv;
      ReachableInv(View());
      Facts(View(), e);
      SoundStep(View(), e, Go);
      claimed := runs[r].status == Pending;
      if claimed {
        runs := runs[r := runs[r].(status := Running, owner := Some(e))];
      }
      execs := execs[e := execs[e].(pc := if claimed then Inside(CheckStart) else Pc.Withdraw)];
    }

    // ---- Inside ----

    /** One of the checks of the cancellation token. */
    method Check(e: ExecId, r: RunId, ghost git: bool, ghost stages: seq<StageDef>, at: Point) returns (stop: bool)
      requires Inner(e, r, git, stages, at) && IsCheck(at, stages)
      modifies this`execs
      ensures Took(old(View()), View(), e, Go)
      ensures stop <==> e in cancelled
      ensures if stop then At(e, r, git, DropGlobal(WasCancelled))
              else Inner(e, r, git, stages, AfterCheck(at, |stages|))
    {
      hide Reachable;
      InsideFacts(View(), e);
      InsideStep(View(), e, Go);
      stop := e in cancelled;
      execs := execs[e := execs[e].(pc := if stop then DropGlobal(WasCancelled) else Inside(AfterCheck(at, |stages|)))];
    }

    /** SELECT ... FROM stage_runs WHERE run_id = ? ORDER BY position */
    method LoadStages(e: ExecId, r: RunId, ghost git: bool, ghost stages: seq<StageDef>, fault: bool)
      returns (loaded: Option<seq<StageDef>>)
      requires Inner(e, r, git, stages, Load)
      modifies this`execs
      ensures Took(old(View()), View(), e, if fault then Fails else Go)
      ensures if fault then loaded == None && At(e, r, git, DropGlobal(Fault)) else loaded == Some(stages)
                                                                                    && Inner(e, r, git, stages, Prepare)
    {
      hide Reachable;
      InsideFacts(View(), e);
      InsideStep(View(), e, if fault then Fails else Go);
      loaded := if fault then None else Some(runs[r].defs);
      execs := execs[e := execs[e].(pc := if fault then DropGlobal(Fault) else Inside(Prepare))];
    }

    /** The workspace is prepared, and the repository and the branch are read if there is one to synchronise. */
    method PrepareWorkspace(e: ExecId, r: RunId, ghost git: bool, ghost stages: seq<StageDef>, fault: bool)
      returns (ok: bool)
      requires Inner(e, r, git, stages, Prepare)
      modifies this`execs
      ensures Took(old(View()), View(), e, if fault then Fails else Go)
      ensures ok <==> !fault
      ensures if ok then Inner(e, r, git, stages, if git then GitCheck else StageTop(0))
              else At(e, r, git, DropGlobal(Fault))
    {
      hide Reachable;
      InsideFacts(View(), e);
      InsideStep(View(), e, if fault then Fails else Go);
      ok := !fault;
      execs := execs[e := execs[e].(pc := if ok then Inside(if git then GitCheck else StageTop(0))
      else DropGlobal(Fault))];
    }

    /** The synchronisation answers with a commit, an error, or that the token interrupted it. */
    method SyncRepository(e: ExecId, r: RunId, ghost git: bool, ghost stages: seq<StageDef>, answer: Choice)
      returns (res: Outcome)
      requires Inner(e, r, git, stages, GitSync)
      requires (answer.Synced? || answer.Fails? || (answer.GitCancelled? && e in cancelled))
      modifies this`execs
      ensures Took(old(View()), View(), e, answer)
      ensures res == if answer.Synced? then Done else if answer.Fails? then Fault else WasCancelled
      ensures if res.Done? then Inner(e, r, git, stages, GitRecheck(answer.sha)) else At(e, r, git, DropGlobal(res))
    {
      hide Reachable;
      InsideFacts(View(), e);
      InsideStep(View(), e, answer);
      res := if answer.Synced? then Done else if answer.Fails? then Fault else WasCancelled;
      execs := execs[e := execs[e].(pc := if answer.Synced? then Inside(GitRecheck(answer.sha)) else DropGlobal(res))];
    }

    /** UPDATE pipeline_runs SET commit_sha = ? WHERE id = ? AND status = 'running' */
    method RecordCommit(e: ExecId, r: RunId, ghost git: bool, ghost stages: seq<StageDef>, sha: string, fault: bool)
      returns (ok: bool)
      requires Inner(e, r, git, stages, Record(sha))
      modifies this`execs, this`runs
      ensures Took(old(View()), View(), e, if fault then Fails else Go)
      ensures r in old(runs) && (ok ==> runs == old(runs)[r := old(runs)[r].(commit := Some(sha))])
      ensures !ok ==> runs == old(runs)
      ensures ok <==> !fault
      ensures if ok then Inner(e, r, git, stages, StageTop(0))
                         && runs[r].commit == Some(sha) else At(e, r, git, DropGlobal(Fault))
    {
      hide Reachable;
      InsideFacts(View(), e);
      InsideStep(View(), e, if fault then Fails else Go);
      ok := !fault && runs[r].status == Running;
      if ok {
        runs := runs[r := runs[r].(commit := Some(sha))];
      }
      execs := execs[e := execs[e].(pc := if ok then Inside(StageTop(0)) else DropGlobal(Fault))];
    }

    /** `continue` for a disabled stage. */
    method SkipDisabled(e: ExecId, r: RunId, ghost git: bool, ghost stages: seq<StageDef>, i: nat)
      requires Inner(e, r, git, stages, StageTop(i)) && i < |stages| && !stages[i].enabled
      modifies this`execs
      ensures Took(old(View()), View(), e, Go)
      ensures Inner(e, r, git, stages, StageTop(i + 1))
    {
      hide Reachable;
      InsideFacts(View(), e);
      InsideStep(View(), e, Go);
      execs := execs[e := execs[e].(pc := Inside(StageTop(i + 1)))];
    }

    /** UPDATE stage_runs SET status = 'running' WHERE id = ? AND status = 'pending' */
    method ClaimStage(e: ExecId, r: RunId, ghost git: bool, ghost stages: seq<StageDef>, i: nat, fault: bool)
      returns (ok: bool)
      requires Inner(e, r, git, stages, Point.ClaimStage(i))
      modifies this`execs, this`runs
      ensures Took(old(View()), View(), e, if fault then Fails else Go)
      ensures r in old(runs) && i < |old(runs)[r].cells|
      ensures ok ==>
                var was := old(runs)[r];
                runs == old(runs)[r := was.(cells := was.cells[i := was.cells[i].(status := Running)])]
      ensures !ok ==> runs == old(runs)
      ensures ok <==> !fault
      ensures if ok then Inner(e, r, git, stages, Point.Launch(i)) else At(e, r, git, DropGlobal(Fault))
    {
      hide Reachable;
      InsideFacts(View(), e);
      InsideStep(View(), e, if fault then Fails else Go);
      ok := !fault && runs[r].cells[i].status == Pending;
      if ok {
        runs := runs[r := SetCell(runs[r], i, Running)];
      }
      execs := execs[e := execs[e].(pc := if ok then Inside(Point.Launch(i)) else DropGlobal(Fault))];
    }

    /** Up to the spawn: parsing the command, the checks of the executor. */
    method Launch(e: ExecId, r: RunId, ghost git: bool, ghost stages: seq<StageDef>, i: nat, answer: Choice)
      returns (exit: Option<Exit>)
      requires Inner(e, r, git, stages, Point.Launch(i)) && (answer.Go? || answer.Fails? || answer.Invalid?)
      modifies this`execs
      ensures Took(old(View()), View(), e, answer)
      ensures if answer.Fails? then At(e, r, git, DropGlobal(Fault))
              else if answer.Invalid? then exit == Some(Broken) && Inner(e, r, git, stages, Drain(i, Broken))
              else if e in cancelled then exit == Some(Interrupted) && Inner(e, r, git, stages, Drain(i, Interrupted))
              else exit == None && Inner(e, r, git, stages, Point.Spawn(i))
    {
      hide Reachable;
      InsideFacts(View(), e);
      InsideStep(View(), e, answer);
      exit := if answer.Invalid? then Some(Broken) else if e in cancelled then Some(Interrupted) else None;
      execs := execs[e := execs[e].(pc := if answer.Fails? then DropGlobal(Fault)
      else Inside(if exit.Some? then Drain(i, exit.value) else Point.Spawn(i)))];
    }

    /** The child process is started, or cannot be. */
    method Spawn(e: ExecId, r: RunId, ghost git: bool, ghost stages: seq<StageDef>, i: nat, fault: bool)
      requires Inner(e, r, git, stages, Point.Spawn(i))
      modifies this`execs, this`runs
      ensures Took(old(View()), View(), e, if fault then Fails else Go)
      ensures r in old(runs)
      ensures !fault ==> runs == old(runs)[r := old(runs)[r].(spawned := old(runs)[r].spawned + [i])]
      ensures fault ==> runs == old(runs)
      ensures Inner(e, r, git, stages, if fault then Drain(i, Broken) else Executing(i))
      ensures r in old(runs) && runs[r].spawned == old(runs)[r].spawned + if fault then [] else [i]
    {
      hide Reachable;
      InsideFacts(View(), e);
      InsideStep(View(), e, if fault then Fails else Go);
      if !fault {
        runs := runs[r := runs[r].(spawned := runs[r].spawned + [i])];
      }
      execs := execs[e := execs[e].(pc := Inside(if fault then Drain(i, Broken) else Executing(i)))];
    }

    /** INSERT INTO pipeline_stage_logs, by the writer that runs beside the command. */
    method InsertLog(e: ExecId, r: RunId, ghost git: bool, ghost stages: seq<StageDef>, at: Point, row: LogRow)
      requires Inner(e, r, git, stages, at) && (at.Executing? || at.Drain?) && r in runs && at.i in runs[r].spawned
      requires at.i < |runs[r].cells| && Appendable(runs[r].cells[at.i].logs, row)
      modifies this`execs, this`runs
      ensures Took(old(View()), View(), e, Choice.Log(row))
      ensures var was, cell := old(runs)[r], old(runs)[r].cells[at.i];
              runs == old(runs)[r := was.(cells := was.cells[at.i := cell.(logs := cell.logs + [row])])]
      ensures Inner(e, r, git, stages, at) && runs[r].spawned == old(runs[r].spawned)
    {
      hide Reachable;
      InsideFacts(View(), e);
      InsideStep(View(), e, Choice.Log(row));
      var cell := runs[r].cells[at.i];
      runs := runs[r := runs[r].(cells := runs[r].cells[at.i := cell.(logs := cell.logs + [row])])];
      assert execs == execs[e := execs[e].(pc := Inside(at))];
    }

    /** The executor returns; Interrupted only if the token was cancelled. */
    method CommandEnds(e: ExecId, r: RunId, ghost git: bool, ghost stages: seq<StageDef>, i: nat, exit: Exit)
      requires Inner(e, r, git, stages, Executing(i)) && (exit.Interrupted? ==> e in cancelled)
      modifies this`execs
      ensures Took(old(View()), View(), e, Exits(exit))
      ensures Inner(e, r, git, stages, Drain(i, exit)) && runs == old(runs)
    {
      hide Reachable;
      InsideFacts(View(), e);
      InsideStep(View(), e, Exits(exit));
      execs := execs[e := execs[e].(pc := Inside(Drain(i, exit)))];
    }

    /** `log_writer.await`, then the error of the executor if it had one. */
    method AwaitWriter(e: ExecId, r: RunId, ghost git: bool, ghost stages: seq<StageDef>, i: nat, exit: Exit,
                       flag: bool, fault: bool) returns (ok: bool)
      requires Inner(e, r, git, stages, Drain(i, exit))
      modifies this`execs
      ensures Took(old(View()), View(), e, if fault then Fails else Written(flag))
      ensures ok <==> !fault && !exit.Broken?
      ensures if ok then Inner(e, r, git, stages, Point.SaveTruncated(i, exit, flag))
              else At(e, r, git, DropGlobal(Fault))
    {
      hide Reachable;
      InsideFacts(View(), e);
      InsideStep(View(), e, if fault then Fails else Written(flag));
      ok := !fault && !exit.Broken?;
      execs := execs[e := execs[e].(pc := if ok then Inside(Point.SaveTruncated(i, exit, flag))
      else DropGlobal(Fault))];
    }

    /** UPDATE stage_runs SET logs_truncated = ? WHERE id = ?, and the match on the status of the command. */
    method SaveTruncated(e: ExecId, r: RunId, ghost git: bool, ghost stages: seq<StageDef>, i: nat, exit: Exit,
                         flag: bool, fault: bool) returns (res: Outcome)
      requires Inner(e, r, git, stages, Point.SaveTruncated(i, exit, flag))
      modifies this`execs, this`runs
      ensures Took(old(View()), View(), e, if fault then Fails else Go)
      ensures r in old(runs) && i < |old(runs)[r].cells|
      ensures !fault ==>
                var was := old(runs)[r];
                runs == old(runs)[r := was.(cells := was.cells[i := was.cells[i].(truncated := flag)])]
      ensures fault ==> runs == old(runs)
      ensures res == if fault then Fault else if exit.Interrupted? then WasCancelled else Done
      ensures if res.Done? then Inner(e, r, git, stages, Point.FinishStage(i, exit.Succeeded?))
              else At(e, r, git, DropGlobal(res))
    {
      hide Reachable;
      InsideFacts(View(), e);
      InsideStep(View(), e, if fault then Fails else Go);
      if !fault {
        runs := runs[r := runs[r].(cells := runs[r].cells[i := runs[r].cells[i].(truncated := flag)])];
      }
      res := if fault then Fault else if exit.Interrupted? then WasCancelled else Done;
      execs := execs[e := execs[e].(pc := if res.Done? then Inside(Point.FinishStage(i, exit.Succeeded?))
      else DropGlobal(res))];
    }

    /** UPDATE stage_runs SET status = ? WHERE id = ? */
    method FinishStage(e: ExecId, r: RunId, ghost git: bool, ghost stages: seq<StageDef>, i: nat, succeeded: bool,
                       fault: bool) returns (ok: bool)
      requires Inner(e, r, git, stages, Point.FinishStage(i, succeeded))
      modifies this`execs, this`runs
      ensures Took(old(View()), View(), e, if fault then Fails else Go)
      ensures r in old(runs) && i < |old(runs)[r].cells|
      ensures ok && succeeded ==>
                var was := old(runs)[r];
                runs == old(runs)[r := was.(cells := was.cells[i := was.cells[i].(status := Success)])]
      ensures ok && !succeeded ==>
                var was := old(runs)[r];
                runs == old(runs)[r := was.(cells := was.cells[i := was.cells[i].(status := Failed)])]
      ensures !ok ==> runs == old(runs)
      ensures ok <==> !fault
      ensures if ok then Inner(e, r, git, stages, if succeeded then StageTop(i + 1) else Point.SkipRest(i))
              else At(e, r, git, DropGlobal(Fault))
    {
      hide Reachable;
      InsideFacts(View(), e);
      InsideStep(View(), e, if fault then Fails else Go);
      ok := !fault;
      if ok {
        runs := runs[r := SetCell(runs[r], i, if succeeded then Success else Failed)];
      }
      execs := execs[e := execs[e].(pc := if !ok then DropGlobal(Fault)
      else Inside(if succeeded then StageTop(i + 1) else Point.SkipRest(i)))];
    }

    /** UPDATE stage_runs SET status = 'skipped' WHERE run_id = ? AND status = 'pending' */
    method SkipRest(e: ExecId, r: RunId, ghost git: bool, ghost stages: seq<StageDef>, i: nat, fault: bool)
      returns (ok: bool)
      requires Inner(e, r, git, stages, Point.SkipRest(i))
      modifies this`execs, this`runs
      ensures Took(old(View()), View(), e, if fault then Fails else Go)
      ensures r in old(runs) && (!ok ==> runs == old(runs))
      ensures ok ==>
                var was, now := old(runs)[r], runs[r];
                && runs == old(runs)[r := was.(cells := now.cells)] && |now.cells| == |was.cells|
                && forall j :: 0 <= j < |was.cells| ==>
                                 now.cells[j] == if was.cells[j].status == Pending then was.cells[j].(status := Skipped)
                                 else was.cells[j]
      ensures ok <==> !fault
      ensures if ok then Inner(e, r, git, stages, Point.FailRun(i)) else At(e, r, git, DropGlobal(Fault))
    {
      hide Reachable;
      InsideFacts(View(), e);
      InsideStep(View(), e, if fault then Fails else Go);
      ok := !fault;
      if ok {
        runs := runs[r := runs[r].(cells := Rewrite(runs[r].cells, Pending, Skipped))];
      }
      execs := execs[e := execs[e].(pc := if ok then Inside(Point.FailRun(i)) else DropGlobal(Fault))];
    }

    /** UPDATE pipeline_runs SET status = 'failed' WHERE id = ? */
    method FailRun(e: ExecId, r: RunId, ghost git: bool, ghost stages: seq<StageDef>, i: nat, fault: bool)
      returns (res: Outcome)
      requires Inner(e, r, git, stages, Point.FailRun(i))
      modifies this`execs, this`runs
      ensures Took(old(View()), View(), e, if fault then Fails else Go)
      ensures r in old(runs) && (!fault ==> runs == old(runs)[r := old(runs)[r].(status := Failed)])
      ensures fault ==> runs == old(runs)
      ensures res == (if fault then Fault else Done) && At(e, r, git, DropGlobal(res))
    {
      hide Reachable;
      InsideFacts(View(), e);
      InsideStep(View(), e, if fault then Fails else Go);
      if !fault {
        runs := runs[r := runs[r].(status := Failed)];
      }
      res := if fault then Fault else Done;
      execs := execs[e := execs[e].(pc := DropGlobal(res))];
    }

    /** UPDATE pipeline_runs SET status = 'success' WHERE id = ? AND status = 'running' */
    method MarkSuccess(e: ExecId, r: RunId, ghost git: bool, ghost stages: seq<StageDef>, fault: bool)
      returns (res: Outcome)
      requires Inner(e, r, git, stages, Point.MarkSuccess)
      modifies this`execs, this`runs
      ensures Took(old(View()), View(), e, if fault then Fails else Go)
      ensures r in old(runs) && (!fault ==> runs == old(runs)[r := old(runs)[r].(status := Success)])
      ensures fault ==> runs == old(runs)
      ensures res == (if fault then Fault else Done) && At(e, r, git, DropGlobal(res))
    {
      hide Reachable;
      InsideFacts(View(), e);
      InsideStep(View(), e, if fault then Fails else Go);
      res := if !fault && runs[r].status == Running then Done else Fault;
      if res.Done? {
        runs := runs[r := runs[r].(status := Success)];
      }
      execs := execs[e := execs[e].(pc := DropGlobal(res))];
    }

    // ---- Out again ----

    /** `_permit` goes out of scope. */
    method ReturnPermit(e: ExecId, r: RunId, ghost git: bool, ghost res: Outcome)
      requires At(e, r, git, DropGlobal(res))
      modifies this`execs, this`free
      ensures Took(old(View()), View(), e, Go)
      ensures free == old(free) + 1
      ensures At(e, r, git, DropProject(res))
    {
      hide Reachable;
      SoundStep(View(), e, Go);
      free := free + 1;
      execs := execs[e := execs[e].(pc := DropProject(res))];
    }

    /** `_project_permit` goes out of scope: the permit goes back, then the reference to the semaphore. */
    method ReturnProject(e: ExecId, r: RunId, ghost git: bool, ghost res: Outcome)
      requires At(e, r, git, DropProject(res))
      modifies this`execs, this`locks
      ensures Took(old(View()), View(), e, Go)
      ensures Locks.View(locks) == Locks.Exit(Locks.View(old(locks)), e)
      ensures At(e, r, git, Finalise(res))
    {
      hide Reachable, Inv;
      ReachableInv(View());
      LockFacts(View(), e);
      Locks.ReleaseRefinesExit(locks, e);
      DropProjectKeepsInv(View(), e);
      SoundStep(View(), e, Go);
      var h := locks.refs[e];
      locks := locks.(permits := locks.permits[h.lock := locks.permits[h.lock] + 1], refs := locks.refs - {e});
      execs := execs[e := execs[e].(pc := Finalise(res))];
    }

    /** The transactions of `fail_running_run` and `cancel_running_run`: three UPDATEs and a commit. */
    method FinishRun(e: ExecId, r: RunId, ghost git: bool, res: Outcome)
      requires At(e, r, git, Finalise(res)) && !res.Done? && !res.NotPending?
      modifies this`execs, this`runs
      ensures Took(old(View()), View(), e, Go)
      ensures r in old(runs)
      ensures var was, now := old(runs)[r], runs[r];
              && runs == old(runs)[r := was.(cells := now.cells, status := now.status)] && |now.cells| == |was.cells|
              && now.status == (if was.status != Running then was.status
                                else if res == WasCancelled then Cancelled else Failed)
              && forall j :: 0 <= j < |was.cells| ==>
                               && now.cells[j].logs == was.cells[j].logs
                               && now.cells[j].truncated == was.cells[j].truncated
                               && now.cells[j].status == if was.cells[j].status == Pending then Skipped
                                                         else if was.cells[j].status != Running then was.cells[j].status
                                                         else if res == WasCancelled then Cancelled else Failed
      ensures At(e, r, git, Pc.Deregister(res))
    {
      hide Reachable, Inv;
      ReachableInv(View());
      FinaliseKeepsInv(View(), e);
      SoundStep(View(), e, Go);
      var to := if res.WasCancelled? then Cancelled else Failed;
      var cells := Rewrite(runs[r].cells, Running, to);
      cells := Rewrite(cells, Pending, Skipped);
      var status := if runs[r].status == Running then to else runs[r].status;
      runs := runs[r := runs[r].(cells := cells, status := status)];
      execs := execs[e := execs[e].(pc := Pc.Deregister(res))];
    }

    /** `remove_running` */
    method RemoveRunning(e: ExecId, r: RunId, ghost git: bool, ghost pc: Pc)
      requires At(e, r, git, pc)
      requires pc.Withdraw? || pc.Deregister? || (pc.Finalise? && (pc.res.Done? || pc.res.NotPending?))
      modifies this`execs, this`running
      ensures Took(old(View()), View(), e, Go)
      ensures running == old(running) - {r}
      ensures At(e, r, git, if pc.Withdraw? then DropGlobal(NotPending) else Returned(pc.res))
    {
      hide Reachable;
      SoundStep(View(), e, Go);
      running := running - {r};
      execs := execs[e := execs[e].(pc := if pc.Withdraw? then DropGlobal(NotPending) else Returned(pc.res))];
    }

    // ---- The calls ----

    /** `execute` and `execute_with_git`: the call, then steps of the machine with anything of anybody else's in
        between. `faults` says whether statements, git and commands may fail. When the call returns, its token is
        gone from the map, and if it was the one to claim the run, the run is terminal and nothing of it is pending
        or running. */
    method Execute(r: RunId, git: bool, faults: bool, patience: nat) returns (e: ExecId, p: Progress)
      requires Valid()
      modifies this
      ensures Valid() && e == old(made)
      ensures Continues(Apply(old(View()), Call(r, git)), View())
      ensures match p
              case Queued => MustWait(e, r, git)
              case Finished(res) => At(e, r, git, Returned(res)) && (r in running ==> running[r] != e)
                                    && (res.Fault? ==> faults) && (res.WasCancelled? ==> e in cancelled)
      ensures p.Finished? && OwnersOutcome(p.res) ==>
                && r in runs && runs[r].owner == Some(e) && Terminal(runs[r].status)
                && forall i :: 0 <= i < |runs[r].cells| ==> !runs[r].cells[i].status.Pending?
                                                            && !runs[r].cells[i].status.Running?
    {
      hide Reachable, Took, Continues;
      ghost var s0 := Apply(View(), Call(r, git));
      Chain(s0);
      ReachableStep(View(), Call(r, git), s0);
      e := made;
      made := made + 1;
      execs := execs + [Executor(r, git, Pc.Lookup)];
      p := ExecuteInner(e, r, git, faults, patience);
      if p.Finished? {
        Finaliser(e, r, git, p.res);
        ReturnFacts(View(), e);
      }
    }

    /** The part of `execute_mode` after `execute_inner`. */
    method Finaliser(e: ExecId, r: RunId, ghost git: bool, res: Outcome)
      requires At(e, r, git, Finalise(res))
      modifies this
      ensures Continues(old(View()), View())
      ensures At(e, r, git, Returned(res)) && old(cancelled) <= cancelled
    {
      hide Reachable, Took, Continues;
      Chain(View());
      ghost var pc := Finalise(res);
      Yield(e, r, git, pc);
      if !res.Done? && !res.NotPending? {
        FinishRun(e, r, git, res);
        pc := Pc.Deregister(res);
        Yield(e, r, git, pc);
      }
      RemoveRunning(e, r, git, pc);
    }

    method ExecuteInner(e: ExecId, r: RunId, git: bool, faults: bool, patience: nat) returns (p: Progress)
      requires At(e, r, git, Pc.Lookup)
      modifies this
      ensures Continues(old(View()), View())
      ensures match p
              case Queued => MustWait(e, r, git)
              case Finished(res) => At(e, r, git, Finalise(res)) && (res.Fault? ==> faults)
                                    && (res.WasCancelled? ==> e in cancelled)
    {
      hide Reachable, Took, Continues, MustWait;
      Chain(View());
      var found := Lookup(e, r, git);
      if !found {
        return Finished(NotPending);
      }
      Yield(e, r, git, TakeLock);
      TakeProjectLock(e, r, git);
      var ready := Queue(e, r, git, patience);
      if !ready {
        return Queued;
      }
      Yield(e, r, git, Pc.Register);
      var res := WithPermits(e, r, git, faults);
      GiveBack(e, r, git, res);
      return Finished(res);
    }

    /** Both permits go out of scope, the global one first. */
    method GiveBack(e: ExecId, r: RunId, ghost git: bool, ghost res: Outcome)
      requires At(e, r, git, DropGlobal(res))
      modifies this
      ensures Continues(old(View()), View())
      ensures At(e, r, git, Finalise(res)) && old(cancelled) <= cancelled
    {
      hide Reachable, Took, Continues;
      Chain(View());
      Yield(e, r, git, DropGlobal(res));
      ReturnPermit(e, r, git, res);
      Yield(e, r, git, DropProject(res));
      ReturnProject(e, r, git, res);
    }

    /** The call waits for a permit, and at this moment there is none for it. */
    ghost predicate MustWait(e: ExecId, r: RunId, git: bool)
      reads this
    {
      || (At(e, r, git, WaitProject) && !Locks.CanEnter(Locks.View(locks), e))
      || (At(e, r, git, WaitGlobal) && free == 0)
    }

    /** Waits for the project's permit, then for a global one; never the other way round. After some polls in vain it
        answers that it still waits. */
    method Queue(e: ExecId, r: RunId, ghost git: bool, patience: nat) returns (ready: bool)
      requires At(e, r, git, WaitProject)
      modifies this
      ensures Continues(old(View()), View())
      ensures if ready then At(e, r, git, Pc.Register) else MustWait(e, r, git)
    {
      hide Reachable, Took, Continues;
      ghost var s0 := View();
      Chain(s0);
      var left := patience;
      Yield(e, r, git, WaitProject);
      var inside := PollProject(e, r, git);
      while left > 0 && !inside
        invariant Continues(s0, View())
        invariant if inside then At(e, r, git, WaitGlobal) else At(e, r, git, WaitProject)
                                                                && !Locks.CanEnter(Locks.View(locks), e)
      {
        left := left - 1;
        Yield(e, r, git, WaitProject);
        inside := PollProject(e, r, git);
      }
      if !inside {
        return false;
      }
      Yield(e, r, git, WaitGlobal);
      ready := PollGlobal(e, r, git);
      while left > 0 && !ready
        invariant Continues(s0, View())
        invariant if ready then At(e, r, git, Pc.Register) else At(e, r, git, WaitGlobal) && free == 0
      {
        left := left - 1;
        Yield(e, r, git, WaitGlobal);
        ready := PollGlobal(e, r, git);
      }
    }

    /** Lines 132 to 299: with both permits held. */
    method WithPermits(e: ExecId, r: RunId, git: bool, faults: bool) returns (res: Outcome)
      requires At(e, r, git, Pc.Register)
      modifies this
      ensures Continues(old(View()), View())
      ensures At(e, r, git, DropGlobal(res)) && (res.Fault? ==> faults) && (res.WasCancelled? ==> e in cancelled)
    {
      hide Reachable, Took, Continues;
      Chain(View());
      var registered := Register(e, r, git);
      if !registered {
        return AlreadyRunning;
      }
      Yield(e, r, git, Pc.Claim);
      var claimed := Claim(e, r, git);
      if !claimed {
        Yield(e, r, git, Pc.Withdraw);
        RemoveRunning(e, r, git, Pc.Withdraw);
        return NotPending;
      }
      res := Claimed(e, r, git, faults);
    }

    /** Lines 151 to 299: as the claimant of the run. */
    method Claimed(e: ExecId, r: RunId, git: bool, faults: bool) returns (res: Outcome)
      requires At(e, r, git, Inside(CheckStart))
      modifies this
      ensures Continues(old(View()), View())
      ensures At(e, r, git, DropGlobal(res)) && (res.Fault? ==> faults) && (res.WasCancelled? ==> e in cancelled)
    {
      hide Reachable, Took, Continues;
      Chain(View());
      InsideFacts(View(), e);
      ghost var defs := runs[r].defs;
      Yield(e, r, git, Inside(CheckStart));
      var stop := Check(e, r, git, defs, CheckStart);
      if stop {
        return WasCancelled;
      }
      Yield(e, r, git, Inside(Load));
      var fault := Trouble(faults);
      var stages := LoadStages(e, r, git, defs, fault);
      if stages.None? {
        return Fault;
      }
      Yield(e, r, git, Inside(Prepare));
      fault := Trouble(faults);
      var ok := PrepareWorkspace(e, r, git, defs, fault);
      if !ok {
        return Fault;
      }
      if git {
        res := Synchronise(e, r, defs, faults);
        if !res.Done? {
          return;
        }
      }
      res := RunStages(e, r, git, stages.value, faults);
    }

    method Synchronise(e: ExecId, r: RunId, ghost stages: seq<StageDef>, faults: bool) returns (res: Outcome)
      requires Inner(e, r, true, stages, GitCheck)
      modifies this
      ensures Continues(old(View()), View())
      ensures if res.Done? then Inner(e, r, true, stages, StageTop(0))
                                && runs[r].commit.Some? else At(e, r, true, DropGlobal(res))
      ensures (res.Fault? ==> faults) && (res.WasCancelled? ==> e in cancelled)
    {
      hide Reachable, Took, Continues;
      Chain(View());
      Yield(e, r, true, Inside(GitCheck));
      var stop := Check(e, r, true, stages, GitCheck);
      if stop {
        return WasCancelled;
      }
      Yield(e, r, true, Inside(GitSync));
      var sha: string := *;
      var interrupted: bool := *;
      var fault := Trouble(faults);
      var answer := if fault then Fails else if interrupted && e in cancelled then GitCancelled else Synced(sha);
      res := SyncRepository(e, r, true, stages, answer);
      if !res.Done? {
        return;
      }
      Yield(e, r, true, Inside(GitRecheck(sha)));
      stop := Check(e, r, true, stages, GitRecheck(sha));
      if stop {
        return WasCancelled;
      }
      Yield(e, r, true, Inside(Record(sha)));
      fault := Trouble(faults);
      var ok := RecordCommit(e, r, true, stages, sha, fault);
      res := if ok then Done else Fault;
    }

    /** `for stage in stages`, and the two statements that end a run well. */
    method RunStages(e: ExecId, r: RunId, git: bool, stages: seq<StageDef>, faults: bool) returns (res: Outcome)
      requires Inner(e, r, git, stages, StageTop(0))
      modifies this
      ensures Continues(old(View()), View())
      ensures At(e, r, git, DropGlobal(res)) && (res.Fault? ==> faults) && (res.WasCancelled? ==> e in cancelled)
    {
      hide Reachable, Took, Continues;
      ghost var s0 := View();
      Chain(s0);
      var stop := false;
      for i := 0 to |stages|
        invariant Continues(s0, View())
        invariant Inner(e, r, git, stages, StageTop(i))
      {
        Yield(e, r, git, Inside(StageTop(i)));
        if !stages[i].enabled {
          SkipDisabled(e, r, git, stages, i);
        } else {
          stop := Check(e, r, git, stages, StageTop(i));
          if stop {
            return WasCancelled;
          }
          var goesOn, flag;
          goesOn, res, flag := RunStage(e, r, git, stages, i, faults);
          if !goesOn {
            return;
          }
        }
      }
      Yield(e, r, git, Inside(StageTop(|stages|)));
      stop := Check(e, r, git, stages, StageTop(|stages|));
      if stop {
        return WasCancelled;
      }
      Yield(e, r, git, Inside(Point.MarkSuccess));
      var fault := Trouble(faults);
      res := MarkSuccess(e, r, git, stages, fault);
    }

    /** The body of the loop for an enabled stage. `flag` is what the log writer returned; when the stage has a
        result, it is stored with it. */
    method RunStage(e: ExecId, r: RunId, git: bool, stages: seq<StageDef>, i: nat, faults: bool)
      returns (goesOn: bool, res: Outcome, flag: bool)
      requires i < |stages| && Inner(e, r, git, stages, Point.ClaimStage(i))
      modifies this
      ensures Continues(old(View()), View())
      ensures if goesOn then Inner(e, r, git, stages, StageTop(i + 1)) else At(e, r, git, DropGlobal(res))
      ensures !goesOn ==> (res.Fault? ==> faults) && (res.WasCancelled? ==> e in cancelled)
      ensures goesOn || res.Done? ==>
                && r in runs && i < |runs[r].cells| && runs[r].cells[i].truncated == flag
                && runs[r].cells[i].status == (if goesOn then Success else Failed)
                && runs[r].status == (if goesOn then Running else Failed)
    {
      hide Reachable, Took, Continues;
      Chain(View());
      flag := false;
      Yield(e, r, git, Inside(Point.ClaimStage(i)));
      var fault := Trouble(faults);
      var ok := ClaimStage(e, r, git, stages, i, fault);
      if !ok {
        return false, Fault, false;
      }
      var exit := RunCommand(e, r, git, stages, i, faults);
      if exit.None? {
        return false, Fault, false;
      }
      var succeeded;
      succeeded, res, flag := AfterCommand(e, r, git, stages, i, exit.value, faults);
      if !res.Done? {
        return false, res, flag;
      }
      goesOn, res := StageResult(e, r, git, stages, i, succeeded, flag, faults);
    }

    /** The log writer is awaited, its flag stored, and how the command ended decides what comes next. */
    method AfterCommand(e: ExecId, r: RunId, git: bool, ghost stages: seq<StageDef>, i: nat, exit: Exit, faults: bool)
      returns (succeeded: bool, res: Outcome, flag: bool)
      requires Inner(e, r, git, stages, Drain(i, exit))
      requires (exit.Broken? ==> faults) && (exit.Interrupted? ==> e in cancelled)
      modifies this
      ensures Continues(old(View()), View())
      ensures if res.Done? then Inner(e, r, git, stages, Point.FinishStage(i, succeeded))
              else At(e, r, git, DropGlobal(res))
      ensures (res.Fault? ==> faults) && (res.WasCancelled? ==> e in cancelled)
      ensures res.Done? ==> !exit.Broken? && !exit.Interrupted? && (succeeded <==> exit.Succeeded?)
      ensures res.Done? || res.WasCancelled? ==>
                r in runs && i < |runs[r].cells| && runs[r].cells[i].truncated == flag
    {
      hide Reachable, Took, Continues;
      Chain(View());
      succeeded := exit.Succeeded?;
      Yield(e, r, git, Inside(Drain(i, exit)));
      flag := *;
      var fault := Trouble(faults);
      var ok := AwaitWriter(e, r, git, stages, i, exit, flag, fault);
      if !ok {
        return succeeded, Fault, flag;
      }
      Yield(e, r, git, Inside(Point.SaveTruncated(i, exit, flag)));
      fault := Trouble(faults);
      res := SaveTruncated(e, r, git, stages, i, exit, flag, fault);
    }

    /** The stage gets its result, and after a failure the run ends. */
    method StageResult(e: ExecId, r: RunId, git: bool, ghost stages: seq<StageDef>, i: nat, succeeded: bool, flag: bool,
                       faults: bool) returns (goesOn: bool, res: Outcome)
      requires Inner(e, r, git, stages, Point.FinishStage(i, succeeded))
      requires i < |runs[r].cells| && runs[r].cells[i].truncated == flag
      modifies this
      ensures Continues(old(View()), View())
      ensures if goesOn then Inner(e, r, git, stages, StageTop(i + 1)) else At(e, r, git, DropGlobal(res))
      ensures !goesOn ==> res.Done? || (res.Fault? && faults)
      ensures goesOn ==> succeeded
      ensures goesOn || res.Done? ==>
                && r in runs && i < |runs[r].cells| && runs[r].cells[i].truncated == flag
                && runs[r].cells[i].status == (if goesOn then Success else Failed)
                && runs[r].status == (if goesOn then Running else Failed)
    {
      hide Reachable, Took, Continues;
      Chain(View());
      Yield(e, r, git, Inside(Point.FinishStage(i, succeeded)));
      InsideFacts(View(), e);
      var fault := Trouble(faults);
      var ok := FinishStage(e, r, git, stages, i, succeeded, fault);
      if !ok {
        return false, Fault;
      }
      if succeeded {
        return true, Done;
      }
      res := GiveUp(e, r, git, stages, i, faults);
      goesOn := false;
    }

    /** After a failed stage: two more statements. */
    method GiveUp(e: ExecId, r: RunId, git: bool, ghost stages: seq<StageDef>, i: nat, faults: bool)
      returns (res: Outcome)
      requires Inner(e, r, git, stages, Point.SkipRest(i))
      modifies this
      ensures Continues(old(View()), View())
      ensures At(e, r, git, DropGlobal(res)) && (res.Done? || (res.Fault? && faults))
      ensures r in old(runs) && (res.Done? ==> r in runs && runs[r].status == Failed)
      ensures res.Done? ==>
                var was, now := old(runs)[r].cells, runs[r].cells;
                && |now| == |was|
                && forall j :: 0 <= j < |was| ==>
                                 now[j] == if was[j].status == Pending then was[j].(status := Skipped) else was[j]
    {
      hide Reachable, Took, Continues;
      Chain(View());
      Yield(e, r, git, Inside(Point.SkipRest(i)));
      var fault := Trouble(faults);
      var ok := SkipRest(e, r, git, stages, i, fault);
      if !ok {
        return Fault;
      }
      Yield(e, r, git, Inside(Point.FailRun(i)));
      fault := Trouble(faults);
      res := FailRun(e, r, git, stages, i, fault);
    }

    /** The command of a stage, with its log writer. */
    method RunCommand(e: ExecId, r: RunId, git: bool, ghost stages: seq<StageDef>, i: nat, faults: bool)
      returns (exit: Option<Exit>)
      requires Inner(e, r, git, stages, Point.Launch(i))
      modifies this
      ensures Continues(old(View()), View())
      ensures if exit.Some? then Inner(e, r, git, stages, Drain(i, exit.value)) else At(e, r, git, DropGlobal(Fault))
      ensures exit.None? || exit.value.Broken? ==> faults
      ensures exit.Some? && exit.value.Interrupted? ==> e in cancelled
    {
      hide Reachable, Took, Continues;
      Chain(View());
      Yield(e, r, git, Inside(Point.Launch(i)));
      var fault := Trouble(faults);
      var invalid := Trouble(faults);
      exit := Launch(e, r, git, stages, i, if fault then Fails else if invalid then Invalid else Go);
      if fault {
        return None;
      }
      if exit.Some? {
        return;
      }
      Yield(e, r, git, Inside(Point.Spawn(i)));
      fault := Trouble(faults);
      Spawn(e, r, git, stages, i, fault);
      if fault {
        return Some(Broken);
      }
      WriteLogs(e, r, git, stages, Executing(i));
      Yield(e, r, git, Inside(Executing(i)));
      fault := Trouble(faults);
      var how: Exit := *;
      how := if fault then Broken else if how.Broken? || (how.Interrupted? && e !in cancelled) then FailedExit else how;
      CommandEnds(e, r, git, stages, i, how);
      WriteLogs(e, r, git, stages, Drain(i, how));
      exit := Some(how);
    }

    /** Any number of rows the log writer may insert. */
    method WriteLogs(e: ExecId, r: RunId, ghost git: bool, ghost stages: seq<StageDef>, at: Point)
      requires Inner(e, r, git, stages, at) && (at.Executing? || at.Drain?) && at.i in runs[r].spawned
      modifies this
      ensures Continues(old(View()), View()) && old(cancelled) <= cancelled
      ensures Inner(e, r, git, stages, at) && at.i in runs[r].spawned
    {
      hide Reachable, Took, Continues;
      ghost var s0 := View();
      Chain(s0);
      var left: nat := *;
      while left > 0
        invariant Continues(s0, View()) && old(cancelled) <= cancelled
        invariant Inner(e, r, git, stages, at) && at.i in runs[r].spawned
      {
        Yield(e, r, git, Inside(at));
        InsideFacts(View(), e);
        var row: LogRow := *;
        if Appendable(runs[r].cells[at.i].logs, row) {
          ghost var s1 := View();
          InsertLog(e, r, git, stages, at, row);
          Then(s0, s1, View(), e, Choice.Log(row));
        }
        left := left - 1;
      }
    }

    // ---- cancel ----

    /** Anybody runs for a while. */
    method Anybody()
      requires Valid()
      modifies this
      ensures Continues(old(View()), View()) && made == |execs|
    {
      assert Engine.Valid(View(), []) && View() == After(View(), []);
    }

    /** The mutex section in which `cancel` clones the token of the run. */
    method FindToken(r: RunId) returns (token: Option<ExecId>)
      requires Valid()
      modifies this`handles
      ensures token.Some? <==> Enabled(old(View()), CancelLookup(r))
      ensures View() == if token.Some? then Apply(old(View()), CancelLookup(r)) else old(View())
      ensures Valid() && (token.Some? ==> token.value in handles && r in running && running[r] == token.value)
    {
      hide Reachable;
      token := if r in running then Some(running[r]) else None;
      if token.Some? {
        ReachableStep(View(), CancelLookup(r), Apply(View(), CancelLookup(r)));
        handles := handles + {token.value};
      }
    }

    method CancelByToken(token: ExecId)
      requires Valid() && token in handles
      modifies this`cancelled
      ensures Enabled(old(View()), CancelToken(token)) && View() == Apply(old(View()), CancelToken(token))
      ensures Valid() && token in cancelled
    {
      hide Reachable;
      ReachableStep(View(), CancelToken(token), Apply(View(), CancelToken(token)));
      cancelled := cancelled + {token};
    }

    /** The transaction on a run that has not been claimed: BEGIN, two UPDATEs, COMMIT. `faultAt` is the number of
        the statement that fails, if one does; then everything is as it was. */
    method CancelPending(r: RunId, faultAt: Option<nat>) returns (accepted: bool)
      requires Valid()
      modifies this`runs
      ensures accepted <==> r in old(runs) && old(runs)[r].status == Pending && !(faultAt.Some? && faultAt.value < 4)
      ensures accepted ==> Enabled(old(View()), CancelUnclaimed(r)) && View() == Apply(old(View()), CancelUnclaimed(r))
      ensures !accepted ==> View() == old(View())
      ensures accepted ==>
                var was, now := old(runs)[r], runs[r];
                && runs == old(runs)[r := was.(status := Cancelled, cells := now.cells)] && |now.cells| == |was.cells|
                && forall j :: 0 <= j < |was.cells| ==>
                                 now.cells[j] == if was.cells[j].status != Pending then was.cells[j]
                                 else was.cells[j].(status := Cancelled)
      ensures Valid() && (accepted ==> r in runs && runs[r].status == Cancelled && runs[r].owner == None)
    {
      hide Reachable;
      if r in runs && runs[r].status == Pending {
        PendingIsUnclaimed(View(), r);
        ReachableStep(View(), CancelUnclaimed(r), Apply(View(), CancelUnclaimed(r)));
      }
      var before := runs;
      if faultAt == Some(0) || faultAt == Some(1) || r !in runs || runs[r].status != Pending {
        return false;
      }
      runs := runs[r := runs[r].(status := Cancelled)];
      if faultAt == Some(2) {
        runs := before;
        return false;
      }
      runs := runs[r := runs[r].(cells := Rewrite(runs[r].cells, Pending, Cancelled))];
      if faultAt == Some(3) {
        runs := before;
        return false;
      }
      accepted := true;
    }

    /** `cancel`: by the token if there is one, else in the database if the run is still pending. True means
        that the token found in the beginning is cancelled, or that the run ends before anybody claims it. */
    method Cancel(r: RunId, faultAt: Option<nat>) returns (accepted: bool)
      requires Valid()
      modifies this
      ensures Valid() && Continues(old(View()), View())
      ensures r in old(running) ==> accepted && old(running)[r] in cancelled
      ensures r !in old(running) && accepted ==> r in runs && runs[r].status == Cancelled && runs[r].owner == None
    {
      hide Reachable, Continues;
      ghost var s0 := View();
      Stays(s0);
      var token := FindToken(r);
      if token.Some? {
        Happens(s0, CancelLookup(r));
      }
      ghost var s1 := View();
      Anybody();
      ghost var s2 := View();
      AnybodyMayRely(s1, s2);
      GoesOn(s0, s1, s2);
      if token.Some? {
        CancelByToken(token.value);
        Happens(s2, CancelToken(token.value));
        GoesOn(s0, s2, View());
        accepted := true;
      } else {
        accepted := CancelPending(r, faultAt);
        if accepted {
          Happens(s2, CancelUnclaimed(r));
          GoesOn(s0, s2, View());
        }
      }
    }
  }

  predicate IsCheck(at: Point, stages: seq<StageDef>) {
    at.CheckStart? || at.GitCheck? || at.GitRecheck? || (at.StageTop? && (at.i < |stages| ==> stages[at.i].enabled))
  }

  function AfterCheck(at: Point, n: nat): Point
    requires at.CheckStart? || at.GitCheck? || at.GitRecheck? || at.StageTop?
  {
    match at
    case CheckStart => Load
    case GitCheck => GitSync
    case GitRecheck(sha) => Record(sha)
    case StageTop(i) => if i < n then Point.ClaimStage(i) else Point.MarkSuccess
  }
}
