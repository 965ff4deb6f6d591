/** The engine as a step machine. One step is one SQL statement that commits on its own, one
    transaction, one mutex section, or one check of a cancellation token; every executor (a call of
    `execute` or `execute_with_git`) has a program counter, and the steps of executors, cancellers and
    HTTP handlers interleave freely. */
module Engine {
  import opened Wrappers
  import opened Runs
  import Locks = ProjectLocks

  /** How a stage command ended, as `execute_with_logs` reports it; Broken is an error return. */
  datatype Exit = Succeeded | FailedExit | TimedOut | Interrupted | Broken

  /** What `execute_inner` returned; Fault is every error not named here. */
  datatype Outcome = Done | NotPending | AlreadyRunning | WasCancelled | Fault

  /** A program point of `execute_inner` between the claim and its return.
      The comments give lines of src/pipeline_engine.rs. */
  datatype Point =
    | CheckStart                                      // 151
    | Load                                            // 154-158
    | Prepare                                         // 158-170
    | GitCheck                                        // 171
    | GitSync                                         // 174-214
    | GitRecheck(sha: string)                         // 215
    | Record(sha: string)                             // 218-227
    | StageTop(i: nat)                                // 229-235, and 291 after the last stage
    | ClaimStage(i: nat)                              // 237-241
    | Launch(i: nat)                                  // 242-255, up to the check in the executor
    | Spawn(i: nat)                                   // the spawn in the executor
    | Executing(i: nat)                               // the command runs, its log writer beside it
    | Drain(i: nat, exit: Exit)                       // 259-262: the writer stores what is left
    | SaveTruncated(i: nat, exit: Exit, flag: bool)   // 263-272
    | FinishStage(i: nat, ok: bool)                   // 273-279
    | SkipRest(i: nat)                                // 284
    | FailRun(i: nat)                                 // 286
    | MarkSuccess                                     // 294-298

  /** The next thing an executor does. */
  datatype Pc =
    | Lookup                                          // 119-125
    | TakeLock                                        // 340-353: the mutex section of project_permit
    | WaitProject                                     // 354-356: acquire_owned
    | WaitGlobal                                      // 127-131
    | Register                                        // 133-142
    | Claim                                           // 143-146
    | Withdraw                                        // 148
    | Inside(at: Point)                               // 151-299
    | DropGlobal(res: Outcome)                        // `_permit` goes out of scope
    | DropProject(res: Outcome)                       // `_project_permit` goes out of scope
    | Finalise(res: Outcome)                          // 99-113
    | Deregister(res: Outcome)                        // 114
    | Returned(res: Outcome)

  /** How a step goes where the code cannot decide it. */
  datatype Choice =
    | Go                          // as expected
    | Fails                       // a database, file system, git or spawn error
    | Invalid                     // the executor rejects the command specification
    | Synced(sha: string)         // git reports a commit
    | GitCancelled                // git was interrupted by the token
    | Log(row: LogRow)            // the log writer inserts a row
    | Exits(exit: Exit)           // the executor returns
    | Written(flag: bool)         // the log writer returns

  datatype Executor = Executor(run: RunId, git: bool, pc: Pc)

  /** What a handler of `retry` read before its transaction. */
  datatype Ticket = Ticket(source: RunId, project: ProjectId, branch: string, commit: Option<string>)

  /** runs, counters, config: the tables. running: the token map; the token an executor makes is named
      after it. cancelled: the tokens that were cancelled. handles: tokens some `cancel` call has cloned.
      tickets: `retry` calls between their check and their transaction. */
  datatype State = State(
    runs: map<RunId, Run>, counters: map<ProjectId, nat>, config: map<ProjectId, seq<StageDef>>,
    execs: seq<Executor>, running: map<RunId, ExecId>, cancelled: set<ExecId>, handles: set<ExecId>,
    locks: Locks.LockTable, free: nat, capacity: nat, tickets: set<Ticket>)

  function Initial(maxConcurrency: nat): State {
    var capacity := if maxConcurrency > 1 then maxConcurrency else 1;
    State(map[], map[], map[], [], map[], {}, {}, Locks.EmptyTable, capacity, capacity, {})
  }

  // ---- Inside the claimed part of execute_inner ----

  /** Working on stage `at.i`. */
  predicate AtStage(at: Point) {
    at.ClaimStage? || at.Launch? || at.Spawn? || at.Executing? || at.Drain? || at.SaveTruncated?
    || at.FinishStage? || at.SkipRest? || at.FailRun?
  }

  /** The counter points at a stage of the run where it must. */
  predicate InRange(at: Point, run: Run) {
    && |run.cells| == |run.defs|
    && (at.StageTop? ==> at.i <= |run.defs|)
    && (AtStage(at) ==> at.i < |run.defs|)
  }

  predicate Fits(at: Point, run: Run, cancelled: bool, c: Choice)
    requires InRange(at, run)
  {
    match c
    case Go => !at.GitSync? && !at.Executing? && !at.Drain?
    case Fails => !at.CheckStart? && !at.GitCheck? && !at.GitRecheck? && !at.StageTop? && !at.Executing?
    case Invalid => at.Launch?
    case Synced(_) => at.GitSync?
    case GitCancelled => at.GitSync? && cancelled
    case Log(row) => (at.Executing? || at.Drain?) && at.i in run.spawned && Appendable(run.cells[at.i].logs, row)
    case Exits(exit) => at.Executing? && (exit.Interrupted? ==> cancelled)
    case Written(_) => at.Drain?
  }

  /** Where a step leads, and the run's rows after it. */
  datatype Move = Move(pc: Pc, run: Run)

  /** One step between the claim and the release of the permits, on the run's own rows. */
  function Advance(at: Point, run: Run, git: bool, cancelled: bool, c: Choice): Move
    requires InRange(at, run) && Fits(at, run, cancelled, c)
  {
    if c.Fails? && !at.Spawn? then Move(DropGlobal(Fault), run)
    else if c.Log? then
      var cell := run.cells[at.i];
      Move(Inside(at), run.(cells := run.cells[at.i := cell.(logs := cell.logs + [c.row])]))
    else match at
         case CheckStart => Move(if cancelled then DropGlobal(WasCancelled) else Inside(Load), run)
         case Load => Move(Inside(Prepare), run)
         case Prepare => Move(Inside(if git then GitCheck else StageTop(0)), run)
         case GitCheck => Move(if cancelled then DropGlobal(WasCancelled) else Inside(GitSync), run)
         case GitSync => Move(if c.Synced? then Inside(GitRecheck(c.sha)) else DropGlobal(WasCancelled), run)
         case GitRecheck(sha) => Move(if cancelled then DropGlobal(WasCancelled) else Inside(Record(sha)), run)
         case Record(sha) =>
           if run.status == Running then Move(Inside(StageTop(0)), run.(commit := Some(sha)))
           else Move(DropGlobal(Fault), run)
         case StageTop(i) =>
           if i < |run.defs| && !run.defs[i].enabled then Move(Inside(StageTop(i + 1)), run)
           else if cancelled then Move(DropGlobal(WasCancelled), run)
           else Move(Inside(if i < |run.defs| then ClaimStage(i) else MarkSuccess), run)
         case ClaimStage(i) =>
           if run.cells[i].status == Pending then Move(Inside(Launch(i)), SetCell(run, i, Running))
           else Move(DropGlobal(Fault), run)
         case Launch(i) =>
           Move(Inside(if c.Invalid? then Drain(i, Broken) else if cancelled then Drain(i, Interrupted)
                       else Spawn(i)), run)
         case Spawn(i) =>
           if c.Fails? then Move(Inside(Drain(i, Broken)), run)
           else Move(Inside(Executing(i)), run.(spawned := run.spawned + [i]))
         case Executing(i) => Move(Inside(Drain(i, c.exit)), run)
         case Drain(i, exit) => Move(if exit.Broken? then DropGlobal(Fault)
                                     else Inside(SaveTruncated(i, exit, c.flag)), run)
         case SaveTruncated(i, exit, flag) =>
           Move(if exit.Interrupted? then DropGlobal(WasCancelled) else Inside(FinishStage(i, exit.Succeeded?)),
                run.(cells := run.cells[i := run.cells[i].(truncated := flag)]))
         case FinishStage(i, ok) =>
           Move(Inside(if ok then StageTop(i + 1) else SkipRest(i)), SetCell(run, i, if ok then Success else Failed))
         case SkipRest(i) => Move(Inside(FailRun(i)), run.(cells := Rewrite(run.cells, Pending, Skipped)))
         case FailRun(i) => Move(DropGlobal(Done), run.(status := Failed))
         case MarkSuccess =>
           if run.status == Running then Move(DropGlobal(Done), run.(status := Success))
           else Move(DropGlobal(Fault), run)
  }

  // ---- The steps of one executor ----

  /** The executor holds its project's permit. */
  predicate HoldsProject(pc: Pc) {
    pc.WaitGlobal? || HoldsGlobal(pc) || pc.DropProject?
  }

  /** The executor holds a global permit. */
  predicate HoldsGlobal(pc: Pc) {
    pc.Register? || pc.Claim? || pc.Withdraw? || pc.Inside? || pc.DropGlobal?
  }

  predicate CanStep(s: State, e: ExecId, c: Choice)
    requires e < |s.execs|
  {
    var Executor(r, git, pc) := s.execs[e];
    if pc.Inside? then r in s.runs && InRange(pc.at, s.runs[r]) && Fits(pc.at, s.runs[r], e in s.cancelled, c)
    else
      && c.Go?
      && !pc.Returned?
      && (pc.TakeLock? ==> r in s.runs)
      && (pc.WaitProject? ==> Locks.CanAcquire(s.locks, e))
      && (pc.WaitGlobal? ==> s.free > 0)
      && (pc.Claim? ==> r in s.runs)
      && (pc.DropProject? ==> Locks.Holds(s.locks, e) && s.locks.refs[e].lock < |s.locks.permits|)
      && (pc.Finalise? && !pc.res.Done? && !pc.res.NotPending? ==> r in s.runs)
  }

  function Goto(s: State, e: ExecId, pc: Pc): State
    requires e < |s.execs|
  {
    s.(execs := s.execs[e := s.execs[e].(pc := pc)])
  }

  /** Not yet inside: the steps up to the claim. */
  predicate Entering(pc: Pc) {
    pc.Lookup? || pc.TakeLock? || pc.WaitProject? || pc.WaitGlobal? || pc.Register? || pc.Claim? || pc.Withdraw?
  }

  function Enter(s: State, e: ExecId): State
    requires e < |s.execs| && CanStep(s, e, Go) && Entering(s.execs[e].pc)
  {
    var r := s.execs[e].run;
    match s.execs[e].pc
    case Lookup =>
      Goto(s, e, if r in s.runs && s.runs[r].status == Pending then TakeLock else Finalise(NotPending))
    case TakeLock => Goto(s, e, WaitProject).(locks := Locks.Take(s.locks, s.runs[r].project, e))
    case WaitProject => Goto(s, e, WaitGlobal).(locks := Locks.Acquire(s.locks, e))
    case WaitGlobal => Goto(s, e, Register).(free := s.free - 1)
    case Register =>
      if r in s.running then Goto(s, e, DropGlobal(AlreadyRunning))
      else Goto(s, e, Claim).(running := s.running[r := e])
    case Claim =>
      if s.runs[r].status == Pending then
        Goto(s, e, Inside(CheckStart)).(runs := s.runs[r := s.runs[r].(status := Running, owner := Some(e))])
      else Goto(s, e, Withdraw)
    case Withdraw => Goto(s, e, DropGlobal(NotPending)).(running := s.running - {r})
  }

  /** Out again: the permits, the finaliser of `execute_mode`, the token. */
  function Leave(s: State, e: ExecId): State
    requires e < |s.execs| && CanStep(s, e, Go) && !s.execs[e].pc.Inside? && !Entering(s.execs[e].pc)
  {
    var r := s.execs[e].run;
    match s.execs[e].pc
    case DropGlobal(res) => Goto(s, e, DropProject(res)).(free := s.free + 1)
    case DropProject(res) => Goto(s, e, Finalise(res)).(locks := Locks.Release(s.locks, e))
    case Finalise(res) =>
      if res.Done? || res.NotPending? then Goto(s, e, Returned(res)).(running := s.running - {r})
      else
        var to := if res.WasCancelled? then Cancelled else Failed;
        Goto(s, e, Deregister(res)).(runs := s.runs[r := Finish(s.runs[r], to)])
    case Deregister(res) => Goto(s, e, Returned(res)).(running := s.running - {r})
  }

  function Step(s: State, e: ExecId, c: Choice): State
    requires e < |s.execs| && CanStep(s, e, c)
  {
    var Executor(r, git, pc) := s.execs[e];
    if pc.Inside? then
      var m := Advance(pc.at, s.runs[r], git, e in s.cancelled, c);
      Goto(s, e, m.pc).(runs := s.runs[r := m.run])
    else if Entering(pc) then Enter(s, e)
    else Leave(s, e)
  }

  /** What no step of an executor changes. */
  ghost predicate SameFrame(s: State, s': State, e: ExecId)
    requires e < |s.execs|
  {
    && |s'.execs| == |s.execs| && s'.execs == s.execs[e := s'.execs[e]] && s'.execs[e].run == s.execs[e].run
    && s'.counters == s.counters && s'.config == s.config && s'.tickets == s.tickets && s'.handles == s.handles
    && s'.cancelled == s.cancelled && s'.capacity == s.capacity
  }

  lemma EnterFrame(s: State, e: ExecId)
    requires e < |s.execs| && CanStep(s, e, Go) && Entering(s.execs[e].pc)
    ensures SameFrame(s, Enter(s, e), e)
  {
    hide Locks.Take, Locks.Acquire, Locks.CanAcquire;
  }

  lemma LeaveFrame(s: State, e: ExecId)
    requires e < |s.execs| && CanStep(s, e, Go) && !s.execs[e].pc.Inside? && !Entering(s.execs[e].pc)
    ensures SameFrame(s, Leave(s, e), e)
  {
    hide Locks.Release, Finish;
  }

  lemma StepFrame(s: State, e: ExecId, c: Choice)
    requires e < |s.execs| && CanStep(s, e, c)
    ensures SameFrame(s, Step(s, e, c), e)
  {
    hide Advance, Fits, InRange, Enter, Leave;
    if Entering(s.execs[e].pc) {
      EnterFrame(s, e);
    } else if !s.execs[e].pc.Inside? {
      LeaveFrame(s, e);
    }
  }

  // ---- Everything else that happens ----

  datatype Event =
    | Call(run: RunId, git: bool)                     // execute or execute_with_git is called
    | Do(e: ExecId, c: Choice)                        // an executor takes a step
    | CancelLookup(run: RunId)                        // `cancel` clones the token it finds
    | CancelToken(token: ExecId)                      // ... and cancels it
    | CancelUnclaimed(run: RunId)                     // `cancel` without a token, or the HTTP cancel
    | Put(project: ProjectId, defs: seq<StageDef>)    // the configuration is replaced
    | Create(id: RunId, project: ProjectId, branch: string)
    | RetryCheck(source: RunId)                       // `retry` reads its source run
    | RetryCommit(ticket: Ticket, id: RunId)          // ... and runs its transaction

  predicate Enabled(s: State, ev: Event) {
    match ev
    case Do(e, c) => e < |s.execs| && CanStep(s, e, c)
    case Call(_, _) => true
    case CancelLookup(r) => r in s.running
    case CancelToken(t) => t in s.handles
    case CancelUnclaimed(r) => r in s.runs
    case Put(_, _) => true
    case Create(id, _, _) => id !in s.runs
    case RetryCheck(src) => src in s.runs && (s.runs[src].status.Failed? || s.runs[src].status.Cancelled?)
    case RetryCommit(t, id) => t in s.tickets && t.source in s.runs && id !in s.runs
  }

  /** INSERT ... ON CONFLICT DO UPDATE ... RETURNING last_run_number */
  function NextNumber(counters: map<ProjectId, nat>, p: ProjectId): nat {
    if p in counters then counters[p] + 1 else 1
  }

  function Configured(config: map<ProjectId, seq<StageDef>>, p: ProjectId): seq<StageDef> {
    if p in config then config[p] else []
  }

  function Insert(s: State, id: RunId, p: ProjectId, branch: string, commit: Option<string>, retryOf: Option<RunId>,
                  defs: seq<StageDef>): State {
    var n := NextNumber(s.counters, p);
    s.(counters := s.counters[p := n], runs := s.runs[id := NewRun(p, n, branch, commit, retryOf, defs)])
  }

  function Apply(s: State, ev: Event): State
    requires Enabled(s, ev)
  {
    match ev
    case Call(r, git) => s.(execs := s.execs + [Executor(r, git, Lookup)])
    case Do(e, c) => Step(s, e, c)
    case CancelLookup(r) => s.(handles := s.handles + {s.running[r]})
    case CancelToken(t) => s.(cancelled := s.cancelled + {t})
    case CancelUnclaimed(r) => s.(runs := s.runs[r := CancelUnstarted(s.runs[r])])
    case Put(p, defs) => s.(config := s.config[p := defs])
    case Create(id, p, branch) => Insert(s, id, p, branch, None, None, Configured(s.config, p))
    case RetryCheck(src) =>
      var run := s.runs[src];
      s.(tickets := s.tickets + {Ticket(src, run.project, run.branch, run.commit)})
    case RetryCommit(t, id) =>
      Insert(s, id, t.project, t.branch, t.commit, Some(t.source), s.runs[t.source].defs)
  }

  // ---- Runs of the machine ----

  predicate Valid(s: State, evs: seq<Event>)
    decreases |evs|
  {
    evs == [] || (Enabled(s, evs[0]) && Valid(Apply(s, evs[0]), evs[1..]))
  }

  function After(s: State, evs: seq<Event>): State
    requires Valid(s, evs)
    decreases |evs|
  {
    if evs == [] then s else After(Apply(s, evs[0]), evs[1..])
  }

  lemma OneEvent(s: State, ev: Event)
    requires Enabled(s, ev)
    ensures Valid(s, [ev]) && After(s, [ev]) == Apply(s, ev)
  {
    hide Apply, Enabled;
    assert [ev][1..] == [];
  }

  /** The states some interleaving leads to from an engine that has just started on empty tables. */
  ghost predicate Reachable(s: State) {
    exists maxConcurrency: nat, evs: seq<Event> :: Valid(Initial(maxConcurrency), evs)
                                                   && s == After(Initial(maxConcurrency), evs)
  }
}
