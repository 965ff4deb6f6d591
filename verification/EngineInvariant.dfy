/** The invariant of the engine over every interleaving, and that every event keeps it. */
module EngineInvariant {
  import opened Wrappers
  import opened Runs
  import opened Engine
  import opened Ownership
  import Locks = ProjectLocks

  predicate Leaving(pc: Pc) {
    pc.DropGlobal? || pc.DropProject? || pc.Finalise? || pc.Deregister? || pc.Returned?
  }

  /** The executor has claimed its run. */
  predicate Claimed(pc: Pc) {
    pc.Inside? || (Leaving(pc) && OwnersOutcome(pc.res))
  }

  /** The executor is out of `execute_inner`. */
  predicate Gone(pc: Pc) {
    pc.Finalise? || pc.Deregister? || pc.Returned?
  }

  /** The executor was told AlreadyRunning and still has its finaliser before it. */
  predicate Duplicate(pc: Pc) {
    Leaving(pc) && pc.res.AlreadyRunning? && !pc.Returned?
  }

  predicate InLockTable(pc: Pc) {
    pc.WaitProject? || HoldsProject(pc)
  }

  /** A run is unclaimed, or its rows are what its claimant knows at its present program point. */
  ghost predicate RunOk(runs: map<RunId, Run>, execs: seq<Executor>, r: RunId)
    requires r in runs
  {
    match runs[r].owner
    case None => Unclaimed(runs[r])
    case Some(o) => o < |execs| && execs[o].run == r && Claimed(execs[o].pc) && Known(execs[o].pc, runs[r])
  }

  ghost predicate ExecOk(runs: map<RunId, Run>, execs: seq<Executor>, e: ExecId)
    requires e < |execs|
  {
    var Executor(r, _, pc) := execs[e];
    && (pc.TakeLock? || InLockTable(pc) || Claimed(pc) || Duplicate(pc) ==> r in runs)
    && (Claimed(pc) ==> runs[r].owner == Some(e))
    && (Duplicate(pc) ==> runs[r].owner.Some? && runs[r].owner.value < |execs| && Gone(execs[runs[r].owner.value].pc))
  }

  /** A token in the map belongs to an executor about to claim, or to the claimant before it has returned. */
  ghost predicate TokenOk(runs: map<RunId, Run>, execs: seq<Executor>, running: map<RunId, ExecId>, r: RunId)
    requires r in running
  {
    var x := running[r];
    && r in runs && x < |execs| && execs[x].run == r && !execs[x].pc.Returned?
    && (execs[x].pc.Claim? || execs[x].pc.Withdraw? || runs[r].owner == Some(x))
  }

  /** The lock table holds exactly the executors between taking the lock and dropping its permit. */
  ghost predicate LocksOk(runs: map<RunId, Run>, execs: seq<Executor>, locks: Locks.LockTable) {
    && Locks.Inv(locks)
    && (forall e :: e in locks.refs ==> e < |execs| && InLockTable(execs[e].pc))
    && (forall e: ExecId :: e < |execs| && InLockTable(execs[e].pc) ==>
                              && e in locks.refs && execs[e].run in runs
                              && locks.refs[e].project == runs[execs[e].run].project
                              && (locks.refs[e].holds <==> HoldsProject(execs[e].pc)))
  }

  /** How many executors hold a global permit. */
  function Holders(execs: seq<Executor>): nat {
    if execs == [] then 0 else Holders(execs[..|execs| - 1]) + if HoldsGlobal(execs[|execs| - 1].pc) then 1 else 0
  }

  ghost predicate Inv(s: State) {
    && (forall r :: r in s.runs ==> RunOk(s.runs, s.execs, r))
    && (forall e: ExecId :: e < |s.execs| ==> ExecOk(s.runs, s.execs, e))
    && (forall r :: r in s.running ==> TokenOk(s.runs, s.execs, s.running, r))
    && LocksOk(s.runs, s.execs, s.locks)
    && s.capacity >= 1
    && s.free + Holders(s.execs) == s.capacity
  }

  /** What the invariant says about one executor and its run. */
  lemma Facts(s: State, e: ExecId)
    requires Inv(s) && e < |s.execs|
    ensures ExecOk(s.runs, s.execs, e)
    ensures s.execs[e].run in s.runs ==> RunOk(s.runs, s.execs, s.execs[e].run)
    ensures s.execs[e].run in s.running ==> TokenOk(s.runs, s.execs, s.running, s.execs[e].run)
  {
  }

  /** What it says about the lock table and one executor. */
  lemma LockFacts(s: State, e: ExecId)
    requires Inv(s) && e < |s.execs|
    ensures Locks.Inv(s.locks)
    ensures InLockTable(s.execs[e].pc) <==> e in s.locks.refs
    ensures e in s.locks.refs ==> s.execs[e].run in s.runs && s.locks.refs[e].project == s.runs[s.execs[e].run].project
                                  && (s.locks.refs[e].holds <==> HoldsProject(s.execs[e].pc))
  {
  }

  // ---- Counting permits ----

  lemma {:induction false} HoldersUpdate(execs: seq<Executor>, e: ExecId, x: Executor)
    requires e < |execs|
    ensures Holders(execs[e := x]) ==
            Holders(execs) - (if HoldsGlobal(execs[e].pc) then 1 else 0) + if HoldsGlobal(x.pc) then 1 else 0
  {
    var n := |execs| - 1;
    if e == n {
      assert execs[e := x][..n] == execs[..n];
    } else {
      assert execs[e := x][..n] == execs[..n][e := x];
      HoldersUpdate(execs[..n], e, x);
    }
  }

  lemma {:induction false} HolderCounts(execs: seq<Executor>, e: ExecId)
    requires e < |execs| && HoldsGlobal(execs[e].pc)
    ensures Holders(execs) > 0
  {
    if e < |execs| - 1 {
      HolderCounts(execs[..|execs| - 1], e);
    }
  }

  lemma {:induction false} HolderExists(execs: seq<Executor>) returns (e: ExecId)
    requires Holders(execs) > 0
    ensures e < |execs| && HoldsGlobal(execs[e].pc)
  {
    if HoldsGlobal(execs[|execs| - 1].pc) {
      e := |execs| - 1;
    } else {
      e := HolderExists(execs[..|execs| - 1]);
    }
  }

  // ---- What a step of one executor leaves alone ----

  /** Executor `e` moves to `pc` and rewrites at most its own run. */
  ghost predicate Moves(s: State, s': State, e: ExecId, pc: Pc) {
    && e < |s.execs|
    && s'.execs == s.execs[e := s.execs[e].(pc := pc)]
    && s'.runs.Keys == s.runs.Keys
    && s'.capacity == s.capacity
    && (forall r :: r in s.runs && r != s.execs[e].run ==> s'.runs[r] == s.runs[r])
    && (s.execs[e].run in s.runs ==>
          var a, b := s.runs[s.execs[e].run], s'.runs[s.execs[e].run];
          b.project == a.project && (b.owner == a.owner || a.owner.None?))
  }

  lemma RunsAfterMove(s: State, s': State, e: ExecId, pc: Pc)
    requires Inv(s) && Moves(s, s', e, pc)
    requires s.execs[e].run in s.runs ==> RunOk(s'.runs, s'.execs, s.execs[e].run)
    ensures forall r :: r in s'.runs ==> RunOk(s'.runs, s'.execs, r)
  {
    forall r | r in s'.runs ensures RunOk(s'.runs, s'.execs, r) {
      assert RunOk(s.runs, s.execs, r);
    }
  }

  lemma ExecsAfterMove(s: State, s': State, e: ExecId, pc: Pc)
    requires Inv(s) && Moves(s, s', e, pc)
    requires Gone(s.execs[e].pc) ==> Gone(pc)
    requires ExecOk(s'.runs, s'.execs, e)
    ensures forall x: ExecId :: x < |s'.execs| ==> ExecOk(s'.runs, s'.execs, x)
  {
    forall x: ExecId | x < |s'.execs| ensures ExecOk(s'.runs, s'.execs, x) {
      assert ExecOk(s.runs, s.execs, x);
    }
  }

  lemma TokensAfterMove(s: State, s': State, e: ExecId, pc: Pc)
    requires Inv(s) && Moves(s, s', e, pc)
    requires forall r :: r in s'.running ==> r in s.running && s'.running[r] == s.running[r]
    requires s.execs[e].run in s'.running && s'.running[s.execs[e].run] == e ==>
               TokenOk(s'.runs, s'.execs, s'.running, s.execs[e].run)
    ensures forall r :: r in s'.running ==> TokenOk(s'.runs, s'.execs, s'.running, r)
  {
    forall r | r in s'.running ensures TokenOk(s'.runs, s'.execs, s'.running, r) {
      assert TokenOk(s.runs, s.execs, s.running, r);
      assert r in s.runs ==> RunOk(s.runs, s.execs, r);
    }
  }

  lemma LocksAfterMove(s: State, s': State, e: ExecId, pc: Pc)
    requires Inv(s) && Moves(s, s', e, pc) && s'.locks == s.locks
    requires InLockTable(pc) == InLockTable(s.execs[e].pc) && HoldsProject(pc) == HoldsProject(s.execs[e].pc)
    ensures LocksOk(s'.runs, s'.execs, s'.locks)
  {
    hide RunOk, ExecOk, TokenOk, Holders, Locks.Inv;
  }

  lemma PermitsAfterMove(s: State, s': State, e: ExecId, pc: Pc)
    requires Inv(s) && Moves(s, s', e, pc)
    requires s'.free + (if HoldsGlobal(pc) then 1 else 0) == s.free + (if HoldsGlobal(s.execs[e].pc) then 1 else 0)
    ensures s'.free + Holders(s'.execs) == s'.capacity
  {
    HoldersUpdate(s.execs, e, s.execs[e].(pc := pc));
  }

  /** The five lemmas together, for a step that leaves the lock table alone. */
  lemma MoveKeepsInv(s: State, s': State, e: ExecId, pc: Pc)
    requires Inv(s) && Moves(s, s', e, pc) && s'.locks == s.locks
    requires s.execs[e].run in s.runs ==> RunOk(s'.runs, s'.execs, s.execs[e].run)
    requires Gone(s.execs[e].pc) ==> Gone(pc)
    requires ExecOk(s'.runs, s'.execs, e)
    requires forall r :: r in s'.running ==> r in s.running && s'.running[r] == s.running[r]
    requires s.execs[e].run in s'.running && s'.running[s.execs[e].run] == e ==>
               TokenOk(s'.runs, s'.execs, s'.running, s.execs[e].run)
    requires InLockTable(pc) == InLockTable(s.execs[e].pc) && HoldsProject(pc) == HoldsProject(s.execs[e].pc)
    requires s'.free + (if HoldsGlobal(pc) then 1 else 0) == s.free + (if HoldsGlobal(s.execs[e].pc) then 1 else 0)
    ensures Inv(s')
  {
    RunsAfterMove(s, s', e, pc);
    ExecsAfterMove(s, s', e, pc);
    TokensAfterMove(s, s', e, pc);
    LocksAfterMove(s, s', e, pc);
    PermitsAfterMove(s, s', e, pc);
  }
}
