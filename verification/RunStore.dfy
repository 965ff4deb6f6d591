/** The transactions of the HTTP handlers on the tables they share with the engine. Inside a transaction the
    statements change the tables one by one. `faultAt` is the number of the statement that fails, if one does; then
    the transaction rolls back. The read that follows a commit can fail too, and then an error is answered for
    something that has happened. */
module RunStore {
  import opened Wrappers
  import opened Runs
  import opened Engine
  import opened EngineInvariant
  import opened EngineSteps
  import opened EngineTheorems
  import opened Continuations
  import opened RunHistory
  import opened LogListing
  import opened Credentials

  datatype RunError = ProjectNotFound | InvalidInput | NotFound | InvalidTransition | Database

  const MAX_STAGES := 64

  /** A statement before number `n` fails. */
  predicate FailsBefore(faultAt: Option<nat>, n: nat) {
    faultAt.Some? && faultAt.value < n
  }

  /** The same fault, counted from statement `n` on. */
  function From(faultAt: Option<nat>, n: nat): Option<nat>
    requires !FailsBefore(faultAt, n)
  {
    if faultAt.Some? then Some(faultAt.value - n) else None
  }

  /** A stage row as it is inserted for a run that is being created. */
  function AddStage(run: Run, def: StageDef): Run {
    run.(defs := run.defs + [def], cells := run.cells + [Cell(if def.enabled then Pending else Skipped, [], false)])
  }

  lemma InsertedSoFar(run: Run, defs: seq<StageDef>, k: nat)
    requires k < |defs| && run.defs == defs[..k] && run.cells == FreshCells(defs[..k])
    ensures AddStage(run, defs[k]).defs == defs[..k + 1] && AddStage(run, defs[k]).cells == FreshCells(defs[..k + 1])
  {
  }

  /** The stages as `put` stores them. */
  function Trimmed(stages: seq<StageDef>): (r: seq<StageDef>)
    ensures |r| == |stages| && forall i :: 0 <= i < |stages| ==> r[i] == stages[i].(name := Trim(stages[i].name))
  {
    seq(|stages|, i requires 0 <= i < |stages| => stages[i].(name := Trim(stages[i].name)))
  }

  /** Stage `i` is the first whose name an earlier one has. */
  ghost predicate RepeatsFirstAt(stages: seq<StageDef>, i: nat) {
    i < |stages| && DistinctBelow(stages, i) && exists j :: 0 <= j < i && stages[j].name == stages[i].name
  }

  /** One more stage: its name is taken, or all names up to it differ. */
  lemma NextName(stages: seq<StageDef>, i: nat)
    requires i < |stages| && DistinctBelow(stages, i)
    ensures RepeatsFirstAt(stages, i) <==> !DistinctBelow(stages, i + 1)
    ensures RepeatsFirstAt(stages, i) ==> !DistinctNames(stages)
    ensures forall k: nat :: RepeatsFirstAt(stages, k) ==> i <= k
    ensures forall k: nat :: RepeatsFirstAt(stages, k) && RepeatsFirstAt(stages, i) ==> k == i
  {
  }

  lemma NameIsTaken(stages: seq<StageDef>, i: nat, j: nat)
    requires j < i < |stages| && DistinctBelow(stages, i) && stages[j].name == stages[i].name
    ensures RepeatsFirstAt(stages, i)
  {
  }

  lemma NameIsFree(stages: seq<StageDef>, i: nat)
    requires i < |stages| && DistinctBelow(stages, i)
    requires forall j :: 0 <= j < i ==> stages[j].name != stages[i].name
    ensures DistinctBelow(stages, i + 1)
  {
  }

  lemma NoRepeat(stages: seq<StageDef>)
    requires DistinctNames(stages)
    ensures forall k: nat :: !RepeatsFirstAt(stages, k)
  {
  }

  /** How the statements of `put` that replace the stages end. */
  datatype Replacement = Replaced | NameTaken | StatementFailed

  /** The statements of the transaction of `create` and `retry`: the number, the run row, the SELECT of the stages,
      one INSERT a stage, COMMIT. */
  function InsertStatements(defs: seq<StageDef>): nat {
    4 + |defs|
  }

  /** Those of `put`: the configuration row, DELETE, one INSERT a stage, COMMIT. */
  function PutStatements(stages: seq<StageDef>): nat {
    3 + |stages|
  }

  // ---- retry, against the machine ----

  lemma {:induction false} TicketsStay(s: State, evs: seq<Event>)
    requires Valid(s, evs)
    ensures s.tickets <= After(s, evs).tickets
    decreases |evs|
  {
    if evs != [] {
      hide Step, CanStep;
      if evs[0].Do? {
        StepFrame(s, evs[0].e, evs[0].c);
      }
      TicketsStay(Apply(s, evs[0]), evs[1..]);
    }
  }

  /** A run that was found failed or cancelled is still there, unchanged, and so is what was read from it. */
  lemma SourceStays(s: State, s': State, source: RunId)
    requires Reachable(s) && source in s.runs && Retryable(s.runs[source].status)
    requires Continues(Apply(s, RetryCheck(source)), s')
    ensures source in s'.runs && s'.runs[source] == s.runs[source]
    ensures var run := s.runs[source]; Ticket(source, run.project, run.branch, run.commit) in s'.tickets
  {
    hide Reachable, Inv, Valid, After, FullListing;
    var t := Apply(s, RetryCheck(source));
    ReachableInv(s);
    ApplyKeepsInv(s, RetryCheck(source));
    var evs: seq<Event> :| Valid(t, evs) && s' == After(t, evs);
    RunsEvolve(t, evs, source);
    TicketsStay(t, evs);
  }

  class RunStore {
    var runs: map<RunId, Run>
    var counters: map<ProjectId, nat>
    var config: map<ProjectId, seq<StageDef>>

    /** The tables are those of engine state `s`. */
    ghost predicate TablesOf(s: State)
      reads this
    {
      runs == s.runs && counters == s.counters && config == s.config
    }

    /** INSERT ... ON CONFLICT(project_id) DO UPDATE ... RETURNING last_run_number */
    method AllocateRunNumber(p: ProjectId, fault: bool) returns (n: Option<nat>)
      modifies this`counters
      ensures n == if fault then None else Some(NextNumber(old(counters), p))
      ensures n.Some? ==> n.value == if p in old(counters) then old(counters)[p] + 1 else 1
      ensures counters == if fault then old(counters) else old(counters)[p := NextNumber(old(counters), p)]
    {
      if fault {
        return None;
      }
      counters := counters[p := if p in counters then counters[p] + 1 else 1];
      n := Some(counters[p]);
    }

    /** The loop of `snapshot_stages` and `copy_stage_snapshot`: one INSERT a stage, in position order. */
    method InsertStages(id: RunId, defs: seq<StageDef>, faultAt: Option<nat>) returns (ok: bool)
      requires id in runs && runs[id].defs == [] && runs[id].cells == []
      modifies this`runs
      ensures ok <==> !FailsBefore(faultAt, |defs|)
      ensures var n := if ok then |defs| else faultAt.value;
              runs == old(runs)[id := old(runs)[id].(defs := defs[..n], cells := FreshCells(defs[..n]))]
    {
      for k := 0 to |defs|
        invariant runs == old(runs)[id := old(runs)[id].(defs := defs[..k], cells := FreshCells(defs[..k]))]
        invariant !FailsBefore(faultAt, k)
      {
        if faultAt == Some(k) {
          return false;
        }
        InsertedSoFar(runs[id], defs, k);
        runs := runs[id := AddStage(runs[id], defs[k])];
      }
      ok := true;
    }

    /** The statements of the transaction, with COMMIT, up to the first that fails. */
    method InsertStatementByStatement(id: RunId, p: ProjectId, branch: string, commit: Option<string>,
                                      retryOf: Option<RunId>, defs: seq<StageDef>, faultAt: Option<nat>)
      returns (ok: bool)
      modifies this`runs, this`counters
      ensures ok <==> id !in old(runs) && !FailsBefore(faultAt, InsertStatements(defs))
      ensures ok ==> var n := NextNumber(old(counters), p);
                     && counters == old(counters)[p := n]
                     && runs == old(runs)[id := NewRun(p, n, branch, commit, retryOf, defs)]
    {
      assert FreshCells([]) == [] && defs[..|defs|] == defs;
      hide FreshCells;
      var n := AllocateRunNumber(p, faultAt == Some(0));
      if n.None? || id in runs || faultAt == Some(1) {
        return false;
      }
      runs := runs[id := Run(p, n.value, branch, retryOf, [], commit, Pending, [], None, [])];
      if faultAt == Some(2) {
        return false;
      }
      ok := InsertStages(id, defs, From(faultAt, 3));
      ok := ok && faultAt != Some(3 + |defs|);
    }

    /** The transaction of `create` and `retry`. It commits if and only if the id is new and no statement fails. */
    method InsertRun(ghost s: State, id: RunId, p: ProjectId, branch: string, commit: Option<string>,
                     retryOf: Option<RunId>, defs: seq<StageDef>, faultAt: Option<nat>) returns (ok: bool)
      requires TablesOf(s)
      modifies this`runs, this`counters
      ensures ok <==> id !in s.runs && !FailsBefore(faultAt, InsertStatements(defs))
      ensures TablesOf(if ok then Insert(s, id, p, branch, commit, retryOf, defs) else s)
    {
      hide NewRun;
      var runsBefore, countersBefore := runs, counters;
      ok := InsertStatementByStatement(id, p, branch, commit, retryOf, defs, faultAt);
      if !ok {
        runs, counters := runsBefore, countersBefore;
      }
    }

    /** `create`: the SELECT of the default branch, the transaction, the read of the new run. There is no default
        branch if there is no such project. */
    method Create(ghost s: State, id: RunId, p: ProjectId, defaultBranch: Option<string>, input: Option<string>,
                  validRef: string -> bool, faultAt: Option<nat>) returns (committed: bool, error: Option<RunError>)
      requires TablesOf(s)
      modifies this
      ensures error == Some(ProjectNotFound) <==> faultAt != Some(0) && defaultBranch.None?
      ensures error == Some(InvalidInput) <==> faultAt != Some(0) && defaultBranch.Some?
                                               && !validRef(Or(input, defaultBranch.value))
      ensures committed <==>
              && !FailsBefore(faultAt, 1 + InsertStatements(Configured(s.config, p))) && id !in s.runs
              && defaultBranch.Some? && validRef(Or(input, defaultBranch.value))
      ensures error.None? <==> committed && !FailsBefore(faultAt, 2 + InsertStatements(Configured(s.config, p)))
      ensures var stages := if p in s.config then s.config[p] else [];
              && (committed <==>
                  && !(faultAt.Some? && faultAt.value < 5 + |stages|) && id !in s.runs
                  && defaultBranch.Some? && validRef(if input.Some? then input.value else defaultBranch.value))
              && (error.None? <==> committed && !(faultAt.Some? && faultAt.value < 6 + |stages|))
      ensures committed ==>
                var create := Event.Create(id, p, Or(input, defaultBranch.value));
                Enabled(s, create) && TablesOf(Apply(s, create))
      ensures committed ==>
                var stages := if p in s.config then s.config[p] else [];
                var number := if p in s.counters then s.counters[p] + 1 else 1;
                && id in runs && runs == s.runs[id := runs[id]] && runs[id].number == number
                && counters == s.counters[p := number] && config == s.config
                && var run := runs[id];
                && run.project == p && run.branch == (if input.Some? then input.value else defaultBranch.value)
                && run.commit == None && run.retryOf == None && run.status == Pending
                && run.defs == stages && |run.cells| == |stages| && run.owner == None && run.spawned == []
                && forall i :: 0 <= i < |stages| ==>
                                 run.cells[i] == Cell(if stages[i].enabled then Pending else Skipped, [], false)
      ensures !committed ==> TablesOf(s)
      ensures error != Some(NotFound) && error != Some(InvalidTransition)
    {
      if faultAt == Some(0) {
        return false, Some(Database);
      }
      if defaultBranch.None? {
        return false, Some(ProjectNotFound);
      }
      var branch := Or(input, defaultBranch.value);
      if !validRef(branch) {
        return false, Some(InvalidInput);
      }
      var defs := Configured(config, p);
      committed := InsertRun(s, id, p, branch, None, None, defs, From(faultAt, 1));
      error := if committed && faultAt != Some(1 + InsertStatements(defs)) then None else Some(Database);
    }

    /** Everybody else, between the check of `retry` and its transaction: any stretch of events. */
    method Others(ghost s: State) returns (ghost s': State)
      requires TablesOf(s)
      modifies this
      ensures Continues(s, s') && TablesOf(s')
    {
      Stays(s);
      s' := s;
    }

    /** `retry`: the SELECT of the source, the check of its status outside the transaction, the transaction, the
        read of the new run. Whatever happens between check and transaction, the transaction is the machine's
        RetryCommit of what was checked, and the source is as it was. */
    method Retry(ghost s: State, source: RunId, id: RunId, faultAt: Option<nat>)
      returns (committed: bool, error: Option<RunError>, ghost s': State)
      requires TablesOf(s) && Reachable(s)
      modifies this
      ensures error == Some(NotFound) <==> faultAt != Some(0) && source !in s.runs
      ensures error == Some(InvalidTransition) <==> faultAt != Some(0) && source in s.runs
                                                    && !Retryable(s.runs[source].status)
      ensures error == Some(InvalidTransition) <==>
              && faultAt != Some(0) && source in s.runs
              && s.runs[source].status != Failed && s.runs[source].status != Cancelled
      ensures committed ==>
                && source in s.runs && id in runs && s.runs[source].project in counters
                && var src, run := s.runs[source], runs[id];
                && run.number == counters[src.project]
                && run.project == src.project && run.branch == src.branch
                && run.commit == src.commit && run.retryOf == Some(source) && run.status == Pending
                && run.defs == src.defs && |run.cells| == |src.defs| && run.owner == None && run.spawned == []
                && forall i :: 0 <= i < |src.defs| ==>
                                 run.cells[i] == Cell(if src.defs[i].enabled then Pending else Skipped, [], false)
      ensures committed ==> source in s.runs && Retryable(s.runs[source].status)
      ensures source in s.runs && Retryable(s.runs[source].status) && faultAt != Some(0) ==>
                var run := s.runs[source];
                var commit := RetryCommit(Ticket(source, run.project, run.branch, run.commit), id);
                && Continues(Apply(s, RetryCheck(source)), s') && source in s'.runs && s'.runs[source] == run
                && (committed <==> id !in s'.runs && !FailsBefore(faultAt, 1 + InsertStatements(run.defs)))
                && (error.None? <==> committed && !FailsBefore(faultAt, 2 + InsertStatements(run.defs)))
                && (committed <==> id !in s'.runs && !(faultAt.Some? && faultAt.value < 5 + |run.defs|))
                && (error.None? <==> committed && !(faultAt.Some? && faultAt.value < 6 + |run.defs|))
                && (committed ==> Enabled(s', commit) && TablesOf(Apply(s', commit)))
                && (committed ==> id in runs && run.project in counters
                                  && runs[id] == NewRun(run.project, counters[run.project], run.branch, run.commit,
                                                        Some(source), run.defs))
                && (!committed ==> error == Some(Database) && TablesOf(s'))
      ensures !(source in s.runs && Retryable(s.runs[source].status) && faultAt != Some(0)) ==> error.Some?
                                                                                                && TablesOf(s)
    {
      hide Reachable, Continues;
      s' := s;
      if faultAt == Some(0) {
        return false, Some(Database), s;
      }
      if source !in runs {
        return false, Some(NotFound), s;
      }
      var found := runs[source];
      if !Retryable(found.status) {
        return false, Some(InvalidTransition), s;
      }
      s' := Others(Apply(s, RetryCheck(source)));
      SourceStays(s, s', source);
      committed := InsertRun(s', id, found.project, found.branch, found.commit, Some(source), runs[source].defs,
                             From(faultAt, 1));
      error := if committed && faultAt != Some(1 + InsertStatements(found.defs)) then None else Some(Database);
    }

    /** The HTTP `cancel`. For a pending run: two UPDATEs, COMMIT, the read of the run. For any other: the UPDATE
        that hits nothing, ROLLBACK, the read of the run, whose failure counts as an invalid transition. */
    method Cancel(ghost s: State, r: RunId, faultAt: Option<nat>) returns (committed: bool, error: Option<RunError>)
      requires TablesOf(s)
      modifies this`runs
      ensures committed <==> r in s.runs && s.runs[r].status == Pending && !FailsBefore(faultAt, 3)
      ensures TablesOf(if committed then Apply(s, CancelUnclaimed(r)) else s)
      ensures committed ==>
                var was, now := old(runs)[r], runs[r];
                && runs == old(runs)[r := was.(status := Cancelled, cells := now.cells)] && |now.cells| == |was.cells|
                && forall j :: 0 <= j < |was.cells| ==>
                                 now.cells[j] == if was.cells[j].status != Pending then was.cells[j]
                                 else was.cells[j].(status := Cancelled)
      ensures r in s.runs && s.runs[r].status == Pending ==>
                error == if FailsBefore(faultAt, 4) then Some(Database) else None
      ensures !(r in s.runs && s.runs[r].status == Pending) ==>
                error == Some(if FailsBefore(faultAt, 2) then Database
                              else if r !in s.runs && faultAt != Some(2) then NotFound else InvalidTransition)
    {
      var before := runs;
      committed := false;
      if faultAt == Some(0) {
        return false, Some(Database);
      }
      if r !in runs || runs[r].status != Pending {
        if faultAt == Some(1) {
          return false, Some(Database);
        }
        return false, Some(if faultAt != Some(2) && r !in runs then NotFound else InvalidTransition);
      }
      runs := runs[r := runs[r].(status := Cancelled)];
      if faultAt == Some(1) {
        runs := before;
        return false, Some(Database);
      }
      runs := runs[r := runs[r].(cells := Rewrite(runs[r].cells, Pending, Cancelled))];
      if faultAt == Some(2) {
        runs := before;
        return false, Some(Database);
      }
      committed := true;
      error := if faultAt == Some(3) then Some(Database) else None;
    }

    /** INSERT INTO pipeline_stages, under UNIQUE(project_id, name). */
    method InsertStage(p: ProjectId, stage: StageDef) returns (ok: bool)
      requires p in config
      modifies this`config
      ensures ok <==> forall j :: 0 <= j < |old(config)[p]| ==> old(config)[p][j].name != stage.name
      ensures config == if ok then old(config)[p := old(config)[p] + [stage]] else old(config)
    {
      ok := !exists j :: 0 <= j < |config[p]| && config[p][j].name == stage.name;
      if ok {
        config := config[p := config[p] + [stage]];
      }
    }

    /** The loop of `put`: one INSERT a stage, up to the first that fails, because the statement does or because the
        project has a stage of that name already. */
    method InsertConfigured(p: ProjectId, stages: seq<StageDef>, faultAt: Option<nat>) returns (r: Replacement)
      requires p in config && config[p] == []
      modifies this`config
      ensures r.Replaced? <==> DistinctNames(stages) && !FailsBefore(faultAt, |stages|)
      ensures r.NameTaken? <==> exists i: nat :: RepeatsFirstAt(stages, i) && !FailsBefore(faultAt, i + 1)
      ensures r.Replaced? ==> config == old(config)[p := stages]
    {
      assert DistinctBelow(stages, 0);
      hide RepeatsFirstAt, DistinctBelow;
      for i := 0 to |stages|
        invariant config == old(config)[p := stages[..i]]
        invariant DistinctBelow(stages, i) && !FailsBefore(faultAt, i)
      {
        NextName(stages, i);
        if faultAt == Some(i) {
          return StatementFailed;
        }
        var ok := InsertStage(p, stages[i]);
        if !ok {
          ghost var j: nat :| j < i && stages[j].name == stages[i].name;
          NameIsTaken(stages, i, j);
          return NameTaken;
        }
        assert stages[..i + 1] == stages[..i] + [stages[i]];
        NameIsFree(stages, i);
      }
      assert stages[..|stages|] == stages;
      NoRepeat(stages);
      r := Replaced;
    }

    /** DELETE of a project's stages, then that loop over the new ones, their names trimmed. */
    method ReplaceStages(p: ProjectId, stages: seq<StageDef>, faultAt: Option<nat>) returns (r: Replacement)
      modifies this`config
      ensures r.Replaced? <==> DistinctNames(Trimmed(stages)) && !FailsBefore(faultAt, 1 + |stages|)
      ensures r.NameTaken? <==> exists i: nat :: RepeatsFirstAt(Trimmed(stages), i) && !FailsBefore(faultAt, 2 + i)
      ensures r.Replaced? ==> config == old(config)[p := Trimmed(stages)]
    {
      hide RepeatsFirstAt, DistinctNames;
      if faultAt == Some(0) {
        return StatementFailed;
      }
      config := config[p := []];
      r := InsertConfigured(p, Trimmed(stages), From(faultAt, 1));
    }

    /** The transaction of `put`: it replaces the stages, or changes nothing. */
    method ReplaceConfig(ghost s: State, p: ProjectId, stages: seq<StageDef>, faultAt: Option<nat>)
      returns (r: Replacement)
      requires TablesOf(s)
      modifies this`config
      ensures r.Replaced? <==> DistinctNames(Trimmed(stages)) && !FailsBefore(faultAt, PutStatements(stages))
      ensures r.NameTaken? <==> exists i: nat :: RepeatsFirstAt(Trimmed(stages), i) && !FailsBefore(faultAt, 3 + i)
      ensures TablesOf(if r.Replaced? then Apply(s, Event.Put(p, Trimmed(stages))) else s)
    {
      hide DistinctNames, RepeatsFirstAt, Trimmed;
      if faultAt == Some(0) {
        return StatementFailed;
      }
      var before := config;
      r := ReplaceStages(p, stages, From(faultAt, 1));
      if r.Replaced? && faultAt == Some(2 + |stages|) {
        r := StatementFailed;
      }
      if !r.Replaced? {
        config := before;
      }
    }

    /** `put`: a SELECT whether there is such a project, the checks, the transaction, the read of the stages. */
    method Put(ghost s: State, p: ProjectId, known: bool, stages: seq<StageDef>, valid: StageDef -> bool,
               faultAt: Option<nat>)
      returns (committed: bool, error: Option<RunError>)
      requires TablesOf(s)
      modifies this`config
      ensures var sized := 0 < |stages| <= MAX_STAGES;
              var allValid := forall i :: 0 <= i < |stages| ==> valid(stages[i]);
              var taken := exists i: nat :: RepeatsFirstAt(Trimmed(stages), i) && !FailsBefore(faultAt, 4 + i);
              && (error == Some(InvalidInput) <==> !sized || (faultAt != Some(0) && known && (!allValid || taken)))
              && (error == Some(ProjectNotFound) <==> sized && faultAt != Some(0) && !known)
              && (committed <==> sized && known && allValid && DistinctNames(Trimmed(stages))
                                 && !FailsBefore(faultAt, 1 + PutStatements(stages)))
              && (error.None? <==> committed && !FailsBefore(faultAt, 2 + PutStatements(stages)))
      ensures committed ==> !(faultAt.Some? && faultAt.value < 4 + |stages|)
      ensures error.None? <==> committed && !(faultAt.Some? && faultAt.value < 5 + |stages|)
      ensures error != Some(NotFound) && error != Some(InvalidTransition)
      ensures TablesOf(if committed then Apply(s, Event.Put(p, Trimmed(stages))) else s)
      ensures committed ==>
                && p in config && config == old(config)[p := config[p]] && |config[p]| == |stages|
                && forall i :: 0 <= i < |stages| ==>
                                 && config[p][i].name == Trim(stages[i].name)
                                 && config[p][i].command == stages[i].command
                                 && config[p][i].enabled == stages[i].enabled
                                 && config[p][i].timeoutSeconds == stages[i].timeoutSeconds
      ensures NamesOk(s.config) ==> NamesOk(config)
    {
      if |stages| == 0 || |stages| > MAX_STAGES {
        return false, Some(InvalidInput);
      }
      if faultAt == Some(0) {
        return false, Some(Database);
      }
      if !known {
        return false, Some(ProjectNotFound);
      }
      for i := 0 to |stages|
        invariant forall j :: 0 <= j < i ==> valid(stages[j])
      {
        if !valid(stages[i]) {
          return false, Some(InvalidInput);
        }
      }
      hide DistinctNames, RepeatsFirstAt, Trimmed;
      var r := ReplaceConfig(s, p, stages, From(faultAt, 1));
      committed := r.Replaced?;
      error := if r.NameTaken? then Some(InvalidInput)
      else if committed && faultAt != Some(4 + |stages|) then None else Some(Database);
    }
  }
}
