/** The database rows a run consists of, the UPDATE statements that rewrite them, and the shapes
    the stage statuses of a run can have. */
module Runs {
  import opened Wrappers

  type RunId = nat
  type ProjectId = nat
  type ExecId = nat
  type Byte = bv8

  const MAX_LOG_BYTES: nat := 8 * 1024 * 1024
  const MAX_LOG_CHUNK_BYTES: nat := 64 * 1024

  datatype Status = Pending | Running | Success | Failed | Cancelled | Skipped

  datatype Stream = Stdout | Stderr

  /** A row of pipeline_stage_logs; its stage is the one that holds it. */
  datatype LogRow = LogRow(sequence: nat, stream: Stream, data: seq<Byte>)

  /** The columns of a stage that no statement ever updates. Its position is its index. */
  datatype StageDef = StageDef(name: string, command: string, enabled: bool, timeoutSeconds: int)

  /** The columns of a stage_runs row that do change, with the log rows that refer to it. */
  datatype Cell = Cell(status: Status, logs: seq<LogRow>, truncated: bool)

  /** A pipeline_runs row with its stage_runs rows in position order. `owner` and `spawned` are history:
      the call that moved the row from pending to running, and the stages whose commands were started. */
  datatype Run = Run(project: ProjectId, number: nat, branch: string, retryOf: Option<RunId>, defs: seq<StageDef>,
                     commit: Option<string>, status: Status, cells: seq<Cell>,
                     owner: Option<ExecId>, spawned: seq<nat>)

  /** The first `k` stages have different names. */
  ghost predicate DistinctBelow(stages: seq<StageDef>, k: nat) {
    forall i, j :: 0 <= i < j < k && j < |stages| ==> stages[i].name != stages[j].name
  }

  /** UNIQUE(project_id, name) of pipeline_stages. */
  ghost predicate DistinctNames(stages: seq<StageDef>) {
    DistinctBelow(stages, |stages|)
  }

  ghost predicate NamesOk(config: map<ProjectId, seq<StageDef>>) {
    forall p :: p in config ==> DistinctNames(config[p])
  }

  predicate Terminal(status: Status) {
    status.Success? || status.Failed? || status.Cancelled?
  }

  // ---- Statements ----

  /** UPDATE stage_runs SET status = to WHERE id = (that stage) */
  function SetCell(run: Run, i: nat, to: Status): Run
    requires i < |run.cells|
  {
    run.(cells := run.cells[i := run.cells[i].(status := to)])
  }

  /** UPDATE stage_runs SET status = to WHERE run_id = (that run) AND status = from */
  function Rewrite(cells: seq<Cell>, from: Status, to: Status): (r: seq<Cell>)
    ensures |r| == |cells|
    ensures forall i :: 0 <= i < |cells| ==>
                          r[i] == if cells[i].status == from then cells[i].(status := to) else cells[i]
  {
    seq(|cells|, i requires 0 <= i < |cells| => if cells[i].status == from then cells[i].(status := to) else cells[i])
  }

  /** The transactions of `fail_running_run` (to = failed) and `cancel_running_run` (to = cancelled). */
  function Finish(run: Run, to: Status): Run {
    run.(cells := Rewrite(Rewrite(run.cells, Running, to), Pending, Skipped),
    status := if run.status == Running then to else run.status)
  }

  /** The transaction both `cancel` functions use on a run that has not started. */
  function CancelUnstarted(run: Run): Run {
    if run.status == Pending then run.(cells := Rewrite(run.cells, Pending, Cancelled), status := Cancelled) else run
  }

  /** The stage rows of a new run: a status from `enabled`, no logs. */
  function FreshCells(defs: seq<StageDef>): (r: seq<Cell>)
    ensures |r| == |defs|
    ensures forall i :: 0 <= i < |defs| ==> r[i] == Cell(if defs[i].enabled then Pending else Skipped, [], false)
  {
    seq(|defs|, i requires 0 <= i < |defs| => Cell(if defs[i].enabled then Pending else Skipped, [], false))
  }

  function NewRun(project: ProjectId, number: nat, branch: string, commit: Option<string>, retryOf: Option<RunId>,
                  defs: seq<StageDef>): Run {
    Run(project, number, branch, retryOf, defs, commit, Pending, FreshCells(defs), None, [])
  }

  // ---- Logs ----

  function LogBytes(logs: seq<LogRow>): nat {
    if logs == [] then 0 else LogBytes(logs[..|logs| - 1]) + |logs[|logs| - 1].data|
  }

  /** What the log writer may insert next (LogWriter proves that it inserts nothing else). */
  predicate Appendable(logs: seq<LogRow>, row: LogRow) {
    && row.sequence == |logs|
    && 0 < |row.data| <= MAX_LOG_CHUNK_BYTES
    && LogBytes(logs) + |row.data| <= MAX_LOG_BYTES
  }

  ghost predicate LogsOk(logs: seq<LogRow>) {
    && LogBytes(logs) <= MAX_LOG_BYTES
    && forall k :: 0 <= k < |logs| ==> logs[k].sequence == k && 0 < |logs[k].data| <= MAX_LOG_CHUNK_BYTES
  }

  lemma AppendLog(logs: seq<LogRow>, row: LogRow)
    requires LogsOk(logs) && Appendable(logs, row)
    ensures LogsOk(logs + [row]) && LogBytes(logs + [row]) == LogBytes(logs) + |row.data|
  {
    assert (logs + [row])[..|logs|] == logs;
  }

  // ---- Shapes, by index ----

  /** Enabled stages below `k` are a success, stage `k` has status `mid`, those after it `rest`;
      disabled stages are skipped. */
  ghost predicate Shaped(run: Run, k: nat, mid: Status, rest: Status) {
    && |run.cells| == |run.defs|
    && forall i :: 0 <= i < |run.cells| ==>
                     run.cells[i].status == if !run.defs[i].enabled then Skipped
                     else if i < k then Success else if i == k then mid else rest
  }

  ghost predicate NoLogsFrom(run: Run, k: nat) {
    forall i :: k <= i < |run.cells| ==> run.cells[i].logs == []
  }

  ghost predicate AllLogsOk(run: Run) {
    forall i :: 0 <= i < |run.cells| ==> LogsOk(run.cells[i].logs)
  }

  /** The enabled stages below position `k`, in order. */
  function EnabledBelow(defs: seq<StageDef>, k: nat): seq<nat>
    requires k <= |defs|
  {
    if k == 0 then [] else EnabledBelow(defs, k - 1) + if defs[k - 1].enabled then [k - 1] else []
  }

  /** Exactly the enabled stages are in it. */
  lemma {:induction false} EnabledBelowMeans(defs: seq<StageDef>, k: nat)
    requires k <= |defs|
    ensures forall i :: i in EnabledBelow(defs, k) <==> 0 <= i < k && defs[i].enabled
  {
    if k > 0 {
      EnabledBelowMeans(defs, k - 1);
    }
  }

  lemma {:induction false} EnabledBelowGrows(defs: seq<StageDef>, j: nat, k: nat)
    requires j <= k <= |defs|
    ensures EnabledBelow(defs, j) <= EnabledBelow(defs, k)
  {
    if j < k {
      EnabledBelowGrows(defs, j, k - 1);
    }
  }

  // ---- Shapes, as patterns over the enabled stages ----

  /** The statuses of the enabled stages in position order. */
  function EnabledStatuses(defs: seq<StageDef>, cells: seq<Cell>): seq<Status>
    requires |defs| == |cells|
  {
    if defs == [] then []
    else (if defs[0].enabled then [cells[0].status] else []) + EnabledStatuses(defs[1..], cells[1..])
  }

  /** a* */
  predicate Only(xs: seq<Status>, a: Status) {
    forall x :: x in xs ==> x == a
  }

  /** a* b c* */
  predicate StarOneStar(xs: seq<Status>, a: Status, b: Status, c: Status) {
    xs != [] && ((xs[0] == b && Only(xs[1..], c)) || (xs[0] == a && StarOneStar(xs[1..], a, b, c)))
  }

  /** a* c* */
  predicate StarStar(xs: seq<Status>, a: Status, c: Status) {
    Only(xs, c) || (xs != [] && xs[0] == a && StarStar(xs[1..], a, c))
  }

  /** The statuses the enabled stages of a run may have, by the status of the run. */
  predicate Pattern(status: Status, xs: seq<Status>) {
    match status
    case Pending => Only(xs, Pending)
    case Running => StarStar(xs, Success, Pending) || StarOneStar(xs, Success, Running, Pending)
                    || StarOneStar(xs, Success, Failed, Pending) || StarOneStar(xs, Success, Failed, Skipped)
    case Success => Only(xs, Success)
    case Failed => StarStar(xs, Success, Skipped) || StarOneStar(xs, Success, Failed, Skipped)
    case Cancelled => Only(xs, Cancelled) || StarStar(xs, Success, Skipped)
                      || StarOneStar(xs, Success, Cancelled, Skipped)
    case Skipped => false
  }

  /** The same over one run: disabled stages are skipped, enabled ones match the pattern. */
  ghost predicate WellShaped(run: Run) {
    && |run.defs| == |run.cells|
    && (forall i :: 0 <= i < |run.defs| && !run.defs[i].enabled ==> run.cells[i].status == Skipped)
    && Pattern(run.status, EnabledStatuses(run.defs, run.cells))
  }

  function Tail(run: Run): Run
    requires run.defs != [] && |run.cells| == |run.defs|
  {
    run.(defs := run.defs[1..], cells := run.cells[1..])
  }

  lemma HeadAndTail(run: Run)
    requires run.defs != [] && |run.cells| == |run.defs|
    ensures var xs, ys := EnabledStatuses(run.defs, run.cells), EnabledStatuses(Tail(run).defs, Tail(run).cells);
            if run.defs[0].enabled then xs != [] && xs[0] == run.cells[0].status && xs[1..] == ys else xs == ys
  {
  }

  lemma {:induction false} UniformStatuses(run: Run, a: Status)
    requires Shaped(run, 0, a, a)
    ensures Only(EnabledStatuses(run.defs, run.cells), a)
    decreases |run.defs|
  {
    if run.defs != [] {
      UniformStatuses(Tail(run), a);
      HeadAndTail(run);
    }
  }

  lemma {:induction false} AllSuccess(run: Run)
    requires Shaped(run, |run.defs|, Success, Success)
    ensures Only(EnabledStatuses(run.defs, run.cells), Success)
    decreases |run.defs|
  {
    if run.defs != [] {
      AllSuccess(Tail(run));
      HeadAndTail(run);
    }
  }

  lemma {:induction false} CutMatches(run: Run, k: nat, rest: Status)
    requires k <= |run.defs| && Shaped(run, k, rest, rest)
    ensures StarStar(EnabledStatuses(run.defs, run.cells), Success, rest)
    decreases |run.defs|
  {
    if k == 0 {
      UniformStatuses(run, rest);
    } else {
      CutMatches(Tail(run), k - 1, rest);
      HeadAndTail(run);
    }
  }

  lemma {:induction false} MarkedMatches(run: Run, k: nat, mid: Status, rest: Status)
    requires k < |run.defs| && run.defs[k].enabled && Shaped(run, k, mid, rest)
    ensures StarOneStar(EnabledStatuses(run.defs, run.cells), Success, mid, rest)
    decreases |run.defs|
  {
    HeadAndTail(run);
    if k == 0 {
      UniformStatuses(Tail(run), rest);
    } else {
      MarkedMatches(Tail(run), k - 1, mid, rest);
    }
  }
}
