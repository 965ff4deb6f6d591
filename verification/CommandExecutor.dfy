/** Running one command: waiting for it, collecting its output, and what wins when it is cancelled, out
    of time and finished at once. Time and the token are what the executor sees at successive polls. */
module CommandExecutor {
  import opened Wrappers
  import opened Runs
  import opened LogWriter
  import opened Capture

  datatype ExecutionStatus = Succeeded | ExitedBadly | TimedOut | Interrupted

  /** What a finished process reports: `code` is absent when a signal ended it. */
  datatype ProcessStatus = ProcessStatus(success: bool, code: Option<int>)

  /** What one poll sees. ioFails: the kill or the try_wait at this poll would fail. joined: the results of
      both capture tasks once both have ended. */
  datatype Poll = Poll(cancelled: bool, now: nat, exit: Option<ProcessStatus>, joined: Option<(Captured, Captured)>,
                       ioFails: bool)

  /** A cancelled token stays cancelled, time does not go back, what has ended stays ended. */
  ghost predicate Monotone(polls: seq<Poll>) {
    forall j, k :: 0 <= j <= k < |polls| ==>
                     && (polls[j].cancelled ==> polls[k].cancelled)
                     && polls[j].now <= polls[k].now
                     && (polls[j].exit.Some? ==> polls[k].exit == polls[j].exit)
                     && (polls[j].joined.Some? ==> polls[k].joined == polls[j].joined)
  }

  datatype CommandOutput = CommandOutput(status: ExecutionStatus, exitCode: Option<int>, stdout: seq<Byte>,
                                         stderr: seq<Byte>,
                                         stdoutTruncated: bool, stderrTruncated: bool)

  /** StillRunning: the polls so far did not end the wait. */
  datatype Waited = StillRunning | Ended(status: ExecutionStatus, code: Option<int>) | WaitError

  datatype Collected = StillOpen | Complete(stdout: Captured, stderr: Captured) | CollectTimedOut | CollectCancelled

  datatype Execution = Unfinished | Invalid | Error | Output(output: CommandOutput)

  function InterruptedOutput(status: ExecutionStatus): CommandOutput {
    CommandOutput(status, None, [], [], true, true)
  }

  /** How a finished process counts. */
  function StatusOf(p: ProcessStatus): ExecutionStatus {
    if p.success then Succeeded else ExitedBadly
  }

  /** A poll that ends the wait for the process. */
  predicate EndsWait(p: Poll, deadline: nat) {
    p.cancelled || p.now >= deadline || p.exit.Some? || p.ioFails
  }

  /** A poll that ends the collection of the output. */
  predicate EndsCollection(p: Poll, deadline: nat) {
    p.cancelled || p.now >= deadline || p.joined.Some?
  }

  /** `at` is the first poll from `from` on for which `P` holds, or there is none and it is the end. */
  ghost predicate First(polls: seq<Poll>, from: nat, P: Poll -> bool, at: nat) {
    && from <= at <= |polls|
    && (forall j :: from <= j < at ==> !P(polls[j]))
    && (at < |polls| ==> P(polls[at]))
  }

  /** What comes of a command whose wait poll `w` ended and whose collection poll `c` ended. */
  function OutcomeOf(w: Poll, c: Poll, deadline: nat): Execution {
    if c.cancelled then Output(InterruptedOutput(Interrupted))
    else if c.now >= deadline then Output(InterruptedOutput(TimedOut))
    else if w.exit.None? || c.joined.None? || c.joined.value.0.ReadFailed? || c.joined.value.1.ReadFailed? then Error
    else
      var (stdout, stderr) := c.joined.value;
      Output(CommandOutput(StatusOf(w.exit.value), w.exit.value.code, stdout.data, stderr.data, stdout.truncated,
                           stderr.truncated))
  }

  /** `wait_for_group`: at every poll the token is looked at first, then the clock, then the process. */
  method WaitForGroup(polls: seq<Poll>, deadline: nat) returns (r: Waited, at: nat)
    ensures at <= |polls|
    ensures r.StillRunning? <==> at == |polls|
    ensures forall j :: 0 <= j < at ==> !polls[j].cancelled && polls[j].now < deadline && polls[j].exit.None?
                                        && !polls[j].ioFails
    ensures at < |polls| ==>
              var p := polls[at];
              && (r.WaitError? <==> p.ioFails)
              && (r.Ended? ==>
                    if p.cancelled then r == Ended(Interrupted, None)
                    else if p.now >= deadline then r == Ended(TimedOut, None)
                    else p.exit.Some? && r == Ended(StatusOf(p.exit.value), p.exit.value.code))
              && (r.Ended? && !p.cancelled && p.now < deadline ==>
                    && p.exit.Some? && r.code == p.exit.value.code
                    && r.status == if p.exit.value.success then Succeeded else ExitedBadly)
  {
    at := 0;
    while at < |polls|
      invariant at <= |polls|
      invariant forall j :: 0 <= j < at ==> !polls[j].cancelled && polls[j].now < deadline && polls[j].exit.None?
                                            && !polls[j].ioFails
    {
      var p := polls[at];
      if p.cancelled {
        if p.ioFails {
          return WaitError, at;
        }
        return Ended(Interrupted, None), at;
      } else if p.now >= deadline {
        if p.ioFails {
          return WaitError, at;
        }
        return Ended(TimedOut, None), at;
      } else if p.ioFails {
        return WaitError, at;
      } else if p.exit.Some? {
        return Ended(StatusOf(p.exit.value), p.exit.value.code), at;
      }
      at := at + 1;
    }
    r := StillRunning;
  }

  /** `collect_output`: the token first, then the clock, then the two capture tasks. */
  method CollectOutput(polls: seq<Poll>, from: nat, deadline: nat) returns (r: Collected, at: nat)
    requires from <= |polls|
    ensures from <= at <= |polls|
    ensures r.StillOpen? <==> at == |polls|
    ensures forall j :: from <= j < at ==> !polls[j].cancelled && polls[j].now < deadline && polls[j].joined.None?
    ensures at < |polls| ==>
              var p := polls[at];
              if p.cancelled then r == CollectCancelled
              else if p.now >= deadline then r == CollectTimedOut
              else p.joined.Some? && r == Complete(p.joined.value.0, p.joined.value.1)
  {
    at := from;
    while at < |polls|
      invariant from <= at <= |polls|
      invariant forall j :: from <= j < at ==> !polls[j].cancelled && polls[j].now < deadline && polls[j].joined.None?
    {
      var p := polls[at];
      if p.cancelled {
        return CollectCancelled, at;
      } else if p.now >= deadline {
        return CollectTimedOut, at;
      } else if p.joined.Some? {
        return Complete(p.joined.value.0, p.joined.value.1), at;
      }
      at := at + 1;
    }
    r := StillOpen;
  }

  /** The status a poll alone decides: cancelled beats timed out beats the exit status. */
  function Verdict(p: Poll, deadline: nat): Option<ExecutionStatus> {
    if p.cancelled then Some(Interrupted)
    else if p.now >= deadline then Some(TimedOut)
    else if p.exit.Some? then Some(StatusOf(p.exit.value)) else None
  }

  predicate Faulty(p: Poll) {
    p.ioFails || (p.joined.Some? && (p.joined.value.0.ReadFailed? || p.joined.value.1.ReadFailed?))
  }

  /** Once the process is spawned, the first poll that ends the wait and the first one after it that ends the collection
      fix the result; it is unfinished only while one of them has not come. */
  ghost predicate Decides(polls: seq<Poll>, deadline: nat, waited: nat, decided: nat, r: Execution) {
    && First(polls, 0, p => EndsWait(p, deadline), waited)
    && (waited == |polls| ==> r.Unfinished?)
    && (waited < |polls| && polls[waited].ioFails ==> r == Error)
    && (waited < |polls| && !polls[waited].ioFails ==>
          && First(polls, waited + 1, p => EndsCollection(p, deadline), decided)
          && r == if decided == |polls| then Unfinished else OutcomeOf(polls[waited], polls[decided], deadline))
  }

  /** `execute_inner`. `valid` is what validate_spec says, `startCancelled` the token before the spawn, `spawns`
      whether the process and its pipes come up; the polls are those after the spawn. `outs` and `errs` are what the
      command writes; a capture that ends well returns CaptureOf of them, as ReadBounded proves. */
  method Execute(valid: bool, startCancelled: bool, spawns: bool, polls: seq<Poll>, deadline: nat,
                 ghost outs: seq<seq<Byte>>, ghost errs: seq<seq<Byte>>)
    returns (r: Execution, waited: nat, decided: nat)
    requires Monotone(polls)
    requires forall j :: 0 <= j < |polls| && polls[j].joined.Some? ==>
                           && (polls[j].joined.value.0.Kept? ==> polls[j].joined.value.0 == CaptureOf(outs))
                           && (polls[j].joined.value.1.Kept? ==> polls[j].joined.value.1 == CaptureOf(errs))
    requires startCancelled ==> forall j :: 0 <= j < |polls| ==> polls[j].cancelled
    ensures r.Invalid? <==> !valid
    ensures valid && startCancelled ==> r == Output(InterruptedOutput(Interrupted))
    ensures valid && !startCancelled && !spawns ==> r == Error
    ensures valid && !startCancelled && spawns ==> Decides(polls, deadline, waited, decided, r)
    // What the executor answers, column by column.
    ensures valid && startCancelled ==>
              r.Output? && r.output == CommandOutput(Interrupted, None, [], [], true, true)
    ensures r.Output? && !startCancelled ==>
              && waited < decided < |polls| && !polls[waited].ioFails
              && var p, q := polls[decided], polls[waited];
              if p.cancelled then r.output == CommandOutput(Interrupted, None, [], [], true, true)
              else if p.now >= deadline then r.output == CommandOutput(TimedOut, None, [], [], true, true)
              else
                && q.exit.Some? && p.joined.Some? && p.joined.value.0.Kept? && p.joined.value.1.Kept?
                && r.output == CommandOutput(if q.exit.value.success then Succeeded else ExitedBadly,
                                             q.exit.value.code,
                                             p.joined.value.0.data, p.joined.value.1.data,
                                             p.joined.value.0.truncated, p.joined.value.1.truncated)
    // Nothing was ready at the polls before, and an error has a cause.
    ensures valid && !startCancelled && spawns ==>
              && (forall j :: 0 <= j < waited && j < |polls| ==>
                                && !polls[j].cancelled && polls[j].now < deadline
                                && polls[j].exit.None? && !polls[j].ioFails)
              && (r.Unfinished? && waited < |polls| ==>
                    forall j :: waited < j < |polls| ==>
                                  !polls[j].cancelled && polls[j].now < deadline && polls[j].joined.None?)
              && (r.Error? ==>
                    && waited < |polls|
                    && (polls[waited].ioFails
                        || (decided < |polls| && polls[decided].joined.Some?
                            && (polls[decided].joined.value.0.ReadFailed?
                                || polls[decided].joined.value.1.ReadFailed?))))
    // The poll that decided settles the status by itself; nothing is reported before it.
    ensures r.Output? && !startCancelled ==>
              decided < |polls| && Verdict(polls[decided], deadline) == Some(r.output.status)
    // Interrupted results carry nothing.
    ensures r.Output? && (r.output.status.Interrupted? || r.output.status.TimedOut?) ==>
              r.output == InterruptedOutput(r.output.status)
    // Output comes only from a process that ended in time, uncancelled, and both of whose streams ended: it is
    // the first mebibyte of each.
    ensures r.Output? && (r.output.status.Succeeded? || r.output.status.ExitedBadly?) ==>
              && decided < |polls|
              && (forall j :: 0 <= j <= decided ==> !polls[j].cancelled && polls[j].now < deadline)
              && var p := polls[decided];
              && p.exit.Some? && p.joined.Some?
              && r.output == CommandOutput(StatusOf(p.exit.value), p.exit.value.code,
                                           Prefix(Bytes(outs), MAX_CAPTURED_STREAM_BYTES),
                                           Prefix(Bytes(errs), MAX_CAPTURED_STREAM_BYTES),
                                           |Bytes(outs)| > MAX_CAPTURED_STREAM_BYTES,
                                           |Bytes(errs)| > MAX_CAPTURED_STREAM_BYTES)
    ensures r.Error? && spawns ==> exists j :: 0 <= j < |polls| && Faulty(polls[j])
  {
    waited, decided := 0, 0;
    if !valid {
      return Invalid, 0, 0;
    }
    if startCancelled {
      return Output(InterruptedOutput(Interrupted)), 0, 0;
    }
    if !spawns {
      return Error, 0, 0;
    }
    var process, ended := WaitForGroup(polls, deadline);
    waited := ended;
    if process.StillRunning? {
      return Unfinished, waited, 0;
    }
    if process.WaitError? {
      return Error, waited, 0;
    }
    var captured;
    captured, decided := CollectOutput(polls, ended + 1, deadline);
    if captured.StillOpen? {
      return Unfinished, waited, decided;
    }
    assert polls[ended].cancelled ==> polls[decided].cancelled;
    assert polls[ended].now <= polls[decided].now;
    assert polls[ended].exit.Some? ==> polls[decided].exit == polls[ended].exit;
    match captured {
      case CollectCancelled => r := Output(InterruptedOutput(Interrupted));
      case CollectTimedOut => r := Output(InterruptedOutput(TimedOut));
      case Complete(stdout, stderr) =>
        if stdout.ReadFailed? || stderr.ReadFailed? {
          r := Error;
        } else {
          r := Output(CommandOutput(process.status, process.code, stdout.data, stderr.data, stdout.truncated,
                                    stderr.truncated));
        }
      case StillOpen => r := Unfinished;
    }
  }
}
