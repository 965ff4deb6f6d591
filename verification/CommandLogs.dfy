/** The whole way of a stage command's output: two captures feed one channel, the log writer stores what comes out of
    it, and the executor waits for the process and collects what the captures return. */
module CommandLogs {
  import opened Wrappers
  import opened Runs
  import opened LogWriter
  import opened Capture
  import opened CommandExecutor

  /** What one stream of the command does: the blocks it gives, how many of them are read before the capture is
      aborted (all, if it is not), which read fails, and at which send the receiver is gone. */
  datatype Source = Source(blocks: seq<seq<Byte>>, read: nat, failsAt: Option<nat>, closedAt: Option<nat>)

  predicate ValidSource(s: Source) {
    IsReads(s.blocks) && s.read <= |s.blocks|
  }

  /** The capture fails: at a read, or because the receiver is gone. */
  predicate Breaks(s: Source) {
    || (s.failsAt.Some? && s.failsAt.value <= s.read)
    || (s.closedAt.Some? && s.closedAt.value < s.read)
  }

  /** What the executor sees at one poll; `ended` says that both captures have ended. */
  datatype Look = Look(cancelled: bool, now: nat, exit: Option<ProcessStatus>, ended: bool, ioFails: bool)

  /** The same with what the captures returned. */
  function Polls(looks: seq<Look>, stdout: Captured, stderr: Captured): (r: seq<Poll>)
    ensures |r| == |looks|
    ensures forall k :: 0 <= k < |looks| ==>
                          r[k] == Poll(looks[k].cancelled, looks[k].now, looks[k].exit,
                                       if looks[k].ended then Some((stdout, stderr)) else None, looks[k].ioFails)
  {
    seq(|looks|, k requires 0 <= k < |looks| =>
      Poll(looks[k].cancelled, looks[k].now, looks[k].exit,
           if looks[k].ended then Some((stdout, stderr)) else None, looks[k].ioFails))
  }

  /** A cancelled token stays cancelled, time does not go back, what has ended stays ended. */
  ghost predicate Steady(looks: seq<Look>) {
    forall j, k :: 0 <= j <= k < |looks| ==>
                     && (looks[j].cancelled ==> looks[k].cancelled)
                     && looks[j].now <= looks[k].now
                     && (looks[j].exit.Some? ==> looks[k].exit == looks[j].exit)
                     && (looks[j].ended ==> looks[k].ended)
  }

  // ---- The channel ----

  /** Two senders take turns, counted from the last event: true is the first one's turn. When one has nothing to send,
      the other goes on. */
  function Mix(a: seq<LogEvent>, b: seq<LogEvent>, turns: seq<bool>): seq<LogEvent>
    decreases |a| + |b|
  {
    if a == [] then b
    else if b == [] then a
    else if turns == [] || turns[|turns| - 1] then Mix(a[..|a| - 1], b, Rest(turns)) + [a[|a| - 1]]
    else Mix(a, b[..|b| - 1], Rest(turns)) + [b[|b| - 1]]
  }

  function Rest(turns: seq<bool>): seq<bool> {
    if turns == [] then [] else turns[..|turns| - 1]
  }

  lemma {:induction false} OneSender(a: seq<LogEvent>)
    ensures Interleaves(a, [], a) && Interleaves([], a, a)
    decreases |a|
  {
    if a != [] {
      OneSender(a[..|a| - 1]);
    }
  }

  lemma {:induction false} MixInterleaves(a: seq<LogEvent>, b: seq<LogEvent>, turns: seq<bool>)
    ensures Interleaves(a, b, Mix(a, b, turns))
    decreases |a| + |b|
  {
    if a == [] {
      OneSender(b);
    } else if b == [] {
      OneSender(a);
    } else if turns == [] || turns[|turns| - 1] {
      MixInterleaves(a[..|a| - 1], b, Rest(turns));
    } else {
      MixInterleaves(a, b[..|b| - 1], Rest(turns));
    }
  }

  /** Every order in which the receiver can get the events comes from some turns. */
  lemma {:induction false} EveryMixArises(a: seq<LogEvent>, b: seq<LogEvent>, c: seq<LogEvent>)
    returns (turns: seq<bool>)
    requires Interleaves(a, b, c)
    ensures Mix(a, b, turns) == c
    decreases |c|
  {
    if a == [] || b == [] {
      turns := [];
      OnlyOneSender(a, b, c);
    } else {
      var n := |c| - 1;
      if a[|a| - 1] == c[n] && Interleaves(a[..|a| - 1], b, c[..n]) {
        var before := EveryMixArises(a[..|a| - 1], b, c[..n]);
        turns := before + [true];
        assert Rest(turns) == before;
      } else {
        var before := EveryMixArises(a, b[..|b| - 1], c[..n]);
        turns := before + [false];
        assert Rest(turns) == before;
      }
    }
  }

  lemma {:induction false} OnlyOneSender(a: seq<LogEvent>, b: seq<LogEvent>, c: seq<LogEvent>)
    requires Interleaves(a, b, c) && (a == [] || b == [])
    ensures c == if a == [] then b else a
    decreases |c|
  {
    if c != [] {
      if a == [] {
        OnlyOneSender(a, b[..|b| - 1], c[..|c| - 1]);
      } else {
        OnlyOneSender(a[..|a| - 1], b, c[..|c| - 1]);
      }
    }
  }

  // ---- The command ----

  /** One capture task: what it returns, and how many blocks it has sent on. */
  method RunCapture(source: Source, stream: Stream) returns (r: Captured, sent: seq<LogEvent>, ghost n: nat)
    requires ValidSource(source)
    ensures n <= |source.blocks| && sent == Events(source.blocks[..n], stream)
    ensures r.ReadFailed? <==> Breaks(source)
    ensures source.read == |source.blocks| && r.Kept? ==> n == |source.blocks| && r == CaptureOf(source.blocks)
  {
    hide Bytes, Events, Prefix;
    var logs := new Sender(source.closedAt);
    var blocks := source.blocks[..source.read];
    r := ReadBounded(blocks, source.failsAt, MAX_CAPTURED_STREAM_BYTES, logs, stream);
    sent := logs.sent;
    assert blocks[..|blocks|] == blocks && source.blocks[..|source.blocks|] == source.blocks;
    if r.Kept? {
      n := |blocks|;
    } else {
      n :| n <= |blocks| && logs.sent == [] + Events(blocks[..n], stream);
    }
    assert source.blocks[..n] == blocks[..n];
  }

  /** The executor with its captures, and the log writer beside it. Whatever the order in which the two streams reach
      the writer, and whatever fails or is interrupted: the log holds a prefix of each stream. If the executor returns
      output, it is the first mebibyte of each stream; and if the writer then ends well, its flag says whether the
      two streams together exceed the cap, and unless they do the log holds both in full. */
  method RunWithLogs(valid: bool, startCancelled: bool, spawns: bool, looks: seq<Look>, deadline: nat,
                     out: Source, err: Source, turns: seq<bool>, table: StageLogs, faultAt: Option<nat>)
    returns (r: Execution, waited: nat, decided: nat, stdout: Captured, stderr: Captured, stored: Option<bool>)
    requires Steady(looks) && ValidSource(out) && ValidSource(err) && table.rows == []
    requires startCancelled ==> forall k :: 0 <= k < |looks| ==> looks[k].cancelled
    requires (exists k :: 0 <= k < |looks| && looks[k].ended) ==> out.read == |out.blocks| && err.read == |err.blocks|
    modifies table
    ensures r.Invalid? <==> !valid
    ensures valid && startCancelled ==> r == Output(InterruptedOutput(Interrupted))
    ensures valid && !startCancelled && !spawns ==> r == Error
    ensures valid && !startCancelled && spawns ==>
              && Decides(Polls(looks, stdout, stderr), deadline, waited, decided, r)
              && (stdout.ReadFailed? <==> Breaks(out)) && (stderr.ReadFailed? <==> Breaks(err))
    ensures r.Output? && (r.output.status.Interrupted? || r.output.status.TimedOut?) ==>
              r.output == CommandOutput(r.output.status, None, [], [], true, true)
    ensures r.Output? && (r.output.status.Succeeded? || r.output.status.ExitedBadly?) ==>
              && waited < decided < |looks| && looks[waited].exit.Some?
              && r.output.exitCode == looks[waited].exit.value.code
              && (r.output.status.Succeeded? <==> looks[waited].exit.value.success)
              && (r.output.stdoutTruncated <==> |Bytes(out.blocks)| > 1024 * 1024)
              && (r.output.stderrTruncated <==> |Bytes(err.blocks)| > 1024 * 1024)
    ensures stored.None? ==> faultAt == Some(|table.rows|)
    ensures LogsOk(table.rows)
    ensures OfStream(Stored(table.rows), Stdout) <= Bytes(out.blocks)
    ensures OfStream(Stored(table.rows), Stderr) <= Bytes(err.blocks)
    ensures r.Output? && (r.output.status.Succeeded? || r.output.status.ExitedBadly?) ==>
              && r.output.stdout == Prefix(Bytes(out.blocks), MAX_CAPTURED_STREAM_BYTES)
              && r.output.stderr == Prefix(Bytes(err.blocks), MAX_CAPTURED_STREAM_BYTES)
              && (stored.Some? ==> (stored.value <==> |Bytes(out.blocks)| + |Bytes(err.blocks)| > MAX_LOG_BYTES))
              && (stored == Some(false) ==>
                    && OfStream(Stored(table.rows), Stdout) == Bytes(out.blocks)
                    && OfStream(Stored(table.rows), Stderr) == Bytes(err.blocks))
  {
    hide Bytes, OfStream, Stored, Received, Interleaves, Mix, LogsOk, Breaks;
    var sentOut, sentErr: seq<LogEvent> := [], [];
    stdout, stderr := ReadFailed, ReadFailed;
    ghost var i, j: nat := 0, 0;
    var started := valid && !startCancelled && spawns;
    if started {
      stdout, sentOut, i := RunCapture(out, Stdout);
      stderr, sentErr, j := RunCapture(err, Stderr);
    }
    r, waited, decided := Execute(valid, startCancelled, spawns, Polls(looks, stdout, stderr), deadline, out.blocks,
                                  err.blocks);
    var events := Mix(sentOut, sentErr, turns);
    MixInterleaves(sentOut, sentErr, turns);
    stored := PersistStageLogs(table, events, faultAt);
    StoredIsReceived(events, table.rows, stored);
    StoredStreamIsPrefix(out.blocks, err.blocks, i, j, events, table.rows);
    if r.Output? && (r.output.status.Succeeded? || r.output.status.ExitedBadly?) {
      assert out.blocks[..i] == out.blocks && err.blocks[..j] == err.blocks;
      if stored.Some? {
        CompleteStreamIsStored(out.blocks, err.blocks, events, table.rows);
      }
    }
  }

  lemma StoredIsReceived(events: seq<LogEvent>, rows: seq<LogRow>, stored: Option<bool>)
    requires stored.Some? ==> Stored(rows) == Prefix(Received(events), MAX_LOG_BYTES)
    requires stored.None? ==> Stored(rows) <= Received(events)
    ensures Stored(rows) <= Received(events)
  {
  }
}
