/** The log writer of a stage: events in, rows of at most 64 KiB out, 8 MiB in all. */
module LogWriter {
  import opened Wrappers
  import opened Runs

  datatype LogEvent = LogEvent(stream: Stream, data: seq<Byte>)

  /** A byte with the stream it came from. */
  datatype Tagged = Tagged(stream: Stream, byte: Byte)

  function Tag(stream: Stream, data: seq<Byte>): (r: seq<Tagged>)
    ensures |r| == |data|
    ensures forall k :: 0 <= k < |data| ==> r[k] == Tagged(stream, data[k])
  {
    seq(|data|, k requires 0 <= k < |data| => Tagged(stream, data[k]))
  }

  /** The bytes of some events in the order received. */
  function Received(events: seq<LogEvent>): seq<Tagged> {
    if events == [] then []
    else Received(events[..|events| - 1]) + Tag(events[|events| - 1].stream, events[|events| - 1].data)
  }

  /** The bytes of some rows in sequence order. */
  function Stored(rows: seq<LogRow>): seq<Tagged> {
    if rows == [] then [] else Stored(rows[..|rows| - 1]) + Tag(rows[|rows| - 1].stream, rows[|rows| - 1].data)
  }

  /** At most the first `n`. */
  function Prefix<T>(xs: seq<T>, n: nat): (r: seq<T>)
    ensures r <= xs && |r| == if |xs| <= n then |xs| else n
  {
    if |xs| <= n then xs else xs[..n]
  }

  lemma {:induction false} StoredLength(rows: seq<LogRow>)
    ensures |Stored(rows)| == LogBytes(rows)
  {
    if rows != [] {
      StoredLength(rows[..|rows| - 1]);
    }
  }

  lemma StoredAppend(rows: seq<LogRow>, row: LogRow)
    ensures Stored(rows + [row]) == Stored(rows) + Tag(row.stream, row.data)
  {
    assert (rows + [row])[..|rows|] == rows;
  }

  /** How many chunks an event of `n` bytes has. */
  function ChunkCount(n: nat): nat {
    (n + 64 * 1024 - 1) / (64 * 1024)
  }

  lemma NoChunk()
    ensures ChunkCount(0) == 0
  {
  }

  lemma NextChunk(from: nat, n: nat)
    requires from < n && from % (64 * 1024) == 0
    ensures ChunkCount(if n - from <= 64 * 1024 then n else from + 64 * 1024) == ChunkCount(from) + 1
  {
  }

  function Chunks(events: seq<LogEvent>): nat {
    if events == [] then 0 else Chunks(events[..|events| - 1]) + ChunkCount(|events[|events| - 1].data|)
  }

  /** The pipeline_stage_logs rows of one stage. */
  class StageLogs {
    var rows: seq<LogRow>

    constructor ()
      ensures rows == []
    {
      rows := [];
    }

    /** INSERT INTO pipeline_stage_logs; the requires is what the engine's step machine relies on. */
    method Insert(row: LogRow)
      requires LogsOk(rows) && Appendable(rows, row)
      modifies this
      ensures rows == old(rows) + [row] && LogsOk(rows)
    {
      AppendLog(rows, row);
      rows := rows + [row];
    }
  }

  /** One chunk of an event: what is kept of it, and whether it is cut. */
  lemma ChunkKept(done: seq<Tagged>, stored: seq<Tagged>, stream: Stream, chunk: seq<Byte>, length: nat)
    requires stored == Prefix(done, MAX_LOG_BYTES)
    requires length == if |chunk| <= MAX_LOG_BYTES - |stored| then |chunk| else MAX_LOG_BYTES - |stored|
    ensures stored + Tag(stream, chunk[..length]) == Prefix(done + Tag(stream, chunk), MAX_LOG_BYTES)
    ensures |done + Tag(stream, chunk)| > MAX_LOG_BYTES <==> |done| > MAX_LOG_BYTES || length < |chunk|
  {
  }

  /** What the writer's running state says when it has received `done`. */
  ghost predicate WriterState(rows: seq<LogRow>, done: seq<Tagged>, sequence: nat, total: nat, truncated: bool) {
    && LogsOk(rows) && sequence == |rows| && total == LogBytes(rows)
    && Stored(rows) == Prefix(done, MAX_LOG_BYTES)
    && (truncated <==> |done| > MAX_LOG_BYTES)
  }

  /** The body of the inner loop: one chunk. `faultAt` is the number of the INSERT that fails, if one does. */
  method StoreChunk(table: StageLogs, stream: Stream, chunk: seq<Byte>, ghost done: seq<Tagged>,
                    sequence: nat, total: nat, truncated: bool, faultAt: Option<nat>)
    returns (ok: bool, sequence': nat, total': nat, truncated': bool)
    requires WriterState(table.rows, done, sequence, total, truncated)
    requires 0 < |chunk| <= MAX_LOG_CHUNK_BYTES
    modifies table
    ensures ok ==> WriterState(table.rows, done + Tag(stream, chunk), sequence', total', truncated')
    ensures ok ==> sequence' <= sequence + 1 && (|done| + |chunk| <= MAX_LOG_BYTES ==> sequence' == sequence + 1)
    ensures !ok ==> table.rows == old(table.rows) && faultAt == Some(|table.rows|)
  {
    ok, sequence', total', truncated' := true, sequence, total, truncated;
    StoredLength(table.rows);
    var remaining := MAX_LOG_BYTES - total;
    var length := if |chunk| <= remaining then |chunk| else remaining;
    ChunkKept(done, Stored(table.rows), stream, chunk, length);
    if remaining == 0 {
      assert Tag(stream, chunk[..0]) == [];
      truncated' := true;
    } else {
      if length < |chunk| {
        truncated' := true;
      }
      if faultAt == Some(sequence) {
        ok := false;
        return;
      }
      var row := LogRow(sequence, stream, chunk[..length]);
      StoredAppend(table.rows, row);
      AppendLog(table.rows, row);
      table.Insert(row);
      total' := total + length;
      sequence' := sequence + 1;
    }
  }

  /** The inner loop: the chunks of one event. */
  method StoreEvent(table: StageLogs, event: LogEvent, ghost done: seq<Tagged>,
                    sequence: nat, total: nat, truncated: bool, faultAt: Option<nat>)
    returns (ok: bool, sequence': nat, total': nat, truncated': bool)
    requires WriterState(table.rows, done, sequence, total, truncated)
    modifies table
    ensures ok ==> WriterState(table.rows, done + Tag(event.stream, event.data), sequence', total', truncated')
    ensures ok ==> sequence' <= sequence + ChunkCount(|event.data|)
    ensures ok && |done| + |event.data| <= MAX_LOG_BYTES ==> sequence' == sequence + ChunkCount(|event.data|)
    ensures !ok ==> LogsOk(table.rows) && Stored(table.rows) <= done + Tag(event.stream, event.data)
                    && faultAt == Some(|table.rows|)
  {
    hide WriterState, ChunkCount;
    assert ChunkCount(0) == 0 by { NoChunk(); }
    ok, sequence', total', truncated' := true, sequence, total, truncated;
    var from := 0;
    ChunkEnds(done, event, 0, 0);
    while from < |event.data|
      invariant 0 <= from <= |event.data|
      invariant WriterState(table.rows, done + Tag(event.stream, event.data[..from]), sequence', total', truncated')
      invariant from < |event.data| ==> from % MAX_LOG_CHUNK_BYTES == 0
      invariant sequence' <= sequence + ChunkCount(from)
      invariant |done| + from <= MAX_LOG_BYTES ==> sequence' == sequence + ChunkCount(from)
    {
      NextChunk(from, |event.data|);
      var to := if |event.data| - from <= MAX_LOG_CHUNK_BYTES then |event.data| else from + MAX_LOG_CHUNK_BYTES;
      ghost var before := done + Tag(event.stream, event.data[..from]);
      ChunkEnds(done, event, from, to);
      StoredIsPrefix(table.rows, before, sequence', total', truncated');
      ok, sequence', total', truncated' :=
        StoreChunk(table, event.stream, event.data[from..to], before, sequence', total', truncated', faultAt);
      if !ok {
        return;
      }
      from := to;
    }
    assert event.data[..from] == event.data;
  }

  lemma ChunkEnds(done: seq<Tagged>, event: LogEvent, from: nat, to: nat)
    requires from <= to <= |event.data|
    ensures done + Tag(event.stream, event.data[..0]) == done
    ensures done + Tag(event.stream, event.data[..from]) + Tag(event.stream, event.data[from..to]) ==
            done + Tag(event.stream, event.data[..to])
    ensures done + Tag(event.stream, event.data[..from]) <= done + Tag(event.stream, event.data)
  {
    var data := event.data;
    assert data[..from] + data[from..to] == data[..to];
    assert data[..from] + data[from..] == data;
    TagAppend(done, event.stream, data[..from], data[from..to]);
    TagAppend(done, event.stream, data[..from], data[from..]);
    assert Tag(event.stream, data[..0]) == [];
  }

  lemma TagAppend(done: seq<Tagged>, stream: Stream, a: seq<Byte>, b: seq<Byte>)
    ensures done + Tag(stream, a) + Tag(stream, b) == done + Tag(stream, a + b)
  {
    assert Tag(stream, a + b) == Tag(stream, a) + Tag(stream, b);
  }

  lemma StoredIsPrefix(rows: seq<LogRow>, done: seq<Tagged>, sequence: nat, total: nat, truncated: bool)
    requires WriterState(rows, done, sequence, total, truncated)
    ensures LogsOk(rows) && Stored(rows) <= done
  {
  }

  /** `persist_stage_logs`. Whatever the split of the input into events: the rows hold exactly the first 8 MiB
      received, each byte under its own stream, in rows numbered from 0, none empty, none over 64 KiB; and the
      flag says whether anything was cut. After a failed INSERT the rows still hold a prefix. */
  method PersistStageLogs(table: StageLogs, events: seq<LogEvent>, faultAt: Option<nat>) returns (result: Option<bool>)
    requires table.rows == []
    modifies table
    ensures LogsOk(table.rows)
    ensures result.Some? ==> Stored(table.rows) == Prefix(Received(events), MAX_LOG_BYTES)
    ensures result.Some? ==> (result.value <==> |Received(events)| > MAX_LOG_BYTES)
    ensures result.Some? ==> |table.rows| <= Chunks(events)
    ensures result.Some? && |Received(events)| <= MAX_LOG_BYTES ==> |table.rows| == Chunks(events)
    ensures result.None? ==> faultAt == Some(|table.rows|) && Stored(table.rows) <= Received(events)
  {
    var sequence: nat, total: nat, truncated := 0, 0, false;
    for i := 0 to |events|
      invariant WriterState(table.rows, Received(events[..i]), sequence, total, truncated)
      invariant sequence <= Chunks(events[..i])
      invariant |Received(events[..i])| <= MAX_LOG_BYTES ==> sequence == Chunks(events[..i])
    {
      ghost var done := Received(events[..i]);
      assert events[..i + 1][..i] == events[..i];
      assert Received(events[..i + 1]) == done + Tag(events[i].stream, events[i].data);
      var ok;
      ok, sequence, total, truncated := StoreEvent(table, events[i], done, sequence, total, truncated, faultAt);
      if !ok {
        ReceivedGrows(events, i + 1);
        return None;
      }
    }
    assert events[..|events|] == events;
    result := Some(truncated);
  }

  lemma {:induction false} ReceivedGrows(events: seq<LogEvent>, i: nat)
    requires i <= |events|
    ensures Received(events[..i]) <= Received(events)
  {
    if i < |events| {
      ReceivedGrows(events[..|events| - 1], i);
      assert events[..|events| - 1][..i] == events[..i];
    } else {
      assert events[..i] == events;
    }
  }

  // ---- One stream of two ----

  /** The bytes of one stream. */
  function OfStream(bytes: seq<Tagged>, stream: Stream): seq<Byte> {
    if bytes == [] then []
    else
      var last := bytes[|bytes| - 1];
      OfStream(bytes[..|bytes| - 1], stream) + if last.stream == stream then [last.byte] else []
  }

  lemma {:induction false} OfStreamConcat(a: seq<Tagged>, b: seq<Tagged>, stream: Stream)
    ensures OfStream(a + b, stream) == OfStream(a, stream) + OfStream(b, stream)
  {
    if b == [] {
      assert a + b == a;
    } else {
      assert (a + b)[..|a + b| - 1] == a + b[..|b| - 1];
      OfStreamConcat(a, b[..|b| - 1], stream);
    }
  }

  lemma OfStreamPrefix(a: seq<Tagged>, b: seq<Tagged>, stream: Stream)
    requires a <= b
    ensures OfStream(a, stream) <= OfStream(b, stream)
  {
    assert b == a + b[|a|..];
    OfStreamConcat(a, b[|a|..], stream);
  }

  lemma {:induction false} OfStreamTag(data: seq<Byte>, source: Stream, stream: Stream)
    ensures OfStream(Tag(source, data), stream) == if source == stream then data else []
    decreases |data|
  {
    if data != [] {
      assert Tag(source, data)[..|data| - 1] == Tag(source, data[..|data| - 1]);
      OfStreamTag(data[..|data| - 1], source, stream);
      assert data == data[..|data| - 1] + [data[|data| - 1]];
    }
  }
}
