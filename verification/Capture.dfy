/** Capturing the two output streams of a command, and what the log then holds of each. */
module Capture {
  import opened Wrappers
  import opened Runs
  import opened LogWriter

  const MAX_CAPTURED_STREAM_BYTES: nat := 1024 * 1024
  const BUFFER_BYTES: nat := 8192

  /** What the pipe gives to successive reads: never more than the buffer, and an empty read at its end. */
  predicate IsReads(blocks: seq<seq<Byte>>) {
    forall k :: 0 <= k < |blocks| ==> 0 < |blocks[k]| <= BUFFER_BYTES
  }

  function Bytes(blocks: seq<seq<Byte>>): seq<Byte> {
    if blocks == [] then [] else Bytes(blocks[..|blocks| - 1]) + blocks[|blocks| - 1]
  }

  /** One log event for every read. */
  function Events(blocks: seq<seq<Byte>>, stream: Stream): (r: seq<LogEvent>)
    ensures |r| == |blocks|
    ensures forall k :: 0 <= k < |blocks| ==> r[k] == LogEvent(stream, blocks[k])
  {
    seq(|blocks|, k requires 0 <= k < |blocks| => LogEvent(stream, blocks[k]))
  }

  /** One capture's sending half of the log channel: what it has sent, in order; `closedAt` is the send at which the
      receiver is found gone. */
  class Sender {
    var sent: seq<LogEvent>
    const closedAt: Option<nat>

    constructor (closedAt: Option<nat>)
      ensures sent == [] && this.closedAt == closedAt
    {
      this.closedAt := closedAt;
      sent := [];
    }

    method Send(event: LogEvent) returns (ok: bool)
      modifies this`sent
      ensures ok <==> closedAt != Some(old(|sent|))
      ensures sent == if ok then old(sent) + [event] else old(sent)
    {
      ok := closedAt != Some(|sent|);
      if ok {
        sent := sent + [event];
      }
    }
  }

  /** What a capture task returns. */
  datatype Captured = Kept(data: seq<Byte>, truncated: bool) | ReadFailed

  /** A whole stream, captured. */
  function CaptureOf(blocks: seq<seq<Byte>>): Captured {
    Kept(Prefix(Bytes(blocks), MAX_CAPTURED_STREAM_BYTES), |Bytes(blocks)| > MAX_CAPTURED_STREAM_BYTES)
  }

  /** `read_bounded`: keeps the first `limit` bytes, says whether there were more, and sends every byte on.
      `failsAt` is the read that fails, if one does. */
  method ReadBounded(blocks: seq<seq<Byte>>, failsAt: Option<nat>, limit: nat, logs: Sender?, stream: Stream)
    returns (r: Captured)
    requires IsReads(blocks)
    modifies logs
    ensures r.Kept? ==> r == Kept(Prefix(Bytes(blocks), limit), |Bytes(blocks)| > limit)
    ensures r.Kept? && logs != null ==> logs.sent == old(logs.sent) + Events(blocks, stream)
    ensures logs != null ==> exists k: nat :: k <= |blocks| && logs.sent == old(logs.sent) + Events(blocks[..k], stream)
    ensures r.ReadFailed? <==>
            || (failsAt.Some? && failsAt.value <= |blocks|)
            || (logs != null && logs.closedAt.Some?
                && old(|logs.sent|) <= logs.closedAt.value < old(|logs.sent|) + |blocks|)
  {
    hide Bytes, Events, Prefix;
    var retained, truncated, i := [], false, 0;
    NoBlocks(blocks, stream, limit);
    while true
      invariant 0 <= i <= |blocks|
      invariant retained == Prefix(Bytes(blocks[..i]), limit)
      invariant truncated <==> |Bytes(blocks[..i])| > limit
      invariant logs != null ==> logs.sent == old(logs.sent) + Events(blocks[..i], stream)
      invariant failsAt.Some? ==> failsAt.value >= i
      invariant logs != null && logs.closedAt.Some? ==> logs.closedAt.value < old(|logs.sent|)
                                                        || logs.closedAt.value >= old(|logs.sent|) + i
      decreases |blocks| - i
    {
      if failsAt == Some(i) {
        return ReadFailed;
      }
      if i == |blocks| {
        break;
      }
      var buffer := blocks[i];
      OneMoreBlock(blocks, i, stream);
      if logs != null {
        var ok := logs.Send(LogEvent(stream, buffer));
        if !ok {
          return ReadFailed;
        }
      }
      KeepPrefix(Bytes(blocks[..i]), buffer, limit);
      var remaining := if limit > |retained| then limit - |retained| else 0;
      var retainedCount := if remaining < |buffer| then remaining else |buffer|;
      retained := retained + buffer[..retainedCount];
      truncated := truncated || retainedCount < |buffer|;
      i := i + 1;
    }
    assert blocks[..i] == blocks;
    r := Kept(retained, truncated);
  }

  lemma NoBlocks(blocks: seq<seq<Byte>>, stream: Stream, limit: nat)
    ensures Bytes(blocks[..0]) == [] && Events(blocks[..0], stream) == [] && Prefix(Bytes(blocks[..0]), limit) == []
  {
  }

  lemma OneMoreBlock(blocks: seq<seq<Byte>>, i: nat, stream: Stream)
    requires i < |blocks|
    ensures Bytes(blocks[..i + 1]) == Bytes(blocks[..i]) + blocks[i]
    ensures Events(blocks[..i + 1], stream) == Events(blocks[..i], stream) + [LogEvent(stream, blocks[i])]
    ensures |Events(blocks[..i], stream)| == i
  {
    assert blocks[..i + 1][..i] == blocks[..i];
  }

  lemma KeepPrefix(done: seq<Byte>, buffer: seq<Byte>, limit: nat)
    ensures var kept := Prefix(done, limit);
            var count := if limit - |kept| < |buffer| then limit - |kept| else |buffer|;
            && |kept| <= limit && count >= 0
            && Prefix(done + buffer, limit) == kept + buffer[..count]
            && (|done + buffer| > limit <==> |done| > limit || count < |buffer|)
  {
  }

  // ---- Two streams through one channel ----

  /** `c` is what the receiver gets when the senders of `a` and `b` take turns in some way. */
  predicate Interleaves(a: seq<LogEvent>, b: seq<LogEvent>, c: seq<LogEvent>)
    decreases |c|
  {
    if c == [] then a == [] && b == []
    else
      || (a != [] && a[|a| - 1] == c[|c| - 1] && Interleaves(a[..|a| - 1], b, c[..|c| - 1]))
      || (b != [] && b[|b| - 1] == c[|c| - 1] && Interleaves(a, b[..|b| - 1], c[..|c| - 1]))
  }

  lemma EventsButLast(blocks: seq<seq<Byte>>, stream: Stream)
    requires blocks != []
    ensures Events(blocks, stream)[..|blocks| - 1] == Events(blocks[..|blocks| - 1], stream)
  {
  }

  /** Each stream comes out of the channel as it went in, however the two were mixed. */
  lemma {:induction false} StreamsSurviveMixing(outs: seq<seq<Byte>>, errs: seq<seq<Byte>>, c: seq<LogEvent>)
    requires Interleaves(Events(outs, Stdout), Events(errs, Stderr), c)
    ensures OfStream(Received(c), Stdout) == Bytes(outs)
    ensures OfStream(Received(c), Stderr) == Bytes(errs)
    decreases |c|
  {
    if c != [] {
      var n := |c| - 1;
      OfStreamConcat(Received(c[..n]), Tag(c[n].stream, c[n].data), Stdout);
      OfStreamConcat(Received(c[..n]), Tag(c[n].stream, c[n].data), Stderr);
      OfStreamTag(c[n].data, c[n].stream, Stdout);
      OfStreamTag(c[n].data, c[n].stream, Stderr);
      var a, b := Events(outs, Stdout), Events(errs, Stderr);
      if a != [] && a[|a| - 1] == c[n] && Interleaves(a[..|a| - 1], b, c[..n]) {
        EventsButLast(outs, Stdout);
        StreamsSurviveMixing(outs[..|outs| - 1], errs, c[..n]);
        assert Bytes(outs) == Bytes(outs[..|outs| - 1]) + outs[|outs| - 1];
      } else {
        EventsButLast(errs, Stderr);
        StreamsSurviveMixing(outs, errs[..|errs| - 1], c[..n]);
        assert Bytes(errs) == Bytes(errs[..|errs| - 1]) + errs[|errs| - 1];
      }
    }
  }

  lemma {:induction false} BytesGrow(blocks: seq<seq<Byte>>, k: nat)
    requires k <= |blocks|
    ensures Bytes(blocks[..k]) <= Bytes(blocks)
  {
    if k < |blocks| {
      BytesGrow(blocks[..|blocks| - 1], k);
      assert blocks[..|blocks| - 1][..k] == blocks[..k];
    } else {
      assert blocks[..k] == blocks;
    }
  }

  /** For any mixing of what the two captures have sent so far, the stored rows of one stream are a prefix of
      what the command wrote to it. */
  lemma StoredStreamIsPrefix(outs: seq<seq<Byte>>, errs: seq<seq<Byte>>, i: nat, j: nat, c: seq<LogEvent>,
                             rows: seq<LogRow>)
    requires i <= |outs| && j <= |errs|
    requires Interleaves(Events(outs[..i], Stdout), Events(errs[..j], Stderr), c)
    requires Stored(rows) <= Received(c)
    ensures OfStream(Stored(rows), Stdout) <= Bytes(outs)
    ensures OfStream(Stored(rows), Stderr) <= Bytes(errs)
  {
    StreamsSurviveMixing(outs[..i], errs[..j], c);
    OfStreamPrefix(Stored(rows), Received(c), Stdout);
    OfStreamPrefix(Stored(rows), Received(c), Stderr);
    BytesGrow(outs, i);
    BytesGrow(errs, j);
  }

  /** For a command both of whose streams were read to the end, and a writer that stored what it received,
      the log holds each stream in full unless the flag says it was cut. */
  lemma CompleteStreamIsStored(outs: seq<seq<Byte>>, errs: seq<seq<Byte>>, c: seq<LogEvent>, rows: seq<LogRow>)
    requires Interleaves(Events(outs, Stdout), Events(errs, Stderr), c)
    requires Stored(rows) == Prefix(Received(c), MAX_LOG_BYTES)
    ensures |Received(c)| == |Bytes(outs)| + |Bytes(errs)|
    ensures |Bytes(outs)| + |Bytes(errs)| <= MAX_LOG_BYTES ==>
              OfStream(Stored(rows), Stdout) == Bytes(outs) && OfStream(Stored(rows), Stderr) == Bytes(errs)
  {
    StreamsSurviveMixing(outs, errs, c);
    StreamsPartition(Received(c));
  }

  lemma {:induction false} StreamsPartition(bytes: seq<Tagged>)
    ensures |bytes| == |OfStream(bytes, Stdout)| + |OfStream(bytes, Stderr)|
  {
    if bytes != [] {
      StreamsPartition(bytes[..|bytes| - 1]);
    }
  }
}
