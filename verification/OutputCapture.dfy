/**
 Draining a remote command (`_collect_channel_result` and `_drain_channel` of app/services/ssh_service.py): two streams,
 read in chunks of any size as they become ready, each kept up to a fixed number of bytes.
 */
module OutputCapture {
  import opened Wrappers

  const MAX_OUTPUT := 64 * 1024

  type Chunk = seq<Byte>

  /** The first `max` bytes. */
  function First(bytes: seq<Byte>, max: nat): seq<Byte> {
    if |bytes| <= max then bytes else bytes[..max]
  }

  function Joined(chunks: seq<Chunk>): seq<Byte> {
    if chunks == [] then [] else chunks[0] + Joined(chunks[1..])
  }

  /** A `bytearray`. */
  class Buffer {
    var bytes: seq<Byte>

    constructor ()
      ensures bytes == []
    {
      bytes := [];
    }
  }

  /** One stream of the channel: the chunks that are ready, and what it has delivered so far. */
  class Stream {
    var ready: seq<Chunk>
    var delivered: seq<Byte>

    constructor ()
      ensures ready == [] && delivered == []
    {
      ready, delivered := [], [];
    }

    /** Chunks that become ready between two looks at the stream. */
    method Arrive(chunks: seq<Chunk>)
      modifies `ready
      ensures ready == old(ready) + chunks
    {
      ready := ready + chunks;
    }

    /** `recv`. */
    method Receive() returns (chunk: Chunk)
      requires ready != []
      modifies this
      ensures chunk == old(ready)[0] && ready == old(ready)[1..] && delivered == old(delivered) + chunk
    {
      chunk, ready := ready[0], ready[1..];
      delivered := delivered + chunk;
    }
  }

  /** What a drain delivers: the ready chunks up to the first empty one. */
  function Taken(ready: seq<Chunk>): seq<Byte> {
    if ready == [] || ready[0] == [] then [] else ready[0] + Taken(ready[1..])
  }

  /** And what it leaves ready. */
  function Left(ready: seq<Chunk>): seq<Chunk> {
    if ready == [] then [] else if ready[0] == [] then ready[1..] else Left(ready[1..])
  }

  lemma {:induction false} FirstOfFirst(read: seq<Byte>, chunk: Chunk, max: nat)
    ensures
      First(read + chunk, max) ==
      if |First(read, max)| < max then First(read, max) + First(chunk, max - |First(read, max)|) else First(read, max)
  {
  }

  /** One of the two loops of `_drain_channel`. */
  method DrainStream(stream: Stream, buffer: Buffer, max: nat)
    requires buffer.bytes == First(stream.delivered, max)
    modifies stream, buffer
    ensures buffer.bytes == First(stream.delivered, max)
    ensures stream.delivered == old(stream.delivered) + Taken(old(stream.ready))
    ensures stream.ready == Left(old(stream.ready))
  {
    ghost var before := stream.delivered;
    while stream.ready != []
      invariant buffer.bytes == First(stream.delivered, max)
      invariant stream.delivered + Taken(stream.ready) == before + Taken(old(stream.ready))
      invariant Left(stream.ready) == Left(old(stream.ready))
      decreases |stream.ready|
    {
      ghost var read := stream.delivered;
      var chunk := stream.Receive();
      FirstOfFirst(read, chunk, max);
      if chunk == [] {
        break;
      }
      if |buffer.bytes| < max {
        buffer.bytes := buffer.bytes + First(chunk, max - |buffer.bytes|);
      }
    }
  }

  /** What becomes ready on the two streams before one call of `_drain_channel`. */
  datatype Round = Round(out: seq<Chunk>, err: seq<Chunk>)

  datatype Result = TimedOut | Output(exitStatus: int, stdout: seq<Byte>, stderr: seq<Byte>)

  /** `_drain_channel`. */
  method DrainChannel(out: Stream, err: Stream, stdout: Buffer, stderr: Buffer, max: nat)
    requires out != err && stdout != stderr
    requires stdout.bytes == First(out.delivered, max) && stderr.bytes == First(err.delivered, max)
    modifies out, err, stdout, stderr
    ensures stdout.bytes == First(out.delivered, max) && stderr.bytes == First(err.delivered, max)
    ensures out.delivered == old(out.delivered) + Taken(old(out.ready)) && out.ready == Left(old(out.ready))
    ensures err.delivered == old(err.delivered) + Taken(old(err.ready)) && err.ready == Left(old(err.ready))
  {
    DrainStream(out, stdout, max);
    DrainStream(err, stderr, max);
  }

  /** Everything that arrives on one stream in the first `n` rounds. */
  function Arrived(chunks: seq<seq<Chunk>>, n: nat): seq<Byte>
    requires n <= |chunks|
  {
    if n == 0 then [] else Arrived(chunks, n - 1) + Joined(chunks[n - 1])
  }

  predicate NoneEmpty(chunks: seq<Chunk>) {
    forall i :: 0 <= i < |chunks| ==> chunks[i] != []
  }

  lemma {:induction false} TakesAll(chunks: seq<Chunk>)
    requires NoneEmpty(chunks)
    ensures Taken(chunks) == Joined(chunks) && Left(chunks) == []
  {
    if chunks != [] {
      TakesAll(chunks[1..]);
    }
  }

  /** No read of the stream comes back empty. */
  predicate Steady(chunks: seq<seq<Chunk>>) {
    forall i :: 0 <= i < |chunks| ==> NoneEmpty(chunks[i])
  }

  function OutOf(rounds: seq<Round>): (chunks: seq<seq<Chunk>>)
    ensures |chunks| == |rounds| && forall i :: 0 <= i < |rounds| ==> chunks[i] == rounds[i].out
  {
    seq(|rounds|, i requires 0 <= i < |rounds| => rounds[i].out)
  }

  function ErrOf(rounds: seq<Round>): (chunks: seq<seq<Chunk>>)
    ensures |chunks| == |rounds| && forall i :: 0 <= i < |rounds| ==> chunks[i] == rounds[i].err
  {
    seq(|rounds|, i requires 0 <= i < |rounds| => rounds[i].err)
  }

  /** After `n` rounds: the buffer holds the first bytes delivered, and a steady stream has delivered all that arrived. */
  ghost predicate Captured(delivered: seq<Byte>, ready: seq<Chunk>, bytes: seq<Byte>, chunks: seq<seq<Chunk>>, n: nat)
    requires n <= |chunks|
  {
    && bytes == First(delivered, MAX_OUTPUT)
    && (Steady(chunks) ==> delivered == Arrived(chunks, n) && ready == [])
  }

  lemma NothingCaptured(chunks: seq<seq<Chunk>>)
    ensures Captured([], [], [], chunks, 0)
  {
  }

  /** What one drain after the arrival of the next chunks does to a stream. */
  lemma {:induction false} DrainCaptures(delivered: seq<Byte>, ready: seq<Chunk>, bytes: seq<Byte>, delivered': seq<Byte>,
                                         bytes': seq<Byte>, chunks: seq<seq<Chunk>>, n: nat)
    requires n < |chunks| && Captured(delivered, ready, bytes, chunks, n)
    requires bytes' == First(delivered', MAX_OUTPUT) && delivered' == delivered + Taken(ready + chunks[n])
    ensures Captured(delivered', Left(ready + chunks[n]), bytes', chunks, n + 1)
  {
    if Steady(chunks) {
      TakesAll(chunks[n]);
      assert [] + chunks[n] == chunks[n];
    }
  }

  /** The kept bytes are the first 65536 of what was delivered, or all of it. */
  predicate KeptOf(delivered: seq<Byte>, kept: seq<Byte>) {
    kept <= delivered && |kept| == if |delivered| < 65536 then |delivered| else 65536
  }

  /**
   `_collect_channel_result`: one drain for every look that finds no exit status, and a last one after it. The deadline
   is looked at after each drain but the last; `overdue` is the first round after which it has passed, if any. Each
   buffer is exactly the first 65536 bytes of what its stream delivered, and as long as no read comes back empty a stream
   delivers all that arrived.
   */
  method CollectChannelResult(out: Stream, err: Stream, rounds: seq<Round>, overdue: Option<nat>, exitStatus: int)
    returns (result: Result)
    requires out != err && rounds != []
    requires out.ready == [] && err.ready == [] && out.delivered == [] && err.delivered == []
    modifies out, err
    ensures result.TimedOut? <==> overdue.Some? && overdue.value < |rounds| - 1
    ensures result.Output? ==>
              && result.exitStatus == exitStatus
              && KeptOf(out.delivered, result.stdout) && KeptOf(err.delivered, result.stderr)
    ensures result.Output? && Steady(OutOf(rounds)) ==> out.delivered == Arrived(OutOf(rounds), |rounds|)
    ensures result.Output? && Steady(ErrOf(rounds)) ==> err.delivered == Arrived(ErrOf(rounds), |rounds|)
  {
    hide First, Steady, Arrived, OutOf, ErrOf;
    var stdout := new Buffer();
    var stderr := new Buffer();
    ghost var outs, errs := OutOf(rounds), ErrOf(rounds);
    NothingCaptured(outs);
    NothingCaptured(errs);
    var i := 0;
    while i < |rounds| - 1
      invariant 0 <= i < |rounds|
      invariant overdue.Some? ==> i <= overdue.value
      invariant Captured(out.delivered, out.ready, stdout.bytes, outs, i)
      invariant Captured(err.delivered, err.ready, stderr.bytes, errs, i)
    {
      DrainRound(out, err, stdout, stderr, rounds, i);
      if overdue == Some(i) {
        return TimedOut;
      }
      i := i + 1;
    }
    DrainRound(out, err, stdout, stderr, rounds, i);
    result := Output(exitStatus, stdout.bytes, stderr.bytes);
    FirstIsPrefix(out.delivered, MAX_OUTPUT);
    FirstIsPrefix(err.delivered, MAX_OUTPUT);
  }

  /** One round: chunks become ready, then both streams are drained. */
  method DrainRound(out: Stream, err: Stream, stdout: Buffer, stderr: Buffer, rounds: seq<Round>, i: nat)
    requires out != err && stdout != stderr && i < |rounds|
    requires Captured(out.delivered, out.ready, stdout.bytes, OutOf(rounds), i)
    requires Captured(err.delivered, err.ready, stderr.bytes, ErrOf(rounds), i)
    modifies out, err, stdout, stderr
    ensures Captured(out.delivered, out.ready, stdout.bytes, OutOf(rounds), i + 1)
    ensures Captured(err.delivered, err.ready, stderr.bytes, ErrOf(rounds), i + 1)
  {
    hide First, Steady, Arrived, Taken, Left;
    out.Arrive(rounds[i].out);
    err.Arrive(rounds[i].err);
    DrainChannel(out, err, stdout, stderr, MAX_OUTPUT);
    DrainCaptures(old(out.delivered), old(out.ready), old(stdout.bytes), out.delivered, stdout.bytes, OutOf(rounds), i);
    DrainCaptures(old(err.delivered), old(err.ready), old(stderr.bytes), err.delivered, stderr.bytes, ErrOf(rounds), i);
  }

  /** What is kept is a prefix, the whole if it fits and as long as allowed otherwise. */
  lemma {:induction false} FirstIsPrefix(bytes: seq<Byte>, max: nat)
    ensures First(bytes, max) <= bytes
    ensures |First(bytes, max)| == if |bytes| < max then |bytes| else max
  {
  }
}
