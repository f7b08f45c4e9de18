/** The file-transfer engine's data and its specification: how the sender
    cuts a file into chunks, how the receiver accumulates them, how progress
    is rounded, and where a sending run stops. The imperative loop and the
    mutable tables that follow these functions live in the Peer class. */
module Transfer {
  import opened Base

  /** Bytes per `file-chunk` frame. */
  const CHUNK_SIZE: nat := 64 * 1024
  /** Largest file `sendFile` accepts, in bytes. */
  const MAX_FILE_SIZE: nat := 100 * 1024 * 1024

  /** `{name, size, type, ts}` as announced in `file-meta`. */
  datatype Meta = Meta(name: string, size: nat, mime: string, ts: int)

  /** A file picked by the user: its name, MIME type and contents. */
  datatype SourceFile = SourceFile(name: string, mime: string, data: seq<byte>)

  datatype State = Waiting | Sending | Receiving | Done | Failed | Cancelled

  /** Why a sending run stopped early: the file read was rejected, or the
      channel reference was gone when the loop looked at its buffer. */
  datatype TransferError = ReadFailed | ChannelGone

  /** One row of the transfers table shown to the user. The application
      builds these rows by spreading partial objects, so `state`, `meta`,
      `fileId` and `error` may be absent; an absent `progress` reads as 0. */
  datatype Status = Status(
    progress: nat,
    state: Option<State>,
    meta: Option<Meta>,
    fileId: Option<string>,
    error: Option<TransferError>)

  /** `t[transferId] || {}`. */
  const Blank: Status := Status(0, None, None, None, None)

  /** A queued outgoing transfer: the file, its announced meta, and how many
      bytes have been sent so far. */
  datatype Outgoing = Outgoing(file: SourceFile, meta: Meta, offset: nat)

  /** `Math.round(n / size * 100)`. A zero size only arises for an empty
      file, where the value is replaced by 100 at once; it is given as 100. */
  function Percent(n: nat, size: nat): (p: nat)
    ensures size > 0 ==> 2 * size * p <= 200 * n + size < 2 * size * (p + 1)
    ensures n <= size ==> p <= 100
    ensures n == size ==> p == 100
  {
    if size == 0 then 100
    else
      var p := RoundDiv(100 * n, size);
      PercentBounds(n, size, p);
      p
  }

  /** The nearest integer to 100 * n / size is at most 100 for n <= size,
      and exactly 100 for n == size. */
  lemma PercentBounds(n: nat, size: nat, p: nat)
    requires size > 0 && 2 * size * p <= 200 * n + size < 2 * size * (p + 1)
    ensures n <= size ==> p <= 100
    ensures n == size ==> p == 100
  {
    if n <= size {
      assert (2 * size) * p < (2 * size) * 101;
      CancelFactor(2 * size, p, 101);
    }
    if n == size {
      assert (2 * size) * 100 < (2 * size) * (p + 1);
      CancelFactor(2 * size, 100, p + 1);
    }
  }

  /** A positive factor can be cancelled from a strict inequality. */
  lemma CancelFactor(a: int, x: int, y: int)
    requires a > 0 && a * x < a * y
    ensures x < y
  {
  }

  /** The concatenation of a sequence of chunks. */
  function Flatten(cs: seq<seq<byte>>): seq<byte> {
    if cs == [] then [] else cs[0] + Flatten(cs[1..])
  }

  lemma {:induction false} FlattenAppend(a: seq<seq<byte>>, b: seq<seq<byte>>)
    ensures Flatten(a + b) == Flatten(a) + Flatten(b)
  {
    if a == [] {
      assert a + b == b;
    } else {
      assert (a + b)[1..] == a[1..] + b;
      FlattenAppend(a[1..], b);
    }
  }

  /** `Math.min(offset + CHUNK_SIZE, file.size)`: where the slice read at
      `offset` ends. */
  function ChunkEnd(size: nat, offset: nat): nat {
    if offset + CHUNK_SIZE < size then offset + CHUNK_SIZE else size
  }

  /** The slices `file.slice(offset, ChunkEnd(offset))` the sending loop
      reads from `from` on, for as long as `offset < stop`. */
  function ChunksUntil(data: seq<byte>, from: nat, stop: nat): (r: seq<seq<byte>>)
    requires from <= |data|
    ensures forall i :: 0 <= i < |r| ==> 0 < |r[i]| <= CHUNK_SIZE
    ensures forall i :: 0 <= i < |r| - 1 ==> |r[i]| == CHUNK_SIZE
    ensures r != [] ==> from < stop && from < |data|
    decreases |data| - from
  {
    if from >= stop || from == |data| then []
    else
      var end := ChunkEnd(|data|, from);
      [data[from..end]] + ChunksUntil(data, end, stop)
  }

  /** The whole plan from `from`: every chunk is full except possibly the
      last, and together they are exactly the unsent rest of the file. */
  function Chunks(data: seq<byte>, from: nat): (r: seq<seq<byte>>)
    requires from <= |data|
    ensures Flatten(r) == data[from..]
    ensures forall i :: 0 <= i < |r| ==> 0 < |r[i]| <= CHUNK_SIZE
    ensures forall i :: 0 <= i < |r| - 1 ==> |r[i]| == CHUNK_SIZE
    decreases |data| - from
  {
    if from == |data| then []
    else
      var end := ChunkEnd(|data|, from);
      assert data[from..] == data[from..end] + data[end..];
      [data[from..end]] + Chunks(data, end)
  }

  lemma {:induction false} ChunksUntilEnd(data: seq<byte>, from: nat)
    requires from <= |data|
    ensures ChunksUntil(data, from, |data|) == Chunks(data, from)
    decreases |data| - from
  {
    if from < |data| {
      ChunksUntilEnd(data, ChunkEnd(|data|, from));
    }
  }

  /** A 150000-byte file goes out as chunks of 65536, 65536 and 18928 bytes. */
  lemma ChunkSizesOf150000(data: seq<byte>)
    requires |data| == 150000
    ensures var cs := Chunks(data, 0);
            |cs| == 3 && |cs[0]| == 65536 && |cs[1]| == 65536 && |cs[2]| == 18928
  {
    assert Chunks(data, 131072) == [data[131072..150000]] + Chunks(data, 150000);
    assert Chunks(data, 65536) == [data[65536..131072]] + Chunks(data, 131072);
    assert Chunks(data, 0) == [data[0..65536]] + Chunks(data, 65536);
  }

  /** Where a run of the sending loop started at `offset` stops, and why:
      it reads slice after slice, and stops at the first offset whose read
      fails, or at the first slice when the channel reference is gone, or
      at the end of the file. */
  function SendRun(data: seq<byte>, offset: nat, readFailsAt: set<nat>, hasChannel: bool)
    : (r: (nat, Option<TransferError>))
    requires offset <= |data|
    ensures offset <= r.0 <= |data|
    ensures r.1.None? <==> r.0 == |data|
    ensures r.1 == Some(ChannelGone) ==> !hasChannel
    ensures r.1 == Some(ReadFailed) ==> r.0 in readFailsAt
    ensures !hasChannel ==> r == (offset, if offset == |data| then None
                                          else if offset in readFailsAt then Some(ReadFailed)
                                          else Some(ChannelGone))
    decreases |data| - offset
  {
    if offset == |data| then (offset, None)
    else if offset in readFailsAt then (offset, Some(ReadFailed))
    else if !hasChannel then (offset, Some(ChannelGone))
    else SendRun(data, ChunkEnd(|data|, offset), readFailsAt, hasChannel)
  }

  /** The `k`-th slice boundary of a run started at `offset`. */
  function Boundary(offset: nat, k: nat): nat {
    offset + k * CHUNK_SIZE
  }

  /** A run stops at a slice boundary or at the end of the file, and every
      boundary before the stop was read without error: the loop stops at
      the FIRST failing read. */
  lemma {:induction false} RunStopsAtFirstFailure(data: seq<byte>, offset: nat, readFailsAt: set<nat>, hasChannel: bool)
    requires offset <= |data|
    ensures var stop := SendRun(data, offset, readFailsAt, hasChannel).0;
            && (stop == |data| || exists k: nat :: stop == Boundary(offset, k))
            && forall k: nat :: Boundary(offset, k) < stop ==> Boundary(offset, k) !in readFailsAt
    decreases |data| - offset
  {
    var stop := SendRun(data, offset, readFailsAt, hasChannel).0;
    if offset < |data| && offset !in readFailsAt && hasChannel {
      var end := ChunkEnd(|data|, offset);
      RunStopsAtFirstFailure(data, end, readFailsAt, hasChannel);
      if end == |data| {
        assert stop == |data|;
      } else {
        assert end == Boundary(offset, 1);
        if stop != |data| {
          var j: nat :| stop == Boundary(end, j);
          assert stop == Boundary(offset, j + 1);
        }
      }
      forall k: nat | Boundary(offset, k) < stop
        ensures Boundary(offset, k) !in readFailsAt
      {
        if k > 0 {
          assert end == Boundary(offset, 1);
          assert Boundary(offset, k) == Boundary(end, k - 1);
        }
      }
    } else {
      assert stop == Boundary(offset, 0);
    }
  }

  /** One step of a run with the channel present: sending the slice at
      `offset` leaves the same stopping point ahead, and the plan from
      `offset` is that slice followed by the plan from its end. */
  lemma RunStep(data: seq<byte>, offset: nat, readFailsAt: set<nat>, done: seq<seq<byte>>)
    requires offset < |data| && offset !in readFailsAt
    ensures var end := ChunkEnd(|data|, offset);
            var stop := SendRun(data, offset, readFailsAt, true).0;
            && SendRun(data, end, readFailsAt, true) == SendRun(data, offset, readFailsAt, true)
            && (done + [data[offset..end]]) + ChunksUntil(data, end, stop) == done + ChunksUntil(data, offset, stop)
  {
    var end := ChunkEnd(|data|, offset);
    var stop := SendRun(data, offset, readFailsAt, true).0;
    assert ChunksUntil(data, offset, stop) == [data[offset..end]] + ChunksUntil(data, end, stop);
  }

  /** The chunks sent by a run are exactly the file bytes between its start
      and where it stopped. */
  lemma {:induction false} SentBytesOfRun(data: seq<byte>, offset: nat, readFailsAt: set<nat>, hasChannel: bool)
    requires offset <= |data|
    ensures var stop := SendRun(data, offset, readFailsAt, hasChannel).0;
            Flatten(ChunksUntil(data, offset, stop)) == data[offset..stop]
    decreases |data| - offset
  {
    var stop := SendRun(data, offset, readFailsAt, hasChannel).0;
    if offset < |data| && offset !in readFailsAt && hasChannel {
      var end := ChunkEnd(|data|, offset);
      SentBytesOfRun(data, end, readFailsAt, hasChannel);
      assert data[offset..stop] == data[offset..end] + data[end..stop];
    }
  }

  /** With a channel present and no failing read ahead, a run sends the
      whole rest of the file. */
  lemma {:induction false} CleanRunCompletes(data: seq<byte>, offset: nat, readFailsAt: set<nat>)
    requires offset <= |data|
    requires forall o :: o in readFailsAt ==> !(offset <= o < |data|)
    ensures SendRun(data, offset, readFailsAt, true) == (|data|, None)
    decreases |data| - offset
  {
    if offset < |data| {
      CleanRunCompletes(data, ChunkEnd(|data|, offset), readFailsAt);
    }
  }

  /** A receiving transfer: the announced meta, the bytes counted so far,
      the chunks in arrival order, and the album it will be filed under. */
  datatype Incoming = Incoming(meta: Meta, received: nat, buffers: seq<seq<byte>>, albumId: Option<string>)

  /** `receivedBytes` is the total length of the buffered chunks. */
  predicate Consistent(inc: Incoming) {
    inc.received == |Flatten(inc.buffers)|
  }

  /** `file-meta`: a fresh accumulator. */
  function Fresh(meta: Meta, albumId: Option<string>): (inc: Incoming)
    ensures Consistent(inc) && inc.received == 0 && Flatten(inc.buffers) == []
    ensures inc.meta == meta && inc.albumId == albumId
  {
    Incoming(meta, 0, [], albumId)
  }

  /** `file-chunk`: `buffers.push(chunk)` and `receivedBytes += length`. */
  function Accept(inc: Incoming, chunk: seq<byte>): (r: Incoming)
    ensures r.meta == inc.meta && r.albumId == inc.albumId
    ensures r.received == inc.received + |chunk|
    ensures Flatten(r.buffers) == Flatten(inc.buffers) + chunk
    ensures Consistent(inc) ==> Consistent(r)
  {
    FlattenAppend(inc.buffers, [chunk]);
    assert Flatten([chunk]) == chunk + Flatten([]);
    inc.(buffers := inc.buffers + [chunk], received := inc.received + |chunk|)
  }

  /** The completion test `receivedBytes >= meta.size`. */
  predicate Complete(inc: Incoming) {
    inc.received >= inc.meta.size
  }

  /** What a stream of chunks does to a receiving transfer: either it is
      still pending, or it completed with the assembled bytes and some number
      of later chunks that found no transfer and were ignored. */
  datatype Delivery = Pending(inc: Incoming) | Completed(bytes: seq<byte>, ignored: nat)

  function Deliver(inc: Incoming, chunks: seq<seq<byte>>): Delivery
    decreases chunks
  {
    if chunks == [] then Pending(inc)
    else
      var next := Accept(inc, chunks[0]);
      if Complete(next) then Completed(Flatten(next.buffers), |chunks| - 1)
      else Deliver(next, chunks[1..])
  }

  /** Non-empty chunks that cover exactly the missing bytes, in order,
      complete the transfer on the last chunk, with the bytes assembled in
      order; nothing is left over to be ignored. */
  lemma {:induction false} DeliveryCompletesExactly(inc: Incoming, chunks: seq<seq<byte>>)
    requires Consistent(inc) && inc.received < inc.meta.size
    requires forall i :: 0 <= i < |chunks| ==> |chunks[i]| > 0
    requires inc.received + |Flatten(chunks)| == inc.meta.size
    ensures Deliver(inc, chunks) == Completed(Flatten(inc.buffers) + Flatten(chunks), 0)
    decreases chunks
  {
    var next := Accept(inc, chunks[0]);
    var rest := chunks[1..];
    assert Flatten(chunks) == chunks[0] + Flatten(rest);
    if Complete(next) {
      assert rest == [];
    } else {
      DeliveryCompletesExactly(next, rest);
    }
  }

  /** The sender's plan, delivered in order to a receiver that got the
      matching `file-meta`, completes with exactly the file's bytes. */
  lemma SenderAndReceiverAgree(data: seq<byte>, meta: Meta, albumId: Option<string>)
    requires meta.size == |data| > 0
    ensures Deliver(Fresh(meta, albumId), Chunks(data, 0)) == Completed(data, 0)
  {
    DeliveryCompletesExactly(Fresh(meta, albumId), Chunks(data, 0));
  }

  /** An empty file is never completed on the receiving side: the sender
      has no chunk to send, and only a chunk triggers the completion test. */
  lemma EmptyFileNeverCompletes(data: seq<byte>, meta: Meta, albumId: Option<string>)
    requires meta.size == |data| == 0
    ensures Deliver(Fresh(meta, albumId), Chunks(data, 0)) == Pending(Fresh(meta, albumId))
  {
  }
}
