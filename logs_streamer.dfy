/**
 * The log streamer of the `docker_client` package: a byte buffer that every streamed chunk is
 * appended to and that a read drains.
 */
module LogsStreamer {

  /** The chunks of a stream, joined in order. */
  function Flatten(chunks: seq<seq<bv8>>): seq<bv8> {
    if chunks == [] then [] else chunks[0] + Flatten(chunks[1..])
  }

  lemma {:induction false} FlattenAppend(chunks: seq<seq<bv8>>, chunk: seq<bv8>)
    ensures Flatten(chunks + [chunk]) == Flatten(chunks) + chunk
  {
    if chunks == [] {
      assert [] + [chunk] == [chunk];
      assert Flatten([chunk]) == chunk + Flatten([]);
    } else {
      assert (chunks + [chunk])[1..] == chunks[1..] + [chunk];
      FlattenAppend(chunks[1..], chunk);
    }
  }

  /** Every chunk survives in the joined stream, at the offset its predecessors add up to. */
  lemma {:induction false} FlattenKeepsChunks(chunks: seq<seq<bv8>>, i: nat)
    requires i < |chunks|
    ensures Flatten(chunks[..i]) + chunks[i] <= Flatten(chunks)
  {
    if i == 0 {
      assert chunks[..0] == [];
    } else {
      assert chunks[..i][0] == chunks[0];
      assert chunks[..i][1..] == chunks[1..][..i - 1];
      FlattenKeepsChunks(chunks[1..], i - 1);
    }
  }

  class LogsStreamer {
    var logs: seq<bv8>
    var lastUpdateTimestamp: int
    var timeInitialized: int
    /** The chunks received since the last drain. */
    ghost var chunks: seq<seq<bv8>>

    ghost predicate Valid()
      reads this
    {
      logs == Flatten(chunks)
    }

    /** A new streamer has an empty buffer; `now` is the construction time. */
    constructor (now: int)
      ensures Valid()
      ensures logs == [] && chunks == []
      ensures timeInitialized == now && lastUpdateTimestamp == now
    {
      logs := [];
      chunks := [];
      timeInitialized := now;
      lastUpdateTimestamp := now;
    }

    /** `stream_handler`: the chunk goes at the end; nothing already buffered is dropped. */
    method StreamHandler(chunk: seq<bv8>)
      requires Valid()
      modifies this`logs, this`chunks
      ensures Valid()
      ensures logs == old(logs) + chunk
      ensures chunks == old(chunks) + [chunk]
    {
      FlattenAppend(chunks, chunk);
      logs := logs + chunk;
      chunks := chunks + [chunk];
    }

    /**
     * `get_streamed_logs`: the chunks received since the last drain, joined in arrival order; the
     * buffer is left empty, and the timestamps are not touched.
     */
    method GetStreamedLogs() returns (r: seq<bv8>)
      requires Valid()
      modifies this`logs, this`chunks
      ensures Valid()
      ensures r == Flatten(old(chunks))
      ensures logs == [] && chunks == []
    {
      r := logs;
      logs := [];
      chunks := [];
    }
  }
}
