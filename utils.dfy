/** `read_in_chunks`: read a file-like object repeatedly and hand back
    every non-empty read, stopping at the first empty one. */
module Utils {
  import opened Wrappers

  newtype Byte = x: int | 0 <= x < 256

  type Bytes = seq<Byte>

  /** A file-like object. Successive calls to `Read` return the elements of
      `pending` in order, and the empty string once it is exhausted; what
      each read returns is part of the object, and every requested size is
      logged in `sizes`. */
  class Reader {
    var pending: seq<Bytes>
    var sizes: seq<Option<int>>

    constructor (replies: seq<Bytes>)
      ensures pending == replies && sizes == []
    {
      pending := replies;
      sizes := [];
    }

    method Read(size: Option<int>) returns (data: Bytes)
      modifies this
      ensures data == NextRead(old(pending))
      ensures pending == AfterRead(old(pending))
      ensures sizes == old(sizes) + [size]
    {
      data := NextRead(pending);
      pending := AfterRead(pending);
      sizes := sizes + [size];
    }
  }

  /** What the next read returns. */
  function NextRead(pending: seq<Bytes>): Bytes {
    if pending == [] then [] else pending[0]
  }

  /** What is left for later reads. */
  function AfterRead(pending: seq<Bytes>): seq<Bytes> {
    if pending == [] then [] else pending[1..]
  }

  /** The replies in front of the first empty one: the chunks yielded. */
  function ChunksBeforeEmpty(replies: seq<Bytes>): seq<Bytes> {
    if replies == [] || replies[0] == [] then [] else [replies[0]] + ChunksBeforeEmpty(replies[1..])
  }

  /** The replies behind the first empty one: left unconsumed. */
  function RemainingAfterEmpty(replies: seq<Bytes>): seq<Bytes> {
    if replies == [] then [] else if replies[0] == [] then replies[1..] else RemainingAfterEmpty(replies[1..])
  }

  function Flatten<T>(parts: seq<seq<T>>): seq<T> {
    if parts == [] then [] else parts[0] + Flatten(parts[1..])
  }

  function TotalLength<T>(parts: seq<seq<T>>): nat {
    if parts == [] then 0 else |parts[0]| + TotalLength(parts[1..])
  }

  /** `n` copies of `x`. */
  function Repeat<T>(x: T, n: nat): (r: seq<T>)
    ensures |r| == n && forall i :: 0 <= i < n ==> r[i] == x
  {
    if n == 0 then [] else Repeat(x, n - 1) + [x]
  }

  /** `read_in_chunks(src, chunkSize)`, run to exhaustion: every read asks
      for `chunkSize`, exactly one read beyond the yielded chunks is made
      (the empty one), and nothing behind it is consumed. */
  method ReadInChunks(src: Reader, chunkSize: Option<int>) returns (chunks: seq<Bytes>)
    modifies src
    ensures chunks == ChunksBeforeEmpty(old(src.pending))
    ensures src.pending == RemainingAfterEmpty(old(src.pending))
    ensures src.sizes == old(src.sizes) + Repeat(chunkSize, |chunks| + 1)
  {
    chunks := [];
    while true
      invariant chunks + ChunksBeforeEmpty(src.pending) == ChunksBeforeEmpty(old(src.pending))
      invariant RemainingAfterEmpty(src.pending) == RemainingAfterEmpty(old(src.pending))
      invariant src.sizes == old(src.sizes) + Repeat(chunkSize, |chunks|)
      decreases |src.pending|
    {
      ghost var before := src.pending;
      var data := src.Read(chunkSize);
      if data == [] {
        assert ChunksBeforeEmpty(before) == [];
        assert chunks + [] == chunks;
        return;
      }
      assert ChunksBeforeEmpty(before) == [data] + ChunksBeforeEmpty(src.pending);
      chunks := chunks + [data];
    }
  }

  /** The position of the first empty read, or the number of replies. */
  function FirstEmpty(replies: seq<Bytes>): (n: nat)
    ensures n <= |replies|
    ensures forall i :: 0 <= i < n ==> replies[i] != []
    ensures n < |replies| ==> replies[n] == []
  {
    if replies == [] || replies[0] == [] then 0 else 1 + FirstEmpty(replies[1..])
  }

  /** The chunks are the replies up to the first empty one, in read order:
      none of them is empty and the read that follows them is. */
  lemma {:induction false} ChunksAreReadsBeforeFirstEmpty(replies: seq<Bytes>)
    ensures ChunksBeforeEmpty(replies) == replies[..FirstEmpty(replies)]
  {
    if replies != [] && replies[0] != [] {
      ChunksAreReadsBeforeFirstEmpty(replies[1..]);
      assert replies[..FirstEmpty(replies)] == [replies[0]] + replies[1..][..FirstEmpty(replies[1..])];
    }
  }

  lemma NoChunkIsEmpty(replies: seq<Bytes>)
    ensures forall c :: c in ChunksBeforeEmpty(replies) ==> c != []
  {
    ChunksAreReadsBeforeFirstEmpty(replies);
  }

  /** Exactly the replies behind the first empty one are left: the empty read
      is consumed, and nothing after it. */
  lemma {:induction false} RemainingIsAfterFirstEmpty(replies: seq<Bytes>)
    ensures FirstEmpty(replies) < |replies| ==> RemainingAfterEmpty(replies) == replies[FirstEmpty(replies) + 1..]
    ensures FirstEmpty(replies) == |replies| ==> RemainingAfterEmpty(replies) == []
  {
    if replies != [] && replies[0] != [] {
      RemainingIsAfterFirstEmpty(replies[1..]);
      if FirstEmpty(replies) < |replies| {
        assert replies[1..][FirstEmpty(replies[1..]) + 1..] == replies[FirstEmpty(replies) + 1..];
      }
    }
  }

  lemma {:induction false} FlattenConcat<T>(a: seq<seq<T>>, b: seq<seq<T>>)
    ensures Flatten(a + b) == Flatten(a) + Flatten(b)
  {
    if a == [] {
      assert a + b == b;
    } else {
      assert (a + b)[1..] == a[1..] + b;
      FlattenConcat(a[1..], b);
    }
  }

  /** No byte is lost: what the reader would deliver is what was yielded
      followed by what is left behind the empty read. */
  lemma {:induction false} NothingLost(replies: seq<Bytes>)
    ensures Flatten(replies) == Flatten(ChunksBeforeEmpty(replies)) + Flatten(RemainingAfterEmpty(replies))
  {
    if replies != [] {
      NothingLost(replies[1..]);
      if replies[0] == [] {
        assert Flatten(replies) == Flatten(replies[1..]);
      }
    }
  }

  /** The byte count of the chunks is the sum of their lengths. */
  lemma {:induction false} FlattenLength<T>(parts: seq<seq<T>>)
    ensures |Flatten(parts)| == TotalLength(parts)
  {
    if parts != [] {
      FlattenLength(parts[1..]);
    }
  }
}
