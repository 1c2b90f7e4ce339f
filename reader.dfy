/** The adaptive chunk reader of proxy/cache/backend.py: a byte source read in
    blocks whose size follows the throughput observed on the previous read. */
module Reader {
  import opened Values

  /** The size of the first read. */
  const FirstBlock: nat := 1024
  /** The 4 MiB cap on any read size. */
  const MaxBlock: nat := 4194304

  function Min(a: int, b: int): int { if a <= b then a else b }
  function Max(a: int, b: int): int { if a >= b then a else b }
  function RMin(a: real, b: real): real { if a <= b then a else b }
  function RMax(a: real, b: real): real { if a >= b then a else b }

  /** The next read size, given the seconds the last read took and the number
      of bytes it returned. Python's `long()` on a non-negative float is the
      floor; float rounding is not modelled. */
  function BestBlockSize(elapsed: real, bytes: nat): (r: int)
    // Never below one byte and never above the cap, for any chunk a read of
    // a capped size can return (and twice as much).
    ensures bytes <= 2 * MaxBlock ==> 1 <= r <= MaxBlock
    // A read faster than a millisecond doubles the size, up to the cap.
    ensures elapsed < 0.001 ==> r == Min(Max(2 * bytes, 1), MaxBlock)
    // At most halving, at most doubling.
    ensures bytes <= 2 * MaxBlock ==> Max(bytes / 2, 1) <= r <= Min(Max(2 * bytes, 1), MaxBlock)
    // Between those two limits the size follows the observed rate.
    ensures elapsed >= 0.001 && RMax(bytes as real / 2.0, 1.0) <= bytes as real / elapsed <= Min(Max(2 * bytes, 1), MaxBlock) as real
            ==> r == (bytes as real / elapsed).Floor
  {
    var newMin := RMax(bytes as real / 2.0, 1.0);
    var newMax := RMin(RMax(bytes as real * 2.0, 1.0), MaxBlock as real);
    if elapsed < 0.001 then newMax.Floor
    else
      var rate := bytes as real / elapsed;
      if rate > newMax then newMax.Floor
      else if rate < newMin then newMin.Floor
      else rate.Floor
  }

  /** Outside the halving and doubling limits the size is clamped to the
      nearer one (for chunks beyond 8 MiB the halving limit exceeds the cap,
      and the cap wins). */
  lemma BlockSizeClamps(elapsed: real, bytes: nat)
    requires elapsed >= 0.001
    ensures bytes as real / elapsed > Min(Max(2 * bytes, 1), MaxBlock) as real
            ==> BestBlockSize(elapsed, bytes) == Min(Max(2 * bytes, 1), MaxBlock)
    ensures bytes <= 2 * MaxBlock && bytes as real / elapsed < RMax(bytes as real / 2.0, 1.0)
            ==> BestBlockSize(elapsed, bytes) == Max(bytes / 2, 1)
  {
    var q := bytes / 2;
    assert bytes as real / 2.0 == q as real + (bytes - 2 * q) as real / 2.0;
    assert (bytes as real / 2.0).Floor == q;
    if bytes < 2 {
      assert RMax(bytes as real / 2.0, 1.0) == 1.0;
    } else {
      assert RMax(bytes as real / 2.0, 1.0) == bytes as real / 2.0;
    }
  }

  /** The bytes of a sequence of chunks, in order. */
  function Concat(chunks: seq<seq<byte>>): (r: seq<byte>)
  {
    if chunks == [] then [] else Concat(chunks[..|chunks| - 1]) + chunks[|chunks| - 1]
  }

  lemma ConcatAppend(chunks: seq<seq<byte>>, c: seq<byte>)
    ensures Concat(chunks + [c]) == Concat(chunks) + c
  {
    assert (chunks + [c])[..|chunks|] == chunks;
  }

  /** Non-empty chunks carry at least one byte each. */
  lemma {:induction false} ConcatLength(chunks: seq<seq<byte>>)
    requires forall i :: 0 <= i < |chunks| ==> chunks[i] != []
    ensures |Concat(chunks)| >= |chunks|
  {
    if chunks != [] {
      ConcatLength(chunks[..|chunks| - 1]);
    }
  }

  /** A readable byte stream (`StringIO`, a file, or the origin's raw
      response). `Read(n)` returns at most `n` bytes, and at most `limit(i)`
      on the i-th call: a network stream may return short reads, and a limit
      of 0 stands for a read that returns nothing before the end. */
  class ByteSource {
    var rest: seq<byte>
    var calls: nat
    const limit: nat -> nat

    constructor (data: seq<byte>, limit: nat -> nat)
      ensures rest == data && calls == 0 && this.limit == limit
    {
      rest := data;
      calls := 0;
      this.limit := limit;
    }

    method Read(n: nat) returns (chunk: seq<byte>)
      modifies this
      ensures |chunk| <= n
      ensures chunk == old(rest)[..Min(Min(n, |old(rest)|), limit(old(calls)))]
      ensures rest == old(rest)[|chunk|..]
      ensures calls == old(calls) + 1
    {
      chunk := rest[..Min(Min(n, |rest|), limit(calls))];
      rest := rest[|chunk|..];
      calls := calls + 1;
    }
  }

  predicate FedBack(size: nat, elapsed: real, bytes: nat)
  {
    size == BestBlockSize(elapsed, bytes)
  }

  /** A source that always delivers what is asked, up to the cap: `StringIO`
      and regular files. */
  function FullReads(i: nat): nat { MaxBlock }

  /** `Iterator.__iter__`, one step of the generator per call of `Next`. */
  class ChunkReader {
    const src: ByteSource
    var counter: nat
    var finished: bool

    ghost predicate Valid()
      reads this
    {
      1 <= counter <= MaxBlock
    }

    constructor (src: ByteSource)
      ensures Valid() && this.src == src && counter == FirstBlock && !finished
    {
      this.src := src;
      counter := FirstBlock;
      finished := false;
    }

    /** Reads `counter` bytes; an empty read ends the generator, anything
        else is yielded and the next size is derived from `elapsed`, the
        seconds the read took. */
    method Next(elapsed: real) returns (chunk: Option<seq<byte>>)
      requires Valid() && !finished
      modifies this, src
      ensures Valid()
      ensures src.calls == old(src.calls) + 1
      ensures chunk.Some? ==> old(src.rest) == chunk.value + src.rest
      ensures chunk.Some? ==> chunk.value != [] && |chunk.value| <= old(counter)
      ensures chunk.Some? ==> !finished && FedBack(counter, elapsed, |chunk.value|)
      ensures chunk.None? ==> finished && counter == old(counter) && src.rest == old(src.rest)
      ensures chunk.None? ==> old(src.rest) == [] || src.limit(old(src.calls)) == 0
    {
      var data := src.Read(counter);
      if data == [] && counter != 0 {
        finished := true;
        chunk := None;
        return;
      }
      counter := BestBlockSize(elapsed, |data|);
      chunk := Some(data);
    }
  }

  /** Pulls chunks from a reader until the consumer has taken `demand` of
      them or the stream has ended, the i-th read taking `clock(i)` seconds.
      A consumer that reads a streamed response to the end is one whose
      demand exceeds the number of chunks. Every read size stays within
      [1, MaxBlock]: that is `Valid()`, which `Next` preserves. */
  method Take(reader: ChunkReader, demand: nat, clock: nat -> real) returns (chunks: seq<seq<byte>>)
    requires reader.Valid() && !reader.finished
    modifies reader, reader.src
    ensures reader.Valid()
    // The chunks put back together are exactly the bytes read so far.
    ensures Concat(chunks) + reader.src.rest == old(reader.src.rest)
    ensures forall i :: 0 <= i < |chunks| ==> 1 <= |chunks[i]| <= MaxBlock
    ensures |chunks| <= demand
    // Fewer chunks than demanded: the last read came back empty, at the end
    // of the stream or on a stalled one.
    ensures |chunks| < demand <==> reader.finished
    ensures reader.finished ==> reader.src.calls >= 1 && (reader.src.rest == [] || reader.src.limit(reader.src.calls - 1) == 0)
    // An empty source yields no chunk.
    ensures old(reader.src.rest) == [] ==> chunks == []
  {
    chunks := [];
    while |chunks| < demand && !reader.finished
      invariant reader.Valid()
      invariant |chunks| <= demand
      invariant Concat(chunks) + reader.src.rest == old(reader.src.rest)
      invariant reader.finished ==> |chunks| < demand
      invariant reader.finished ==> reader.src.calls >= 1 && (reader.src.rest == [] || reader.src.limit(reader.src.calls - 1) == 0)
      invariant forall i :: 0 <= i < |chunks| ==> 1 <= |chunks[i]| <= MaxBlock
      decreases |reader.src.rest| + (if reader.finished then 0 else 1)
    {
      ghost var before := reader.src.rest;
      var c := reader.Next(clock(|chunks|));
      if c.Some? {
        ConcatAppend(chunks, c.value);
        assert Concat(chunks) + c.value + reader.src.rest == Concat(chunks) + before;
        chunks := chunks + [c.value];
      }
    }
    if old(reader.src.rest) == [] {
      ConcatLength(chunks);
    }
  }
}
