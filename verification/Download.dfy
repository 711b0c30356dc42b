/**
 Laptop-to-phone files: one GET per chunk, each confirmed before the next
 (the GET path of src/transfer/laptop-data-plane.ts, `acceptReceiverOffset` in
 src/transfer/transfer-coordinator.ts, src/transfer/transfer-chunk-policy.ts).
 */
module Download {
  import opened Wrappers
  import opened TransferFile

  const LEGACY_CHUNK_BYTES: nat := 256 * 1024

  function Min(a: int, b: int): int {
    if a < b then a else b
  }

  /** `negotiateTransferChunkBytes`: never above what either side can take, and the legacy size unless told otherwise. */
  function NegotiateChunkBytes(advertised: Option<int>, localMaximum: nat): (r: nat)
    ensures r <= localMaximum
    ensures localMaximum > 0 ==> r > 0
    ensures advertised.Some? && SafeInteger(advertised.value) && advertised.value > 0 ==>
              r <= advertised.value && (r == localMaximum || r == advertised.value)
    ensures advertised.None? ==> r <= LEGACY_CHUNK_BYTES && (r == localMaximum || r == LEGACY_CHUNK_BYTES)
  {
    if advertised.None? || !SafeInteger(advertised.value) || advertised.value <= 0
    then Min(localMaximum, LEGACY_CHUNK_BYTES)
    else Min(localMaximum, advertised.value)
  }

  datatype Refusal = OffsetNotConfirmed(confirmed: int) | NotFound | RangeNotSatisfiable | SourceChanged | ShortRead

  datatype Chunk = Chunk(offset: nat, bytes: seq<byte>, eof: bool)

  /** The file on the laptop's disk as the handler finds it: its content now, and whether its time still matches. */
  datatype Source = Source(content: seq<byte>, sameTime: bool)

  /** One GET. */
  function Serve(f: FileRecord, source: Source, chunkBytes: nat, offset: nat): Result<Chunk, Refusal>
    requires ProgressOk(f)
  {
    if offset != f.confirmedOffset then Err(OffsetNotConfirmed(f.confirmedOffset))
    else if f.sourcePath.None? then Err(NotFound)
    else if f.size > 0 && offset >= f.size then Err(RangeNotSatisfiable)
    else if |source.content| != f.size || !source.sameTime then Err(SourceChanged)
    else
      var limit := if f.maxChunkBytes.Some? then f.maxChunkBytes.value else LEGACY_CHUNK_BYTES;
      var count := Min(Min(chunkBytes, limit), Max(0, f.size - offset));
      Ok(Chunk(offset, source.content[offset..offset + count], offset + count == f.size))
  }

  /** `acceptReceiverOffset`: the receiver's offset and what it can take, if it says. */
  function ReceiverAccepted(f: FileRecord, offset: int, advertised: Option<int>, localMaximum: nat): Result<FileRecord, QueueError> {
    if offset < f.confirmedOffset || offset > f.size then Err(OffsetOutOfRange)
    else
      var negotiated := if advertised.None? then None else Some(NegotiateChunkBytes(advertised, localMaximum));
      if offset > f.confirmedOffset || negotiated.Some? then Confirmed(f, offset, negotiated) else Ok(f)
  }

  /** The chunk size both sides end up with. */
  function Limit(f: FileRecord, chunkBytes: nat): (limit: nat)
    requires ProgressOk(f)
    ensures limit <= chunkBytes && limit <= if f.maxChunkBytes.Some? then f.maxChunkBytes.value else 262_144
    ensures limit == chunkBytes || limit == if f.maxChunkBytes.Some? then f.maxChunkBytes.value else 262_144
  {
    Min(chunkBytes, if f.maxChunkBytes.Some? then f.maxChunkBytes.value else LEGACY_CHUNK_BYTES)
  }

  function Flatten(chunks: seq<seq<byte>>): seq<byte> {
    if chunks == [] then [] else Flatten(chunks[..|chunks| - 1]) + chunks[|chunks| - 1]
  }

  /** How many chunks of at most `limit` bytes `size` bytes take; an empty file still takes one. */
  function ChunkCount(size: nat, limit: nat): nat
    requires limit > 0
  {
    if size <= limit then 1 else 1 + ChunkCount(size - limit, limit)
  }

  /** The count is the size divided by the limit, rounded up: the least number of chunks that can hold it. */
  lemma {:induction false} ChunkCountIsCeiling(size: nat, limit: nat)
    requires limit > 0 && size > 0
    ensures var n := ChunkCount(size, limit); (n - 1) * limit < size <= n * limit
  {
    if size > limit {
      ChunkCountIsCeiling(size - limit, limit);
      var m := ChunkCount(size - limit, limit);
      assert (m - 1) * limit == m * limit - limit;
      assert (m + 1) * limit == m * limit + limit;
    }
  }

  /** Up to the last one, every chunk is exactly `limit` bytes. */
  predicate Tiles(chunks: seq<seq<byte>>, limit: nat) {
    forall i :: 0 <= i < |chunks| - 1 ==> |chunks[i]| == limit
  }

  /** Where a download from `start` stands after `chunks`: the bytes up to `done` are in, and `eof` says whether that was the last chunk. */
  predicate Under(chunks: seq<seq<byte>>, content: seq<byte>, limit: nat, start: nat, done: nat, eof: bool) {
    && limit > 0 && start <= done <= |content|
    && Flatten(chunks) == content[start..done]
    && |chunks| + (if eof then 0 else ChunkCount(|content| - done, limit)) == ChunkCount(|content| - start, limit)
    && (if eof then done == |content| && Tiles(chunks, limit)
        else forall i :: 0 <= i < |chunks| ==> |chunks[i]| == limit)
  }

  lemma {:induction false} NextChunk(chunks: seq<seq<byte>>, content: seq<byte>, limit: nat, start: nat, done: nat, count: nat)
    requires Under(chunks, content, limit, start, done, false) && count == Min(limit, |content| - done)
    requires |content| > 0 ==> done < |content|
    ensures Under(chunks + [content[done..done + count]], content, limit, start, done + count, done + count == |content|)
  {
    var next := chunks + [content[done..done + count]];
    assert next[..|next| - 1] == chunks;
    assert content[start..done] + content[done..done + count] == content[start..done + count];
  }

  lemma {:induction false} LastChunk(chunks: seq<seq<byte>>, content: seq<byte>, limit: nat, start: nat, done: nat)
    requires Under(chunks, content, limit, start, done, true)
    ensures Flatten(chunks) == content[start..] && |chunks| == ChunkCount(|content| - start, limit) && Tiles(chunks, limit)
  {
    assert content[start..|content|] == content[start..];
  }

  /** The state of the laptop's record the loop relies on. */
  predicate Serving(f: FileRecord, source: Source, eof: bool) {
    && ProgressOk(f) && f.status.Active? && f.sourcePath.Some?
    && |source.content| == f.size && source.sameTime
    && (eof || f.size == 0 || f.confirmedOffset < f.size)
  }

  /** One GET and its confirmation. */
  lemma OneExchange(f: FileRecord, source: Source, chunkBytes: nat)
    requires Serving(f, source, false) && 0 < chunkBytes
    ensures var count := Min(Limit(f, chunkBytes), |source.content| - f.confirmedOffset);
            var reached := f.confirmedOffset + count;
            && 0 <= count
            && Serve(f, source, chunkBytes, f.confirmedOffset)
               == Ok(Chunk(f.confirmedOffset, source.content[f.confirmedOffset..reached], reached == f.size))
            && Confirmed(f, reached, None) == Ok(f.(confirmedOffset := reached))
            && Serving(f.(confirmedOffset := reached), source, reached == f.size)
            && (count == 0 ==> f.size == 0)
  {
  }

  /** Accepting moves the offset forward and takes up the negotiated size; an offset behind or past the file is refused. */
  lemma AcceptingAnOffset(file: FileRecord, offset: int, advertised: Option<int>, localMaximum: nat)
    requires ProgressOk(file) && file.status.Active? && 0 < localMaximum <= MAX_SAFE_INTEGER
    ensures var r := ReceiverAccepted(file, offset, advertised, localMaximum);
            && (r.Ok? <==> file.confirmedOffset <= offset <= file.size)
            && (r.Ok? ==> ProgressOk(r.value) && r.value == file.(
                            confirmedOffset := offset,
                            maxChunkBytes := if advertised.Some? then Some(NegotiateChunkBytes(advertised, localMaximum))
                                             else file.maxChunkBytes))
  {
  }

  /** How a download ends: refused when the receiver accepts, refused at its first GET, or done. */
  datatype Download = NotAccepted | NothingToServe(refusal: Refusal) | Downloaded(chunks: seq<seq<byte>>)

  /** The loop's step: the next chunk is served, its confirmation goes through, and the download stands one chunk further. */
  lemma {:induction false} OneFetch(f: FileRecord, source: Source, chunkBytes: nat, chunks: seq<seq<byte>>, start: nat)
    requires Serving(f, source, false) && 0 < chunkBytes
    requires Under(chunks, source.content, Limit(f, chunkBytes), start, f.confirmedOffset, false)
    ensures Serve(f, source, chunkBytes, f.confirmedOffset).Ok?
    ensures var chunk := Serve(f, source, chunkBytes, f.confirmedOffset).value;
            var reached := chunk.offset + |chunk.bytes|;
            && Confirmed(f, reached, None) == Ok(f.(confirmedOffset := reached))
            && Serving(f.(confirmedOffset := reached), source, chunk.eof)
            && Under(chunks + [chunk.bytes], source.content, Limit(f, chunkBytes), start, reached, chunk.eof)
            && (chunk.bytes == [] ==> chunk.eof)
            && f.confirmedOffset <= reached <= f.size
  {
    OneExchange(f, source, chunkBytes);
    NextChunk(chunks, source.content, Limit(f, chunkBytes), start, f.confirmedOffset,
              |Serve(f, source, chunkBytes, f.confirmedOffset).value.bytes|);
  }

  /** One GET and its confirmation, as the loop sees them. */
  method FetchOne(f: FileRecord, source: Source, chunkBytes: nat, ghost chunks: seq<seq<byte>>, ghost start: nat)
    returns (bytes: seq<byte>, next: FileRecord, eof: bool)
    requires Serving(f, source, false) && 0 < chunkBytes
    requires Under(chunks, source.content, Limit(f, chunkBytes), start, f.confirmedOffset, false)
    ensures next == f.(confirmedOffset := next.confirmedOffset) && Serving(next, source, eof)
    ensures Under(chunks + [bytes], source.content, Limit(f, chunkBytes), start, next.confirmedOffset, eof)
    ensures f.confirmedOffset <= next.confirmedOffset <= f.size && (eof || f.confirmedOffset < next.confirmedOffset)
  {
    OneFetch(f, source, chunkBytes, chunks, start);
    var chunk := Serve(f, source, chunkBytes, f.confirmedOffset).value;
    bytes, eof := chunk.bytes, chunk.eof;
    next := Confirmed(f, chunk.offset + |chunk.bytes|, None).value;
  }

  /** Fetching and confirming from the confirmed offset until a chunk says it is the last. */
  method FetchRest(file: FileRecord, source: Source, chunkBytes: nat) returns (chunks: seq<seq<byte>>, end: FileRecord)
    requires Serving(file, source, false) && 0 < chunkBytes
    ensures end == file.(confirmedOffset := file.size) && Limit(file, chunkBytes) > 0
    ensures Flatten(chunks) == source.content[file.confirmedOffset..] && Tiles(chunks, Limit(file, chunkBytes))
    ensures |chunks| == ChunkCount(file.size - file.confirmedOffset, Limit(file, chunkBytes))
  {
    ghost var limit, start := Limit(file, chunkBytes), file.confirmedOffset;
    chunks, end := [], file;
    var eof := false;
    while !eof
      invariant end == file.(confirmedOffset := end.confirmedOffset) && Serving(end, source, eof)
      invariant Under(chunks, source.content, limit, start, end.confirmedOffset, eof)
      decreases file.size - end.confirmedOffset, !eof
    {
      var bytes;
      bytes, end, eof := FetchOne(end, source, chunkBytes, chunks, start);
      chunks := chunks + [bytes];
    }
    LastChunk(chunks, source.content, limit, start, end.confirmedOffset);
  }

  /**
   The download of a file in flight: the receiver accepts at the offset it has
   reached, saying what it can take or not, then fetches and confirms until a
   chunk says it is the last.  The chunks concatenate to the rest of the
   source, there are exactly as many as the negotiated size calls for, and the
   last confirmation is of the whole file.
   */
  method DownloadFile(file: FileRecord, source: Source, chunkBytes: nat, offset: int, advertised: Option<int>, localMaximum: nat)
    returns (r: Download, end: FileRecord)
    requires ProgressOk(file) && file.status.Active? && file.sourcePath.Some?
    requires |source.content| == file.size && source.sameTime
    requires 0 < chunkBytes && 0 < localMaximum <= MAX_SAFE_INTEGER
    ensures r.NotAccepted? <==> offset < file.confirmedOffset || offset > file.size
    ensures r.NothingToServe? <==> offset == file.size > 0
    ensures r.NothingToServe? ==> r.refusal == RangeNotSatisfiable
    ensures r.NotAccepted? ==> end == file
    ensures !r.NotAccepted? ==>
              end == file.(confirmedOffset := file.size,
                           maxChunkBytes := if advertised.Some? then Some(NegotiateChunkBytes(advertised, localMaximum))
                                            else file.maxChunkBytes)
    ensures ProgressOk(end)
    ensures r.Downloaded? ==> Limit(end, chunkBytes) > 0 && 0 <= offset <= |source.content|
    ensures r.Downloaded? ==> Flatten(r.chunks) == source.content[offset..] && Tiles(r.chunks, Limit(end, chunkBytes))
    ensures r.Downloaded? ==> |r.chunks| == ChunkCount(file.size - offset, Limit(end, chunkBytes))
  {
    AcceptingAnOffset(file, offset, advertised, localMaximum);
    var acceptance := ReceiverAccepted(file, offset, advertised, localMaximum);
    if acceptance.Err? {
      return NotAccepted, file;
    }
    end := acceptance.value;
    var first := Serve(end, source, chunkBytes, end.confirmedOffset);
    if first.Err? {
      return NothingToServe(first.error), end;
    }
    var chunks;
    chunks, end := FetchRest(end, source, chunkBytes);
    r := Downloaded(chunks);
  }

  /** A GET is served exactly at the confirmed offset of a file that has bytes left or none at all, and that is still what it was. */
  lemma {:induction false} ServedExactly(f: FileRecord, source: Source, chunkBytes: nat, offset: nat)
    requires ProgressOk(f)
    ensures Serve(f, source, chunkBytes, offset).Ok? <==>
            && offset == f.confirmedOffset && f.sourcePath != None && (offset < f.size || f.size == 0)
            && |source.content| == f.size && source.sameTime
    ensures Serve(f, source, chunkBytes, offset).Ok? ==>
              Serve(f, source, chunkBytes, offset).value.bytes
              == source.content[offset..offset + Min(Limit(f, chunkBytes), f.size - offset)]
  {
  }

  /** A GET whose answer was lost can be repeated: it serves the same chunk until it is confirmed, and no other. */
  lemma {:induction false} OnlyTheConfirmedOffsetIsServed(f: FileRecord, source: Source, chunkBytes: nat, offset: nat)
    requires ProgressOk(f) && Serve(f, source, chunkBytes, offset).Ok?
    ensures offset == f.confirmedOffset
    ensures var chunk := Serve(f, source, chunkBytes, offset).value;
            && chunk.offset == offset && chunk.bytes <= source.content[offset..]
            && |chunk.bytes| <= Limit(f, chunkBytes)
            && (chunk.eof <==> offset + |chunk.bytes| == |source.content|)
            && (chunkBytes > 0 && f.size > 0 ==> |chunk.bytes| > 0)
  {
  }
}
