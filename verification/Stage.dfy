/**
 Writing an encrypted stage and reading it back, by scan and by index
 (`stageSource`, `stageSize`, `hashStage`, `readStageAt`, `readIndexedStageAt`,
 `readStageIndex` in app/packages/vidyut_files/android/.../VidyutFilesPlugin.kt).

 The methods work on any bytes; what they promise is about the bytes
 `StageSource` writes, and that is what the ghost parameter `blocks` stands for.
 Their arithmetic is Kotlin's: every step on `int32` and `long` is in range.
 */
module Stage {
  import opened Wrappers
  import opened TransferFile
  import opened StageFormat

  datatype StageError = BadRange | BadLength | EndOfFile | Corrupt | Cancelled | TooLarge

  /** The bytes of `s` from `from` to `to`, none when the range is empty. */
  function Slice(s: seq<byte>, from: int, to: int): seq<byte>
    requires 0 <= from && to <= |s|
  {
    if from < to then s[from..to] else []
  }

  /** The stage on disk: the data file and its index. */
  ghost predicate Staged(c: Cipher, blocks: seq<Block>, file: seq<byte>) {
    Ideal(c) && BlocksOk(blocks) && file == Encode(c, blocks) && |file| <= LONG_MAX
  }

  lemma {:induction false} OffsetsFit(c: Cipher, blocks: seq<Block>, file: seq<byte>, i: nat)
    requires Staged(c, blocks, file) && i <= |blocks|
    ensures |Plain(blocks[..i])| <= |Plain(blocks)| <= LONG_MAX && Physical(blocks[..i]) <= |file|
  {
    EncodedLength(c, blocks);
    PlainFits(blocks);
    OffsetsAscend(blocks, i, |blocks|);
  }

  lemma {:induction false} NextLogical(blocks: seq<Block>, i: nat)
    requires i < |blocks|
    ensures |Plain(blocks[..i + 1])| == |Plain(blocks[..i])| + |blocks[i].plain|
  {
    PlainLies(blocks, i);
  }

  // ----- writing -----------------------------------------------------------

  datatype Written = Written(file: seq<byte>, index: seq<Entry>, size: long, digest: Digest)

  lemma {:induction false} AppendBlock(c: Cipher, blocks: seq<Block>, b: Block)
    requires Ideal(c) && BlocksOk(blocks) && BlockOk(b)
    ensures BlocksOk(blocks + [b])
    ensures Encode(c, blocks + [b]) == Encode(c, blocks) + EncodeBlock(c, b)
    ensures Plain(blocks + [b]) == Plain(blocks) + b.plain
    ensures Physical(blocks + [b]) == Physical(blocks) + OVERHEAD + |b.plain|
  {
    assert (blocks + [b])[..|blocks|] == blocks;
  }

  lemma {:induction false} AppendEntry(index: seq<Entry>, blocks: seq<Block>, b: Block, e: Entry)
    requires Indexes(index, blocks)
    requires e.logicalOffset as int == |Plain(blocks)| && e.fileOffset as int == Physical(blocks)
    ensures Indexes(index + [e], blocks + [b])
  {
    var more := blocks + [b];
    forall i | 0 <= i < |more|
      ensures (index + [e])[i].logicalOffset as int == |Plain(more[..i])|
      ensures (index + [e])[i].fileOffset as int == Physical(more[..i])
    {
      assert more[..i] == if i < |blocks| then blocks[..i] else blocks;
      assert blocks[..|blocks|] == blocks;
    }
  }

  function SourceOf(parts: seq<seq<byte>>): seq<byte> {
    if parts == [] then [] else SourceOf(parts[..|parts| - 1]) + parts[|parts| - 1]
  }

  lemma {:induction false} SourceOfNext(parts: seq<seq<byte>>, i: nat)
    requires i < |parts|
    ensures SourceOf(parts[..i + 1]) == SourceOf(parts[..i]) + parts[i]
  {
    assert parts[..i + 1][..i] == parts[..i];
  }

  lemma {:induction false} SourceOfPrefix(parts: seq<seq<byte>>, i: nat)
    requires i <= |parts|
    ensures |SourceOf(parts[..i])| <= |SourceOf(parts)|
  {
    if i == |parts| {
      assert parts[..i] == parts;
    } else {
      SourceOfPrefix(parts[..|parts| - 1], i);
      assert parts[..|parts| - 1][..i] == parts[..i];
    }
  }

  /** One block: two lengths, the nonce and the ciphertext. */
  method WriteBlock(c: Cipher, nonce: seq<byte>, plain: seq<byte>, file: seq<byte>, fileOffset: long, ghost blocks: seq<Block>)
    returns (more: seq<byte>, next: long)
    requires Ideal(c) && BlocksOk(blocks) && BlockOk(Block(nonce, plain))
    requires file == Encode(c, blocks) && fileOffset as int == Physical(blocks)
    requires Physical(blocks) + OVERHEAD + |plain| <= LONG_MAX
    ensures var after := blocks + [Block(nonce, plain)];
            && BlocksOk(after) && more == Encode(c, after) && next as int == Physical(after)
            && Plain(after) == Plain(blocks) + plain
  {
    AppendBlock(c, blocks, Block(nonce, plain));
    var encrypted := c.encrypt(nonce, plain);
    more := file + (WriteInt(|plain| as int32) + nonce + WriteInt(|encrypted| as int32) + encrypted);
    next := fileOffset + 4 + NONCE_BYTES as long + 4 + |encrypted| as long;
  }

  /** What has been written after some blocks: the file, its index, the running totals. */
  ghost predicate Wrote(c: Cipher, blocks: seq<Block>, source: seq<byte>, file: seq<byte>, index: seq<Entry>,
                        total: long, fileOffset: long)
  {
    && Ideal(c) && BlocksOk(blocks) && file == Encode(c, blocks) && Indexes(index, blocks)
    && source == Plain(blocks) && total as int == |source| && fileOffset as int == Physical(blocks)
  }

  /** One turn of the loop in `stageSource`, behind its checks. */
  method StageOne(c: Cipher, nonce: seq<byte>, plain: seq<byte>, file: seq<byte>, index: seq<Entry>, total: long,
                  fileOffset: long, ghost blocks: seq<Block>, ghost source: seq<byte>)
    returns (more: seq<byte>, entries: seq<Entry>, sum: long, next: long)
    requires Wrote(c, blocks, source, file, index, total, fileOffset) && BlockOk(Block(nonce, plain))
    requires |source| + |plain| + 36 * (|blocks| + 1) <= LONG_MAX
    ensures Wrote(c, blocks + [Block(nonce, plain)], source + plain, more, entries, sum, next)
  {
    PlainFits(blocks);
    AppendEntry(index, blocks, Block(nonce, plain), Entry(total, fileOffset));
    entries := index + [Entry(total, fileOffset)];
    sum := total + |plain| as long;
    more, next := WriteBlock(c, nonce, plain, file, fileOffset, blocks);
  }

  /**
   `stageSource`: `parts` are what the source stream returned, buffer by buffer,
   `nonces` what the cipher chose and `stops` whether cancelling was asked for
   when the flag was looked at.  The files a failure leaves behind are deleted
   by the catch block, so an error yields no stage at all.
   */
  method StageSource(c: Cipher, parts: seq<seq<byte>>, nonces: seq<seq<byte>>, stops: seq<bool>, maximumBytes: long)
    returns (r: Result<Written, StageError>, ghost blocks: seq<Block>)
    requires Ideal(c) && |nonces| == |parts| && |stops| == |parts| + 2
    requires forall i :: 0 <= i < |parts| ==> |parts[i]| <= BLOCK_BYTES && |nonces[i]| == NONCE_BYTES
    requires |SourceOf(parts)| + 36 * |parts| <= LONG_MAX
    ensures r.Ok? ==> Staged(c, blocks, r.value.file) && Indexes(r.value.index, blocks)
    ensures r.Ok? ==> Plain(blocks) == SourceOf(parts)
    ensures r.Ok? ==> r.value.size as int == |SourceOf(parts)| && r.value.digest == Of(SourceOf(parts))
    ensures r.Ok? <==> true !in stops && (parts == [] || |SourceOf(parts)| <= maximumBytes as int)
  {
    var total: long, fileOffset: long := 0, 0;
    var file: seq<byte>, index: seq<Entry>, hashed: seq<byte> := [], [], [];
    blocks := [];
    var i := 0;
    while i < |parts|
      invariant 0 <= i <= |parts| && |blocks| == i
      invariant Wrote(c, blocks, hashed, file, index, total, fileOffset)
      invariant hashed == SourceOf(parts[..i]) && (i == 0 || |hashed| <= maximumBytes as int)
      invariant forall k :: 0 <= k < i ==> !stops[k]
    {
      if stops[i] {
        return Err(StageError.Cancelled), blocks;
      }
      SourceOfNext(parts, i);
      SourceOfPrefix(parts, i + 1);
      file, index, total, fileOffset :=
        StageOne(c, nonces[i], parts[i], file, index, total, fileOffset, blocks, hashed);
      if total > maximumBytes {
        return Err(TooLarge), blocks;
      }
      hashed := hashed + parts[i];
      blocks := blocks + [Block(nonces[i], parts[i])];
      i := i + 1;
    }
    assert parts[..i] == parts;
    if stops[i] || stops[i + 1] {
      return Err(StageError.Cancelled), blocks;
    }
    assert true !in stops;
    EncodedLength(c, blocks);
    PlainFits(blocks);
    return Ok(Written(file, index, total, Of(hashed))), blocks;
  }

  /** The index file, entry by entry. */
  method WriteIndex(index: seq<Entry>) returns (text: seq<byte>)
    ensures text == EncodeIndex(index)
  {
    text := [];
    for i := 0 to |index|
      invariant text == EncodeIndex(index[..i])
    {
      assert index[..i + 1][..i] == index[..i];
      text := text + WriteLong(index[i].logicalOffset) + WriteLong(index[i].fileOffset);
    }
    assert index[..|index|] == index;
  }

  // ----- reading -----------------------------------------------------------

  /** The body of the reading loops: two lengths, the nonce and the ciphertext, in file order. */
  method NextBlock(c: Cipher, file: seq<byte>, at: nat) returns (p: Parsed)
    requires at <= |file|
    ensures p == ParseBlock(c, file, at)
  {
    var position := at;
    if position + 4 > |file| { return End; }
    var count := ReadInt(file[position..position + 4]);
    position := position + 4;
    if position + NONCE_BYTES > |file| { return Broken; }
    var nonce := file[position..position + NONCE_BYTES];
    position := position + NONCE_BYTES;
    if position + 4 > |file| { return Broken; }
    var size := ReadInt(file[position..position + 4]) as int;
    position := position + 4;
    if size < 0 || position + size > |file| { return Broken; }
    var plain := c.decrypt(nonce, file[position..position + size]);
    if plain.None? || |plain.value| != count as int { return Broken; }
    return Found(plain.value, position + size);
  }

  /** The two lengths in front of block `i`, as they are read without decrypting it. */
  lemma {:induction false} LengthsRead(c: Cipher, blocks: seq<Block>, i: nat)
    requires Ideal(c) && BlocksOk(blocks) && i < |blocks|
    ensures Physical(blocks[..i]) + OVERHEAD + |blocks[i].plain| == Physical(blocks[..i + 1]) <= |Encode(c, blocks)|
    ensures var file, at := Encode(c, blocks), Physical(blocks[..i]);
            && ReadInt(file[at..at + 4]) as int == |blocks[i].plain|
            && ReadInt(file[at + 16..at + 20]) as int == |blocks[i].plain| + TAG_BYTES
  {
    var b := blocks[i];
    var encrypted := c.encrypt(b.nonce, b.plain);
    BlockLies(c, blocks, i);
    FourParts(Encode(c, blocks), Physical(blocks[..i]), WriteInt(|b.plain| as int32), b.nonce,
              WriteInt(|encrypted| as int32), encrypted);
    IntRoundTrip(|b.plain| as int32);
    IntRoundTrip(|encrypted| as int32);
  }

  /** `stageSize`: the size of what was staged, without decrypting anything. */
  method StageSize(c: Cipher, file: seq<byte>, ghost blocks: seq<Block>) returns (total: long)
    requires Staged(c, blocks, file)
    ensures total as int == |Plain(blocks)|
  {
    total := 0;
    var at: long := 0;
    ghost var i := 0;
    EncodedLength(c, blocks);
    while at as int + 4 <= |file|
      invariant 0 <= i <= |blocks| && at as int == Physical(blocks[..i]) <= |file|
      invariant total as int == |Plain(blocks[..i])|
      decreases |file| - at as int
    {
      ParsesWhatWasWritten(c, blocks, i);
      LengthsRead(c, blocks, i);
      OffsetsFit(c, blocks, file, i + 1);
      NextLogical(blocks, i);
      var count := ReadInt(file[at..at + 4]);
      at := at + 4 + NONCE_BYTES as long;
      var encryptedSize := ReadInt(file[at..at + 4]);
      at := at + 4 + encryptedSize as long;
      total := total + count as long;
      i := i + 1;
    }
    ParsesWhatWasWritten(c, blocks, i);
    assert i == |blocks| && blocks[..i] == blocks;
  }

  /** `hashStage`: the digest of a scan is the digest of the source. */
  method HashStage(c: Cipher, file: seq<byte>, ghost blocks: seq<Block>) returns (r: Result<Digest, StageError>)
    requires Staged(c, blocks, file)
    ensures r == Ok(Of(Plain(blocks)))
  {
    var hashed: seq<byte>, at := [], 0;
    var stopped: Option<Parsed> := None;
    ghost var i := 0;
    while stopped.None?
      invariant 0 <= i <= |blocks| && at == Physical(blocks[..i]) <= |file|
      invariant hashed == Plain(blocks[..i])
      invariant stopped.Some? ==> stopped.value.End? && i == |blocks|
      decreases |file| - at, stopped.None?
    {
      ParsesWhatWasWritten(c, blocks, i);
      var p := NextBlock(c, file, at);
      if p.Found? {
        assert blocks[..i + 1][..i] == blocks[..i];
        hashed := hashed + p.plain;
        at := p.next;
        i := i + 1;
      } else {
        stopped := Some(p);
      }
    }
    assert blocks[..i] == blocks;
    r := if stopped.value.Broken? then Err(Corrupt) else Ok(Of(hashed));
  }

  /** `copyInto`: the caller's bounds are the library's. */
  method CopyInto(bytes: seq<byte>, output: array<byte>, at: int32, from: int32, to: int32)
    requires 0 <= from <= to && to as int <= |bytes|
    requires 0 <= at && at as int + (to as int - from as int) <= output.Length
    modifies output
    ensures output[..at as int + (to as int - from as int)] == old(output[..at]) + bytes[from..to]
  {
    var k: int32 := 0;
    ghost var start := at as int;
    ghost var copied := bytes[from..to];
    while k < to - from
      invariant 0 <= k <= to - from
      invariant output[..start] == old(output[..at])
      invariant output[start..start + k as int] == copied[..k]
    {
      output[at as int + k as int] := bytes[from + k];
      k := k + 1;
      assert output[start..start + k as int] == output[start..start + k as int - 1] + [copied[k - 1]];
    }
    assert output[..start + k as int] == output[..start] + output[start..start + k as int];
  }

  /** How much more of a request is covered once the block from `start` to `end` is. */
  lemma {:induction false} SliceGrows(source: seq<byte>, offset: nat, target: nat, start: nat, end: nat)
    requires offset <= target && start <= end <= |source|
    ensures var from, to := Max(offset, start), Min(target, end);
            if from < to then
              && |Slice(source, offset, Min(target, start))| == from - offset
              && Slice(source, offset, to) == Slice(source, offset, Min(target, start)) + source[from..to]
            else
              Slice(source, offset, to) == Slice(source, offset, Min(target, start))
  {
  }

  /**
   The part of the request that lies in the block just read is copied behind
   what was copied before; afterwards everything requested up to the block's
   end is there.
   */
  method CopyRequested(bytes: seq<byte>, output: array<byte>, filled: int32, blockStart: long, offset: long, targetEnd: long,
                       ghost source: seq<byte>)
    returns (now: int32)
    requires |bytes| <= BLOCK_BYTES && 0 <= blockStart && blockStart as int + |bytes| <= |source| <= LONG_MAX
    requires source[blockStart..blockStart as int + |bytes|] == bytes
    requires 0 <= offset <= targetEnd && targetEnd as int - offset as int == output.Length <= INT_MAX
    requires 0 <= filled && filled as int <= output.Length
    requires output[..filled] == Slice(source, offset as int, Min(targetEnd as int, blockStart as int))
    modifies output
    ensures 0 <= now && now as int <= output.Length
    ensures output[..now] == Slice(source, offset as int, Min(targetEnd as int, blockStart as int + |bytes|))
  {
    var blockEnd := blockStart + |bytes| as long;
    var requestedStart := if offset > blockStart then offset else blockStart;
    var requestedEnd := if targetEnd < blockEnd then targetEnd else blockEnd;
    SliceGrows(source, offset as nat, targetEnd as nat, blockStart as nat, blockEnd as nat);
    now := filled;
    if requestedStart < requestedEnd {
      var copy := (requestedEnd - requestedStart) as int32;
      var from := (requestedStart - blockStart) as int32;
      ghost var before := output[..filled];
      assert |before| == requestedStart as int - offset as int;
      RequestedPart(source, bytes, blockStart as nat, requestedStart as nat, requestedEnd as nat);
      CopyInto(bytes, output, filled, from, from + copy);
      now := filled + copy;
      assert output[..now] == before + source[requestedStart..requestedEnd];
    }
  }

  lemma {:induction false} RequestedPart(source: seq<byte>, bytes: seq<byte>, start: nat, from: nat, to: nat)
    requires start <= from <= to <= start + |bytes| <= |source| && source[start..start + |bytes|] == bytes
    ensures bytes[from - start..to - start] == source[from..to]
  {
    SliceOfSlice(source, start, |bytes|, from - start, to - start);
  }

  /** A read has come to block `i`: its position in the file and in the source, and what it has copied. */
  ghost predicate Reading(c: Cipher, blocks: seq<Block>, file: seq<byte>, i: nat, at: nat, logical: long,
                          output: array<byte>, filled: int32, offset: long, targetEnd: long)
    reads output
  {
    && Staged(c, blocks, file) && i <= |blocks|
    && at == Physical(blocks[..i]) <= |file|
    && logical as int == |Plain(blocks[..i])| <= |Plain(blocks)| <= LONG_MAX
    && 0 <= offset <= targetEnd && targetEnd as int - offset as int == output.Length <= INT_MAX
    && 0 <= filled && filled as int <= output.Length
    && output[..filled] == Slice(Plain(blocks), offset as int, Min(targetEnd as int, logical as int))
  }

  /** One block of either loop; it changes nothing unless there is one. */
  method TakeBlock(c: Cipher, file: seq<byte>, at: nat, logical: long, output: array<byte>, filled: int32,
                   offset: long, targetEnd: long, ghost blocks: seq<Block>, ghost i: nat)
    returns (p: Parsed, now: int32, reached: long)
    requires Reading(c, blocks, file, i, at, logical, output, filled, offset, targetEnd)
    modifies output
    ensures p.Found? <==> i < |blocks|
    ensures p.Found? ==> at < p.next && Reading(c, blocks, file, i + 1, p.next, reached, output, now, offset, targetEnd)
    ensures !p.Found? ==> p.End? && now == filled && reached == logical
                          && Reading(c, blocks, file, i, at, logical, output, filled, offset, targetEnd)
  {
    ParsesWhatWasWritten(c, blocks, i);
    p := NextBlock(c, file, at);
    now, reached := filled, logical;
    if p.Found? {
      PlainLies(blocks, i);
      OffsetsFit(c, blocks, file, i + 1);
      now := CopyRequested(p.plain, output, filled, logical, offset, targetEnd, Plain(blocks));
      reached := logical + |p.plain| as long;
    }
  }

  function Min(a: int, b: int): int {
    if a < b then a else b
  }

  /** `readStageIndex`: whole entries until the file ends. */
  method ReadStageIndex(text: seq<byte>, ghost index: seq<Entry>) returns (entries: seq<Entry>)
    requires text == EncodeIndex(index)
    ensures entries == index
  {
    entries := [];
    var at := 0;
    while at + 16 <= |text|
      invariant at == 16 * |entries| && |entries| <= |index| && entries == index[..|entries|]
      decreases |text| - at
    {
      EntryReadsBack(index, |entries|);
      entries := entries + [Entry(ReadLong(text[at..at + 8]), ReadLong(text[at + 8..at + 16]))];
      at := at + 16;
    }
  }

  /** The scan of `readStageAt`: what the range holds, as far as the source goes. */
  method ScanAt(c: Cipher, file: seq<byte>, offset: long, length: int32, ghost blocks: seq<Block>)
    returns (r: Result<seq<byte>, StageError>)
    requires Staged(c, blocks, file) && 0 <= offset && 0 < length && offset as int <= LONG_MAX - length as int
    ensures r == Ok(Slice(Plain(blocks), offset as int, Min(offset as int + length as int, |Plain(blocks)|)))
  {
    var output := new byte[length];
    var filled: int32, logical: long, at := 0, 0, 0;
    var targetEnd := offset + length as long;
    var stopped: Option<Parsed> := None;
    ghost var i := 0;
    OffsetsFit(c, blocks, file, 0);
    while stopped.None? && filled < length
      invariant Reading(c, blocks, file, i, at, logical, output, filled, offset, targetEnd)
      invariant stopped.Some? ==> stopped.value.End? && i == |blocks|
      decreases |file| - at, stopped.None?
    {
      var p, now, reached := TakeBlock(c, file, at, logical, output, filled, offset, targetEnd, blocks, i);
      filled, logical := now, reached;
      if p.Found? {
        at := p.next;
        i := i + 1;
      } else {
        stopped := Some(p);
      }
    }
    assert stopped.Some? ==> blocks[..i] == blocks;
    r := if stopped.Some? && stopped.value.Broken? then Err(Corrupt) else Ok(output[..filled]);
  }

  /** The last entry at or before the offset. */
  method Select(index: seq<Entry>, offset: long, ghost blocks: seq<Block>) returns (selected: int32)
    requires Indexes(index, blocks) && 0 < |index| <= INT_MAX && 0 <= offset
    ensures 0 <= selected as int < |index| && index[selected].logicalOffset <= offset
    ensures forall k :: selected as int < k < |index| ==> index[k].logicalOffset > offset
  {
    var low: int32, high: int32 := 0, (|index| - 1) as int32;
    selected := 0;
    assert blocks[..0] == [];
    while low <= high
      invariant 0 <= low && low as int <= |index| && -1 <= high && (high as int) < |index| && low <= high + 1
      invariant selected == if low == 0 then 0 else low - 1
      invariant forall k :: 0 <= k < low as int ==> index[k].logicalOffset <= offset
      invariant forall k :: high as int < k < |index| ==> index[k].logicalOffset > offset
      decreases high as int - low as int
    {
      var middle := Middle(low, high);
      if index[middle].logicalOffset <= offset {
        forall k | 0 <= k <= middle as int
          ensures index[k].logicalOffset <= offset
        {
          OffsetsAscend(blocks, k, middle as nat);
        }
        selected := middle;
        low := middle + 1;
      } else {
        forall k | middle as int <= k < |index|
          ensures index[k].logicalOffset > offset
        {
          OffsetsAscend(blocks, middle as nat, k);
        }
        high := middle - 1;
      }
    }
  }

  /** `(low + high) ushr 1`: the sum may leave the signed range, the unsigned shift brings it back. */
  function Middle(low: int32, high: int32): (m: int32)
    requires 0 <= low <= high
    ensures low <= m <= high
  {
    ((low as int + high as int) / 2) as int32
  }

  /**
   `readIndexedStageAt`: a binary search, one seek, and the blocks of the range
   only.  It agrees with the scan exactly when the range lies in the source;
   past its end the scan returns what there is and this runs into the end of
   the file.
   */
  method IndexedAt(c: Cipher, file: seq<byte>, index: seq<Entry>, offset: long, length: int32, ghost blocks: seq<Block>)
    returns (r: Result<seq<byte>, StageError>)
    requires Staged(c, blocks, file) && Indexes(index, blocks) && 0 < |index| <= INT_MAX
    requires 0 <= offset && 0 < length && offset as int <= LONG_MAX - length as int
    ensures r == if offset as int + length as int <= |Plain(blocks)|
                 then Ok(Plain(blocks)[offset..offset as int + length as int])
                 else Err(EndOfFile)
  {
    var targetEnd := offset + length as long;
    var selected := Select(index, offset, blocks);
    var output := new byte[length];
    var filled: int32 := 0;
    ghost var i := selected as nat;
    OffsetsFit(c, blocks, file, i);
    var at, logical := index[selected].fileOffset as nat, index[selected].logicalOffset;
    var stopped: Option<Parsed> := None;
    while stopped.None? && logical < targetEnd
      invariant Reading(c, blocks, file, i, at, logical, output, filled, offset, targetEnd)
      invariant stopped.Some? ==> stopped.value.End? && i == |blocks| && logical < targetEnd
      decreases |file| - at, stopped.None?
    {
      var p, now, reached := TakeBlock(c, file, at, logical, output, filled, offset, targetEnd, blocks, i);
      filled, logical := now, reached;
      if p.Found? {
        at := p.next;
        i := i + 1;
      } else {
        stopped := Some(p);
      }
    }
    assert stopped.Some? ==> blocks[..i] == blocks;
    r := if stopped.None? then Ok(output[..filled])
         else if stopped.value.Broken? then Err(Corrupt)
         else Err(EndOfFile);
  }

  /** `readStageAt`: the index when there is one, the scan otherwise. */
  method ReadStageAt(c: Cipher, file: seq<byte>, index: seq<Entry>, offset: long, length: int32, ghost blocks: seq<Block>)
    returns (r: Result<seq<byte>, StageError>)
    requires Staged(c, blocks, file) && |index| <= INT_MAX && (index == [] || Indexes(index, blocks))
    ensures offset < 0 || length < 0 || offset as int > LONG_MAX - length as int ==> r.Err?
    ensures 0 <= offset && 0 <= length && offset as int <= LONG_MAX - length as int ==>
              var source, end := Plain(blocks), offset as int + length as int;
              if length == 0 then r == Ok([])
              else if end <= |source| then r == Ok(source[offset..end])
              else if index == [] then r == Ok(Slice(source, offset as int, |source|))
              else r == Err(EndOfFile)
  {
    if offset < 0 {
      return Err(BadRange);
    }
    if offset as int > LONG_MAX - length as int {
      return Err(BadRange);
    }
    if length < 0 {
      return Err(BadLength);
    }
    if length == 0 {
      return Ok([]);
    }
    if index != [] {
      r := IndexedAt(c, file, index, offset, length, blocks);
    } else {
      r := ScanAt(c, file, offset, length, blocks);
    }
  }
}
