/**
 The encrypted stage an Android phone keeps of a picked file and its seek
 index, as bytes (`stageSource`, `readStageBlocks` and `readStageIndex` in
 app/packages/vidyut_files/android/.../VidyutFilesPlugin.kt).
 */
module StageFormat {
  import opened Wrappers
  import opened TransferFile
  import BigEndian

  /** Kotlin's `Int` and `Long`: an arithmetic step that would leave them does not verify. */
  newtype int32 = x: int | -0x8000_0000 <= x < 0x8000_0000
  newtype long = x: int | -0x8000_0000_0000_0000 <= x < 0x8000_0000_0000_0000

  const INT_MAX := 0x7FFF_FFFF
  const LONG_MAX := 0x7FFF_FFFF_FFFF_FFFF
  const BLOCK_BYTES: nat := 256 * 1024
  const NONCE_BYTES: nat := 12
  const TAG_BYTES: nat := 16
  /** What a block takes in the file beyond its plaintext: two lengths, the nonce and the tag. */
  const OVERHEAD: nat := 36

  /** AES-GCM under the stage key, as two functions of the nonce. */
  datatype Cipher = Cipher(
    encrypt: (seq<byte>, seq<byte>) -> seq<byte>,
    decrypt: (seq<byte>, seq<byte>) -> Option<seq<byte>>
  )

  ghost predicate Ideal(c: Cipher) {
    forall nonce, plain ::
      |c.encrypt(nonce, plain)| == |plain| + TAG_BYTES && c.decrypt(nonce, c.encrypt(nonce, plain)) == Some(plain)
  }

  // ----- integers ----------------------------------------------------------

  function Unsigned(v: int, bits: int): int
    requires -bits <= v < bits
    ensures 0 <= Unsigned(v, bits) < 2 * bits
  {
    if v < 0 then v + 2 * bits else v
  }

  function Signed(u: int, bits: int): int {
    if u >= bits then u - 2 * bits else u
  }

  function WriteInt(v: int32): (s: seq<byte>)
    ensures |s| == 4
  {
    BigEndian.Write(Unsigned(v as int, 0x8000_0000), 4)
  }

  function ReadInt(s: seq<byte>): int32
    requires |s| == 4
  {
    assert BigEndian.Bound(4) == 0x1_0000_0000;
    Signed(BigEndian.Read(s), 0x8000_0000) as int32
  }

  function WriteLong(v: long): (s: seq<byte>)
    ensures |s| == 8
  {
    BigEndian.Write(Unsigned(v as int, 0x8000_0000_0000_0000), 8)
  }

  function ReadLong(s: seq<byte>): long
    requires |s| == 8
  {
    assert BigEndian.Bound(8) == 0x1_0000_0000_0000_0000;
    Signed(BigEndian.Read(s), 0x8000_0000_0000_0000) as long
  }

  lemma IntRoundTrip(v: int32)
    ensures ReadInt(WriteInt(v)) == v
  {
    assert BigEndian.Bound(4) == 0x1_0000_0000;
    BigEndian.ReadWrite(Unsigned(v as int, 0x8000_0000), 4);
  }

  lemma LongRoundTrip(v: long)
    ensures ReadLong(WriteLong(v)) == v
  {
    assert BigEndian.Bound(8) == 0x1_0000_0000_0000_0000;
    BigEndian.ReadWrite(Unsigned(v as int, 0x8000_0000_0000_0000), 8);
  }

  // ----- blocks ------------------------------------------------------------

  datatype Block = Block(nonce: seq<byte>, plain: seq<byte>)

  predicate BlockOk(b: Block) {
    |b.nonce| == NONCE_BYTES && |b.plain| <= BLOCK_BYTES
  }

  predicate BlocksOk(blocks: seq<Block>) {
    forall i :: 0 <= i < |blocks| ==> BlockOk(blocks[i])
  }

  function EncodeBlock(c: Cipher, b: Block): (s: seq<byte>)
    requires Ideal(c) && BlockOk(b)
    ensures |s| == OVERHEAD + |b.plain|
  {
    var encrypted := c.encrypt(b.nonce, b.plain);
    WriteInt(|b.plain| as int32) + b.nonce + WriteInt(|encrypted| as int32) + encrypted
  }

  function Encode(c: Cipher, blocks: seq<Block>): seq<byte>
    requires Ideal(c) && BlocksOk(blocks)
  {
    if blocks == [] then []
    else Encode(c, blocks[..|blocks| - 1]) + EncodeBlock(c, blocks[|blocks| - 1])
  }

  /** The bytes that were staged. */
  function Plain(blocks: seq<Block>): seq<byte> {
    if blocks == [] then [] else Plain(blocks[..|blocks| - 1]) + blocks[|blocks| - 1].plain
  }

  /** Where the file stands after these blocks. */
  function Physical(blocks: seq<Block>): nat {
    if blocks == [] then 0 else Physical(blocks[..|blocks| - 1]) + OVERHEAD + |blocks[|blocks| - 1].plain|
  }

  lemma {:induction false} EncodedLength(c: Cipher, blocks: seq<Block>)
    requires Ideal(c) && BlocksOk(blocks)
    ensures |Encode(c, blocks)| == Physical(blocks)
  {
    if blocks != [] {
      EncodedLength(c, blocks[..|blocks| - 1]);
    }
  }

  lemma {:induction false} PlainFits(blocks: seq<Block>)
    ensures |Plain(blocks)| + 36 * |blocks| == Physical(blocks)
  {
    if blocks != [] {
      PlainFits(blocks[..|blocks| - 1]);
    }
  }

  /** What the first blocks are written as starts what all of them are written as. */
  lemma {:induction false} EncodedPrefix(c: Cipher, blocks: seq<Block>, i: nat)
    requires Ideal(c) && BlocksOk(blocks) && i <= |blocks|
    ensures Encode(c, blocks[..i]) <= Encode(c, blocks)
  {
    if i == |blocks| {
      assert blocks[..i] == blocks;
    } else {
      var init := blocks[..|blocks| - 1];
      EncodedPrefix(c, init, i);
      assert init[..i] == blocks[..i];
    }
  }

  lemma {:induction false} TailOfPrefix(s: seq<byte>, a: seq<byte>, b: seq<byte>)
    requires a + b <= s
    ensures |a| + |b| <= |s| && s[|a|..|a| + |b|] == b
  {
    forall k | 0 <= k < |b|
      ensures s[|a|..|a| + |b|][k] == b[k]
    {
      assert (a + b)[|a| + k] == b[k];
    }
  }

  /** Block `i` lies in the file between the ends of the first `i` and the first `i + 1` blocks. */
  lemma {:induction false} BlockLies(c: Cipher, blocks: seq<Block>, i: nat)
    requires Ideal(c) && BlocksOk(blocks) && i < |blocks|
    ensures Physical(blocks[..i]) + OVERHEAD + |blocks[i].plain| == Physical(blocks[..i + 1]) <= |Encode(c, blocks)|
    ensures Encode(c, blocks)[Physical(blocks[..i])..Physical(blocks[..i + 1])] == EncodeBlock(c, blocks[i])
  {
    assert blocks[..i + 1][..i] == blocks[..i];
    EncodedLength(c, blocks[..i]);
    EncodedPrefix(c, blocks, i + 1);
    assert Encode(c, blocks[..i + 1]) == Encode(c, blocks[..i]) + EncodeBlock(c, blocks[i]);
    TailOfPrefix(Encode(c, blocks), Encode(c, blocks[..i]), EncodeBlock(c, blocks[i]));
  }

  lemma {:induction false} PlainPrefix(blocks: seq<Block>, i: nat)
    requires i <= |blocks|
    ensures Plain(blocks[..i]) <= Plain(blocks)
  {
    if i == |blocks| {
      assert blocks[..i] == blocks;
    } else {
      var init := blocks[..|blocks| - 1];
      PlainPrefix(init, i);
      assert init[..i] == blocks[..i];
    }
  }

  lemma {:induction false} PlainLies(blocks: seq<Block>, i: nat)
    requires i < |blocks|
    ensures |Plain(blocks[..i])| + |blocks[i].plain| == |Plain(blocks[..i + 1])| <= |Plain(blocks)|
    ensures Plain(blocks)[|Plain(blocks[..i])|..|Plain(blocks[..i + 1])|] == blocks[i].plain
  {
    assert blocks[..i + 1][..i] == blocks[..i];
    PlainPrefix(blocks, i + 1);
    TailOfPrefix(Plain(blocks), Plain(blocks[..i]), blocks[i].plain);
  }

  // ----- reading a block ---------------------------------------------------

  datatype Parsed = End | Broken | Found(plain: seq<byte>, next: nat)

  /** One turn of the loops that read blocks, at any position of any file. */
  function ParseBlock(c: Cipher, file: seq<byte>, at: nat): (p: Parsed)
    requires at <= |file|
    ensures p.Found? ==> at + 20 <= p.next <= |file|
  {
    if at + 4 > |file| then End
    else
      var count := ReadInt(file[at..at + 4]) as int;
      if at + 20 > |file| then Broken
      else
        var nonce := file[at + 4..at + 16];
        var size := ReadInt(file[at + 16..at + 20]) as int;
        if size < 0 || at + 20 + size > |file| then Broken
        else
          var plain := c.decrypt(nonce, file[at + 20..at + 20 + size]);
          if plain.None? || |plain.value| != count then Broken else Found(plain.value, at + 20 + size)
  }

  lemma {:induction false} SliceOfSlice(file: seq<byte>, at: nat, n: nat, i: nat, j: nat)
    requires at + n <= |file| && i <= j <= n
    ensures file[at..at + n][i..j] == file[at + i..at + j]
  {
    var part := file[at..at + n];
    forall x | 0 <= x < j - i
      ensures part[i..j][x] == file[at + i..at + j][x]
    {
      assert part[i..j][x] == part[i + x] == file[at + i + x];
    }
  }

  lemma {:induction false} FourParts(file: seq<byte>, at: nat, a: seq<byte>, b: seq<byte>, c: seq<byte>, d: seq<byte>)
    requires at + |a| + |b| + |c| + |d| <= |file|
    requires file[at..at + |a| + |b| + |c| + |d|] == a + b + c + d
    ensures var i, j, k, l := at + |a|, at + |a| + |b|, at + |a| + |b| + |c|, at + |a| + |b| + |c| + |d|;
            file[at..i] == a && file[i..j] == b && file[j..k] == c && file[k..l] == d
  {
    var text := a + b + c + d;
    var n := |text|;
    var i, j, k := |a|, |a| + |b|, |a| + |b| + |c|;
    SliceOfSlice(file, at, n, 0, i);
    SliceOfSlice(file, at, n, i, j);
    SliceOfSlice(file, at, n, j, k);
    SliceOfSlice(file, at, n, k, n);
    assert text[0..i] == a && text[i..j] == b && text[j..k] == c && text[k..n] == d;
  }

  lemma {:induction false} ParsesBlock(c: Cipher, file: seq<byte>, at: nat, b: Block)
    requires Ideal(c) && BlockOk(b) && at + OVERHEAD + |b.plain| <= |file|
    requires file[at..at + OVERHEAD + |b.plain|] == EncodeBlock(c, b)
    ensures ParseBlock(c, file, at) == Found(b.plain, at + OVERHEAD + |b.plain|)
  {
    var encrypted := c.encrypt(b.nonce, b.plain);
    FourParts(file, at, WriteInt(|b.plain| as int32), b.nonce, WriteInt(|encrypted| as int32), encrypted);
    IntRoundTrip(|b.plain| as int32);
    IntRoundTrip(|encrypted| as int32);
  }

  /** In a staged file every block reads back as it was written, and the end is found where it is. */
  lemma {:induction false} ParsesWhatWasWritten(c: Cipher, blocks: seq<Block>, i: nat)
    requires Ideal(c) && BlocksOk(blocks) && i <= |blocks|
    ensures Physical(blocks[..i]) <= |Encode(c, blocks)|
    ensures ParseBlock(c, Encode(c, blocks), Physical(blocks[..i])) ==
            if i == |blocks| then End else Found(blocks[i].plain, Physical(blocks[..i + 1]))
  {
    EncodedLength(c, blocks);
    if i == |blocks| {
      assert blocks[..i] == blocks;
    } else {
      BlockLies(c, blocks, i);
      ParsesBlock(c, Encode(c, blocks), Physical(blocks[..i]), blocks[i]);
    }
  }

  /** Everything a scan yields before it ends; nothing if it breaks. */
  function Scan(c: Cipher, file: seq<byte>, at: nat): Option<seq<byte>>
    requires at <= |file|
    decreases |file| - at
  {
    match ParseBlock(c, file, at)
    case End => Some([])
    case Broken => None
    case Found(plain, next) =>
      var rest := Scan(c, file, next);
      if rest.None? then None else Some(plain + rest.value)
  }

  lemma {:induction false} ScanStep(c: Cipher, file: seq<byte>, at: nat, plain: seq<byte>, next: nat, rest: seq<byte>)
    requires at <= |file| && ParseBlock(c, file, at) == Found(plain, next)
    requires next <= |file| && Scan(c, file, next) == Some(rest)
    ensures Scan(c, file, at) == Some(plain + rest)
  {
  }

  lemma {:induction false} ScanEnd(c: Cipher, file: seq<byte>, at: nat)
    requires at <= |file| && ParseBlock(c, file, at) == End
    ensures Scan(c, file, at) == Some([])
  {
  }

  /** The rest of the source splits at the end of block `i`. */
  lemma {:induction false} PlainSplits(blocks: seq<Block>, i: nat)
    requires i < |blocks|
    ensures |Plain(blocks[..i])| <= |Plain(blocks[..i + 1])| <= |Plain(blocks)|
    ensures Plain(blocks)[|Plain(blocks[..i])|..] == blocks[i].plain + Plain(blocks)[|Plain(blocks[..i + 1])|..]
  {
    PlainLies(blocks, i);
    var source, from, to := Plain(blocks), |Plain(blocks[..i])|, |Plain(blocks[..i + 1])|;
    assert source[from..] == source[from..to] + source[to..];
  }

  lemma {:induction false} ScanFrom(c: Cipher, blocks: seq<Block>, i: nat)
    requires Ideal(c) && BlocksOk(blocks) && i <= |blocks|
    ensures Physical(blocks[..i]) <= |Encode(c, blocks)| && |Plain(blocks[..i])| <= |Plain(blocks)|
    ensures Scan(c, Encode(c, blocks), Physical(blocks[..i])) == Some(Plain(blocks)[|Plain(blocks[..i])|..])
    decreases |blocks| - i
  {
    ParsesWhatWasWritten(c, blocks, i);
    if i == |blocks| {
      assert blocks[..i] == blocks;
      assert Plain(blocks)[|Plain(blocks)|..] == [];
      ScanEnd(c, Encode(c, blocks), Physical(blocks[..i]));
    } else {
      ScanFrom(c, blocks, i + 1);
      PlainSplits(blocks, i);
      ScanStep(c, Encode(c, blocks), Physical(blocks[..i]), blocks[i].plain, Physical(blocks[..i + 1]),
               Plain(blocks)[|Plain(blocks[..i + 1])|..]);
    }
  }

  /** The codec's round trip: scanning a staged file yields exactly the bytes staged, however they were split. */
  lemma {:induction false} ScanIsTheSource(c: Cipher, blocks: seq<Block>)
    requires Ideal(c) && BlocksOk(blocks)
    ensures Scan(c, Encode(c, blocks), 0) == Some(Plain(blocks))
  {
    assert blocks[..0] == [];
    ScanFrom(c, blocks, 0);
  }

  // ----- the index ---------------------------------------------------------

  datatype Entry = Entry(logicalOffset: long, fileOffset: long)

  /** Entry `i` holds the plaintext and the file position of block `i`. */
  predicate Indexes(index: seq<Entry>, blocks: seq<Block>) {
    && |index| == |blocks|
    && forall i :: 0 <= i < |index| ==>
         && index[i].logicalOffset as int == |Plain(blocks[..i])|
         && index[i].fileOffset as int == Physical(blocks[..i])
  }

  function EncodeIndex(index: seq<Entry>): (s: seq<byte>)
    ensures |s| == 16 * |index|
  {
    if index == [] then []
    else
      var last := index[|index| - 1];
      EncodeIndex(index[..|index| - 1]) + WriteLong(last.logicalOffset) + WriteLong(last.fileOffset)
  }

  lemma {:induction false} EntryLies(index: seq<Entry>, i: nat)
    requires i < |index|
    ensures EncodeIndex(index)[16 * i..16 * i + 8] == WriteLong(index[i].logicalOffset)
    ensures EncodeIndex(index)[16 * i + 8..16 * i + 16] == WriteLong(index[i].fileOffset)
  {
    var n := |index|;
    var init := index[..n - 1];
    var text := EncodeIndex(index);
    assert text[..16 * (n - 1)] == EncodeIndex(init);
    if i < n - 1 {
      EntryLies(init, i);
      assert text[16 * i..16 * i + 8] == EncodeIndex(init)[16 * i..16 * i + 8];
      assert text[16 * i + 8..16 * i + 16] == EncodeIndex(init)[16 * i + 8..16 * i + 16];
    }
  }

  /** The entry read back from its place in the index file. */
  lemma {:induction false} EntryReadsBack(index: seq<Entry>, i: nat)
    requires i < |index|
    ensures ReadLong(EncodeIndex(index)[16 * i..16 * i + 8]) == index[i].logicalOffset
    ensures ReadLong(EncodeIndex(index)[16 * i + 8..16 * i + 16]) == index[i].fileOffset
  {
    EntryLies(index, i);
    LongRoundTrip(index[i].logicalOffset);
    LongRoundTrip(index[i].fileOffset);
  }

  // ----- monotonicity ------------------------------------------------------

  lemma {:induction false} PrefixIsShorter(blocks: seq<Block>, i: nat)
    requires i <= |blocks|
    ensures |Plain(blocks[..i])| <= |Plain(blocks)| && Physical(blocks[..i]) <= Physical(blocks)
  {
    if i == |blocks| {
      assert blocks[..i] == blocks;
    } else {
      PrefixIsShorter(blocks[..|blocks| - 1], i);
      assert blocks[..|blocks| - 1][..i] == blocks[..i];
    }
  }

  lemma {:induction false} OffsetsAscend(blocks: seq<Block>, i: nat, j: nat)
    requires i <= j <= |blocks|
    ensures |Plain(blocks[..i])| <= |Plain(blocks[..j])| <= |Plain(blocks)|
    ensures Physical(blocks[..i]) <= Physical(blocks[..j]) <= Physical(blocks)
  {
    PrefixIsShorter(blocks, j);
    PrefixIsShorter(blocks[..j], i);
    assert blocks[..j][..i] == blocks[..i];
  }
}
