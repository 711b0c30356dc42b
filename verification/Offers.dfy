/**
 Offer identity (`offer`, `acceptOffer` and `offersMatch` in
 src/transfer/transfer-queue.ts): when a repeated offer is the same offer.

 An offered file arrives as a JSON object, so it is modelled as its fields in
 the order they were written; two objects print alike exactly when those
 sequences are equal.
 */
module Offers {
  import opened Wrappers
  import opened TransferFile
  import opened QueueModel
  import opened QueueRuns

  datatype Field =
    | FileId(text: string)
    | Filename(text: string)
    | Mime(text: string)
    | Size(number: int)
    | LastModifiedMs(number: int)
    | LastModifiedKnown(flag: bool)
    | Sha256(digest: Digest)
    | SenderTiming(timing: Timing)
    | Folder(text: string)
    | Extra(key: string, text: string)

  type FileObject = seq<Field>

  datatype OfferFile = OfferFile(fileId: string, meta: FileMeta, size: int, sha256: Digest)

  datatype Offer = Offer(
    transferId: string,
    batchId: string,
    origin: string,
    direction: Direction,
    createdAtMs: int,
    files: seq<FileObject>
  )

  // ----- reading and writing one file --------------------------------------

  const BLANK := OfferFile("", FileMeta("", "", 0, None, None, None), 0, Placeholder)

  function Put(f: OfferFile, field: Field): OfferFile {
    match field
    case FileId(text) => f.(fileId := text)
    case Filename(text) => f.(meta := f.meta.(filename := text))
    case Mime(text) => f.(meta := f.meta.(mime := text))
    case Size(number) => f.(size := number)
    case LastModifiedMs(number) => f.(meta := f.meta.(lastModifiedMs := number))
    case LastModifiedKnown(flag) => f.(meta := f.meta.(lastModifiedKnown := Some(flag)))
    case Sha256(digest) => f.(sha256 := digest)
    case SenderTiming(timing) => f.(meta := f.meta.(senderTiming := Some(timing)))
    case Folder(text) => f.(meta := f.meta.(folder := Some(text)))
    case Extra(_, _) => f
  }

  function ReadFrom(w: FileObject, start: OfferFile): OfferFile {
    if w == [] then start else ReadFrom(w[1..], Put(start, w[0]))
  }

  function Read(w: FileObject): OfferFile {
    ReadFrom(w, BLANK)
  }

  /** Two entries of an object under one key. */
  predicate SameKey(a: Field, b: Field) {
    || (a.FileId? && b.FileId?) || (a.Filename? && b.Filename?) || (a.Mime? && b.Mime?) || (a.Size? && b.Size?)
    || (a.LastModifiedMs? && b.LastModifiedMs?) || (a.LastModifiedKnown? && b.LastModifiedKnown?)
    || (a.Sha256? && b.Sha256?) || (a.SenderTiming? && b.SenderTiming?) || (a.Folder? && b.Folder?)
    || (a.Extra? && b.Extra? && a.key == b.key)
  }

  /** The file has what the entry says. */
  predicate Shows(f: OfferFile, field: Field) {
    match field
    case FileId(text) => f.fileId == text
    case Filename(text) => f.meta.filename == text
    case Mime(text) => f.meta.mime == text
    case Size(number) => f.size == number
    case LastModifiedMs(number) => f.meta.lastModifiedMs == number
    case LastModifiedKnown(flag) => f.meta.lastModifiedKnown == Some(flag)
    case Sha256(digest) => f.sha256 == digest
    case SenderTiming(timing) => f.meta.senderTiming == Some(timing)
    case Folder(text) => f.meta.folder == Some(text)
    case Extra(_, _) => true
  }

  lemma {:induction false} OtherKeysStay(w: FileObject, start: OfferFile, field: Field)
    requires Shows(start, field) && forall i :: 0 <= i < |w| ==> !SameKey(w[i], field)
    ensures Shows(ReadFrom(w, start), field)
  {
    if w != [] {
      assert Shows(Put(start, w[0]), field);
      OtherKeysStay(w[1..], Put(start, w[0]), field);
    }
  }

  /** Reading an object: under every key the last entry counts. */
  lemma {:induction false} LastEntryCounts(w: FileObject, k: nat)
    requires k < |w| && forall i :: k < i < |w| ==> !SameKey(w[i], w[k])
    ensures Shows(Read(w), w[k])
  {
    ReadAppend(w[..k], w[k..], BLANK);
    assert w == w[..k] + w[k..];
    OtherKeysStay(w[k..][1..], Put(ReadFrom(w[..k], BLANK), w[k]), w[k]);
  }

  function OptionalField<T>(v: Option<T>, make: T -> Field): FileObject {
    if v.Some? then [make(v.value)] else []
  }

  /** How `offer` writes a file: always these keys, always in this order. */
  function Printed(f: OfferFile): FileObject {
    [FileId(f.fileId), Filename(f.meta.filename), Mime(f.meta.mime), Size(f.size), LastModifiedMs(f.meta.lastModifiedMs)]
    + OptionalField(f.meta.lastModifiedKnown, flag => LastModifiedKnown(flag))
    + [Sha256(f.sha256)]
    + OptionalField(f.meta.senderTiming, timing => SenderTiming(timing))
    + OptionalField(f.meta.folder, text => Folder(text))
  }

  function WithoutTiming(f: OfferFile): OfferFile {
    f.(meta := f.meta.(senderTiming := None))
  }

  /** Destructuring `senderTiming` away. */
  function Tidy(w: FileObject): FileObject {
    if w == [] then []
    else (if w[0].SenderTiming? then [] else [w[0]]) + Tidy(w[1..])
  }

  lemma {:induction false} ReadAppend(a: FileObject, b: FileObject, start: OfferFile)
    ensures ReadFrom(a + b, start) == ReadFrom(b, ReadFrom(a, start))
  {
    if a == [] {
      assert a + b == b;
    } else {
      assert (a + b)[0] == a[0] && (a + b)[1..] == a[1..] + b;
      ReadAppend(a[1..], b, Put(start, a[0]));
    }
  }

  lemma {:induction false} TidyAppend(a: FileObject, b: FileObject)
    ensures Tidy(a + b) == Tidy(a) + Tidy(b)
  {
    if a == [] {
      assert a + b == b;
    } else {
      assert (a + b)[0] == a[0] && (a + b)[1..] == a[1..] + b;
      TidyAppend(a[1..], b);
    }
  }

  lemma {:induction false} ReadTidy(w: FileObject, start: OfferFile, bare: OfferFile)
    requires bare == WithoutTiming(start)
    ensures ReadFrom(Tidy(w), bare) == WithoutTiming(ReadFrom(w, start))
  {
    if w != [] {
      ReadTidy(w[1..], Put(start, w[0]), WithoutTiming(Put(start, w[0])));
      if w[0].SenderTiming? {
        assert Tidy(w) == Tidy(w[1..]);
      } else {
        assert Tidy(w)[0] == w[0] && Tidy(w)[1..] == Tidy(w[1..]);
      }
    }
  }

  lemma ReadOne(field: Field, start: OfferFile)
    ensures ReadFrom([field], start) == Put(start, field)
  {
    assert [field][1..] == [];
  }

  /** Writing then reading a file gives it back. */
  lemma ReadPrinted(f: OfferFile)
    ensures Read(Printed(f)) == f
  {
    var head := [FileId(f.fileId), Filename(f.meta.filename), Mime(f.meta.mime), Size(f.size),
                 LastModifiedMs(f.meta.lastModifiedMs)];
    var known := OptionalField(f.meta.lastModifiedKnown, flag => LastModifiedKnown(flag));
    var digest := [Sha256(f.sha256)];
    var timing := OptionalField(f.meta.senderTiming, timing => SenderTiming(timing));
    var folder := OptionalField(f.meta.folder, text => Folder(text));
    var meta := FileMeta(f.meta.filename, f.meta.mime, f.meta.lastModifiedMs, None, None, None);
    ReadHead(f.fileId, f.meta.filename, f.meta.mime, f.size, f.meta.lastModifiedMs);
    var one := OfferFile(f.fileId, meta, f.size, Placeholder);
    var two := one.(meta := meta.(lastModifiedKnown := f.meta.lastModifiedKnown));
    var three := two.(sha256 := f.sha256);
    var four := three.(meta := three.meta.(senderTiming := f.meta.senderTiming));
    assert ReadFrom(known, one) == two by {
      if f.meta.lastModifiedKnown.Some? { ReadOne(known[0], one); }
    }
    assert ReadFrom(digest, two) == three by { ReadOne(digest[0], two); }
    assert ReadFrom(timing, three) == four by {
      if f.meta.senderTiming.Some? { ReadOne(timing[0], three); }
    }
    assert ReadFrom(folder, four) == f by {
      if f.meta.folder.Some? { ReadOne(folder[0], four); }
    }
    ReadAppend(head + known + digest + timing, folder, BLANK);
    ReadAppend(head + known + digest, timing, BLANK);
    ReadAppend(head + known, digest, BLANK);
    ReadAppend(head, known, BLANK);
  }

  lemma ReadHead(fileId: string, filename: string, mime: string, size: int, modified: int)
    ensures Read([FileId(fileId), Filename(filename), Mime(mime), Size(size), LastModifiedMs(modified)])
            == OfferFile(fileId, FileMeta(filename, mime, modified, None, None, None), size, Placeholder)
  {
    var start := BLANK;
    var a, b, c, d, e := FileId(fileId), Filename(filename), Mime(mime), Size(size), LastModifiedMs(modified);
    ReadOne(a, start);
    ReadAppend([a], [b], start);
    ReadOne(b, Put(start, a));
    ReadAppend([a] + [b], [c], start);
    ReadOne(c, Put(Put(start, a), b));
    ReadAppend([a] + [b] + [c], [d], start);
    ReadOne(d, Put(Put(Put(start, a), b), c));
    ReadAppend([a] + [b] + [c] + [d], [e], start);
    ReadOne(e, Put(Put(Put(Put(start, a), b), c), d));
    assert [a, b, c, d, e] == [a] + [b] + [c] + [d] + [e];
  }

  lemma TidyPrinted(f: OfferFile)
    ensures Tidy(Printed(f)) == Printed(WithoutTiming(f))
  {
    var head := [FileId(f.fileId), Filename(f.meta.filename), Mime(f.meta.mime), Size(f.size),
                 LastModifiedMs(f.meta.lastModifiedMs)];
    var known := OptionalField(f.meta.lastModifiedKnown, flag => LastModifiedKnown(flag));
    var digest := [Sha256(f.sha256)];
    var timing := OptionalField(f.meta.senderTiming, timing => SenderTiming(timing));
    var folder := OptionalField(f.meta.folder, text => Folder(text));
    TidyAppend(head + known + digest + timing, folder);
    TidyAppend(head + known + digest, timing);
    NothingToTidy(head + known + digest);
    NothingToTidy(folder);
    assert Tidy(timing) == [] by {
      if f.meta.senderTiming.Some? { assert timing[1..] == []; }
    }
    var none: Option<Timing> := None;
    assert Tidy(Printed(f)) == head + known + digest + [] + folder;
  }

  lemma {:induction false} NothingToTidy(w: FileObject)
    requires forall i :: 0 <= i < |w| ==> !w[i].SenderTiming?
    ensures Tidy(w) == w
  {
    if w != [] {
      NothingToTidy(w[1..]);
    }
  }

  // ----- sorting -----------------------------------------------------------

  type Order = (string, string) -> bool

  /** What `localeCompare` is on file ids, which are plain ASCII: some strict total order. */
  ghost predicate TotalOrder(less: Order) {
    && (forall a :: !less(a, a))
    && (forall a, b, c :: less(a, b) && less(b, c) ==> less(a, c))
    && (forall a, b :: less(a, b) || less(b, a) || a == b)
  }

  function Insert(w: FileObject, files: seq<FileObject>, less: Order): seq<FileObject> {
    if files == [] then [w]
    else if less(Read(files[0]).fileId, Read(w).fileId) then [files[0]] + Insert(w, files[1..], less)
    else [w] + files
  }

  function Sorted(files: seq<FileObject>, less: Order): seq<FileObject> {
    if files == [] then [] else Insert(files[0], Sorted(files[1..], less), less)
  }

  predicate DistinctFiles(files: seq<FileObject>) {
    forall i, j :: 0 <= i < j < |files| ==> Read(files[i]).fileId != Read(files[j]).fileId
  }

  ghost predicate Ascending(files: seq<FileObject>, less: Order) {
    forall i, j :: 0 <= i < j < |files| ==> less(Read(files[i]).fileId, Read(files[j]).fileId)
  }

  predicate SameMembers<T(==)>(a: seq<T>, b: seq<T>) {
    && (forall i :: 0 <= i < |a| ==> a[i] in b)
    && (forall i :: 0 <= i < |b| ==> b[i] in a)
  }

  lemma {:induction false} InsertKeeps(w: FileObject, files: seq<FileObject>, less: Order)
    requires TotalOrder(less) && Ascending(files, less)
    requires forall i :: 0 <= i < |files| ==> Read(files[i]).fileId != Read(w).fileId
    ensures Ascending(Insert(w, files, less), less)
    ensures forall v :: v in Insert(w, files, less) <==> v == w || v in files
  {
    if files != [] && less(Read(files[0]).fileId, Read(w).fileId) {
      var rest := Insert(w, files[1..], less);
      InsertKeeps(w, files[1..], less);
      forall j | 0 <= j < |rest|
        ensures less(Read(files[0]).fileId, Read(rest[j]).fileId)
      {
        assert rest[j] in rest;
        if rest[j] != w {
          var k :| 0 <= k < |files[1..]| && files[1..][k] == rest[j];
          assert files[k + 1] == rest[j];
        }
      }
    } else if files != [] {
      var r := Insert(w, files, less);
      assert r == [w] + files;
      forall j | 0 < j < |r|
        ensures less(Read(w).fileId, Read(r[j]).fileId)
      {
        assert r[j] == files[j - 1];
        assert less(Read(w).fileId, Read(files[0]).fileId);
      }
    }
  }

  lemma {:induction false} SortedIsAscending(files: seq<FileObject>, less: Order)
    requires TotalOrder(less) && DistinctFiles(files)
    ensures Ascending(Sorted(files, less), less)
    ensures forall v :: v in Sorted(files, less) <==> v in files
  {
    if files != [] {
      var rest := Sorted(files[1..], less);
      SortedIsAscending(files[1..], less);
      forall i | 0 <= i < |rest|
        ensures Read(rest[i]).fileId != Read(files[0]).fileId
      {
        assert rest[i] in rest;
        var k :| 0 <= k < |files[1..]| && files[1..][k] == rest[i];
        assert files[k + 1] == rest[i];
      }
      InsertKeeps(files[0], rest, less);
    }
  }

  lemma {:induction false} HeadIsMember<T>(s: seq<T>)
    ensures s != [] ==> s[0] in s
  {
  }

  lemma {:induction false} HeadIsLeast(a: seq<FileObject>, v: FileObject, less: Order)
    requires Ascending(a, less) && v in a
    ensures v == a[0] || less(Read(a[0]).fileId, Read(v).fileId)
  {
    var j :| 0 <= j < |a| && a[j] == v;
    assert j > 0 ==> less(Read(a[0]).fileId, Read(a[j]).fileId);
  }

  /** Two ascending sequences with the same members are the same sequence. */
  lemma {:induction false} AscendingIsUnique(a: seq<FileObject>, b: seq<FileObject>, less: Order)
    requires TotalOrder(less) && Ascending(a, less) && Ascending(b, less)
    requires forall v :: v in a <==> v in b
    ensures a == b
    decreases |a|
  {
    HeadIsMember(a);
    HeadIsMember(b);
    if a != [] {
      HeadIsLeast(a, b[0], less);
      HeadIsLeast(b, a[0], less);
      forall v
        ensures v in a[1..] <==> v in b[1..]
      {
        TailMembers(a, v, less);
        TailMembers(b, v, less);
      }
      AscendingIsUnique(a[1..], b[1..], less);
    }
  }

  lemma {:induction false} TailMembers(a: seq<FileObject>, v: FileObject, less: Order)
    requires TotalOrder(less) && Ascending(a, less) && a != []
    ensures v in a[1..] <==> v in a && v != a[0]
  {
    if v in a[1..] {
      var k :| 0 <= k < |a[1..]| && a[1..][k] == v;
      assert a[k + 1] == v;
      assert less(Read(a[0]).fileId, Read(a[k + 1]).fileId);
    }
    if v in a && v != a[0] {
      var k :| 0 <= k < |a| && a[k] == v;
      assert a[1..][k - 1] == v;
    }
  }

  // ----- matching ----------------------------------------------------------

  function Tidied(files: seq<FileObject>): (r: seq<FileObject>)
    ensures |r| == |files|
    ensures forall i :: 0 <= i < |files| ==> r[i] == Tidy(files[i])
  {
    seq(|files|, i requires 0 <= i < |files| => Tidy(files[i]))
  }

  /** `offersMatch`: equality of the printed, normalized offers. */
  predicate OffersMatch(left: Offer, right: Offer, less: Order) {
    && left.transferId == right.transferId && left.origin == right.origin && left.direction == right.direction
    && Sorted(Tidied(left.files), less) == Sorted(Tidied(right.files), less)
  }

  lemma {:induction false} TidiedIsDistinct(files: seq<FileObject>)
    requires DistinctFiles(files)
    ensures DistinctFiles(Tidied(files))
  {
    forall i | 0 <= i < |files|
      ensures Read(Tidied(files)[i]).fileId == Read(files[i]).fileId
    {
      ReadTidy(files[i], BLANK, BLANK);
    }
  }

  /** Two offers match exactly when they agree but for the order of the files and the sender's timing. */
  lemma {:induction false} MatchIsSetEquality(left: Offer, right: Offer, less: Order)
    requires TotalOrder(less) && DistinctFiles(left.files) && DistinctFiles(right.files)
    ensures OffersMatch(left, right, less) <==>
            && left.transferId == right.transferId && left.origin == right.origin
            && left.direction == right.direction
            && SameMembers(Tidied(left.files), Tidied(right.files))
  {
    var a, b := Tidied(left.files), Tidied(right.files);
    TidiedIsDistinct(left.files);
    TidiedIsDistinct(right.files);
    SortedIsAscending(a, less);
    SortedIsAscending(b, less);
    if Sorted(a, less) == Sorted(b, less) {
      forall i | 0 <= i < |a| ensures a[i] in b {
        assert a[i] in Sorted(a, less);
      }
      forall i | 0 <= i < |b| ensures b[i] in a {
        assert b[i] in Sorted(b, less);
      }
    }
    if SameMembers(a, b) {
      AscendingIsUnique(Sorted(a, less), Sorted(b, less), less);
    }
  }

  function AsOffered(f: FileRecord): OfferFile {
    OfferFile(f.fileId, f.meta, f.size, f.sha256)
  }

  /** `offer` */
  function OfferOf(b: Batch): Offer {
    Offer(b.transferId, b.batchId, b.origin, b.direction, b.createdAtMs,
          seq(|b.files|, i requires 0 <= i < |b.files| => Printed(AsOffered(b.files[i]))))
  }

  /** The file object has the keys `offer` would write, in that order, whatever its timing. */
  predicate WrittenAsOffered(w: FileObject) {
    Tidy(w) == Printed(WithoutTiming(Read(w)))
  }

  function Bare(files: seq<FileRecord>): (r: seq<OfferFile>)
    ensures |r| == |files|
    ensures forall i :: 0 <= i < |r| ==> r[i] == WithoutTiming(AsOffered(files[i]))
  {
    seq(|files|, i requires 0 <= i < |files| => WithoutTiming(AsOffered(files[i])))
  }

  function BareObjects(files: seq<FileObject>): (r: seq<OfferFile>)
    ensures |r| == |files|
    ensures forall i :: 0 <= i < |r| ==> r[i] == WithoutTiming(Read(files[i]))
  {
    seq(|files|, i requires 0 <= i < |files| => WithoutTiming(Read(files[i])))
  }

  /** What a repeated offer must satisfy to be taken as the batch's own. */
  predicate Agrees(b: Batch, o: Offer) {
    && b.transferId == o.transferId && b.origin == o.origin && b.direction == o.direction
    && (forall i :: 0 <= i < |o.files| ==> WrittenAsOffered(o.files[i]))
    && SameMembers(Bare(b.files), BareObjects(o.files))
  }

  lemma {:induction false} PrintedIsTidied(b: Batch, i: nat)
    requires i < |b.files|
    ensures Tidied(OfferOf(b).files)[i] == Printed(Bare(b.files)[i])
    ensures Read(OfferOf(b).files[i]) == AsOffered(b.files[i])
    ensures Read(Printed(Bare(b.files)[i])) == Bare(b.files)[i]
  {
    TidyPrinted(AsOffered(b.files[i]));
    ReadPrinted(AsOffered(b.files[i]));
    ReadPrinted(Bare(b.files)[i]);
  }

  /** The offer a batch makes: the batch's own particulars, and of every file just what was offered of it. */
  lemma {:induction false} OfferShowsTheBatch(b: Batch, i: nat)
    requires i < |b.files|
    ensures var o := OfferOf(b);
            && o.transferId == b.transferId && o.batchId == b.batchId && o.origin == b.origin && o.direction == b.direction
            && o.createdAtMs == b.createdAtMs && |o.files| == |b.files|
            && Read(o.files[i]).fileId == b.files[i].fileId && Read(o.files[i]).meta == b.files[i].meta
            && Read(o.files[i]).size == b.files[i].size && Read(o.files[i]).sha256 == b.files[i].sha256
  {
    PrintedIsTidied(b, i);
  }

  lemma {:induction false} TidiedReads(o: Offer, i: nat)
    requires i < |o.files|
    ensures Read(Tidied(o.files)[i]) == BareObjects(o.files)[i]
  {
    ReadTidy(o.files[i], BLANK, BLANK);
  }

  /** The members of two sequences of files and those of their printed forms correspond. */
  lemma {:induction false} PrintedMembersAgree(mine: seq<FileObject>, theirs: seq<FileObject>, printed: seq<FileObject>,
                            bare: seq<OfferFile>, objects: seq<OfferFile>)
    requires |mine| == |bare| && |theirs| == |printed| == |objects|
    requires forall i, k :: 0 <= i < |theirs| && 0 <= k < |mine| && theirs[i] == mine[k] ==>
                              objects[i] == bare[k] && printed[i] == mine[k]
    requires forall i, k :: 0 <= i < |theirs| && 0 <= k < |mine| && objects[i] == bare[k] ==> printed[i] == mine[k]
    ensures SameMembers(mine, theirs) <==> theirs == printed && SameMembers(bare, objects)
  {
    if SameMembers(mine, theirs) {
      forall i | 0 <= i < |theirs| ensures theirs[i] == printed[i] && objects[i] in bare {
        var k :| 0 <= k < |mine| && mine[k] == theirs[i];
        assert bare[k] == objects[i];
      }
      forall k | 0 <= k < |bare| ensures bare[k] in objects {
        var i :| 0 <= i < |theirs| && theirs[i] == mine[k];
        assert objects[i] == bare[k];
      }
    }
    if theirs == printed && SameMembers(bare, objects) {
      forall i | 0 <= i < |theirs| ensures theirs[i] in mine {
        var k :| 0 <= k < |bare| && bare[k] == objects[i];
        assert mine[k] == theirs[i];
      }
      forall k | 0 <= k < |mine| ensures mine[k] in theirs {
        var i :| 0 <= i < |objects| && objects[i] == bare[k];
        assert theirs[i] == mine[k];
      }
    }
  }

  function PrintedAgain(files: seq<FileObject>): (r: seq<FileObject>)
    ensures |r| == |files|
    ensures forall i :: 0 <= i < |r| ==> r[i] == Printed(WithoutTiming(Read(files[i])))
  {
    seq(|files|, i requires 0 <= i < |files| => Printed(WithoutTiming(Read(files[i]))))
  }

  lemma {:induction false} TidiedIsPrintedAgain(o: Offer)
    ensures Tidied(o.files) == PrintedAgain(o.files) <==>
            forall i :: 0 <= i < |o.files| ==> WrittenAsOffered(o.files[i])
  {
    if Tidied(o.files) == PrintedAgain(o.files) {
      forall i | 0 <= i < |o.files| ensures WrittenAsOffered(o.files[i]) {
        assert Tidied(o.files)[i] == PrintedAgain(o.files)[i];
      }
    }
  }

  lemma {:induction false} MembersAgree(b: Batch, o: Offer)
    ensures SameMembers(Tidied(OfferOf(b).files), Tidied(o.files)) <==>
            (forall i :: 0 <= i < |o.files| ==> WrittenAsOffered(o.files[i]))
            && SameMembers(Bare(b.files), BareObjects(o.files))
  {
    var mine, theirs, printed := Tidied(OfferOf(b).files), Tidied(o.files), PrintedAgain(o.files);
    var bare, objects := Bare(b.files), BareObjects(o.files);
    forall i, k | 0 <= i < |theirs| && 0 <= k < |mine|
      ensures theirs[i] == mine[k] ==> objects[i] == bare[k] && printed[i] == mine[k]
      ensures objects[i] == bare[k] ==> printed[i] == mine[k]
    {
      PrintedIsTidied(b, k);
      TidiedReads(o, i);
    }
    PrintedMembersAgree(mine, theirs, printed, bare, objects);
    TidiedIsPrintedAgain(o);
  }

  /** Offer identity, in both directions. */
  lemma {:induction false} OffersMatchExactly(b: Batch, o: Offer, less: Order)
    requires TotalOrder(less) && DistinctIds(b.files) && DistinctFiles(o.files)
    ensures OffersMatch(OfferOf(b), o, less) <==> Agrees(b, o)
  {
    forall i, j | 0 <= i < j < |b.files|
      ensures Read(OfferOf(b).files[i]).fileId != Read(OfferOf(b).files[j]).fileId
    {
      PrintedIsTidied(b, i);
      PrintedIsTidied(b, j);
    }
    MatchIsSetEquality(OfferOf(b), o, less);
    MembersAgree(b, o);
  }

  // ----- accepting ---------------------------------------------------------

  /** The part of `isTransferOffer` the queue relies on. */
  predicate IsTransferOffer(o: Offer) {
    && 0 < |o.files| <= 100 && DistinctFiles(o.files)
    && (forall i :: 0 <= i < |o.files| ==>
          && 0 <= Read(o.files[i]).size && SafeInteger(Read(o.files[i]).size)
          && Read(o.files[i]).sha256 != Malformed)
  }

  function DraftOf(o: Offer, destinations: map<string, Path>, device: Option<string>): Draft
    requires forall i :: 0 <= i < |o.files| ==> Read(o.files[i]).fileId in destinations
  {
    Draft(o.transferId, o.batchId, o.origin, o.direction, device, o.createdAtMs,
          seq(|o.files|, i requires 0 <= i < |o.files| =>
                var f := Read(o.files[i]);
                DraftFile(f.fileId, f.meta, f.size, f.sha256, None, Some(destinations[f.fileId]))))
  }

  /** What `acceptOffer` makes of the queue: the operation it performs, if any, or the error it throws. */
  function Accepting(q: seq<Batch>, o: Offer, destinations: map<string, Path>, device: Option<string>, less: Order)
    : Result<Option<Op>, QueueError>
  {
    if !IsTransferOffer(o) then Err(InvalidOffer)
    else if exists i :: 0 <= i < |o.files| && Read(o.files[i]).fileId !in destinations then Err(MissingDestination)
    else
      var i := FindBatch(q, o.transferId);
      if i == |q| then Ok(Some(Add(DraftOf(o, destinations, device))))
      else if !OffersMatch(OfferOf(q[i]), o, less) then Err(IdentityConflict)
      else if device.Some? && q[i].sourceDeviceId.None? then Ok(Some(Adopt(o.transferId, device.value)))
      else Ok(None)
  }

  function AcceptOffer(q: seq<Batch>, o: Offer, destinations: map<string, Path>, device: Option<string>,
                       less: Order, now: int): Result<seq<Batch>, QueueError>
  {
    var r := Accepting(q, o, destinations, device, less);
    if r.Err? then Err(r.error)
    else if r.value.None? then Ok(q)
    else Apply(q, r.value.value, now)
  }

  /** What becomes of one offered file: itself, received under the path meant for it. */
  predicate StoredFile(f: FileRecord, w: OfferFile, destinations: map<string, Path>) {
    && f.fileId == w.fileId && f.meta == w.meta && f.size == w.size && f.sha256 == w.sha256
    && f.sourcePath == None && w.fileId in destinations && f.destinationPath == Some(destinations[w.fileId])
  }

  /** What becomes of a new offer. */
  predicate StoredOffer(b: Batch, o: Offer, destinations: map<string, Path>, device: Option<string>, now: int) {
    && StartsOutBatch(b, now)
    && b.transferId == o.transferId && b.batchId == o.batchId && b.origin == o.origin && b.direction == o.direction
    && b.createdAtMs == o.createdAtMs && b.sourceDeviceId == device
    && |b.files| == |o.files|
    && forall i :: 0 <= i < |o.files| ==> StoredFile(b.files[i], Read(o.files[i]), destinations)
  }

  predicate Deliverable(o: Offer, destinations: map<string, Path>) {
    IsTransferOffer(o) && forall i :: 0 <= i < |o.files| ==> Read(o.files[i]).fileId in destinations
  }

  /** A repeated offer changes nothing but a missing device if it agrees, and is refused if it does not. */
  lemma {:induction false} RepeatedOffer(q: seq<Batch>, o: Offer, destinations: map<string, Path>, device: Option<string>,
                      less: Order, now: int)
    requires TotalOrder(less) && Deliverable(o, destinations)
    requires FindBatch(q, o.transferId) < |q| && DistinctIds(q[FindBatch(q, o.transferId)].files)
    ensures var i := FindBatch(q, o.transferId);
            AcceptOffer(q, o, destinations, device, less, now) ==
            if !Agrees(q[i], o) then Err(IdentityConflict)
            else if device.None? || q[i].sourceDeviceId.Some? then Ok(q)
            else Ok(q[i := q[i].(sourceDeviceId := device)])
  {
    OffersMatchExactly(q[FindBatch(q, o.transferId)], o, less);
  }

  // ----- over a whole run --------------------------------------------------

  /** What a batch never changes once it is in the queue. */
  lemma {:induction false} BatchesKeepTheirIdentity(h: History, more: History, i: nat)
    requires Continues(h, more) && i < |Now(h)|
    ensures i < |Now(more)|
    ensures var b, d := Now(h)[i], Now(more)[i];
            && d.transferId == b.transferId && d.batchId == b.batchId && d.origin == b.origin
            && d.direction == b.direction && |d.files| == |b.files|
            && (b.sourceDeviceId.Some? ==> d.sourceDeviceId == b.sourceDeviceId)
    decreases more
  {
    if more != h {
      BatchesKeepTheirIdentity(h, more.before, i);
      if Apply(Now(more.before), more.op, more.now).Ok? {
        ApplySteps(Now(more.before), more.op, more.now);
      }
    }
  }

  predicate DigestsKnown(b: Batch) {
    forall j :: 0 <= j < |b.files| ==> b.files[j].sha256 != Placeholder
  }

  /** Once a batch's digests are known, the same offers agree with it forever. */
  lemma {:induction false} AgreementIsStable(h: History, more: History, i: nat, o: Offer)
    requires Continues(h, more) && i < |Now(h)| && DigestsKnown(Now(h)[i])
    ensures i < |Now(more)| && (Agrees(Now(more)[i], o) <==> Agrees(Now(h)[i], o))
  {
    BatchesKeepTheirIdentity(h, more, i);
    var b, d := Now(h)[i], Now(more)[i];
    forall j | 0 <= j < |b.files|
      ensures Bare(d.files)[j] == Bare(b.files)[j]
    {
      RunsAreLawful(h, more, i, j);
    }
    assert Bare(d.files) == Bare(b.files);
  }

  lemma {:induction false} FindBatchIsStable(h: History, more: History, id: string)
    requires Continues(h, more) && FindBatch(Now(h), id) < |Now(h)|
    ensures FindBatch(Now(more), id) == FindBatch(Now(h), id) < |Now(more)|
  {
    var i := FindBatch(Now(h), id);
    forall k | 0 <= k <= i
      ensures k < |Now(more)| && Now(more)[k].transferId == Now(h)[k].transferId
    {
      BatchesKeepTheirIdentity(h, more, k);
    }
  }

  /**
   Idempotence over whole runs: an offer with known digests that agrees with a
   batch with a device can be repeated at any later point of any run, in any
   order of its files, and leaves the queue as it is.
   */
  lemma {:induction false} ReofferingIsIdempotent(h: History, more: History, o: Offer, destinations: map<string, Path>,
                               device: Option<string>, less: Order, now: int)
    requires TotalOrder(less) && Deliverable(o, destinations) && ClockOk(more) && Continues(h, more)
    requires var i := FindBatch(Now(h), o.transferId);
             i < |Now(h)| && DigestsKnown(Now(h)[i]) && Now(h)[i].sourceDeviceId.Some? && Agrees(Now(h)[i], o)
    ensures AcceptOffer(Now(more), o, destinations, device, less, now) == Ok(Now(more))
  {
    var i := FindBatch(Now(h), o.transferId);
    FindBatchIsStable(h, more, o.transferId);
    BatchesKeepTheirIdentity(h, more, i);
    AgreementIsStable(h, more, i, o);
    RunsKeepQueueOk(more);
    RepeatedOffer(Now(more), o, destinations, device, less, now);
  }

  lemma {:induction false} NewBatchPasses(o: Offer, destinations: map<string, Path>, device: Option<string>, now: int)
    requires Deliverable(o, destinations) && SafeInteger(now)
    ensures AssertBatch(NewBatch(DraftOf(o, destinations, device), now))
  {
    var b := NewBatch(DraftOf(o, destinations, device), now);
    forall i | 0 <= i < |b.files|
      ensures ProgressOk(b.files[i]) && IsTiming(b.files[i].timing.value)
      ensures b.files[i].fileId == Read(o.files[i]).fileId
    {
      assert b.files[i].size == Read(o.files[i]).size;
    }
  }

  /** A draft made of an offer is stored as the offer is. */
  lemma {:induction false} DraftIsStored(o: Offer, destinations: map<string, Path>, device: Option<string>, now: int)
    requires forall i :: 0 <= i < |o.files| ==> Read(o.files[i]).fileId in destinations
    ensures StoredOffer(NewBatch(DraftOf(o, destinations, device), now), o, destinations, device, now)
  {
    var d := DraftOf(o, destinations, device);
    NewBatchIsStored(d, now);
    forall i | 0 <= i < |o.files|
      ensures StoredFile(NewBatch(d, now).files[i], Read(o.files[i]), destinations)
    {
      assert d.files[i].fileId == Read(o.files[i]).fileId;
    }
  }

  /**
   A new offer is stored at the end of the queue, each file under its
   destination, and agrees with itself from then on, so `h` above can be the
   point it was first accepted.
   */
  lemma {:induction false} NewBatchAgrees(q: seq<Batch>, o: Offer, destinations: map<string, Path>, device: Option<string>,
                       less: Order, now: int)
    requires Deliverable(o, destinations) && FindBatch(q, o.transferId) == |q| && SafeInteger(now)
    ensures var r := AcceptOffer(q, o, destinations, device, less, now);
            && r.Ok? && |r.value| == |q| + 1 && r.value[..|q|] == q
            && StoredOffer(r.value[|q|], o, destinations, device, now)
            && (Agrees(r.value[|q|], o) <==> forall i :: 0 <= i < |o.files| ==> WrittenAsOffered(o.files[i]))
  {
    NewBatchPasses(o, destinations, device, now);
    DraftIsStored(o, destinations, device, now);
    BareOfNewBatch(o, destinations, device, now);
  }

  /** An offer is accepted exactly when it is one, every file of it has somewhere to go, and it agrees with the batch of its id if there is one. */
  lemma {:induction false} AcceptedExactly(q: seq<Batch>, o: Offer, destinations: map<string, Path>, device: Option<string>,
                                           less: Order, now: int)
    requires TotalOrder(less) && SafeInteger(now)
    requires forall i :: 0 <= i < |q| ==> DistinctIds(q[i].files)
    ensures AcceptOffer(q, o, destinations, device, less, now).Ok? <==>
              Deliverable(o, destinations) && (FindBatch(q, o.transferId) < |q| ==> Agrees(q[FindBatch(q, o.transferId)], o))
  {
    if Deliverable(o, destinations) {
      if FindBatch(q, o.transferId) < |q| {
        RepeatedOffer(q, o, destinations, device, less, now);
      } else {
        NewBatchAgrees(q, o, destinations, device, less, now);
      }
    }
  }

  lemma {:induction false} BareOfNewBatch(o: Offer, destinations: map<string, Path>, device: Option<string>, now: int)
    requires Deliverable(o, destinations)
    ensures Bare(NewBatch(DraftOf(o, destinations, device), now).files) == BareObjects(o.files)
  {
    var b := NewBatch(DraftOf(o, destinations, device), now);
    forall i | 0 <= i < |o.files|
      ensures Bare(b.files)[i] == BareObjects(o.files)[i]
    {
      assert b.files[i].fileId == Read(o.files[i]).fileId;
    }
  }

  /** A digest deferred in the offer and learnt since makes the very same offer conflict. */
  lemma {:induction false} LearntDigestConflicts(b: Batch, o: Offer, j: nat, k: nat)
    requires DistinctIds(b.files) && j < |b.files| && k < |o.files|
    requires Read(o.files[k]).fileId == b.files[j].fileId
    requires Read(o.files[k]).sha256 == Placeholder && b.files[j].sha256 != Placeholder
    ensures !Agrees(b, o)
  {
    var f := BareObjects(o.files)[k];
    forall i | 0 <= i < |b.files|
      ensures Bare(b.files)[i] != f
    {
      assert i != j ==> b.files[i].fileId != b.files[j].fileId;
    }
    assert f !in Bare(b.files);
  }
}
