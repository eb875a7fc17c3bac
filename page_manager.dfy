/** The page manager: the page file (the asset container) is read into one
    buffer whose first three little-endian words are the chunk count, the
    first sprite page and the first sound page, followed at byte 6 by one
    32-bit offset per chunk (offset 0: the chunk is sparse). Pages are
    handed out as positions into that buffer. */
module PageManager {
  import opened Base

  /** Size of one page; the buffer carries this many zero bytes after the file. */
  const PMPageSize: nat := 4096

  /** Byte position of the chunk offset table inside the buffer. */
  const OffsetTableStart: nat := 6

  datatype PmError =
    | OpenPageFileOpen     // PML_OPENPAGEFILE_OPEN: the file does not open
    | ReadFromFileRead     // PML_READFROMFILE_READ: fewer bytes read than the file length
    | GetPageBadPage       // PM_GETPAGE_BAD_PAGE: page number not below the chunk count
    | GetPageSparsePage    // PM_GETPAGE_SPARSE_PAGE: the chunk's offset is 0
    | OffsetTableOverrun   // the chunk's offset entry lies beyond the buffer

  /** What opening and reading the page file yields. */
  datatype PageFileImage =
    | Missing                                 // open returns -1
    | Truncated(handle: nat, length: nat)     // read returns fewer bytes than the file holds
    | Whole(handle: nat, bytes: seq<Byte>)    // the whole file was read

  /** The module variables of the page manager, as one value. */
  datatype PmState = PmState(
    pageFile: int,
    chunksInFile: Uint16,
    spriteStart: Uint16,
    soundStart: Uint16,
    rawData: Option<seq<Byte>>,
    chunksOffsets: Option<nat>)

  /** The state after shutdown (and before the first startup). */
  const ShutDown: PmState := PmState(-1, 0, 0, 0, None, None)

  /** The buffer the file is read into: the file followed by one page of zeros. */
  function PadBuffer(bytes: seq<Byte>): (buf: seq<Byte>)
    ensures |buf| == |bytes| + PMPageSize
    ensures buf[..|bytes|] == bytes
    ensures forall i :: |bytes| <= i < |buf| ==> buf[i] == 0
  {
    bytes + seq(PMPageSize, _ => 0)
  }

  /** The state after the file `bytes` was opened as `handle` and read whole. */
  function Opened(handle: nat, bytes: seq<Byte>): PmState
  {
    var buf := PadBuffer(bytes);
    PmState(handle, Le16(buf, 0), Le16(buf, 2), Le16(buf, 4), Some(buf), Some(OffsetTableStart))
  }

  /** The invariant the page manager keeps: the handle is -1 or an open file;
      either no buffer and all counters zero, or a buffer whose header the
      counters were read from. */
  predicate Consistent(s: PmState)
  {
    && s.pageFile >= -1
    && (s.rawData.None? <==> s.chunksOffsets.None?)
    && (s.rawData.None? ==> s.chunksInFile == 0 && s.spriteStart == 0 && s.soundStart == 0)
    && (s.rawData.Some? ==>
          && |s.rawData.value| >= PMPageSize
          && s.chunksOffsets == Some(OffsetTableStart)
          && s.chunksInFile == Le16(s.rawData.value, 0)
          && s.spriteStart == Le16(s.rawData.value, 2)
          && s.soundStart == Le16(s.rawData.value, 4))
  }

  /** PM_GetPage: the position of page `n` in the buffer. */
  function GetPage(s: PmState, n: int): (r: Result<nat, PmError>)
    requires Consistent(s) && n >= 0
    ensures r == Err(GetPageBadPage) <==> n >= s.chunksInFile
    ensures r.Ok? <==>
              && n < s.chunksInFile
              && OffsetTableStart + 4 * n + 4 <= |s.rawData.value|
              && Le32(s.rawData.value, OffsetTableStart + 4 * n) != 0
    ensures r.Ok? ==> r.value == Le32(s.rawData.value, OffsetTableStart + 4 * n)
    ensures r == Err(GetPageSparsePage) <==>
              && n < s.chunksInFile
              && OffsetTableStart + 4 * n + 4 <= |s.rawData.value|
              && Le32(s.rawData.value, OffsetTableStart + 4 * n) == 0
  {
    if n >= s.chunksInFile then
      Err(GetPageBadPage)
    else
      var buf := s.rawData.value;
      var at := s.chunksOffsets.value + 4 * n;
      if at + 4 > |buf| then
        Err(OffsetTableOverrun)
      else
        var offset := Le32(buf, at);
        if offset == 0 then Err(GetPageSparsePage) else Ok(offset)
  }

  /** PM_GetSoundPage: sound pages are numbered from the first sound page. */
  function GetSoundPage(s: PmState, n: int): (r: Result<nat, PmError>)
    requires Consistent(s) && s.soundStart + n >= 0
    ensures r == GetPage(s, s.soundStart + n)
  {
    GetPage(s, s.soundStart + n)
  }

  /** PM_GetSpritePage: sprite pages are numbered from the first sprite page. */
  function GetSpritePage(s: PmState, n: int): (r: Result<nat, PmError>)
    requires Consistent(s) && s.spriteStart + n >= 0
    ensures r == GetPage(s, s.spriteStart + n)
  {
    GetPage(s, s.spriteStart + n)
  }

  /** After shutdown every page request is out of range. */
  lemma ShutDownRejectsEveryPage(n: nat)
    ensures Consistent(ShutDown) && GetPage(ShutDown, n) == Err(GetPageBadPage)
  {
  }

  // ---------------------------------------------------------------------
  // The file format, written out: an encoder for page files, and the proof
  // that opening an encoded file serves exactly the encoded pages.

  /** The offset table: one little-endian 32-bit word per chunk. */
  function EncodeOffsets(offsets: seq<Uint32>): (r: seq<Byte>)
    ensures |r| == 4 * |offsets|
  {
    if offsets == [] then [] else Encode32(offsets[0]) + EncodeOffsets(offsets[1..])
  }

  /** A page file with the given header, offset table and payload. */
  function EncodePageFile(offsets: seq<Uint32>, spriteStart: Uint16, soundStart: Uint16,
                          payload: seq<Byte>): (r: seq<Byte>)
    requires |offsets| < 0x1_0000
    ensures |r| == OffsetTableStart + 4 * |offsets| + |payload|
  {
    Encode16(|offsets|) + Encode16(spriteStart) + Encode16(soundStart) + EncodeOffsets(offsets) + payload
  }

  /** Entry `n` of an encoded offset table is the `n`th offset. */
  lemma {:induction false} EncodeOffsetsAt(offsets: seq<Uint32>, n: nat)
    requires n < |offsets|
    ensures EncodeOffsets(offsets)[4 * n..4 * n + 4] == Encode32(offsets[n])
  {
    var e := EncodeOffsets(offsets);
    assert e == Encode32(offsets[0]) + EncodeOffsets(offsets[1..]);
    if n > 0 {
      EncodeOffsetsAt(offsets[1..], n - 1);
      assert e[4 * n..4 * n + 4] == EncodeOffsets(offsets[1..])[4 * (n - 1)..4 * (n - 1) + 4];
    }
  }

  /** Opening an encoded page file reads back its header, and every page
      lookup gives the encoded offset, or the error the offset calls for. */
  lemma PageFileRoundTrip(handle: nat, offsets: seq<Uint32>, spriteStart: Uint16, soundStart: Uint16,
                          payload: seq<Byte>, n: nat)
    requires |offsets| < 0x1_0000
    ensures var s := Opened(handle, EncodePageFile(offsets, spriteStart, soundStart, payload));
      && Consistent(s)
      && s.chunksInFile == |offsets|
      && s.spriteStart == spriteStart
      && s.soundStart == soundStart
      && GetPage(s, n) == (if n >= |offsets| then Err(GetPageBadPage)
                           else if offsets[n] == 0 then Err(GetPageSparsePage)
                           else Ok(offsets[n]))
  {
    var file := EncodePageFile(offsets, spriteStart, soundStart, payload);
    var buf := PadBuffer(file);
    var table := EncodeOffsets(offsets);
    assert file == Encode16(|offsets|) + Encode16(spriteStart) + Encode16(soundStart) + table + payload;
    assert buf[..|file|] == file;
    Le16Within(buf, 0, Encode16(|offsets|));
    Le16Within(buf, 2, Encode16(spriteStart));
    Le16Within(buf, 4, Encode16(soundStart));
    if n < |offsets| {
      EncodeOffsetsAt(offsets, n);
      assert buf[OffsetTableStart + 4 * n..OffsetTableStart + 4 * n + 4] == table[4 * n..4 * n + 4];
      Le32Within(buf, OffsetTableStart + 4 * n, Encode32(offsets[n]));
    }
  }

  /** The page manager's module variables. */
  class PageStore {
    var pageFile: int
    var chunksInFile: Uint16
    var spriteStart: Uint16
    var soundStart: Uint16
    var rawData: Option<seq<Byte>>
    var chunksOffsets: Option<nat>
    /** The file handles closed so far, in order. */
    ghost var closedHandles: seq<int>

    function State(): PmState
      reads this
    {
      PmState(pageFile, chunksInFile, spriteStart, soundStart, rawData, chunksOffsets)
    }

    ghost predicate Valid()
      reads this
    {
      Consistent(State())
    }

    /** The static initial values: no file, no buffer, counters 0. */
    constructor ()
      ensures Valid() && State() == ShutDown && closedHandles == []
    {
      pageFile := -1;
      chunksInFile, spriteStart, soundStart := 0, 0, 0;
      rawData, chunksOffsets := None, None;
      closedHandles := [];
    }

    /** PM_Shutdown: closes the file if it is open and resets everything. */
    method Shutdown()
      requires Valid()
      modifies this
      ensures Valid() && State() == ShutDown
      ensures closedHandles == old(closedHandles) + (if old(pageFile) >= 0 then [old(pageFile)] else [])
      ensures forall n: nat :: GetPage(State(), n) == Err(GetPageBadPage)
    {
      if pageFile >= 0 {
        closedHandles := closedHandles + [pageFile];
        pageFile := -1;
      }
      chunksInFile, spriteStart, soundStart := 0, 0, 0;
      rawData := None;
      chunksOffsets := None;
    }

    /** open_page_file: opens and reads the whole file and parses the header. */
    method OpenPageFile(image: PageFileImage) returns (r: Outcome<PmError>)
      requires Valid() && State() == ShutDown
      modifies this
      ensures Valid() && closedHandles == old(closedHandles)
      ensures image.Missing? ==> r == Fail(OpenPageFileOpen) && State() == ShutDown
      ensures image.Truncated? ==> r == Fail(ReadFromFileRead) && State() == ShutDown.(pageFile := image.handle)
      ensures image.Whole? ==> r == Pass && State() == Opened(image.handle, image.bytes)
    {
      match image
      case Missing =>
        pageFile := -1;
        return Fail(OpenPageFileOpen);
      case Truncated(handle, _) =>
        pageFile := handle;
        return Fail(ReadFromFileRead);
      case Whole(handle, bytes) =>
        pageFile := handle;
        var buf := PadBuffer(bytes);
        rawData := Some(buf);
        chunksInFile := Le16(buf, 0);
        spriteStart := Le16(buf, 2);
        soundStart := Le16(buf, 4);
        chunksOffsets := Some(OffsetTableStart);
        return Pass;
    }

    /** PM_Startup: a full shutdown, then the file is opened afresh. */
    method Startup(image: PageFileImage) returns (r: Outcome<PmError>)
      requires Valid()
      modifies this
      ensures Valid()
      ensures closedHandles == old(closedHandles) + (if old(pageFile) >= 0 then [old(pageFile)] else [])
      ensures image.Missing? ==> r == Fail(OpenPageFileOpen) && State() == ShutDown
      ensures image.Truncated? ==> r == Fail(ReadFromFileRead) && State() == ShutDown.(pageFile := image.handle)
      ensures image.Whole? ==> r == Pass && State() == Opened(image.handle, image.bytes)
    {
      Shutdown();
      r := OpenPageFile(image);
    }
  }
}
