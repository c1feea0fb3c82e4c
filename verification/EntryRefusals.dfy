/** Why the entry reader refuses an archive, a descriptor or an entry: every answer has its own condition on the bytes. */
module EntryRefusals {
  import opened Prelude
  import opened ZipFormat
  import opened Crc32
  import opened EntryReader

  // ---------- The descriptor ----------

  predicate EndsIn(lower: JsString, extension: string) {
    |lower| >= |extension| && lower[|lower| - |extension|..] == Text(extension)
  }

  /** What a descriptor must be. */
  predicate GoodTarget(p: Platform, t: Target) {
    var lower := p.lower(t.path);
    && 0 < |t.path| <= 512
    && (match t.kind
        case Plugin => EndsIn(lower, ".asi") || EndsIn(lower, ".dll")
        case Script => EndsIn(lower, ".lua") || EndsIn(lower, ".cs")
        case Unspecified => EndsIn(lower, ".asi") || EndsIn(lower, ".dll") || EndsIn(lower, ".lua") || EndsIn(lower, ".cs"))
    && t.localOffset >= 0 && t.compressedSize >= 0 && t.uncompressedSize >= 0 && t.crc32 >= 0
    && t.compression in {0, 8}
  }

  lemma ExtensionsAre()
    ensures ASI == Text(".asi") && DLL == Text(".dll") && LUA == Text(".lua") && CS == Text(".cs")
  {
  }

  lemma TargetIff(p: Platform, t: Target)
    ensures ValidTarget(p, t) <==> GoodTarget(p, t)
  {
    ExtensionsAre();
    hide Text;
  }

  // ---------- The end record ----------

  /** The end record asks for ZIP64 or for another disk. */
  predicate NeedsMore(e: EndRecord) {
    || e.totalEntries == 0xffff || e.entriesThisDisk == 0xffff
    || e.directorySize == 0xffff_ffff || e.directoryOffset == 0xffff_ffff
    || e.disk != 0 || e.directoryDisk != 0 || e.entriesThisDisk != e.totalEntries
  }

  /** The directory is taken from the last end record, when it is a plain one with at most 20000 entries in front of it. */
  lemma DirectoryIff(b: seq<byte>)
    ensures EndOf(b).Some? ==> EndOf(b).value + END_SIZE <= |b|
    ensures var at, r := EndOf(b), DirectoryOf(b);
      if at.None? then r == Err(MalformedArchive)
      else
        var e := EndRecordAt(b, at.value);
        var reaches := e.totalEntries <= 20000 && e.directoryOffset + e.directorySize <= at.value;
        && (r == Err(UnsupportedFormat) <==> NeedsMore(e))
        && (r == Err(MalformedArchive) <==> !NeedsMore(e) && !reaches)
        && (r == Ok(Directory(at.value, e.directoryOffset, e.directorySize, e.totalEntries)) <==> !NeedsMore(e) && reaches)
  {
    hide U16, U32;
    LastEndRecordIsLast(b, |b| - END_SIZE);
  }

  // ---------- The local header ----------

  /** A local header with a decodable name stands at the entry's offset, in front of the directory. */
  predicate HasLocalHeader(p: Platform, b: seq<byte>, e: Entry, cdOffset: nat) {
    var o := e.header.localOffset;
    && o < cdOffset && o + LOCAL_SIZE <= |b| && U32(b, o) == 0x04034b50
    && NameEnd(b, o) <= |b| && p.strict(b[o + LOCAL_SIZE..NameEnd(b, o)]).Some?
  }

  function NameEnd(b: seq<byte>, o: nat): (n: nat)
    requires o + LOCAL_SIZE <= |b|
    ensures n >= o + LOCAL_SIZE
  {
    o + LOCAL_SIZE + LocalHeaderAt(b, o).nameLength
  }

  /** It says what the directory says. */
  predicate SaysTheSame(p: Platform, b: seq<byte>, e: Entry, cdOffset: nat)
    requires HasLocalHeader(p, b, e, cdOffset)
  {
    var o, h := e.header.localOffset, e.header;
    var l := LocalHeaderAt(b, o);
    && p.strict(b[o + LOCAL_SIZE..NameEnd(b, o)]) == Some(e.name) && l.flags == h.flags && l.compression == h.compression
    && l.crc32 == h.crc32 && l.compressedSize == h.compressedSize && l.uncompressedSize == h.uncompressedSize
  }

  predicate WithinLimits(h: Header) {
    h.compressedSize <= 32 * 1024 * 1024 && h.uncompressedSize <= 48 * 1024 * 1024
  }

  /** Each answer of the local header's checks has its own condition, and they are made in this order. */
  lemma LocateIff(p: Platform, b: seq<byte>, e: Entry, cdOffset: nat)
    requires cdOffset <= |b|
    ensures var r := LocateData(p, b, e, cdOffset);
      if !HasLocalHeader(p, b, e, cdOffset) then r == Err(MalformedArchive)
      else if LocalHeaderAt(b, e.header.localOffset).flags / 8 % 2 == 1 then r == Err(DataDescriptorUsed)
      else if !SaysTheSame(p, b, e, cdOffset) then r == Err(LfhCdMismatch)
      else if !WithinLimits(e.header) then r == Err(SizeLimitExceeded)
      else
        var o := e.header.localOffset;
        var data := NameEnd(b, o) + LocalHeaderAt(b, o).extraLength;
        r == if data + e.header.compressedSize <= cdOffset then Ok(data) else Err(MalformedArchive)
  {
    hide U16, U32, LocalHeaderAt;
  }

  /** The stream has no error and delivers as many bytes as were declared. */
  predicate Delivers(events: seq<StreamEvent>, size: nat) {
    (forall i :: 0 <= i < |events| ==> events[i].Chunk?) && |Delivered(events)| == size
  }

  lemma InflatedIs(events: seq<StreamEvent>, size: nat)
    requires size <= MAX_OUTPUT
    ensures var r := InflateResult(events, size);
      if Delivers(events, size) then r == Ok(Delivered(events)) else r == Err(MalformedArchive) || r == Err(OutputLimitExceeded)
  {
    InflateAccepts(events, size);
    hide Delivered, FirstHalt;
  }

  /** Located data are taken as they are or inflated, with the right size or not at all; then the checksum decides. */
  lemma ExtractIff(p: Platform, b: seq<byte>, e: Entry, cdOffset: nat, data: nat)
    requires cdOffset <= |b| && LocateData(p, b, e, cdOffset) == Ok(data)
    ensures var raw, h, r := b[data..data + e.header.compressedSize], e.header, ExtractResult(p, b, e, cdOffset);
      if h.compression == 0 then
        r == if h.compressedSize != h.uncompressedSize then Err(LfhCdMismatch)
             else if CrcNumber(raw) != h.crc32 then Err(CrcMismatch) else Ok(raw)
      else if !p.canInflate then r == Err(BrowserUnsupported)
      else if !Delivers(p.inflate(raw), h.uncompressedSize) then r == Err(MalformedArchive) || r == Err(OutputLimitExceeded)
      else
        var out := Delivered(p.inflate(raw));
        r == if CrcNumber(out) != h.crc32 then Err(CrcMismatch) else Ok(out)
  {
    hide CrcNumber, LocateData, Delivered, Delivers, InflateResult;
    var raw := b[data..data + e.header.compressedSize];
    InflatedIs(p.inflate(raw), e.header.uncompressedSize);
  }

  // ---------- The whole read ----------

  /** What a read is refused for before the archive is looked into. */
  lemma EarlyRefusals(p: Platform, declaredSize: int, input: Option<seq<byte>>, t: Target)
    ensures var r := ReadResult(p, declaredSize, input, t);
      && (declaredSize <= 0 ==> r == Err(EmptyArchive))
      && (declaredSize > 150 * 1024 * 1024 ==> r == Err(ArchiveTooLarge))
      && (0 < declaredSize <= 150 * 1024 * 1024 ==>
           && (!GoodTarget(p, t) || input.None? ==> r == Err(InvalidInput))
           && (GoodTarget(p, t) && input.Some? && input.value == [] ==> r == Err(EmptyArchive))
           && (GoodTarget(p, t) && input.Some? && |input.value| > 150 * 1024 * 1024 ==> r == Err(ArchiveTooLarge)))
  {
    TargetIff(p, t);
    hide ValidTarget, GoodTarget, DirectoryOf, ScanResult, ExtractResult;
  }
}
