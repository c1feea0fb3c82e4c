/** The ZIP records both parsers read (PKWARE APPNOTE.TXT sections 4.3.7, 4.3.12 and 4.3.16). */
module ZipFormat {
  import opened Prelude

  const END_SIGNATURE := 0x06054b50
  const HEADER_SIGNATURE := 0x02014b50
  const LOCAL_SIGNATURE := 0x04034b50

  const END_SIZE := 22
  const HEADER_SIZE := 46
  const LOCAL_SIZE := 30
  const SEARCH_WINDOW := 22 + 65535
  const MAX_ENTRIES := 20000
  const MAX_ARCHIVE_SIZE := 150 * 1024 * 1024
  const MAX_PATH_LENGTH := 512

  // ---------- End of central directory record ----------

  datatype EndRecord = EndRecord(
    offset: nat, disk: nat, directoryDisk: nat, entriesThisDisk: nat,
    totalEntries: nat, directorySize: nat, directoryOffset: nat)

  /** A signature whose comment length reaches exactly the end of the file. */
  predicate IsEndRecord(b: seq<byte>, i: int) {
    0 <= i && i + END_SIZE <= |b| && U32(b, i) == END_SIGNATURE && i + END_SIZE + U16(b, i + 20) == |b|
  }

  function EndRecordAt(b: seq<byte>, i: nat): EndRecord
    requires i + END_SIZE <= |b|
  {
    EndRecord(i, U16(b, i + 4), U16(b, i + 6), U16(b, i + 8), U16(b, i + 10), U32(b, i + 12), U32(b, i + 16))
  }

  /** The last self-consistent end record at or before `i`. */
  function LastEndRecord(b: seq<byte>, i: int): Option<nat>
    decreases i + 1
  {
    if i < 0 then None
    else if IsEndRecord(b, i) then Some(i)
    else LastEndRecord(b, i - 1)
  }

  /** The search finds a record exactly when there is one, and then the last one. */
  lemma {:induction false} LastEndRecordIsLast(b: seq<byte>, i: int)
    ensures LastEndRecord(b, i).None? <==> forall j :: 0 <= j <= i ==> !IsEndRecord(b, j)
    ensures LastEndRecord(b, i).Some? ==>
      var e := LastEndRecord(b, i).value;
      e <= i && IsEndRecord(b, e) && forall j :: e < j <= i ==> !IsEndRecord(b, j)
    decreases i + 1
  {
    hide IsEndRecord;
    if i >= 0 && !IsEndRecord(b, i) {
      LastEndRecordIsLast(b, i - 1);
    }
  }

  /** A comment is at most 65535 bytes long, so the bounded search window loses no record. */
  lemma NothingBeforeWindow(b: seq<byte>, i: int)
    requires i < |b| - SEARCH_WINDOW
    ensures LastEndRecord(b, i).None?
  {
    LastEndRecordIsLast(b, i);
  }

  function EndOf(b: seq<byte>): Option<nat> {
    LastEndRecord(b, |b| - END_SIZE)
  }

  lemma EndOfIsLast(b: seq<byte>, e: nat)
    ensures EndOf(b) == Some(e) <==> IsEndRecord(b, e) && forall j :: e < j ==> !IsEndRecord(b, j)
  {
    hide U16, U32;
    LastEndRecordIsLast(b, |b| - END_SIZE);
    if EndOf(b).Some? {
      var d := EndOf(b).value;
      assert forall j :: d < j ==> !IsEndRecord(b, j) by {
        forall j | d < j ensures !IsEndRecord(b, j) {}
      }
      if IsEndRecord(b, e) && e != d {
        assert e < d;
      }
    }
  }

  // ---------- Central directory ----------

  datatype Header = Header(
    flags: nat, compression: nat, crc32: nat, compressedSize: nat,
    uncompressedSize: nat, rawName: seq<byte>, localOffset: nat)
  {
    /** A size field that sends the reader to a ZIP64 extra field. */
    predicate HasZip64Size() {
      compressedSize == 0xffff_ffff || uncompressedSize == 0xffff_ffff
    }
  }

  function NameLength(b: seq<byte>, o: nat): nat
    requires o + HEADER_SIZE <= |b|
  {
    U16(b, o + 28)
  }

  function HeaderLength(b: seq<byte>, o: nat): (n: nat)
    requires o + HEADER_SIZE <= |b|
    ensures n >= HEADER_SIZE + NameLength(b, o)
  {
    HEADER_SIZE + NameLength(b, o) + U16(b, o + 30) + U16(b, o + 32)
  }

  function HeaderAt(b: seq<byte>, o: nat): Header
    requires o + HEADER_SIZE <= |b| && o + HEADER_SIZE + NameLength(b, o) <= |b|
  {
    Header(U16(b, o + 8), U16(b, o + 10), U32(b, o + 16), U32(b, o + 20), U32(b, o + 24),
      b[o + HEADER_SIZE..o + HEADER_SIZE + NameLength(b, o)], U32(b, o + 42))
  }

  /** A complete header record inside `[o, end)`. */
  predicate HeaderFits(b: seq<byte>, o: nat, end: nat)
    requires end <= |b|
  {
    Fits(o, HEADER_SIZE, end) && U32(b, o) == HEADER_SIGNATURE && Fits(o, HeaderLength(b, o), end)
  }

  datatype Walked = Walked(offset: nat, headers: seq<Header>)

  /** `k` consecutive header records from `start`, none reaching past `end`. */
  function Walk(b: seq<byte>, start: nat, end: nat, k: nat): (w: Option<Walked>)
    requires start <= end <= |b|
    ensures w.Some? ==> start <= w.value.offset <= end && |w.value.headers| == k
  {
    if k == 0 then Some(Walked(start, []))
    else
      match Walk(b, start, end, k - 1)
      case None => None
      case Some(w) =>
        if HeaderFits(b, w.offset, end)
        then Some(Walked(w.offset + HeaderLength(b, w.offset), w.headers + [HeaderAt(b, w.offset)]))
        else None
  }

  lemma {:induction false} WalkStops(b: seq<byte>, start: nat, end: nat, k: nat, n: nat)
    requires start <= end <= |b| && k <= n && Walk(b, start, end, k).None?
    ensures Walk(b, start, end, n).None?
  {
    hide HeaderFits, HeaderAt, HeaderLength;
    if k < n {
      WalkStops(b, start, end, k, n - 1);
    }
  }

  lemma {:induction false} WalkPrefix(b: seq<byte>, start: nat, end: nat, k: nat, n: nat)
    requires start <= end <= |b| && k <= n && Walk(b, start, end, n).Some?
    ensures Walk(b, start, end, k).Some?
    ensures Walk(b, start, end, k).value.headers == Walk(b, start, end, n).value.headers[..k]
    ensures Walk(b, start, end, k).value.offset <= Walk(b, start, end, n).value.offset
  {
    hide HeaderFits, HeaderAt, HeaderLength;
    if k < n {
      WalkPrefix(b, start, end, k, n - 1);
    }
  }

  // ---------- Names and descriptors shared by both modules ----------

  const DOT: CodeUnit := '.' as int
  const SLASH: CodeUnit := '/' as int
  const BACKSLASH: CodeUnit := '\\' as int
  const COLON: CodeUnit := ':' as int

  predicate IsSeparator(c: CodeUnit) {
    c == SLASH || c == BACKSLASH
  }

  predicate IsBidiControl(c: CodeUnit) {
    c == 0x200e || c == 0x200f || 0x202a <= c <= 0x202e || 0x2066 <= c <= 0x2069
  }

  predicate IsLetter(c: CodeUnit) {
    'A' as int <= c <= 'Z' as int || 'a' as int <= c <= 'z' as int
  }

  predicate HasDrive(path: JsString) {
    |path| >= 3 && IsLetter(path[0]) && path[1] == COLON && IsSeparator(path[2])
  }

  datatype TargetKind = Unspecified | Plugin | Script

  datatype Target = Target(
    kind: TargetKind, path: JsString, localOffset: int, compressedSize: int,
    uncompressedSize: int, crc32: int, compression: int)

  const ASI: JsString := ['.' as int, 'a' as int, 's' as int, 'i' as int]
  const DLL: JsString := ['.' as int, 'd' as int, 'l' as int, 'l' as int]
  const LUA: JsString := ['.' as int, 'l' as int, 'u' as int, 'a' as int]
  const CS: JsString := ['.' as int, 'c' as int, 's' as int]

  predicate IsPluginName(lower: JsString) {
    EndsWith(lower, ASI) || EndsWith(lower, DLL)
  }

  predicate IsScriptName(lower: JsString) {
    EndsWith(lower, LUA) || EndsWith(lower, CS)
  }
}
