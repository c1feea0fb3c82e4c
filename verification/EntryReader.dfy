/** archive-entry-reader.js: independent validation of a whole archive and extraction of one entry. */
module EntryReader {
  import opened Prelude
  import opened ZipFormat
  import opened Crc32

  // ---------- What the reader takes from its platform ----------

  datatype StreamEvent = Chunk(data: seq<byte>) | StreamError

  /** `TextDecoder` in fatal mode, `toLowerCase`, and what `DecompressionStream` delivers, all left open. */
  datatype Platform = Platform(
    strict: seq<byte> -> Option<JsString>,
    lower: JsString -> JsString,
    canInflate: bool,
    inflate: seq<byte> -> seq<StreamEvent>)

  datatype ErrorCode =
    | InvalidInput | EmptyArchive | ArchiveTooLarge | MalformedArchive | UnsupportedFormat
    | UnsupportedCompression | BrowserUnsupported | TargetNotFound | DuplicateTargetEntry
    | EncryptedEntry | DataDescriptorUsed | CrcMismatch | Timeout | PathRejected
    | SizeLimitExceeded | LfhCdMismatch | OutputLimitExceeded

  datatype Outcome<+T> = Ok(value: T) | Err(code: ErrorCode)

  const MAX_COMPRESSED := 32 * 1024 * 1024
  const MAX_UNCOMPRESSED := 48 * 1024 * 1024
  const MAX_OUTPUT := 48 * 1024 * 1024

  // ---------- End record ----------

  datatype Directory = Directory(endOffset: nat, offset: nat, size: nat, entries: nat)

  predicate NeedsZip64(e: EndRecord) {
    e.totalEntries == 0xffff || e.entriesThisDisk == 0xffff ||
    e.directorySize == 0xffff_ffff || e.directoryOffset == 0xffff_ffff
  }

  predicate SpansDisks(e: EndRecord) {
    e.disk != 0 || e.directoryDisk != 0 || e.entriesThisDisk != e.totalEntries
  }

  /** What the reader makes of the last end record of `b`. */
  function DirectoryOf(b: seq<byte>): (r: Outcome<Directory>)
    ensures r.Ok? ==> r.value.offset + r.value.size <= r.value.endOffset < |b|
  {
    match EndOf(b)
    case None => Err(MalformedArchive)
    case Some(i) =>
      LastEndRecordIsLast(b, |b| - END_SIZE);
      var e := EndRecordAt(b, i);
      if NeedsZip64(e) || SpansDisks(e) then Err(UnsupportedFormat)
      else if e.totalEntries > MAX_ENTRIES || e.directoryOffset + e.directorySize > i then Err(MalformedArchive)
      else Ok(Directory(i, e.directoryOffset, e.directorySize, e.totalEntries))
  }

  method FindAndValidateEocd(b: seq<byte>) returns (r: Outcome<Directory>)
    ensures r == DirectoryOf(b)
  {
    hide U16, U32;
    var total := |b|;
    if total < END_SIZE {
      return Err(MalformedArchive);
    }
    var searchStart := if total - SEARCH_WINDOW > 0 then total - SEARCH_WINDOW else 0;
    var eocd := -1;
    var i := total - END_SIZE;
    while i >= searchStart
      invariant searchStart - 1 <= i <= total - END_SIZE
      invariant EndOf(b) == LastEndRecord(b, i)
    {
      if Fits(i, 4, total) && U32(b, i) == 0x06054b50 {
        var commentLength := U16(b, i + 20);
        if i + 22 + commentLength == total {
          eocd := i;
          break;
        }
      }
      i := i - 1;
    }
    if eocd == -1 {
      if i >= 0 {
        NothingBeforeWindow(b, i);
      }
      return Err(MalformedArchive);
    }
    var disk, directoryDisk := U16(b, eocd + 4), U16(b, eocd + 6);
    var entriesThisDisk, totalEntries := U16(b, eocd + 8), U16(b, eocd + 10);
    var cdSize, cdOffset := U32(b, eocd + 12), U32(b, eocd + 16);
    if totalEntries == 0xffff || entriesThisDisk == 0xffff || cdSize == 0xffff_ffff || cdOffset == 0xffff_ffff {
      return Err(UnsupportedFormat);
    }
    if disk != 0 || directoryDisk != 0 || entriesThisDisk != totalEntries {
      return Err(UnsupportedFormat);
    }
    if totalEntries > 20000 {
      return Err(MalformedArchive);
    }
    if !Fits(cdOffset, cdSize, total) {
      return Err(MalformedArchive);
    }
    if cdOffset + cdSize > eocd {
      return Err(MalformedArchive);
    }
    return Ok(Directory(eocd, cdOffset, cdSize, totalEntries));
  }

  // ---------- Path policy ----------

  /** `path.split(/[\\/]/)`, from a segment collected so far. */
  function Segments(collected: JsString, path: JsString): (r: seq<JsString>)
    ensures |r| >= 1
    decreases |path|
  {
    if path == [] then [collected]
    else if IsSeparator(path[0]) then [collected] + Segments([], path[1..])
    else Segments(collected + [path[0]], path[1..])
  }

  /** `validatePathSecurity` reports no issue. */
  predicate PathAllowed(path: JsString) {
    && 0 < |path| <= MAX_PATH_LENGTH
    && 0 !in path
    && (forall i :: 0 <= i < |path| ==> !IsBidiControl(path[i]))
    && !HasDrive(path)
    && !IsSeparator(path[0])
    && var segments := Segments([], path);
       && (forall i :: 0 <= i < |segments| ==> segments[i] != [DOT] && segments[i] != [DOT, DOT])
       && (forall i :: 0 <= i < |segments| - 1 ==> segments[i] != [])
  }

  /** `path[i..j]` stands between two neighbouring separators, or between one and an end of the path. */
  predicate SegmentAt(path: JsString, i: nat, j: nat) {
    && i <= j <= |path| && (i == 0 || IsSeparator(path[i - 1])) && (j == |path| || IsSeparator(path[j]))
    && forall c :: c in path[i..j] ==> !IsSeparator(c)
  }

  /** A relative path without drive letter, control characters, doubled separators or dot segments, by position. */
  ghost predicate PlainPath(path: JsString) {
    && 0 < |path| <= MAX_PATH_LENGTH
    && (forall c :: c in path ==> c != 0 && !IsBidiControl(c))
    && !(|path| >= 3 && IsLetter(path[0]) && path[1] == ':' as int && IsSeparator(path[2]))
    && (forall i :: 0 <= i < |path| && IsSeparator(path[i]) ==> i > 0 && !IsSeparator(path[i - 1]))
    && (forall i: nat, j: nat :: SegmentAt(path, i, j) ==> path[i..j] != ['.' as int] && path[i..j] != ['.' as int, '.' as int])
  }

  function FirstSeparator(path: JsString): (n: nat)
    ensures n <= |path| && (n < |path| ==> IsSeparator(path[n])) && forall k :: 0 <= k < n ==> !IsSeparator(path[k])
  {
    if path == [] || IsSeparator(path[0]) then 0 else 1 + FirstSeparator(path[1..])
  }

  lemma {:induction false} FirstSegment(collected: JsString, path: JsString)
    ensures var n := FirstSeparator(path);
      Segments(collected, path) == [collected + path[..n]] + if n == |path| then [] else Segments([], path[n + 1..])
    decreases |path|
  {
    if path == [] || IsSeparator(path[0]) {
      assert collected + path[..0] == collected;
    } else {
      var n := FirstSeparator(path[1..]);
      FirstSegment(collected + [path[0]], path[1..]);
      assert collected + path[..n + 1] == collected + [path[0]] + path[1..][..n];
      assert path[1..][n..] == path[n + 1..];
      if n < |path[1..]| {
        assert path[1..][n + 1..] == path[n + 1 + 1..];
      }
    }
  }

  /** Behind the first separator the segments are those of the rest. */
  lemma SegmentShifts(path: JsString, n: nat, i: nat, j: nat)
    requires n < |path| && IsSeparator(path[n])
    ensures SegmentAt(path[n + 1..], i, j) <==> SegmentAt(path, n + 1 + i, n + 1 + j)
    ensures SegmentAt(path[n + 1..], i, j) ==> path[n + 1..][i..j] == path[n + 1 + i..n + 1 + j]
  {
    var rest, from, to := path[n + 1..], n + 1 + i, n + 1 + j;
    if i <= j <= |rest| {
      assert rest[i..j] == path[from..to];
      assert i > 0 ==> rest[i - 1] == path[from - 1];
      assert j < |rest| ==> rest[j] == path[to];
      hide IsSeparator;
    }
  }

  /** A segment starts in front of the first separator only at 0, and then it ends there. */
  lemma SegmentStarts(path: JsString, i: nat, j: nat)
    requires SegmentAt(path, i, j)
    ensures var n := FirstSeparator(path); (i == 0 && j == n) || (n < i && n < |path|)
  {
    assert forall k :: i <= k < j ==> path[k] == path[i..j][k - i];
  }

  lemma {:induction false} SegmentIsListed(path: JsString, i: nat, j: nat)
    requires SegmentAt(path, i, j)
    ensures path[i..j] in Segments([], path)
    decreases |path|
  {
    var n := FirstSeparator(path);
    FirstSegment([], path);
    SegmentStarts(path, i, j);
    if i == 0 {
      assert Segments([], path)[0] == [] + path[..n] == path[i..j];
    } else {
      var from, to := i - n - 1, j - n - 1;
      SegmentShifts(path, n, from, to);
      hide SegmentAt;
      SegmentIsListed(path[n + 1..], from, to);
    }
  }

  lemma {:induction false} ListedIsSegment(path: JsString, segment: JsString) returns (i: nat, j: nat)
    requires segment in Segments([], path)
    ensures SegmentAt(path, i, j) && path[i..j] == segment
    decreases |path|
  {
    var n := FirstSeparator(path);
    FirstSegment([], path);
    assert [] + path[..n] == path[..n] == path[0..n];
    assert SegmentAt(path, 0, n);
    hide SegmentAt;
    if segment == path[..n] {
      i, j := 0, n;
    } else {
      i, j := ListedIsSegment(path[n + 1..], segment);
      SegmentShifts(path, n, i, j);
      i, j := n + 1 + i, n + 1 + j;
    }
  }

  /** No segment but the last is empty exactly when no separator starts the path or follows another. */
  lemma {:induction false} EmptySegments(path: JsString)
    ensures (forall i :: 0 <= i < |Segments([], path)| - 1 ==> Segments([], path)[i] != [])
      <==> forall i :: 0 <= i < |path| && IsSeparator(path[i]) ==> i > 0 && !IsSeparator(path[i - 1])
    decreases |path|
  {
    var n, all := FirstSeparator(path), Segments([], path);
    FirstSegment([], path);
    assert [] + path[..n] == path[..n];
    if n < |path| {
      var rest := path[n + 1..];
      var more := Segments([], rest);
      EmptySegments(rest);
      assert all == [path[..n]] + more;
      assert forall i :: 0 <= i < |more| ==> all[i + 1] == more[i];
      assert (forall i :: 0 <= i < |all| - 1 ==> all[i] != []) <==> n > 0 && forall i :: 0 <= i < |more| - 1 ==> more[i] != [] by {
        if forall i :: 0 <= i < |all| - 1 ==> all[i] != [] {
          forall i | 0 <= i < |more| - 1
            ensures more[i] != []
          {
            assert all[i + 1] != [];
          }
          assert all[0] != [];
        }
      }
      SeparatorsShift(path, n);
    }
  }

  lemma SeparatorsShift(path: JsString, n: nat)
    requires n < |path| && n == FirstSeparator(path)
    ensures var rest := path[n + 1..];
      (forall i :: 0 <= i < |path| && IsSeparator(path[i]) ==> i > 0 && !IsSeparator(path[i - 1]))
        <==> n > 0 && (forall i :: 0 <= i < |rest| && IsSeparator(rest[i]) ==> i > 0 && !IsSeparator(rest[i - 1]))
  {
    var rest := path[n + 1..];
    assert forall i :: 0 <= i < |rest| ==> rest[i] == path[n + 1 + i];
    if forall i :: 0 <= i < |path| && IsSeparator(path[i]) ==> i > 0 && !IsSeparator(path[i - 1]) {
      forall i | 0 <= i < |rest| && IsSeparator(rest[i])
        ensures i > 0 && !IsSeparator(rest[i - 1])
      {
        assert IsSeparator(path[n + 1 + i]);
      }
    }
    if n > 0 && forall i :: 0 <= i < |rest| && IsSeparator(rest[i]) ==> i > 0 && !IsSeparator(rest[i - 1]) {
      forall i | 0 <= i < |path| && IsSeparator(path[i])
        ensures i > 0 && !IsSeparator(path[i - 1])
      {
        if i > n {
          assert rest[i - n - 1] == path[i];
        }
      }
    }
  }

  lemma DotSegments(path: JsString)
    ensures [DOT] !in Segments([], path) && [DOT, DOT] !in Segments([], path)
      <==> forall i: nat, j: nat :: SegmentAt(path, i, j) ==> path[i..j] != [DOT] && path[i..j] != [DOT, DOT]
  {
    if segment :| segment in Segments([], path) && (segment == [DOT] || segment == [DOT, DOT]) {
      var i, j := ListedIsSegment(path, segment);
    }
    forall i: nat, j: nat | SegmentAt(path, i, j)
      ensures path[i..j] in Segments([], path)
    {
      SegmentIsListed(path, i, j);
    }
  }

  /** Splitting the path and looking at its segments comes to the conditions on its positions. */
  lemma PathAllowedIff(path: JsString)
    ensures PathAllowed(path) <==> PlainPath(path)
  {
    DotSegments(path);
    EmptySegments(path);
    hide Segments;
    var segments := Segments([], path);
    assert (forall i :: 0 <= i < |segments| ==> segments[i] != [DOT] && segments[i] != [DOT, DOT])
      <==> [DOT] !in segments && [DOT, DOT] !in segments;
    assert (forall c :: c in path ==> c != 0 && !IsBidiControl(c))
      <==> 0 !in path && forall i :: 0 <= i < |path| ==> !IsBidiControl(path[i]);
  }

  // ---------- Target descriptor ----------

  predicate ValidTarget(p: Platform, t: Target) {
    var lower := p.lower(t.path);
    && 0 < |t.path| <= MAX_PATH_LENGTH
    && (IsPluginName(lower) || IsScriptName(lower))
    && (t.kind == Plugin ==> IsPluginName(lower))
    && (t.kind == Script ==> IsScriptName(lower))
    && t.localOffset >= 0 && t.compressedSize >= 0 && t.uncompressedSize >= 0 && t.crc32 >= 0
    && (t.compression == 0 || t.compression == 8)
  }

  // ---------- Directory scan ----------

  datatype Entry = Entry(name: JsString, header: Header)

  /** The first policy rule a header breaks. */
  function EntryPolicy(p: Platform, h: Header): Option<ErrorCode> {
    match p.strict(h.rawName)
    case None => Some(MalformedArchive)
    case Some(name) =>
      if !PathAllowed(name) then Some(PathRejected)
      else if HasBit(h.flags, 1) then Some(EncryptedEntry)
      else if HasBit(h.flags, 8) then Some(DataDescriptorUsed)
      else if h.compression != 0 && h.compression != 8 then Some(UnsupportedCompression)
      else if h.HasZip64Size() then Some(UnsupportedFormat)
      else None
  }

  /** The header of an entry the reader takes: a permitted name, no encryption, no data descriptor, a method and sizes it knows. */
  predicate CleanHeader(p: Platform, h: Header) {
    && p.strict(h.rawName).Some? && PathAllowed(p.strict(h.rawName).value)
    && h.flags % 2 == 0 && h.flags / 8 % 2 == 0
    && (h.compression == 0 || h.compression == 8)
    && h.compressedSize != 0xffff_ffff && h.uncompressedSize != 0xffff_ffff
  }

  /** The rule behind `code` is broken by the header, and no rule that is checked before it. */
  predicate Breaks(p: Platform, h: Header, code: ErrorCode) {
    var name := p.strict(h.rawName);
    match code
    case MalformedArchive => name.None?
    case PathRejected => name.Some? && !PathAllowed(name.value)
    case EncryptedEntry => name.Some? && PathAllowed(name.value) && h.flags % 2 == 1
    case DataDescriptorUsed => name.Some? && PathAllowed(name.value) && h.flags % 2 == 0 && h.flags / 8 % 2 == 1
    case UnsupportedCompression => CleanHeader(p, h.(compression := 0, compressedSize := 0, uncompressedSize := 0)) && h.compression !in {0, 8}
    case UnsupportedFormat =>
      && CleanHeader(p, h.(compressedSize := 0, uncompressedSize := 0))
      && (h.compressedSize == 0xffff_ffff || h.uncompressedSize == 0xffff_ffff)
    case _ => false
  }

  lemma PolicyIff(p: Platform, h: Header)
    ensures EntryPolicy(p, h).None? <==> CleanHeader(p, h)
    ensures forall code :: EntryPolicy(p, h) == Some(code) <==> Breaks(p, h, code)
  {
    hide PathAllowed;
  }

  /** The rule broken first in directory order. */
  function FirstPolicy(p: Platform, hs: seq<Header>): Option<ErrorCode> {
    if hs == [] then None
    else
      var before := FirstPolicy(p, hs[..|hs| - 1]);
      if before.Some? then before else EntryPolicy(p, hs[|hs| - 1])
  }

  predicate Matches(p: Platform, h: Header, t: Target) {
    && p.strict(h.rawName) == Some(t.path)
    && h.localOffset == t.localOffset
    && h.compressedSize == t.compressedSize
    && h.uncompressedSize == t.uncompressedSize
    && h.crc32 == t.crc32
    && h.compression == t.compression
  }

  function Matching(p: Platform, hs: seq<Header>, t: Target): (r: seq<Header>)
    ensures |r| <= |hs|
  {
    if hs == [] then []
    else Matching(p, hs[..|hs| - 1], t) + if Matches(p, hs[|hs| - 1], t) then [hs[|hs| - 1]] else []
  }

  /** The directory as a list of headers, when they tile the declared range exactly. */
  function DirectoryHeaders(b: seq<byte>, d: Directory): (r: Option<seq<Header>>)
    requires d.offset + d.size <= |b|
    ensures r.Some? ==> |r.value| == d.entries
  {
    match Walk(b, d.offset, d.offset + d.size, d.entries)
    case None => None
    case Some(w) => if w.offset == d.offset + d.size then Some(w.headers) else None
  }

  /** The result of a scan that is not cut short by the clock. */
  function ScanResult(p: Platform, b: seq<byte>, d: Directory, t: Target): Outcome<Entry>
    requires d.offset + d.size <= |b|
  {
    match DirectoryHeaders(b, d)
    case None => Err(MalformedArchive)
    case Some(hs) =>
      var found := Matching(p, hs, t);
      if FirstPolicy(p, hs).Some? then Err(FirstPolicy(p, hs).value)
      else if |found| == 0 then Err(TargetNotFound)
      else if |found| > 1 then Err(DuplicateTargetEntry)
      else Ok(Entry(t.path, found[0]))
  }

  /** The clock is read before every 64th header; it stops the scan at one that is reached. */
  ghost predicate ScanTimesOut(b: seq<byte>, d: Directory, late: nat -> bool)
    requires d.offset + d.size <= |b|
  {
    exists i: nat :: i < d.entries && i % 64 == 0 && late(i) && Walk(b, d.offset, d.offset + d.size, i).Some?
  }

  /** The policy checks of one iteration: the first failure found so far is kept. */
  method ApplyPolicy(p: Platform, h: Header, before: Option<ErrorCode>) returns (failure: Option<ErrorCode>)
    ensures failure == if before.Some? then before else EntryPolicy(p, h)
  {
    failure := before;
    match p.strict(h.rawName)
    case None =>
      if failure.None? { failure := Some(MalformedArchive); }
    case Some(name) =>
      if !PathAllowed(name) && failure.None? { failure := Some(PathRejected); }
      if HasBit(h.flags, 1) && failure.None? { failure := Some(EncryptedEntry); }
      if HasBit(h.flags, 8) && failure.None? { failure := Some(DataDescriptorUsed); }
      if h.compression != 0 && h.compression != 8 && failure.None? { failure := Some(UnsupportedCompression); }
      if h.HasZip64Size() && failure.None? { failure := Some(UnsupportedFormat); }
  }

  datatype ScanState = ScanState(offset: nat, policy: Option<ErrorCode>, count: nat, matched: Option<Entry>)

  /** The loop variables after `i` headers. */
  ghost predicate Scanned(p: Platform, b: seq<byte>, d: Directory, t: Target, i: nat, hs: seq<Header>, s: ScanState)
    requires d.offset + d.size <= |b|
  {
    && Walk(b, d.offset, d.offset + d.size, i) == Some(Walked(s.offset, hs))
    && s.policy == FirstPolicy(p, hs)
    && s.count == |Matching(p, hs, t)|
    && s.matched == if s.count > 0 then Some(Entry(t.path, Matching(p, hs, t)[0])) else None
  }

  lemma ScanStart(p: Platform, b: seq<byte>, d: Directory, t: Target)
    requires d.offset + d.size <= |b|
    ensures Scanned(p, b, d, t, 0, [], ScanState(d.offset, None, 0, None))
  {
  }

  lemma ScanStep(p: Platform, b: seq<byte>, d: Directory, t: Target, i: nat, hs: seq<Header>, s: ScanState)
    requires d.offset + d.size <= |b|
    requires Scanned(p, b, d, t, i, hs, s) && HeaderFits(b, s.offset, d.offset + d.size)
    ensures var h := HeaderAt(b, s.offset);
      var matches := Matches(p, h, t);
      Scanned(p, b, d, t, i + 1, hs + [h], ScanState(
        s.offset + HeaderLength(b, s.offset),
        if s.policy.Some? then s.policy else EntryPolicy(p, h),
        if matches then s.count + 1 else s.count,
        if matches && s.matched.None? then Some(Entry(t.path, h)) else s.matched))
  {
    hide U16, U32, HeaderLength, HeaderAt, EntryPolicy, Matches;
    assert (hs + [HeaderAt(b, s.offset)])[..|hs|] == hs;
  }

  method ScanCentralDirectory(p: Platform, b: seq<byte>, d: Directory, t: Target, late: nat -> bool)
    returns (r: Outcome<Entry>)
    requires d.offset + d.size <= |b|
    ensures r == if ScanTimesOut(b, d, late) then Err(Timeout) else ScanResult(p, b, d, t)
  {
    hide U16, U32, HeaderLength, HeaderAt, EntryPolicy, FirstPolicy, Matching;
    var cdEnd := d.offset + d.size;
    var offset: nat := d.offset;
    var matchCount := 0;
    var matchedEntry: Option<Entry> := None;
    var policyFailure: Option<ErrorCode> := None;
    ghost var headers: seq<Header> := [];
    ScanStart(p, b, d, t);
    for i := 0 to d.entries
      invariant Scanned(p, b, d, t, i, headers, ScanState(offset, policyFailure, matchCount, matchedEntry))
      invariant forall j: nat :: j < i && j % 64 == 0 ==> !late(j)
    {
      if i % 64 == 0 && late(i) {
        assert Walk(b, d.offset, cdEnd, i).Some?;
        return Err(Timeout);
      }
      if !Fits(offset, 46, cdEnd) || U32(b, offset) != 0x02014b50 || !Fits(offset, HeaderLength(b, offset), cdEnd) {
        StructuralFailure(b, d, late, i);
        return Err(MalformedArchive);
      }
      ScanStep(p, b, d, t, i, headers, ScanState(offset, policyFailure, matchCount, matchedEntry));
      var h := HeaderAt(b, offset);
      policyFailure := ApplyPolicy(p, h, policyFailure);
      if Matches(p, h, t) {
        matchCount := matchCount + 1;
        if matchedEntry.None? { matchedEntry := Some(Entry(p.strict(h.rawName).value, h)); }
      }
      offset := offset + HeaderLength(b, offset);
      headers := headers + [h];
    }
    if offset != cdEnd {
      return Err(MalformedArchive);
    }
    if policyFailure.Some? {
      return Err(policyFailure.value);
    }
    if matchCount == 0 {
      return Err(TargetNotFound);
    }
    if matchCount > 1 {
      return Err(DuplicateTargetEntry);
    }
    return Ok(matchedEntry.value);
  }

  lemma StructuralFailure(b: seq<byte>, d: Directory, late: nat -> bool, i: nat)
    requires d.offset + d.size <= |b| && i < d.entries
    requires Walk(b, d.offset, d.offset + d.size, i + 1).None?
    requires forall j: nat :: j <= i && j % 64 == 0 ==> !late(j)
    ensures DirectoryHeaders(b, d).None? && !ScanTimesOut(b, d, late)
  {
    hide Walk;
    WalkStops(b, d.offset, d.offset + d.size, i + 1, d.entries);
    if ScanTimesOut(b, d, late) {
      var k: nat :| k < d.entries && k % 64 == 0 && late(k) && Walk(b, d.offset, d.offset + d.size, k).Some?;
      WalkStops(b, d.offset, d.offset + d.size, i + 1, k);
      assert false;
    }
  }

  // ---------- Soundness and completeness of the scan ----------

  lemma {:induction false} FirstPolicyIsFirst(p: Platform, hs: seq<Header>)
    ensures FirstPolicy(p, hs).None? <==> forall i :: 0 <= i < |hs| ==> EntryPolicy(p, hs[i]).None?
    ensures FirstPolicy(p, hs).Some? ==>
      exists k :: 0 <= k < |hs| && EntryPolicy(p, hs[k]) == FirstPolicy(p, hs) &&
        forall i :: 0 <= i < k ==> EntryPolicy(p, hs[i]).None?
  {
    hide EntryPolicy;
    if hs != [] {
      var n := |hs| - 1;
      FirstPolicyIsFirst(p, hs[..n]);
      if FirstPolicy(p, hs[..n]).Some? {
        var k :| 0 <= k < n && EntryPolicy(p, hs[..n][k]) == FirstPolicy(p, hs[..n]) &&
          forall i :: 0 <= i < k ==> EntryPolicy(p, hs[..n][i]).None?;
        assert hs[..n][k] == hs[k];
        assert forall i :: 0 <= i < k ==> hs[..n][i] == hs[i];
      } else {
        assert forall i :: 0 <= i < n ==> hs[..n][i] == hs[i];
        assert EntryPolicy(p, hs[n]) == FirstPolicy(p, hs);
      }
    }
  }

  /** `k` is the only header that agrees with the descriptor. */
  ghost predicate OnlyMatch(p: Platform, hs: seq<Header>, t: Target, k: nat) {
    k < |hs| && Matches(p, hs[k], t) && forall i :: 0 <= i < |hs| && Matches(p, hs[i], t) ==> i == k
  }

  lemma {:induction false} MatchingNone(p: Platform, hs: seq<Header>, t: Target)
    ensures |Matching(p, hs, t)| == 0 <==> forall i :: 0 <= i < |hs| ==> !Matches(p, hs[i], t)
  {
    hide Matches;
    if hs != [] {
      var init := hs[..|hs| - 1];
      MatchingNone(p, init, t);
      assert forall i :: 0 <= i < |init| ==> init[i] == hs[i];
    }
  }

  lemma {:induction false} MatchingOnly(p: Platform, hs: seq<Header>, t: Target, k: nat)
    requires OnlyMatch(p, hs, t, k)
    ensures Matching(p, hs, t) == [hs[k]]
  {
    hide Matches;
    var init := hs[..|hs| - 1];
    if k == |hs| - 1 {
      assert forall i :: 0 <= i < |init| ==> !Matches(p, init[i], t);
      MatchingNone(p, init, t);
    } else {
      assert OnlyMatch(p, init, t, k);
      MatchingOnly(p, init, t, k);
    }
  }

  lemma {:induction false} MatchingUnique(p: Platform, hs: seq<Header>, t: Target) returns (k: nat)
    requires |Matching(p, hs, t)| == 1
    ensures OnlyMatch(p, hs, t, k)
  {
    hide Matches;
    var init := hs[..|hs| - 1];
    if Matches(p, hs[|hs| - 1], t) {
      MatchingNone(p, init, t);
      assert forall i :: 0 <= i < |init| ==> init[i] == hs[i];
      k := |hs| - 1;
    } else {
      k := MatchingUnique(p, init, t);
      assert init[k] == hs[k];
      forall i | 0 <= i < |hs| && Matches(p, hs[i], t) ensures i == k {
        assert i < |init| && init[i] == hs[i];
      }
    }
  }

  /**
   * The scan succeeds with `e` exactly when the declared number of headers tiles the directory with no gap,
   * no header breaks a policy rule, and `e` is the one header that agrees with the descriptor in six fields.
   */
  lemma ScanSoundAndComplete(p: Platform, b: seq<byte>, d: Directory, t: Target, e: Entry)
    requires d.offset + d.size <= |b|
    ensures ScanResult(p, b, d, t) == Ok(e) <==>
      && DirectoryHeaders(b, d).Some?
      && var hs := DirectoryHeaders(b, d).value;
         && (forall i :: 0 <= i < |hs| ==> CleanHeader(p, hs[i]))
         && exists k: nat :: OnlyMatch(p, hs, t, k) && e == Entry(t.path, hs[k])
  {
    hide EntryPolicy, Matches, CleanHeader, Breaks;
    if DirectoryHeaders(b, d).Some? {
      var hs := DirectoryHeaders(b, d).value;
      FirstPolicyIsFirst(p, hs);
      forall i | 0 <= i < |hs|
        ensures EntryPolicy(p, hs[i]).None? <==> CleanHeader(p, hs[i])
      {
        PolicyIff(p, hs[i]);
      }
      if |Matching(p, hs, t)| == 1 {
        var k := MatchingUnique(p, hs, t);
        MatchingOnly(p, hs, t, k);
      }
      forall k: nat | OnlyMatch(p, hs, t, k) ensures Matching(p, hs, t) == [hs[k]] {
        MatchingOnly(p, hs, t, k);
      }
    }
  }

  /** The first header that is not clean is the `k`-th, and it breaks the rule behind `code`. */
  ghost predicate FirstOffence(p: Platform, hs: seq<Header>, k: nat, code: ErrorCode) {
    k < |hs| && Breaks(p, hs[k], code) && forall i :: 0 <= i < k ==> CleanHeader(p, hs[i])
  }

  lemma FirstPolicyIff(p: Platform, hs: seq<Header>, code: ErrorCode)
    ensures FirstPolicy(p, hs).None? <==> forall i :: 0 <= i < |hs| ==> CleanHeader(p, hs[i])
    ensures FirstPolicy(p, hs) == Some(code) <==> exists k: nat :: FirstOffence(p, hs, k, code)
  {
    hide EntryPolicy, CleanHeader, Breaks, FirstPolicy;
    FirstPolicyIsFirst(p, hs);
    forall i | 0 <= i < |hs|
      ensures EntryPolicy(p, hs[i]).None? <==> CleanHeader(p, hs[i])
      ensures EntryPolicy(p, hs[i]) == Some(code) <==> Breaks(p, hs[i], code)
    {
      PolicyIff(p, hs[i]);
    }
    if FirstPolicy(p, hs) == Some(code) {
      var k :| 0 <= k < |hs| && EntryPolicy(p, hs[k]) == FirstPolicy(p, hs) &&
        forall i :: 0 <= i < k ==> EntryPolicy(p, hs[i]).None?;
      assert FirstOffence(p, hs, k, code);
    }
    if k: nat :| FirstOffence(p, hs, k, code) {
      var j :| 0 <= j < |hs| && EntryPolicy(p, hs[j]) == FirstPolicy(p, hs) &&
        forall i :: 0 <= i < j ==> EntryPolicy(p, hs[i]).None?;
      assert j == k;
    }
  }

  /** No two headers agree with the descriptor. */
  ghost predicate AtMostOneMatch(p: Platform, hs: seq<Header>, t: Target) {
    forall i, j :: 0 <= i < j < |hs| ==> !(Matches(p, hs[i], t) && Matches(p, hs[j], t))
  }

  lemma SeveralMatch(p: Platform, hs: seq<Header>, t: Target)
    ensures |Matching(p, hs, t)| > 1 <==> !AtMostOneMatch(p, hs, t)
  {
    hide Matches;
    MatchingNone(p, hs, t);
    if |Matching(p, hs, t)| == 1 {
      var k := MatchingUnique(p, hs, t);
      assert OnlyMatch(p, hs, t, k);
    } else if AtMostOneMatch(p, hs, t) && |Matching(p, hs, t)| > 1 {
      var k: nat :| k < |hs| && Matches(p, hs[k], t);
      assert OnlyMatch(p, hs, t, k);
      MatchingOnly(p, hs, t, k);
    }
  }

  /**
   * Every refusal of the scan has its own condition: a directory with gaps, the rule that the first offending header breaks,
   * no header for the descriptor, or more than one.
   */
  lemma ScanRefusesIff(p: Platform, b: seq<byte>, d: Directory, t: Target, code: ErrorCode)
    requires d.offset + d.size <= |b|
    ensures ScanResult(p, b, d, t) == Err(code) <==>
      if DirectoryHeaders(b, d).None? then code == MalformedArchive
      else
        var hs := DirectoryHeaders(b, d).value;
        || (exists k: nat :: FirstOffence(p, hs, k, code))
        || ((forall i :: 0 <= i < |hs| ==> CleanHeader(p, hs[i]))
            && match code
               case TargetNotFound => forall i :: 0 <= i < |hs| ==> !Matches(p, hs[i], t)
               case DuplicateTargetEntry => !AtMostOneMatch(p, hs, t)
               case _ => false)
  {
    hide EntryPolicy, CleanHeader, Breaks, FirstPolicy, FirstOffence, Matches, DirectoryHeaders;
    if DirectoryHeaders(b, d).Some? {
      var hs := DirectoryHeaders(b, d).value;
      FirstPolicyIff(p, hs, code);
      MatchingNone(p, hs, t);
      SeveralMatch(p, hs, t);
    }
  }

  // ---------- Local header ----------

  datatype LocalHeader = LocalHeader(
    flags: nat, compression: nat, crc32: nat, compressedSize: nat,
    uncompressedSize: nat, nameLength: nat, extraLength: nat)

  function LocalHeaderAt(b: seq<byte>, o: nat): LocalHeader
    requires o + LOCAL_SIZE <= |b|
  {
    LocalHeader(U16(b, o + 6), U16(b, o + 8), U32(b, o + 14), U32(b, o + 18), U32(b, o + 22),
      U16(b, o + 26), U16(b, o + 28))
  }

  /** The first local header check that fails, or the offset of the entry's data. */
  function LocateData(p: Platform, b: seq<byte>, e: Entry, cdOffset: nat): (r: Outcome<nat>)
    requires cdOffset <= |b|
    ensures r.Ok? ==> e.header.localOffset < r.value && r.value + e.header.compressedSize <= cdOffset
    ensures r.Ok? ==> e.header.uncompressedSize <= MAX_UNCOMPRESSED
  {
    var o, h := e.header.localOffset, e.header;
    if o >= cdOffset || !Fits(o, LOCAL_SIZE, |b|) || U32(b, o) != LOCAL_SIGNATURE then Err(MalformedArchive)
    else
      var l := LocalHeaderAt(b, o);
      var nameStart := o + LOCAL_SIZE;
      if !Fits(nameStart, l.nameLength, |b|) then Err(MalformedArchive)
      else
        var name := p.strict(b[nameStart..nameStart + l.nameLength]);
        var data := nameStart + l.nameLength + l.extraLength;
        if name.None? then Err(MalformedArchive)
        else if HasBit(l.flags, 8) then Err(DataDescriptorUsed)
        else if name.value != e.name || l.flags != h.flags || l.compression != h.compression || l.crc32 != h.crc32 ||
                l.compressedSize != h.compressedSize || l.uncompressedSize != h.uncompressedSize then
          Err(LfhCdMismatch)
        else if h.compressedSize > MAX_COMPRESSED || h.uncompressedSize > MAX_UNCOMPRESSED then Err(SizeLimitExceeded)
        else if !Fits(data, h.compressedSize, |b|) || data + h.compressedSize > cdOffset then Err(MalformedArchive)
        else Ok(data)
  }

  // ---------- Bounded decompression ----------

  /** The chunks before the first stream error. */
  function Delivered(events: seq<StreamEvent>): seq<byte> {
    if events == [] then []
    else
      match events[|events| - 1]
      case Chunk(data) => Delivered(events[..|events| - 1]) + data
      case StreamError => Delivered(events[..|events| - 1])
  }

  /** Where copying stops early: at a stream error, or at a chunk that no longer fits. */
  predicate Halts(events: seq<StreamEvent>, k: nat, capacity: nat)
    requires k < |events|
  {
    events[k].StreamError? || |Delivered(events[..k + 1])| > capacity
  }

  /** The first event that halts the copy. */
  function FirstHalt(events: seq<StreamEvent>, capacity: nat, from: nat): (k: nat)
    requires from <= |events|
    ensures from <= k <= |events|
    ensures forall i :: from <= i < k ==> !Halts(events, i, capacity)
    ensures k < |events| ==> Halts(events, k, capacity)
    decreases |events| - from
  {
    if from == |events| || Halts(events, from, capacity) then from
    else FirstHalt(events, capacity, from + 1)
  }

  /** The outcome of the copy when the clock does not interrupt it. */
  function InflateResult(events: seq<StreamEvent>, expectedSize: nat): Outcome<seq<byte>> {
    var capacity := if expectedSize < MAX_OUTPUT then expectedSize else MAX_OUTPUT;
    var k := FirstHalt(events, capacity, 0);
    if k < |events| then Err(if events[k].StreamError? then MalformedArchive else OutputLimitExceeded)
    else if |Delivered(events)| != expectedSize then Err(OutputLimitExceeded)
    else Ok(Delivered(events))
  }

  lemma {:induction false} DeliveredGrows(events: seq<StreamEvent>, k: nat)
    requires k <= |events|
    ensures |Delivered(events[..k])| <= |Delivered(events)|
    decreases |events| - k
  {
    if k < |events| {
      assert events[..k + 1][..k] == events[..k];
      DeliveredGrows(events, k + 1);
    } else {
      assert events[..k] == events;
    }
  }

  /** Output is accepted exactly when the stream is clean and delivers precisely the declared number of bytes. */
  lemma InflateAccepts(events: seq<StreamEvent>, expectedSize: nat)
    ensures InflateResult(events, expectedSize).Ok? <==>
      (forall i :: 0 <= i < |events| ==> events[i].Chunk?) && |Delivered(events)| == expectedSize <= MAX_OUTPUT
    ensures InflateResult(events, expectedSize).Ok? ==> InflateResult(events, expectedSize).value == Delivered(events)
  {
    hide Delivered;
    var capacity := if expectedSize < MAX_OUTPUT then expectedSize else MAX_OUTPUT;
    var k := FirstHalt(events, capacity, 0);
    if k < |events| {
      assert InflateResult(events, expectedSize).Err?;
      if events[k].Chunk? && |Delivered(events)| == expectedSize <= MAX_OUTPUT {
        DeliveredGrows(events, k + 1);
        assert false;
      }
    } else {
      forall i | 0 <= i < |events| ensures events[i].Chunk? {
        assert !Halts(events, i, capacity);
      }
      NothingDelivered(events);
      if |events| > 0 {
        assert !Halts(events, |events| - 1, capacity);
        assert events[..|events| - 1 + 1] == events;
      }
    }
  }

  lemma NothingDelivered(events: seq<StreamEvent>)
    ensures events == [] ==> Delivered(events) == []
  {
  }

  /** The clock is read before every event of the stream and its end, up to the event that halts the copy. */
  ghost predicate InflateTimesOut(events: seq<StreamEvent>, expectedSize: nat, late: nat -> bool) {
    exists k: nat :: k <= FirstHalt(events, if expectedSize < MAX_OUTPUT then expectedSize else MAX_OUTPUT, 0) && late(k)
  }

  method DecompressDeflateRawBounded(events: seq<StreamEvent>, expectedSize: nat, late: nat -> bool)
    returns (r: Outcome<seq<byte>>)
    ensures r == if InflateTimesOut(events, expectedSize, late) then Err(Timeout) else InflateResult(events, expectedSize)
  {
    var size := if expectedSize < MAX_OUTPUT then expectedSize else MAX_OUTPUT;
    var output := new byte[size];
    var written := 0;
    var k := 0;
    while true
      invariant k <= |events|
      invariant written == |Delivered(events[..k])| <= size
      invariant output[..written] == Delivered(events[..k])
      invariant FirstHalt(events, size, 0) == FirstHalt(events, size, k)
      invariant forall j: nat :: j < k ==> !late(j)
      decreases |events| - k
    {
      if late(k) {
        return Err(Timeout);
      }
      if k == |events| {
        break;
      }
      assert events[..k + 1][..k] == events[..k];
      if events[k].StreamError? {
        return Err(MalformedArchive);
      }
      var chunk := events[k].data;
      if written + |chunk| > output.Length {
        return Err(OutputLimitExceeded);
      }
      ghost var before := output[..written];
      forall i | 0 <= i < |chunk| {
        output[written + i] := chunk[i];
      }
      assert output[..written + |chunk|] == before + chunk;
      written := written + |chunk|;
      k := k + 1;
    }
    assert events[..k] == events;
    if written != expectedSize {
      return Err(OutputLimitExceeded);
    }
    return Ok(output[..written]);
  }

  // ---------- Extraction and the public entry point ----------

  /** The bytes behind a located entry, before the checksum. */
  function Extracted(p: Platform, b: seq<byte>, h: Header, data: nat): Outcome<seq<byte>>
    requires data + h.compressedSize <= |b|
  {
    var raw := b[data..data + h.compressedSize];
    if h.compression == 0 then
      if h.compressedSize != h.uncompressedSize then Err(LfhCdMismatch) else Ok(raw)
    else if !p.canInflate then Err(BrowserUnsupported)
    else InflateResult(p.inflate(raw), h.uncompressedSize)
  }

  function ExtractResult(p: Platform, b: seq<byte>, e: Entry, cdOffset: nat): Outcome<seq<byte>>
    requires cdOffset <= |b|
  {
    match LocateData(p, b, e, cdOffset)
    case Err(code) => Err(code)
    case Ok(data) =>
      match Extracted(p, b, e.header, data)
      case Err(code) => Err(code)
      case Ok(out) => if CrcNumber(out) != e.header.crc32 then Err(CrcMismatch) else Ok(out)
  }

  /** Only the inflater's copy reads the clock here. */
  ghost predicate ExtractTimesOut(p: Platform, b: seq<byte>, e: Entry, cdOffset: nat, late: nat -> bool)
    requires cdOffset <= |b|
  {
    var data := LocateData(p, b, e, cdOffset);
    && data.Ok? && e.header.compression != 0 && p.canInflate
    && InflateTimesOut(p.inflate(b[data.value..data.value + e.header.compressedSize]), e.header.uncompressedSize, late)
  }

  method ValidateLfhAndExtract(p: Platform, b: seq<byte>, e: Entry, cdOffset: nat, late: nat -> bool)
    returns (r: Outcome<seq<byte>>)
    requires cdOffset <= |b|
    ensures r == if ExtractTimesOut(p, b, e, cdOffset, late) then Err(Timeout) else ExtractResult(p, b, e, cdOffset)
  {
    hide U16, U32, LocateData, InflateResult, InflateTimesOut, CrcNumber, Entries;
    var located := LocateData(p, b, e, cdOffset);
    if located.Err? {
      return Err(located.code);
    }
    var h := e.header;
    var raw := b[located.value..located.value + h.compressedSize];
    var extracted;
    if h.compression == 0 {
      if h.compressedSize != h.uncompressedSize {
        return Err(LfhCdMismatch);
      }
      extracted := raw;
    } else {
      if !p.canInflate {
        return Err(BrowserUnsupported);
      }
      var result := DecompressDeflateRawBounded(p.inflate(raw), h.uncompressedSize, late);
      if result.Err? {
        return result;
      }
      extracted := result.value;
    }
    var table := BuildTable();
    var actual := ComputeCrc32(table, extracted);
    if actual != h.crc32 {
      return Err(CrcMismatch);
    }
    return Ok(extracted);
  }

  /** The outcome of `readEntry` when the clock does not interrupt it. */
  function ReadResult(p: Platform, declaredSize: int, input: Option<seq<byte>>, t: Target): Outcome<seq<byte>> {
    if declaredSize <= 0 then Err(EmptyArchive)
    else if declaredSize > MAX_ARCHIVE_SIZE then Err(ArchiveTooLarge)
    else if !ValidTarget(p, t) || input.None? then Err(InvalidInput)
    else if |input.value| == 0 then Err(EmptyArchive)
    else if |input.value| > MAX_ARCHIVE_SIZE then Err(ArchiveTooLarge)
    else
      match DirectoryOf(input.value)
      case Err(code) => Err(code)
      case Ok(d) =>
        match ScanResult(p, input.value, d, t)
        case Err(code) => Err(code)
        case Ok(e) => ExtractResult(p, input.value, e, d.offset)
  }

  /** The scan reaches a late clock reading, or finds its header and then the extraction does. */
  ghost predicate ReadTimesOut(p: Platform, declaredSize: int, input: Option<seq<byte>>, t: Target,
                               late: nat -> bool, lateChunk: nat -> bool)
  {
    && 0 < declaredSize <= MAX_ARCHIVE_SIZE && ValidTarget(p, t) && input.Some? && 0 < |input.value| <= MAX_ARCHIVE_SIZE
    && DirectoryOf(input.value).Ok?
    && var b, d := input.value, DirectoryOf(input.value).value;
       || ScanTimesOut(b, d, late)
       || (ScanResult(p, b, d, t).Ok? && ExtractTimesOut(p, b, ScanResult(p, b, d, t).value, d.offset, lateChunk))
  }

  lemma LateSomewhere(p: Platform, declaredSize: int, input: Option<seq<byte>>, t: Target,
                      late: nat -> bool, lateChunk: nat -> bool)
    requires ReadTimesOut(p, declaredSize, input, t, late, lateChunk)
    ensures exists k: nat :: late(k) || lateChunk(k)
  {
    hide DirectoryOf, ScanResult, ScanTimesOut, ExtractTimesOut;
    var b, d := input.value, DirectoryOf(input.value).value;
    if ScanTimesOut(b, d, late) {
      ScansLate(b, d, late);
      var k: nat :| late(k);
    } else {
      ExtractsLate(p, b, ScanResult(p, b, d, t).value, d.offset, lateChunk);
      var k: nat :| lateChunk(k);
    }
  }

  lemma ScansLate(b: seq<byte>, d: Directory, late: nat -> bool)
    requires d.offset + d.size <= |b| && ScanTimesOut(b, d, late)
    ensures exists k: nat :: late(k)
  {
    hide Walk;
  }

  lemma ExtractsLate(p: Platform, b: seq<byte>, e: Entry, cdOffset: nat, late: nat -> bool)
    requires cdOffset <= |b| && ExtractTimesOut(p, b, e, cdOffset, late)
    ensures exists k: nat :: late(k)
  {
    hide LocateData, InflateTimesOut;
    var data := LocateData(p, b, e, cdOffset).value;
    InflatesLate(p.inflate(b[data..data + e.header.compressedSize]), e.header.uncompressedSize, late);
  }

  lemma InflatesLate(events: seq<StreamEvent>, expectedSize: nat, late: nat -> bool)
    requires InflateTimesOut(events, expectedSize, late)
    ensures exists k: nat :: late(k)
  {
  }

  /** `input` is the loaded buffer, absent when loading it fails. */
  method ReadEntry(p: Platform, declaredSize: int, input: Option<seq<byte>>, t: Target,
                   late: nat -> bool, lateChunk: nat -> bool)
    returns (r: Outcome<seq<byte>>)
    ensures r == if ReadTimesOut(p, declaredSize, input, t, late, lateChunk) then Err(Timeout)
      else ReadResult(p, declaredSize, input, t)
  {
    if declaredSize <= 0 {
      return Err(EmptyArchive);
    }
    if declaredSize > MAX_ARCHIVE_SIZE {
      return Err(ArchiveTooLarge);
    }
    if !ValidTarget(p, t) {
      return Err(InvalidInput);
    }
    if input.None? {
      return Err(InvalidInput);
    }
    var b := input.value;
    if |b| == 0 {
      return Err(EmptyArchive);
    }
    if |b| > MAX_ARCHIVE_SIZE {
      return Err(ArchiveTooLarge);
    }
    var eocd := FindAndValidateEocd(b);
    if eocd.Err? {
      return Err(eocd.code);
    }
    var scan := ScanCentralDirectory(p, b, eocd.value, t, late);
    if scan.Err? {
      return Err(scan.code);
    }
    r := ValidateLfhAndExtract(p, b, scan.value, eocd.value.offset, lateChunk);
  }

  /** `out` is what the descriptor's data at `data` stands for, inside the bytes in front of the directory. */
  ghost predicate IsPayload(p: Platform, front: seq<byte>, t: Target, data: nat, out: seq<byte>) {
    && t.localOffset < data && 0 <= t.compressedSize && data + t.compressedSize <= |front|
    && (t.compression == 0 ==> out == front[data..data + t.compressedSize])
    && (t.compression == 8 ==> p.canInflate && out == Delivered(p.inflate(front[data..data + t.compressedSize])))
  }

  /** Every byte handed out carries the checksum and size of the descriptor, and lies in front of the directory. */
  lemma ReadIsVerified(p: Platform, declaredSize: int, input: Option<seq<byte>>, t: Target, out: seq<byte>)
    requires ReadResult(p, declaredSize, input, t) == Ok(out)
    ensures CrcNumber(out) == t.crc32 && |out| == t.uncompressedSize <= MAX_UNCOMPRESSED
    ensures input.Some? && DirectoryOf(input.value).Ok?
    ensures var b, d := input.value, DirectoryOf(input.value).value;
      && DirectoryHeaders(b, d).Some?
      && (forall i :: 0 <= i < |DirectoryHeaders(b, d).value| ==> CleanHeader(p, DirectoryHeaders(b, d).value[i]))
      && exists data: nat :: IsPayload(p, b[..d.offset], t, data, out)
  {
    hide U16, U32, EntryPolicy, CleanHeader, CrcNumber, LocateData, ScanResult, DirectoryOf, DirectoryHeaders;
    var b, d := input.value, DirectoryOf(input.value).value;
    var e := ScanResult(p, b, d, t).value;
    ScanSoundAndComplete(p, b, d, t, e);
    var data := LocateData(p, b, e, d.offset).value;
    if t.compression == 8 {
      InflateAccepts(p.inflate(b[data..data + t.compressedSize]), e.header.uncompressedSize);
    }
    assert b[..d.offset][data..data + t.compressedSize] == b[data..data + t.compressedSize];
    assert IsPayload(p, b[..d.offset], t, data, out);
  }
}
