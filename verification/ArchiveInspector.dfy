/** archive-inspector.js: the metadata-only parser, and the classification of its entries. */
module ArchiveInspector {
  import opened Prelude
  import opened ZipFormat

  // ---------- What the inspector takes from its platform ----------

  datatype ModType = PluginMod | ScriptMod | AssetMod | MetadataMod | ArchiveMod | PackageMod | ExecutableMod | OtherMod

  datatype Detection = Detection(modType: ModType, suspiciousPackaging: bool, isGtaMod: bool)

  /** `TextDecoder` in replacement mode, `toLowerCase`, and the mod detector, absent when it throws. */
  datatype Tools = Tools(
    lossy: seq<byte> -> JsString,
    lower: JsString -> JsString,
    detect: (JsString, nat) -> Option<Detection>)

  // ---------- Parsing ----------

  datatype ParseError =
    | EocdNotFound | Zip64NotSupported | MultiDiskNotSupported | TooManyEntries
    | DirectoryOutOfBounds | DirectorySizeMismatch

  datatype Listed = Listed(
    name: JsString, compression: nat, crc32: nat, compressedSize: nat, uncompressedSize: nat, localOffset: nat)

  datatype Parsed = Rejected(error: ParseError) | Listing(entries: seq<Listed>, malformed: nat, declared: nat)

  method FindEndOfCentralDirectory(b: seq<byte>) returns (r: Option<nat>)
    ensures r == EndOf(b)
  {
    hide U16, U32;
    var total := |b|;
    if total < END_SIZE {
      return None;
    }
    var searchStart := if total - SEARCH_WINDOW > 0 then total - SEARCH_WINDOW else 0;
    var i := total - END_SIZE;
    while i >= searchStart
      invariant searchStart - 1 <= i <= total - END_SIZE
      invariant EndOf(b) == LastEndRecord(b, i)
    {
      if Fits(i, 4, total) && U32(b, i) == 0x06054b50 && i + 22 + U16(b, i + 20) == total {
        return Some(i);
      }
      i := i - 1;
    }
    if i >= 0 {
      NothingBeforeWindow(b, i);
    }
    return None;
  }

  /** A header record as this parser checks it: only its fixed part has to lie inside the directory. */
  predicate HeadFits(b: seq<byte>, o: nat, end: nat)
    requires end <= |b|
  {
    o + HEADER_SIZE <= end && U32(b, o) == HEADER_SIGNATURE
  }

  predicate Zip64At(b: seq<byte>, o: nat)
    requires o + HEADER_SIZE <= |b|
  {
    U32(b, o + 20) == 0xffff_ffff || U32(b, o + 24) == 0xffff_ffff
  }

  predicate NameInFile(b: seq<byte>, o: nat)
    requires o + HEADER_SIZE <= |b|
  {
    Fits(o + HEADER_SIZE, NameLength(b, o), |b|)
  }

  function ListedAt(tools: Tools, b: seq<byte>, o: nat): Listed
    requires o + HEADER_SIZE <= |b| && NameInFile(b, o)
  {
    Listed(tools.lossy(b[o + HEADER_SIZE..o + HEADER_SIZE + NameLength(b, o)]),
      U16(b, o + 10), U32(b, o + 16), U32(b, o + 20), U32(b, o + 24), U32(b, o + 42))
  }

  /** What a header adds to the list: nothing when it is counted as malformed. */
  function Kept(tools: Tools, b: seq<byte>, o: nat): (r: seq<Listed>)
    requires o + HEADER_SIZE <= |b|
    ensures |r| == if Zip64At(b, o) || !NameInFile(b, o) then 0 else 1
  {
    if Zip64At(b, o) || !NameInFile(b, o) then [] else [ListedAt(tools, b, o)]
  }

  datatype Progress = Progress(offset: nat, entries: seq<Listed>)

  /** Where the loop stands after `k` headers, or nothing when it broke off. */
  function LooseWalk(tools: Tools, b: seq<byte>, start: nat, end: nat, k: nat): (r: Option<Progress>)
    requires start <= end <= |b|
    ensures r.Some? ==> r.value.offset >= start && |r.value.entries| <= k
  {
    if k == 0 then Some(Progress(start, []))
    else
      match LooseWalk(tools, b, start, end, k - 1)
      case None => None
      case Some(w) =>
        if HeadFits(b, w.offset, end)
        then Some(Progress(w.offset + HeaderLength(b, w.offset), w.entries + Kept(tools, b, w.offset)))
        else None
  }

  /** Everything but the entry loop. */
  function ParseHead(b: seq<byte>): (r: Option<ParseError>)
    ensures r.None? ==>
      && EndOf(b).Some? && EndOf(b).value + END_SIZE <= |b|
      && var e := EndRecordAt(b, EndOf(b).value); e.directoryOffset + e.directorySize <= |b|
  {
    match EndOf(b)
    case None => Some(EocdNotFound)
    case Some(i) =>
      LastEndRecordIsLast(b, |b| - END_SIZE);
      var e := EndRecordAt(b, i);
      if e.totalEntries == 0xffff || e.directorySize == 0xffff_ffff || e.directoryOffset == 0xffff_ffff then
        Some(Zip64NotSupported)
      else if e.totalEntries != e.entriesThisDisk then Some(MultiDiskNotSupported)
      else if e.totalEntries > MAX_ENTRIES then Some(TooManyEntries)
      else if !Fits(e.directoryOffset, e.directorySize, |b|) then Some(DirectoryOutOfBounds)
      else None
  }

  function ParseResult(tools: Tools, b: seq<byte>): Parsed {
    match ParseHead(b)
    case Some(error) => Rejected(error)
    case None =>
      var e := EndRecordAt(b, EndOf(b).value);
      var start, end := e.directoryOffset, e.directoryOffset + e.directorySize;
      match LooseWalk(tools, b, start, end, e.totalEntries)
      case None => Rejected(DirectorySizeMismatch)
      case Some(w) =>
        if w.offset != end then Rejected(DirectorySizeMismatch)
        else Listing(w.entries, e.totalEntries - |w.entries|, e.totalEntries)
  }

  lemma {:induction false} LooseWalkStops(tools: Tools, b: seq<byte>, start: nat, end: nat, k: nat, n: nat)
    requires start <= end <= |b| && k <= n && LooseWalk(tools, b, start, end, k).None?
    ensures LooseWalk(tools, b, start, end, n).None?
  {
    hide HeadFits, HeaderLength;
    if k < n {
      LooseWalkStops(tools, b, start, end, k, n - 1);
    }
  }

  method ParseZipCentralDirectory(tools: Tools, b: seq<byte>) returns (r: Parsed)
    ensures r == ParseResult(tools, b)
  {
    hide U16, U32, HeaderLength, ListedAt;
    var total := |b|;
    var eocd := FindEndOfCentralDirectory(b);
    if eocd.None? {
      return Rejected(EocdNotFound);
    }
    LastEndRecordIsLast(b, |b| - END_SIZE);
    var at := eocd.value;
    var thisDisk, declared := U16(b, at + 8), U16(b, at + 10);
    var cdSize, cdOffset := U32(b, at + 12), U32(b, at + 16);
    if declared == 0xffff || cdSize == 0xffff_ffff || cdOffset == 0xffff_ffff {
      return Rejected(Zip64NotSupported);
    }
    if declared != thisDisk {
      return Rejected(MultiDiskNotSupported);
    }
    if declared > 20000 {
      return Rejected(TooManyEntries);
    }
    if !Fits(cdOffset, cdSize, total) {
      return Rejected(DirectoryOutOfBounds);
    }
    var entries: seq<Listed> := [];
    var malformed := 0;
    var offset: nat := cdOffset;
    var brokeEarly := false;
    var cdEnd := cdOffset + cdSize;
    var i := 0;
    while i < declared
      invariant i <= declared
      invariant LooseWalk(tools, b, cdOffset, cdEnd, i) == Some(Progress(offset, entries))
      invariant malformed + |entries| == i
      invariant !brokeEarly
    {
      if offset + 46 > cdEnd || !Fits(offset, 46, total) || U32(b, offset) != 0x02014b50 {
        malformed := malformed + 1;
        brokeEarly := true;
        LooseWalkStops(tools, b, cdOffset, cdEnd, i + 1, declared);
        break;
      }
      if Zip64At(b, offset) || !NameInFile(b, offset) {
        malformed := malformed + 1;
        assert entries + [] == entries;
      } else {
        entries := entries + [ListedAt(tools, b, offset)];
      }
      offset := offset + HeaderLength(b, offset);
      i := i + 1;
    }
    if offset != cdEnd || brokeEarly {
      return Rejected(DirectorySizeMismatch);
    }
    return Listing(entries, malformed, declared);
  }

  // ---------- Classification ----------

  /** A directory entry, which the classifier skips. */
  predicate IsDirectory(e: Listed) {
    EndsWith(e.name, [SLASH]) && e.uncompressedSize == 0
  }

  /** `analyzeSuspiciousPath` reports at least one issue. */
  predicate SuspiciousPath(path: JsString) {
    || |path| > MAX_PATH_LENGTH
    || (exists i :: 0 <= i < |path| && IsTraversalAt(path, i))
    || (path != [] && IsSeparator(path[0]))
    || HasDrive(path)
    || exists i :: 0 <= i < |path| && IsBidiControl(path[i])
  }

  /** A `..` segment starts at `i`. */
  predicate IsTraversalAt(path: JsString, i: int) {
    && 0 <= i && i + 2 <= |path| && path[i] == DOT && path[i + 1] == DOT
    && (i == 0 || IsSeparator(path[i - 1])) && (i + 2 == |path| || IsSeparator(path[i + 2]))
  }

  function ForwardSlashes(path: JsString): JsString {
    seq(|path|, i requires 0 <= i < |path| => if path[i] == BACKSLASH then SLASH else path[i])
  }

  function Normal(tools: Tools, e: Listed): JsString {
    ForwardSlashes(tools.lower(e.name))
  }

  function TypeOf(tools: Tools, e: Listed): ModType {
    match tools.detect(e.name, e.uncompressedSize)
    case None => OtherMod
    case Some(d) => d.modType
  }

  function Count<T>(f: T -> bool, s: seq<T>): (n: nat)
    ensures n <= |s|
  {
    if s == [] then 0 else Count(f, s[..|s| - 1]) + if f(s[|s| - 1]) then 1 else 0
  }

  function OfTypes(tools: Tools, types: set<ModType>): Listed -> bool {
    e => !IsDirectory(e) && TypeOf(tools, e) in types
  }

  function Suspicious(): Listed -> bool {
    e => !IsDirectory(e) && SuspiciousPath(e.name)
  }

  function DoublyNamed(tools: Tools): Listed -> bool {
    e => !IsDirectory(e) && tools.detect(e.name, e.uncompressedSize).Some? &&
         tools.detect(e.name, e.uncompressedSize).value.suspiciousPackaging
  }

  function Relevant(tools: Tools): Listed -> bool {
    e => !IsDirectory(e) && tools.detect(e.name, e.uncompressedSize).Some? &&
         tools.detect(e.name, e.uncompressedSize).value.isGtaMod
  }

  function Named(tools: Tools, path: JsString): Listed -> bool {
    e => !IsDirectory(e) && Normal(tools, e) == path
  }

  /** Entries whose normalized path already occurred. */
  function Duplicates(tools: Tools, s: seq<Listed>): nat {
    if s == [] then 0
    else
      var init, last := s[..|s| - 1], s[|s| - 1];
      Duplicates(tools, init) + if !IsDirectory(last) && Count(Named(tools, Normal(tools, last)), init) > 0 then 1 else 0
  }

  /** An entry the reader may be pointed at: right type, right extension, clean path, no namesake in the archive. */
  predicate Offered(tools: Tools, all: seq<Listed>, kind: TargetKind, e: Listed) {
    var lower := tools.lower(e.name);
    && !IsDirectory(e)
    && !EndsWith(lower, [SLASH])
    && (kind == Plugin ==> TypeOf(tools, e) == PluginMod && IsPluginName(lower))
    && (kind == Script ==> TypeOf(tools, e) == ScriptMod && IsScriptName(lower) && !DoublyNamed(tools)(e))
    && !SuspiciousPath(e.name)
    && Count(Named(tools, Normal(tools, e)), all) == 1
  }

  function TargetOf(kind: TargetKind, e: Listed): Target {
    Target(kind, e.name, e.localOffset, e.compressedSize, e.uncompressedSize, e.crc32, e.compression)
  }

  function Targets(tools: Tools, all: seq<Listed>, kind: TargetKind, s: seq<Listed>): (r: seq<Target>)
    ensures |r| <= |s|
  {
    if s == [] then []
    else
      Targets(tools, all, kind, s[..|s| - 1]) +
        if Offered(tools, all, kind, s[|s| - 1]) then [TargetOf(kind, s[|s| - 1])] else []
  }

  datatype Report = Report(
    plugins: nat, scripts: nat, assets: nat, nested: nat, executables: nat, unknown: nat,
    suspiciousPaths: nat, doubleExtensions: nat, duplicatePaths: nat, relevant: nat, timedOut: bool,
    pluginTargets: seq<Target>, scriptTargets: seq<Target>)

  /** What classifying the first `n` entries reports. */
  function Classification(tools: Tools, all: seq<Listed>, n: nat): Report
    requires n <= |all|
  {
    var s := all[..n];
    Report(
      Count(OfTypes(tools, {PluginMod}), s), Count(OfTypes(tools, {ScriptMod}), s),
      Count(OfTypes(tools, {AssetMod, MetadataMod}), s), Count(OfTypes(tools, {ArchiveMod, PackageMod}), s),
      Count(OfTypes(tools, {ExecutableMod}), s), Count(OfTypes(tools, {ExecutableMod, OtherMod}), s),
      Count(Suspicious(), s), Count(DoublyNamed(tools), s), Duplicates(tools, s), Count(Relevant(tools), s),
      n < |all|, Targets(tools, all, Plugin, s), Targets(tools, all, Script, s))
  }

  /** The clock is read before every 100th entry. */
  function StopAt(late: nat -> bool, from: nat, n: nat): (k: nat)
    requires from <= n
    ensures from <= k <= n
    decreases n - from
  {
    if from == n || (from % 100 == 0 && late(from)) then from else StopAt(late, from + 1, n)
  }

  lemma CountNext<T>(f: T -> bool, s: seq<T>, i: nat)
    requires i < |s|
    ensures Count(f, s[..i + 1]) == Count(f, s[..i]) + if f(s[i]) then 1 else 0
  {
    assert s[..i + 1][..i] == s[..i];
  }

  lemma {:induction false} CountPrefix<T>(f: T -> bool, s: seq<T>, i: nat)
    requires i <= |s|
    ensures Count(f, s[..i]) <= Count(f, s)
    decreases |s| - i
  {
    if i == |s| {
      assert s[..i] == s;
    } else {
      CountNext(f, s, i);
      CountPrefix(f, s, i + 1);
    }
  }

  /** A path table holds the number of files seen so far under each normalized path. */
  ghost predicate Tallies(tools: Tools, table: map<JsString, nat>, s: seq<Listed>) {
    forall path: JsString :: (if path in table then table[path] else 0) == Count(Named(tools, path), s)
  }

  function Tally(table: map<JsString, nat>, path: JsString): nat {
    if path in table then table[path] else 0
  }

  lemma TallyNext(tools: Tools, table: map<JsString, nat>, s: seq<Listed>, i: nat)
    requires i < |s| && Tallies(tools, table, s[..i])
    ensures IsDirectory(s[i]) ==> Tallies(tools, table, s[..i + 1])
    ensures !IsDirectory(s[i]) ==>
      var path := Normal(tools, s[i]);
      Tallies(tools, table[path := Tally(table, path) + 1], s[..i + 1])
  {
    forall path: JsString ensures Count(Named(tools, path), s[..i + 1]) ==
      Count(Named(tools, path), s[..i]) + if Named(tools, path)(s[i]) then 1 else 0
    {
      CountNext(Named(tools, path), s, i);
    }
  }

  method CountPaths(tools: Tools, entries: seq<Listed>) returns (total: map<JsString, nat>)
    ensures Tallies(tools, total, entries)
  {
    total := map[];
    for i := 0 to |entries|
      invariant Tallies(tools, total, entries[..i])
    {
      TallyNext(tools, total, entries, i);
      var e := entries[i];
      if !IsDirectory(e) {
        var path := Normal(tools, e);
        total := total[path := Tally(total, path) + 1];
      }
    }
    assert entries[..|entries|] == entries;
  }

  /** One entry changes each counter as its own definition says. */
  lemma ClassificationNext(tools: Tools, all: seq<Listed>, i: nat)
    requires i < |all|
    ensures var before, after, e := Classification(tools, all, i), Classification(tools, all, i + 1), all[i];
      var file, kind := !IsDirectory(e), TypeOf(tools, e);
      && after.plugins == before.plugins + (if file && kind == PluginMod then 1 else 0)
      && after.scripts == before.scripts + (if file && kind == ScriptMod then 1 else 0)
      && after.assets == before.assets + (if file && (kind == AssetMod || kind == MetadataMod) then 1 else 0)
      && after.nested == before.nested + (if file && (kind == ArchiveMod || kind == PackageMod) then 1 else 0)
      && after.executables == before.executables + (if file && kind == ExecutableMod then 1 else 0)
      && after.unknown == before.unknown + (if file && (kind == ExecutableMod || kind == OtherMod) then 1 else 0)
      && after.suspiciousPaths == before.suspiciousPaths + (if file && SuspiciousPath(e.name) then 1 else 0)
      && after.doubleExtensions == before.doubleExtensions + (if DoublyNamed(tools)(e) then 1 else 0)
      && after.relevant == before.relevant + (if Relevant(tools)(e) then 1 else 0)
      && after.duplicatePaths == before.duplicatePaths +
           (if file && Count(Named(tools, Normal(tools, e)), all[..i]) > 0 then 1 else 0)
      && after.pluginTargets == before.pluginTargets +
           (if Offered(tools, all, Plugin, e) then [TargetOf(Plugin, e)] else [])
      && after.scriptTargets == before.scriptTargets +
           (if Offered(tools, all, Script, e) then [TargetOf(Script, e)] else [])
      && after.timedOut == (i + 1 < |all|)
  {
    hide SuspiciousPath, Offered, Normal;
    assert all[..i + 1][..i] == all[..i];
    CountNext(OfTypes(tools, {PluginMod}), all, i);
    CountNext(OfTypes(tools, {ScriptMod}), all, i);
    CountNext(OfTypes(tools, {AssetMod, MetadataMod}), all, i);
    CountNext(OfTypes(tools, {ArchiveMod, PackageMod}), all, i);
    CountNext(OfTypes(tools, {ExecutableMod}), all, i);
    CountNext(OfTypes(tools, {ExecutableMod, OtherMod}), all, i);
    CountNext(Suspicious(), all, i);
    CountNext(DoublyNamed(tools), all, i);
    CountNext(Relevant(tools), all, i);
  }

  /** The switch over the detected type. */
  method CountType(before: Report, kind: ModType) returns (result: Report)
    ensures result == before.(
      plugins := before.plugins + (if kind == PluginMod then 1 else 0),
      scripts := before.scripts + (if kind == ScriptMod then 1 else 0),
      assets := before.assets + (if kind == AssetMod || kind == MetadataMod then 1 else 0),
      nested := before.nested + (if kind == ArchiveMod || kind == PackageMod then 1 else 0),
      executables := before.executables + (if kind == ExecutableMod then 1 else 0),
      unknown := before.unknown + (if kind == ExecutableMod || kind == OtherMod then 1 else 0))
  {
    result := before;
    match kind {
      case PluginMod => result := result.(plugins := result.plugins + 1);
      case ScriptMod => result := result.(scripts := result.scripts + 1);
      case AssetMod | MetadataMod => result := result.(assets := result.assets + 1);
      case ArchiveMod | PackageMod => result := result.(nested := result.nested + 1);
      case ExecutableMod =>
        result := result.(executables := result.executables + 1);
        result := result.(unknown := result.unknown + 1);
      case OtherMod => result := result.(unknown := result.unknown + 1);
    }
  }

  /** The two descriptor lists after one entry. */
  method OfferEntry(tools: Tools, before: Report, e: Listed, kind: ModType, doublyNamed: bool, unambiguous: bool)
    returns (result: Report)
    ensures var lower := tools.lower(e.name); result == before.(
      pluginTargets := before.pluginTargets +
        if kind == PluginMod && !EndsWith(lower, [SLASH]) && IsPluginName(lower) && unambiguous
        then [TargetOf(Plugin, e)] else [],
      scriptTargets := before.scriptTargets +
        if kind == ScriptMod && !EndsWith(lower, [SLASH]) && IsScriptName(lower) && !doublyNamed && unambiguous
        then [TargetOf(Script, e)] else [])
  {
    hide IsPluginName, IsScriptName;
    var lower := tools.lower(e.name);
    result := before;
    assert before.pluginTargets + [] == before.pluginTargets && before.scriptTargets + [] == before.scriptTargets;
    if kind == PluginMod && !EndsWith(lower, [SLASH]) && IsPluginName(lower) && unambiguous {
      result := result.(pluginTargets := result.pluginTargets + [TargetOf(Plugin, e)]);
    }
    if kind == ScriptMod && !EndsWith(lower, [SLASH]) && IsScriptName(lower) && !doublyNamed && unambiguous {
      result := result.(scriptTargets := result.scriptTargets + [TargetOf(Script, e)]);
    }
  }

  /** The body of the classification loop, for a file entry. */
  method ClassifyFile(tools: Tools, all: seq<Listed>, i: nat, total: map<JsString, nat>, seen: map<JsString, nat>,
                      before: Report) returns (result: Report, seenNow: map<JsString, nat>)
    requires i < |all| && !IsDirectory(all[i])
    requires Tallies(tools, total, all) && Tallies(tools, seen, all[..i]) && !before.timedOut
    requires before.(timedOut := true) == Classification(tools, all, i)
    ensures result.(timedOut := i + 1 < |all|) == Classification(tools, all, i + 1) && !result.timedOut
    ensures Tallies(tools, seenNow, all[..i + 1])
  {
    hide SuspiciousPath, IsPluginName, IsScriptName, Count, Classification, Normal, IsDirectory, EndsWith, TargetOf;
    var e := all[i];
    result := before;
    var suspicious := SuspiciousPath(e.name);
    if suspicious { result := result.(suspiciousPaths := result.suspiciousPaths + 1); }
    var path := Normal(tools, e);
    var prior := Tally(seen, path);
    var isDuplicate := prior > 0;
    if isDuplicate { result := result.(duplicatePaths := result.duplicatePaths + 1); }
    seenNow := seen[path := prior + 1];
    var detection := tools.detect(e.name, e.uncompressedSize);
    var kind := if detection.Some? then detection.value.modType else OtherMod;
    var doublyNamed := detection.Some? && detection.value.suspiciousPackaging;
    if doublyNamed { result := result.(doubleExtensions := result.doubleExtensions + 1); }
    if detection.Some? && detection.value.isGtaMod { result := result.(relevant := result.relevant + 1); }
    result := CountType(result, kind);
    var unambiguous := !suspicious && !isDuplicate && Tally(total, path) == 1;
    result := OfferEntry(tools, result, e, kind, doublyNamed, unambiguous);
    TallyNext(tools, seen, all, i);
    FirstOccurrence(tools, all, i);
    ClassificationNext(tools, all, i);
    assert unambiguous == (!SuspiciousPath(e.name) && Count(Named(tools, path), all) == 1);
  }

  method ClassifyEntries(tools: Tools, entries: seq<Listed>, late: nat -> bool) returns (r: Report)
    ensures r == Classification(tools, entries, StopAt(late, 0, |entries|))
  {
    hide Classification;
    var totalOccurrences := CountPaths(tools, entries);
    var seen: map<JsString, nat> := map[];
    var result := Report(0, 0, 0, 0, 0, 0, 0, 0, 0, 0, false, [], []);
    var i := 0;
    NothingClassified(tools, entries);
    while i < |entries|
      invariant i <= |entries| && StopAt(late, 0, |entries|) == StopAt(late, i, |entries|)
      invariant Tallies(tools, seen, entries[..i]) && !result.timedOut
      invariant result.(timedOut := i < |entries|) == Classification(tools, entries, i)
    {
      if i % 100 == 0 && late(i) {
        result := result.(timedOut := true);
        break;
      }
      if IsDirectory(entries[i]) {
        ClassificationNext(tools, entries, i);
        TallyNext(tools, seen, entries, i);
      } else {
        result, seen := ClassifyFile(tools, entries, i, totalOccurrences, seen, result);
      }
      i := i + 1;
    }
    return result;
  }

  lemma NothingClassified(tools: Tools, all: seq<Listed>)
    ensures Classification(tools, all, 0) == Report(0, 0, 0, 0, 0, 0, 0, 0, 0, 0, 0 < |all|, [], [])
    ensures Tallies(tools, map[], all[..0])
  {
  }

  /** A path that occurs once in the whole archive has not been seen before its own entry. */
  lemma FirstOccurrence(tools: Tools, all: seq<Listed>, i: nat)
    requires i < |all| && !IsDirectory(all[i])
    ensures Count(Named(tools, Normal(tools, all[i])), all) == 1 ==>
      Count(Named(tools, Normal(tools, all[i])), all[..i]) == 0
  {
    CountNext(Named(tools, Normal(tools, all[i])), all, i);
    CountPrefix(Named(tools, Normal(tools, all[i])), all, i + 1);
  }
}
