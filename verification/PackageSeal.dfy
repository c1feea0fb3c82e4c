/** The checksum file that seals a portable package: what the builder writes and what the runtime accepts. */
module PackageSeal {
  import opened Prelude

  type Bytes = seq<byte>

  const CR: CodeUnit := 0x0d
  const LF: CodeUnit := 0x0a
  const SPACE: CodeUnit := 0x20
  const MAX_LINES: nat := 10000

  datatype Manifest = Manifest(recognised: bool, fileCount: int)

  /**
   * What the seal relies on but does not define: SHA-256 in hexadecimal, UTF-8 both ways, the JSON manifest, and POSIX path
   * normalization; and the two reserved names.
   */
  datatype Platform = Platform(
    hash: Bytes -> JsString, decode: Bytes -> JsString, encode: JsString -> Bytes, readManifest: Bytes -> Option<Manifest>,
    writeManifest: nat -> Bytes, normalize: JsString -> JsString, sums: JsString, manifest: JsString)

  type Files = map<JsString, Bytes>

  datatype Entry = Entry(name: JsString, hash: JsString)

  datatype Code =
    | SealMissing | SealIncomplete | ManifestInvalid | SumsInvalid | WalkFailed | FileCountMismatch | UnexpectedFileSet
    | UnexpectedFile | FileMissing | HashMismatch

  datatype Verdict = Unsealed | Sealed(checkedFiles: nat) | Refused(code: Code)

  predicate IsHash(s: JsString) {
    |s| == 64 && forall i :: 0 <= i < |s| ==> 0x30 <= s[i] <= 0x39 || 0x61 <= s[i] <= 0x66
  }

  /** `normalizeRelative(value)` gives the value back. */
  predicate CleanName(p: Platform, name: JsString) {
    && name != [] && 0 !in name && 0x5c !in name && p.normalize(name) == name && name != [0x2e]
    && !([0x2e, 0x2e, 0x2f] <= name) && !Contains(name, [0x2f, 0x2e, 0x2e, 0x2f]) && name[0] != 0x2f
  }

  predicate Contains(s: JsString, part: JsString) {
    part <= s || (s != [] && Contains(s[1..], part))
  }

  /** The dot of a regular expression matches every code unit but line terminators. */
  predicate OneLine(s: JsString) {
    forall i :: 0 <= i < |s| ==> s[i] != LF && s[i] != CR && s[i] != 0x2028 && s[i] != 0x2029
  }

  // ---------- Lines ----------

  /** `text.split(/\r?\n/)`. */
  function SplitLines(s: JsString): (lines: seq<JsString>)
    ensures lines != []
  {
    if s == [] then [[]]
    else if s[0] == LF then [[]] + SplitLines(s[1..])
    else if s[0] == CR && |s| > 1 && s[1] == LF then [[]] + SplitLines(s[2..])
    else
      var rest := SplitLines(s[1..]);
      [[s[0]] + rest[0]] + rest[1..]
  }

  function NonEmpty(lines: seq<JsString>): (r: seq<JsString>)
    ensures forall l :: l in r ==> l != []
  {
    if lines == [] then [] else (if lines[0] == [] then [] else [lines[0]]) + NonEmpty(lines[1..])
  }

  function LineOf(e: Entry): JsString {
    e.hash + [SPACE, SPACE] + e.name
  }

  /** One line of the checksum file, by its regular expression and `normalizeRelative`. */
  function ReadLine(p: Platform, line: JsString): Option<Entry> {
    if |line| < 67 || !IsHash(line[..64]) || line[64] != SPACE || line[65] != SPACE || !OneLine(line[66..]) then None
    else if !CleanName(p, line[66..]) then None
    else Some(Entry(line[66..], line[..64]))
  }

  predicate Lists(entries: seq<Entry>, name: JsString) {
    exists i :: 0 <= i < |entries| && entries[i].name == name
  }

  /** The loop that fills `expected`: nothing when a line is malformed, names the checksum file or repeats a name. */
  function ReadLines(p: Platform, lines: seq<JsString>): (r: Option<seq<Entry>>)
    ensures r.Some? ==> |r.value| == |lines|
  {
    if lines == [] then Some([])
    else
      var before, e := ReadLines(p, lines[..|lines| - 1]), ReadLine(p, lines[|lines| - 1]);
      if before.None? || e.None? || e.value.name == p.sums || Lists(before.value, e.value.name) then None
      else Some(before.value + [e.value])
  }

  // ---------- The verifier ----------

  /** The first listed file that is missing or whose hash differs. */
  function FirstBad(p: Platform, files: Files, entries: seq<Entry>): Option<Code> {
    if entries == [] then None
    else if entries[0].name !in files then Some(FileMissing)
    else if p.hash(files[entries[0].name]) != entries[0].hash then Some(HashMismatch)
    else FirstBad(p, files, entries[1..])
  }

  /** The files of the package as the walk lists them, each once; `None` when it meets a link or a special file. */
  ghost predicate WalkOf(walked: seq<JsString>, files: Files) {
    && (forall i, j :: 0 <= i < j < |walked| ==> walked[i] != walked[j])
    && (forall name :: name in walked <==> name in files)
  }

  function WithoutSums(p: Platform, walked: seq<JsString>): seq<JsString> {
    if walked == [] then []
    else (if walked[0] == p.sums then [] else [walked[0]]) + WithoutSums(p, walked[1..])
  }

  function CompareSets(p: Platform, files: Files, walked: seq<JsString>, entries: seq<Entry>, fileCount: int): Verdict {
    var others := WithoutSums(p, walked);
    if fileCount != |walked| then Refused(FileCountMismatch)
    else if |entries| != |others| then Refused(UnexpectedFileSet)
    else if exists name :: name in others && !Lists(entries, name) then Refused(UnexpectedFile)
    else
      var bad := FirstBad(p, files, entries);
      if bad.Some? then Refused(bad.value) else Sealed(|entries|)
  }

  function Verify(p: Platform, files: Files, walked: Option<seq<JsString>>, requireSealed: bool): Verdict {
    if p.sums !in files && p.manifest !in files then (if requireSealed then Refused(SealMissing) else Unsealed)
    else if p.sums !in files || p.manifest !in files then Refused(SealIncomplete)
    else
      var m := p.readManifest(files[p.manifest]);
      if m.None? || !m.value.recognised || m.value.fileCount < 3 then Refused(ManifestInvalid)
      else
        var lines := NonEmpty(SplitLines(p.decode(files[p.sums])));
        var entries := ReadLines(p, lines);
        if lines == [] || |lines| > MAX_LINES || entries.None? then Refused(SumsInvalid)
        else if walked.None? then Refused(WalkFailed)
        else CompareSets(p, files, walked.value, entries.value, m.value.fileCount)
  }

  method ReadExpected(p: Platform, lines: seq<JsString>) returns (r: Option<seq<Entry>>)
    ensures r == ReadLines(p, lines)
  {
    hide ReadLine;
    var entries: seq<Entry> := [];
    for i := 0 to |lines|
      invariant ReadLines(p, lines[..i]) == Some(entries)
    {
      assert lines[..i + 1][..i] == lines[..i];
      var e := ReadLine(p, lines[i]);
      if e.None? || e.value.name == p.sums || Lists(entries, e.value.name) {
        RefusedForGood(p, lines, i + 1);
        return None;
      }
      entries := entries + [e.value];
    }
    assert lines[..|lines|] == lines;
    return Some(entries);
  }

  lemma {:induction false} RefusedForGood(p: Platform, lines: seq<JsString>, n: nat)
    requires n <= |lines| && ReadLines(p, lines[..n]).None?
    ensures ReadLines(p, lines).None?
    decreases |lines| - n
  {
    hide ReadLine, Lists;
    if n == |lines| {
      assert lines[..n] == lines;
    } else {
      assert lines[..n + 1][..n] == lines[..n];
      RefusedForGood(p, lines, n + 1);
    }
  }

  method CheckFiles(p: Platform, files: Files, entries: seq<Entry>) returns (bad: Option<Code>)
    ensures bad == FirstBad(p, files, entries)
  {
    for i := 0 to |entries|
      invariant FirstBad(p, files, entries) == FirstBad(p, files, entries[i..])
    {
      assert entries[i..][1..] == entries[i + 1..];
      if entries[i].name !in files {
        return Some(FileMissing);
      }
      if p.hash(files[entries[i].name]) != entries[i].hash {
        return Some(HashMismatch);
      }
    }
    return None;
  }

  method VerifyRuntimePackageIntegrity(p: Platform, files: Files, walked: Option<seq<JsString>>, requireSealed: bool)
    returns (r: Verdict)
    ensures r == Verify(p, files, walked, requireSealed)
  {
    hide SplitLines, NonEmpty, ReadLines, FirstBad, WithoutSums, Lists;
    if p.sums !in files && p.manifest !in files {
      return if requireSealed then Refused(SealMissing) else Unsealed;
    }
    if p.sums !in files || p.manifest !in files {
      return Refused(SealIncomplete);
    }
    var m := p.readManifest(files[p.manifest]);
    if m.None? || !m.value.recognised || m.value.fileCount < 3 {
      return Refused(ManifestInvalid);
    }
    var lines := NonEmpty(SplitLines(p.decode(files[p.sums])));
    if |lines| == 0 || |lines| > MAX_LINES {
      return Refused(SumsInvalid);
    }
    var entries := ReadExpected(p, lines);
    if entries.None? {
      return Refused(SumsInvalid);
    }
    if walked.None? {
      return Refused(WalkFailed);
    }
    var others := WithoutSums(p, walked.value);
    if m.value.fileCount != |walked.value| {
      return Refused(FileCountMismatch);
    }
    if |entries.value| != |others| {
      return Refused(UnexpectedFileSet);
    }
    for i := 0 to |others|
      invariant forall j :: 0 <= j < i ==> Lists(entries.value, others[j])
    {
      if !Lists(entries.value, others[i]) {
        assert others[i] in others;
        return Refused(UnexpectedFile);
      }
    }
    var bad := CheckFiles(p, files, entries.value);
    return if bad.Some? then Refused(bad.value) else Sealed(|entries.value|);
  }

  // ---------- Acceptance means the sealed files and no others ----------

  /** The lines name every file but the checksum file exactly once, and nothing else, with its hash. */
  ghost predicate Describes(p: Platform, files: Files, entries: seq<Entry>) {
    && (forall i, j :: 0 <= i < j < |entries| ==> entries[i].name != entries[j].name)
    && (forall name :: Lists(entries, name) <==> name in files && name != p.sums)
    && (forall i :: 0 <= i < |entries| ==> entries[i].name in files && entries[i].hash == p.hash(files[entries[i].name]))
  }

  function Names(entries: seq<Entry>): (names: seq<JsString>)
    ensures |names| == |entries| && forall i :: 0 <= i < |names| ==> names[i] == entries[i].name
    ensures forall n :: n in names <==> Lists(entries, n)
  {
    var names := seq(|entries|, i requires 0 <= i < |entries| => entries[i].name);
    assert forall n :: n in names ==> exists i :: 0 <= i < |entries| && names[i] == n;
    assert forall i :: 0 <= i < |entries| ==> names[i] in names && names[i] == entries[i].name;
    names
  }

  lemma {:induction false} LinesAreDistinct(p: Platform, lines: seq<JsString>)
    requires ReadLines(p, lines).Some?
    ensures var entries := ReadLines(p, lines).value;
      && (forall i, j :: 0 <= i < j < |entries| ==> entries[i].name != entries[j].name)
      && (forall i :: 0 <= i < |entries| ==> entries[i].name != p.sums)
    decreases |lines|
  {
    hide ReadLine;
    if lines != [] {
      LinesAreDistinct(p, lines[..|lines| - 1]);
    }
  }

  lemma {:induction false} DistinctCount(names: seq<JsString>, all: set<JsString>)
    requires (forall i, j :: 0 <= i < j < |names| ==> names[i] != names[j]) && (forall n :: n in names <==> n in all)
    ensures |all| == |names|
    decreases |names|
  {
    if names == [] {
      assert all == {};
    } else {
      var rest := names[..|names| - 1];
      assert names == rest + [names[|names| - 1]];
      DistinctCount(rest, all - {names[|names| - 1]});
    }
  }

  lemma {:induction false} OthersOf(p: Platform, walked: seq<JsString>)
    requires forall i, j :: 0 <= i < j < |walked| ==> walked[i] != walked[j]
    ensures var others := WithoutSums(p, walked);
      && (forall i, j :: 0 <= i < j < |others| ==> others[i] != others[j])
      && (forall n :: n in others <==> n in walked && n != p.sums)
    decreases |walked|
  {
    if walked != [] {
      OthersOf(p, walked[1..]);
      assert walked == [walked[0]] + walked[1..];
      assert walked[0] !in walked[1..];
      var rest := WithoutSums(p, walked[1..]);
      assert walked[0] !in rest;
      if walked[0] == p.sums {
        assert WithoutSums(p, walked) == rest;
      } else {
        assert forall j :: 0 <= j < |rest| ==> ([walked[0]] + rest)[j + 1] == rest[j];
      }
    }
  }

  lemma SameSizeSubset(a: set<JsString>, b: set<JsString>)
    requires a <= b && |a| == |b|
    ensures a == b
  {
    if n :| n in b && n !in a {
      SubsetSmaller(a, b - {n});
    }
  }

  lemma {:induction false} SubsetSmaller(a: set<JsString>, b: set<JsString>)
    requires a <= b
    ensures |a| <= |b|
    decreases |a|
  {
    if a != {} {
      var n :| n in a;
      SubsetSmaller(a - {n}, b - {n});
    }
  }

  /** The counting argument: as many lines as files, and every file on some line, leave no line for anything else. */
  lemma CountingSuffices(p: Platform, files: Files, walked: seq<JsString>, entries: seq<Entry>)
    requires WalkOf(walked, files) && |entries| == |WithoutSums(p, walked)|
    requires forall i, j :: 0 <= i < j < |entries| ==> entries[i].name != entries[j].name
    requires forall n :: n in WithoutSums(p, walked) ==> Lists(entries, n)
    ensures forall n :: Lists(entries, n) <==> n in files && n != p.sums
  {
    var others := WithoutSums(p, walked);
    OthersOf(p, walked);
    var names := Names(entries);
    var listed, present := (set n | n in names), files.Keys - {p.sums};
    DistinctCount(names, listed);
    DistinctCount(others, present);
    SameSizeSubset(present, listed);
  }

  lemma {:induction false} NoneBad(p: Platform, files: Files, entries: seq<Entry>)
    ensures FirstBad(p, files, entries).None? <==>
      forall i :: 0 <= i < |entries| ==> entries[i].name in files && entries[i].hash == p.hash(files[entries[i].name])
    decreases |entries|
  {
    if entries != [] {
      NoneBad(p, files, entries[1..]);
      assert forall i :: 0 < i < |entries| ==> entries[i] == entries[1..][i - 1];
      assert forall i :: 0 <= i < |entries| - 1 ==> entries[1..][i] == entries[i + 1];
    }
  }

  /** The entries that the checksum file of a package lists. */
  function Listed(p: Platform, files: Files): Option<seq<Entry>>
    requires p.sums in files
  {
    ReadLines(p, NonEmpty(SplitLines(p.decode(files[p.sums]))))
  }

  /** An accepted package consists of exactly the listed files, each with its listed hash, and is as large as its manifest says. */
  lemma AcceptedIsDescribed(p: Platform, files: Files, walked: seq<JsString>, requireSealed: bool)
    requires WalkOf(walked, files) && Verify(p, files, Some(walked), requireSealed).Sealed?
    ensures p.sums in files && p.manifest in files && Listed(p, files).Some? && Describes(p, files, Listed(p, files).value)
    ensures var m := p.readManifest(files[p.manifest]); m.Some? && m.value.fileCount == |walked| >= 3
  {
    hide ReadLines, FirstBad, WithoutSums, SplitLines, NonEmpty, Lists, WalkOf;
    var entries := Listed(p, files).value;
    LinesAreDistinct(p, NonEmpty(SplitLines(p.decode(files[p.sums]))));
    CountingSuffices(p, files, walked, entries);
    NoneBad(p, files, entries);
  }

  // ---------- What the builder writes ----------

  function JoinLines(lines: seq<JsString>): JsString
    requires lines != []
  {
    if |lines| == 1 then lines[0] else lines[0] + [LF] + JoinLines(lines[1..])
  }

  function EntriesFor(p: Platform, files: Files, names: seq<JsString>): (r: seq<Entry>)
    requires forall n :: n in names ==> n in files
    ensures |r| == |names| && forall i :: 0 <= i < |r| ==> r[i] == Entry(names[i], p.hash(files[names[i]]))
  {
    seq(|names|, i requires 0 <= i < |names| => Entry(names[i], p.hash(files[names[i]])))
  }

  function LinesFor(entries: seq<Entry>): (r: seq<JsString>)
    ensures |r| == |entries| && forall i :: 0 <= i < |r| ==> r[i] == LineOf(entries[i])
  {
    seq(|entries|, i requires 0 <= i < |entries| => LineOf(entries[i]))
  }

  function WithManifest(p: Platform, tree: Files): Files {
    tree[p.manifest := p.writeManifest(|tree| + 2)]
  }

  /** The sealed package for the copied files `tree`; `names` is its sorted listing just before the checksums are written. */
  function Build(p: Platform, tree: Files, names: seq<JsString>): Files
    requires names != [] && forall n :: n in names ==> n in WithManifest(p, tree)
  {
    var files := WithManifest(p, tree);
    files[p.sums := p.encode(JoinLines(LinesFor(EntriesFor(p, files, names))) + [LF])]
  }

  lemma {:induction false} SplitOne(line: JsString, rest: JsString)
    requires OneLine(line)
    ensures SplitLines(line + [LF] + rest) == [line] + SplitLines(rest)
    decreases |line|
  {
    var s := line + [LF] + rest;
    if line == [] {
      assert s[1..] == rest;
    } else {
      assert line == [line[0]] + line[1..];
      assert s[1..] == line[1..] + [LF] + rest && s[0] == line[0];
      SplitOne(line[1..], rest);
    }
  }

  lemma {:induction false} SplitJoined(lines: seq<JsString>)
    requires lines != [] && forall l :: l in lines ==> OneLine(l) && l != []
    ensures NonEmpty(SplitLines(JoinLines(lines) + [LF])) == lines
    decreases |lines|
  {
    hide SplitLines, OneLine;
    assert lines[0] in lines;
    var text := JoinLines(lines) + [LF];
    if |lines| == 1 {
      assert text == lines[0] + [LF] + [];
      SplitOne(lines[0], []);
      EmptySplit();
      var none: JsString := [];
      assert [lines[0], none][1..] == [none];
      assert NonEmpty([lines[0], none]) == [lines[0]] + NonEmpty([none]);
    } else {
      var rest := JoinLines(lines[1..]) + [LF];
      assert text == lines[0] + [LF] + rest;
      SplitOne(lines[0], rest);
      SplitJoined(lines[1..]);
      assert ([lines[0]] + SplitLines(rest))[1..] == SplitLines(rest);
      assert lines == [lines[0]] + lines[1..];
    }
  }

  lemma EmptySplit()
    ensures SplitLines([]) == [[]] && NonEmpty([[]]) == []
  {
  }

  lemma LineReads(p: Platform, e: Entry)
    requires IsHash(e.hash) && CleanName(p, e.name) && OneLine(e.name)
    ensures ReadLine(p, LineOf(e)) == Some(e) && OneLine(LineOf(e)) && LineOf(e) != []
  {
    hide CleanName;
    var line := LineOf(e);
    assert e.name != [] by {
      CleanIsNonEmpty(p, e.name);
    }
    assert line[..64] == e.hash && line[64] == SPACE && line[65] == SPACE && line[66..] == e.name;
  }

  lemma CleanIsNonEmpty(p: Platform, name: JsString)
    requires CleanName(p, name)
    ensures name != []
  {
  }

  lemma {:induction false} LinesRead(p: Platform, entries: seq<Entry>)
    requires forall i, j :: 0 <= i < j < |entries| ==> entries[i].name != entries[j].name
    requires forall i :: 0 <= i < |entries| ==> ReadLine(p, LineOf(entries[i])) == Some(entries[i]) && entries[i].name != p.sums
    ensures ReadLines(p, LinesFor(entries)) == Some(entries)
    decreases |entries|
  {
    hide ReadLine, LineOf;
    if entries != [] {
      var front := entries[..|entries| - 1];
      assert LinesFor(entries)[..|entries| - 1] == LinesFor(front);
      LinesRead(p, front);
      assert entries == front + [entries[|entries| - 1]];
    }
  }

  /** A SHA-256 sum as it is written down: 64 hexadecimal digits, the letters in lower case. */
  predicate IsSum(s: JsString) {
    |s| == 64 && forall c :: c in s ==> '0' as int <= c <= '9' as int || 'a' as int <= c <= 'f' as int
  }

  lemma IsHashIff(s: JsString)
    ensures IsHash(s) <==> IsSum(s)
  {
    assert forall i :: 0 <= i < |s| ==> s[i] in s;
  }

  /** The text "/../". */
  const STEP_OUT: JsString := ['/' as int, '.' as int, '.' as int, '/' as int]

  predicate PartAt(s: JsString, part: JsString, i: nat) {
    i + |part| <= |s| && s[i..i + |part|] == part
  }

  /**
   * A file name that survives being a line of the checksum file: normalized and relative, without NUL, backslash or line
   * terminator, not a single dot, and with no parent step in front of or between other steps.
   */
  ghost predicate Listable(p: Platform, name: JsString) {
    && name != [] && p.normalize(name) == name && name != ['.' as int] && name[0] != '/' as int
    && (forall c :: c in name ==> c !in {0, '\\' as int, '\n' as int, '\r' as int, 0x2028, 0x2029})
    && !(|name| >= 3 && name[..3] == ['.' as int, '.' as int, '/' as int])
    && forall i: nat :: !PartAt(name, STEP_OUT, i)
  }

  lemma {:induction false} ContainsIff(s: JsString, part: JsString)
    ensures Contains(s, part) <==> exists i: nat :: PartAt(s, part, i)
    decreases |s|
  {
    if part <= s {
      assert PartAt(s, part, 0);
    } else if s != [] {
      ContainsIff(s[1..], part);
      if i: nat :| PartAt(s[1..], part, i) {
        assert s[i + 1..i + 1 + |part|] == s[1..][i..i + |part|];
        assert PartAt(s, part, i + 1);
      }
      if i: nat :| PartAt(s, part, i) {
        assert i > 0;
        assert s[1..][i - 1..i - 1 + |part|] == s[i..i + |part|];
        assert PartAt(s[1..], part, i - 1);
      }
    }
  }

  /** The checks on a line's name let through exactly such a name. */
  lemma ListableIff(p: Platform, name: JsString)
    ensures Listable(p, name) <==> CleanName(p, name) && OneLine(name)
  {
    ContainsIff(name, STEP_OUT);
    hide Contains, PartAt;
    assert [0x2e, 0x2e, 0x2f] <= name <==> |name| >= 3 && name[..3] == [0x2e, 0x2e, 0x2f];
    assert forall i :: 0 <= i < |name| ==> name[i] in name;
  }

  lemma {:induction false} ReadNamesAreListable(p: Platform, lines: seq<JsString>, name: JsString)
    requires ReadLines(p, lines).Some? && Lists(ReadLines(p, lines).value, name)
    ensures Listable(p, name)
    decreases |lines|
  {
    if lines != [] {
      var entries := ReadLines(p, lines).value;
      var i :| 0 <= i < |entries| && entries[i].name == name;
      ListableIff(p, name);
      if i < |lines| - 1 {
        assert Lists(ReadLines(p, lines[..|lines| - 1]).value, name);
        ReadNamesAreListable(p, lines[..|lines| - 1], name);
      }
    }
  }

  /** What the seal assumes of its surroundings, for the package at hand. */
  ghost predicate Faithful(p: Platform, tree: Files, names: seq<JsString>)
    requires names != [] && forall n :: n in names ==> n in WithManifest(p, tree)
  {
    && p.sums != p.manifest && p.sums !in tree && p.manifest !in tree
    && (forall b: Bytes :: IsSum(p.hash(b)))
    && p.decode(Build(p, tree, names)[p.sums]) == JoinLines(LinesFor(EntriesFor(p, WithManifest(p, tree), names))) + [LF]
    && p.readManifest(p.writeManifest(|tree| + 2)) == Some(Manifest(true, |tree| + 2))
  }

  lemma BuiltLists(p: Platform, tree: Files, names: seq<JsString>)
    requires names != [] && WalkOf(names, WithManifest(p, tree)) && Faithful(p, tree, names)
    requires forall n :: n in names ==> Listable(p, n)
    ensures Listed(p, Build(p, tree, names)) == Some(EntriesFor(p, WithManifest(p, tree), names))
    ensures |NonEmpty(SplitLines(p.decode(Build(p, tree, names)[p.sums])))| == |names|
  {
    hide CleanName, OneLine, Listable, IsHash, IsSum, ReadLine, LineOf, SplitLines, NonEmpty, ReadLines, JoinLines;
    var files := WithManifest(p, tree);
    var entries := EntriesFor(p, files, names);
    forall i | 0 <= i < |entries|
      ensures ReadLine(p, LineOf(entries[i])) == Some(entries[i]) && OneLine(LineOf(entries[i])) && LineOf(entries[i]) != []
      ensures entries[i].name != p.sums
    {
      assert names[i] in names;
      ListableIff(p, names[i]);
      IsHashIff(entries[i].hash);
      LineReads(p, entries[i]);
    }
    SplitJoined(LinesFor(entries));
    LinesRead(p, entries);
  }

  lemma {:induction false} OthersCount(p: Platform, walked: seq<JsString>)
    requires forall i, j :: 0 <= i < j < |walked| ==> walked[i] != walked[j]
    ensures |WithoutSums(p, walked)| == if p.sums in walked then |walked| - 1 else |walked|
    decreases |walked|
  {
    if walked != [] {
      OthersCount(p, walked[1..]);
      assert walked == [walked[0]] + walked[1..];
    }
  }

  lemma BuiltKeys(p: Platform, tree: Files, names: seq<JsString>)
    requires names != [] && forall n :: n in names ==> n in WithManifest(p, tree)
    requires p.sums != p.manifest && p.sums !in tree && p.manifest !in tree
    ensures WithManifest(p, tree).Keys == tree.Keys + {p.manifest} && |tree.Keys + {p.manifest}| == |tree| + 1
    ensures Build(p, tree, names).Keys == WithManifest(p, tree).Keys + {p.sums} && p.sums !in WithManifest(p, tree)
    ensures |WithManifest(p, tree).Keys + {p.sums}| == |tree| + 2
  {
    hide JoinLines, EntriesFor, LinesFor;
    FreshKey(tree, p.manifest, WithManifest(p, tree)[p.manifest]);
    FreshKey(WithManifest(p, tree), p.sums, Build(p, tree, names)[p.sums]);
  }

  lemma FreshKey(files: Files, name: JsString, b: Bytes)
    requires name !in files
    ensures files[name := b].Keys == files.Keys + {name} && |files.Keys + {name}| == |files| + 1 == |files[name := b]|
  {
    assert |files.Keys| == |files| && |files[name := b].Keys| == |files[name := b]|;
  }

  lemma BuiltSizes(p: Platform, tree: Files, names: seq<JsString>, walked: seq<JsString>)
    requires names != [] && WalkOf(names, WithManifest(p, tree)) && WalkOf(walked, Build(p, tree, names))
    requires p.sums != p.manifest && p.sums !in tree && p.manifest !in tree
    ensures |names| == |tree| + 1 && |walked| == |tree| + 2 && |WithoutSums(p, walked)| == |tree| + 1
    ensures forall n :: n in WithoutSums(p, walked) ==> n in names
  {
    hide Build, WithManifest, WithoutSums;
    BuiltKeys(p, tree, names);
    var files, sealed := WithManifest(p, tree), Build(p, tree, names);
    assert forall n :: n in names <==> n in files.Keys;
    assert forall n :: n in walked <==> n in sealed.Keys;
    DistinctCount(names, files.Keys);
    DistinctCount(walked, sealed.Keys);
    assert p.sums in walked;
    OthersCount(p, walked);
    OthersOf(p, walked);
  }

  lemma ListsItsNames(p: Platform, files: Files, names: seq<JsString>)
    requires forall n :: n in names ==> n in files
    ensures forall n :: n in names ==> Lists(EntriesFor(p, files, names), n)
  {
    forall n | n in names
      ensures Lists(EntriesFor(p, files, names), n)
    {
      var i :| 0 <= i < |names| && names[i] == n;
      assert EntriesFor(p, files, names)[i].name == n;
    }
  }

  lemma NoneBadInBuilt(p: Platform, tree: Files, names: seq<JsString>)
    requires names != [] && p.sums !in tree && p.sums != p.manifest && forall n :: n in names ==> n in WithManifest(p, tree)
    ensures FirstBad(p, Build(p, tree, names), EntriesFor(p, WithManifest(p, tree), names)).None?
  {
    hide JoinLines, FirstBad;
    var entries := EntriesFor(p, WithManifest(p, tree), names);
    NoneBad(p, Build(p, tree, names), entries);
    assert forall i :: 0 <= i < |names| ==> names[i] in names;
  }

  lemma BuiltIsAccepted(p: Platform, tree: Files, names: seq<JsString>, walked: seq<JsString>, requireSealed: bool)
    requires names != [] && WalkOf(names, WithManifest(p, tree)) && Faithful(p, tree, names)
    requires WalkOf(walked, Build(p, tree, names))
    requires (forall n :: n in names ==> Listable(p, n)) && |tree| > 0 && |tree| + 1 <= MAX_LINES
    ensures Verify(p, Build(p, tree, names), Some(walked), requireSealed) == Sealed(|tree| + 1)
  {
    hide SplitLines, NonEmpty, ReadLines, FirstBad, WithoutSums, Lists, Listable, WalkOf, JoinLines, EntriesFor;
    BuiltSizes(p, tree, names, walked);
    assert forall n :: n in names ==> n in WithManifest(p, tree) by {
      WalkLists(names, WithManifest(p, tree));
    }
    BuiltLists(p, tree, names);
    ListsItsNames(p, WithManifest(p, tree), names);
    NoneBadInBuilt(p, tree, names);
  }

  lemma WalkLists(walked: seq<JsString>, files: Files)
    requires WalkOf(walked, files)
    ensures forall n :: n in walked <==> n in files
  {
  }

  /** The verifier accepts the builder's package exactly when every name fits on a line and the lines fit the limit. */
  lemma BuiltIsAcceptedIff(p: Platform, tree: Files, names: seq<JsString>, walked: seq<JsString>, requireSealed: bool)
    requires names != [] && WalkOf(names, WithManifest(p, tree)) && Faithful(p, tree, names)
    requires WalkOf(walked, Build(p, tree, names))
    ensures Verify(p, Build(p, tree, names), Some(walked), requireSealed).Sealed? <==>
      (forall n :: n in names ==> Listable(p, n)) && |tree| > 0 && |tree| + 1 <= MAX_LINES
  {
    hide Verify, Listable;
    if Verify(p, Build(p, tree, names), Some(walked), requireSealed).Sealed? {
      AcceptedNamesAreListable(p, tree, names, walked, requireSealed);
    } else if (forall n :: n in names ==> Listable(p, n)) && |tree| > 0 && |tree| + 1 <= MAX_LINES {
      BuiltIsAccepted(p, tree, names, walked, requireSealed);
    }
  }

  lemma AcceptedNamesAreListable(p: Platform, tree: Files, names: seq<JsString>, walked: seq<JsString>, requireSealed: bool)
    requires names != [] && WalkOf(names, WithManifest(p, tree)) && Faithful(p, tree, names)
    requires WalkOf(walked, Build(p, tree, names))
    requires Verify(p, Build(p, tree, names), Some(walked), requireSealed).Sealed?
    ensures (forall n :: n in names ==> Listable(p, n)) && |tree| > 0 && |tree| + 1 <= MAX_LINES
  {
    hide SplitLines, NonEmpty, ReadLines, FirstBad, WithoutSums, Lists, Listable, JoinLines, EntriesFor;
    var sealed := Build(p, tree, names);
    AcceptedIsDescribed(p, sealed, walked, requireSealed);
    BuiltSizes(p, tree, names, walked);
    var lines := NonEmpty(SplitLines(p.decode(sealed[p.sums])));
    forall n | n in names
      ensures Listable(p, n)
    {
      assert n in sealed && n != p.sums;
      ReadNamesAreListable(p, lines, n);
    }
  }

  /** The builder's last steps, over the output directory. */
  method BuildSeal(p: Platform, tree: Files, names: seq<JsString>) returns (files: Files)
    requires names != [] && forall n :: n in names ==> n in WithManifest(p, tree)
    ensures files == Build(p, tree, names)
  {
    files := tree;
    files := files[p.manifest := p.writeManifest(|tree| + 2)];
    var lines: seq<JsString> := [];
    for i := 0 to |names|
      invariant lines == LinesFor(EntriesFor(p, files, names))[..i]
    {
      assert names[i] in names;
      lines := lines + [p.hash(files[names[i]]) + [SPACE, SPACE] + names[i]];
    }
    assert lines == LinesFor(EntriesFor(p, files, names));
    files := files[p.sums := p.encode(JoinLines(lines) + [LF])];
  }
}
