/** The inspector and the entry reader, two independent parsers, give the same archive the same meaning. */
module ZipAgreement {
  import opened Prelude
  import opened ZipFormat
  import R = EntryReader
  import I = ArchiveInspector

  /** Both decoders agree on valid UTF-8, and both modules use the same `toLowerCase`. */
  ghost predicate Compatible(p: R.Platform, tools: I.Tools) {
    && (forall raw: seq<byte> :: p.strict(raw).Some? ==> tools.lossy(raw) == p.strict(raw).value)
    && p.lower == tools.lower
  }

  // ---------- Structure ----------

  /** The inspector accepts an end record whenever the reader does, and the reader asks for exactly three things more. */
  lemma EndRecordsAgree(b: seq<byte>)
    ensures R.DirectoryOf(b).Ok? <==>
      && I.ParseHead(b).None?
      && var e := EndRecordAt(b, EndOf(b).value);
         e.disk == 0 && e.directoryDisk == 0 && e.directoryOffset + e.directorySize <= e.offset
    ensures R.DirectoryOf(b).Ok? ==>
      var e := EndRecordAt(b, EndOf(b).value);
      R.DirectoryOf(b).value == R.Directory(e.offset, e.directoryOffset, e.directorySize, e.totalEntries)
  {
    hide U16, U32;
    LastEndRecordIsLast(b, |b| - END_SIZE);
  }

  function ListedOf(tools: I.Tools, h: Header): I.Listed {
    I.Listed(tools.lossy(h.rawName), h.compression, h.crc32, h.compressedSize, h.uncompressedSize, h.localOffset)
  }

  /** The inspector's list for a directory: headers with ZIP64 sizes are only counted. */
  function ListOf(tools: I.Tools, hs: seq<Header>): (r: seq<I.Listed>)
    ensures |r| <= |hs|
  {
    if hs == [] then []
    else
      ListOf(tools, hs[..|hs| - 1]) +
        if hs[|hs| - 1].HasZip64Size() then [] else [ListedOf(tools, hs[|hs| - 1])]
  }

  lemma HeaderKept(tools: I.Tools, b: seq<byte>, o: nat, end: nat)
    requires end <= |b| && HeaderFits(b, o, end)
    ensures I.HeadFits(b, o, end)
    ensures I.Kept(tools, b, o) ==
      if HeaderAt(b, o).HasZip64Size() then [] else [ListedOf(tools, HeaderAt(b, o))]
  {
    hide U16, U32;
  }

  lemma ListGrows(tools: I.Tools, hs: seq<Header>, h: Header)
    ensures ListOf(tools, hs + [h]) == ListOf(tools, hs) + if h.HasZip64Size() then [] else [ListedOf(tools, h)]
  {
    hide ListedOf;
    assert (hs + [h])[..|hs|] == hs;
  }

  lemma {:induction false} StrictWalkIsLoose(tools: I.Tools, b: seq<byte>, start: nat, end: nat, k: nat)
    requires start <= end <= |b| && Walk(b, start, end, k).Some?
    ensures var w := Walk(b, start, end, k).value;
      I.LooseWalk(tools, b, start, end, k) == Some(I.Progress(w.offset, ListOf(tools, w.headers)))
  {
    hide HeaderLength, HeaderAt, I.Kept, ListOf, ListedOf, I.HeadFits, HeaderFits;
    if k > 0 {
      StrictWalkIsLoose(tools, b, start, end, k - 1);
      var w := Walk(b, start, end, k - 1).value;
      HeaderKept(tools, b, w.offset, end);
      ListGrows(tools, w.headers, HeaderAt(b, w.offset));
    }
  }

  lemma {:induction false} LooseWalkAdvances(tools: I.Tools, b: seq<byte>, start: nat, end: nat, k: nat, n: nat)
    requires start <= end <= |b| && k <= n && I.LooseWalk(tools, b, start, end, n).Some?
    ensures I.LooseWalk(tools, b, start, end, k).Some?
    ensures I.LooseWalk(tools, b, start, end, k).value.offset <= I.LooseWalk(tools, b, start, end, n).value.offset
  {
    hide I.Kept, I.HeadFits;
    if k < n {
      LooseWalkAdvances(tools, b, start, end, k, n - 1);
    }
  }

  /** Checking bounds header by header or only at the end makes no difference once the end is exact. */
  lemma {:induction false} LooseWalkIsStrict(tools: I.Tools, b: seq<byte>, start: nat, end: nat, k: nat, n: nat)
    requires start <= end <= |b| && k <= n && I.LooseWalk(tools, b, start, end, n).Some?
    requires I.LooseWalk(tools, b, start, end, n).value.offset <= end
    ensures Walk(b, start, end, k).Some?
  {
    hide HeaderLength, I.Kept, HeaderAt, I.HeadFits, HeaderFits, ListOf;
    if k > 0 {
      LooseWalkIsStrict(tools, b, start, end, k - 1, n);
      StrictWalkIsLoose(tools, b, start, end, k - 1);
      LooseWalkAdvances(tools, b, start, end, k, n);
      HeadIsHeader(b, Walk(b, start, end, k - 1).value.offset, end);
    }
  }

  lemma HeadIsHeader(b: seq<byte>, o: nat, end: nat)
    requires end <= |b| && o <= end
    ensures I.HeadFits(b, o, end) && o + HeaderLength(b, o) <= end ==> HeaderFits(b, o, end)
  {
    hide U16, U32, HeaderLength;
  }

  /** On an end record both accept, the reader finds a gap-free directory exactly when the inspector parses one. */
  lemma DirectoriesAgree(tools: I.Tools, b: seq<byte>, d: R.Directory)
    requires R.DirectoryOf(b) == R.Ok(d)
    ensures R.DirectoryHeaders(b, d).Some? <==> I.ParseResult(tools, b).Listing?
    ensures R.DirectoryHeaders(b, d).Some? ==>
      var es := ListOf(tools, R.DirectoryHeaders(b, d).value);
      I.ParseResult(tools, b) == I.Listing(es, d.entries - |es|, d.entries)
  {
    hide Walk, I.LooseWalk, ListOf, R.DirectoryOf, I.ParseHead, U16, U32;
    EndRecordsAgree(b);
    var start, end, n := d.offset, d.offset + d.size, d.entries;
    if R.DirectoryHeaders(b, d).Some? {
      StrictWalkIsLoose(tools, b, start, end, n);
    } else if I.LooseWalk(tools, b, start, end, n).Some? &&
              I.LooseWalk(tools, b, start, end, n).value.offset == end {
      LooseWalkIsStrict(tools, b, start, end, n, n);
      StrictWalkIsLoose(tools, b, start, end, n);
    }
  }

  // ---------- Meaning ----------

  ghost predicate PolicyClean(p: R.Platform, hs: seq<Header>) {
    forall i :: 0 <= i < |hs| ==> R.CleanHeader(p, hs[i])
  }

  lemma {:induction false} CleanListIsComplete(p: R.Platform, tools: I.Tools, hs: seq<Header>)
    requires PolicyClean(p, hs)
    ensures |ListOf(tools, hs)| == |hs|
    ensures forall i :: 0 <= i < |hs| ==> ListOf(tools, hs)[i] == ListedOf(tools, hs[i])
  {
    hide ListedOf, R.PathAllowed;
    if hs != [] {
      var init := hs[..|hs| - 1];
      assert forall i :: 0 <= i < |init| ==> init[i] == hs[i];
      CleanListIsComplete(p, tools, init);
      assert R.CleanHeader(p, hs[|hs| - 1]);
    }
  }

  /**
   * Whenever the reader accepts the end record and the whole directory, the inspector accepts the same bytes with
   * no malformed entry and the same records: decoded name, method, checksum, both sizes and local offset.
   */
  lemma ParsersAgree(p: R.Platform, tools: I.Tools, b: seq<byte>, d: R.Directory)
    requires Compatible(p, tools)
    requires R.DirectoryOf(b) == R.Ok(d) && R.DirectoryHeaders(b, d).Some?
    requires PolicyClean(p, R.DirectoryHeaders(b, d).value)
    ensures I.ParseResult(tools, b).Listing?
    ensures var hs, listing := R.DirectoryHeaders(b, d).value, I.ParseResult(tools, b);
      && listing.malformed == 0 && listing.declared == |listing.entries| == |hs|
      && forall i :: 0 <= i < |hs| ==>
           var e, h := listing.entries[i], hs[i];
           && p.strict(h.rawName) == Some(e.name) && e.compression == h.compression && e.crc32 == h.crc32
           && e.compressedSize == h.compressedSize && e.uncompressedSize == h.uncompressedSize
           && e.localOffset == h.localOffset
  {
    hide R.DirectoryOf, R.DirectoryHeaders, I.ParseResult, ListOf, R.PathAllowed;
    var hs := R.DirectoryHeaders(b, d).value;
    DirectoriesAgree(tools, b, d);
    CleanListIsComplete(p, tools, hs);
    assert forall i :: 0 <= i < |hs| ==> R.CleanHeader(p, hs[i]) && p.strict(hs[i].rawName).Some?;
  }

  // ---------- Path policies ----------

  /** A `..` that starts a segment and ends one is found by splitting. */
  lemma {:induction false} TraversalIsSegment(collected: JsString, path: JsString, i: nat)
    requires I.IsTraversalAt(path, i) && (i == 0 ==> collected == [])
    ensures exists k :: 0 <= k < |R.Segments(collected, path)| && R.Segments(collected, path)[k] == [DOT, DOT]
    decreases |path|
  {
    var rest := path[1..];
    if i == 0 {
      assert [] + [path[0]] == [DOT] && [DOT] + [rest[0]] == [DOT, DOT];
      assert R.Segments([], path) == R.Segments([DOT], rest);
      assert R.Segments([DOT], rest) == R.Segments([DOT, DOT], rest[1..]);
      assert rest[1..] == path[2..];
      assert R.Segments([DOT, DOT], rest[1..])[0] == [DOT, DOT];
    } else {
      var next := if IsSeparator(path[0]) then [] else collected + [path[0]];
      assert I.IsTraversalAt(rest, i - 1);
      TraversalIsSegment(next, rest, i - 1);
      var k :| 0 <= k < |R.Segments(next, rest)| && R.Segments(next, rest)[k] == [DOT, DOT];
      if IsSeparator(path[0]) {
        assert R.Segments(collected, path) == [collected] + R.Segments(next, rest);
        assert R.Segments(collected, path)[k + 1] == [DOT, DOT];
      } else {
        assert R.Segments(collected, path) == R.Segments(next, rest);
      }
    }
  }

  /** Every path the reader allows is free of what the inspector calls suspicious. */
  lemma AllowedIsNotSuspicious(path: JsString)
    requires R.PathAllowed(path)
    ensures !I.SuspiciousPath(path)
  {
    if i: nat :| i < |path| && I.IsTraversalAt(path, i) {
      TraversalIsSegment([], path, i);
      assert false;
    }
  }

  /** A dot stands alone between separators or ends. */
  predicate DotAt(path: JsString, i: nat) {
    i < |path| && path[i] == DOT && (i == 0 || IsSeparator(path[i - 1])) && (i + 1 == |path| || IsSeparator(path[i + 1]))
  }

  lemma DotsAreSegments(path: JsString, i: nat)
    ensures I.IsTraversalAt(path, i) <==> R.SegmentAt(path, i, i + 2) && path[i..i + 2] == [DOT, DOT]
    ensures DotAt(path, i) <==> R.SegmentAt(path, i, i + 1) && path[i..i + 1] == [DOT]
  {
    if i + 2 <= |path| {
      assert path[i..i + 2] == [path[i], path[i + 1]];
    }
    if i + 1 <= |path| {
      assert path[i..i + 1] == [path[i]];
    }
  }

  lemma NoDotSegments(path: JsString)
    ensures (forall i: nat, j: nat :: R.SegmentAt(path, i, j) ==> path[i..j] != [DOT] && path[i..j] != [DOT, DOT])
      <==> (forall i: nat :: !I.IsTraversalAt(path, i)) && forall i: nat :: !DotAt(path, i)
  {
    forall i: nat
      ensures I.IsTraversalAt(path, i) ==> R.SegmentAt(path, i, i + 2) && path[i..i + 2] == [DOT, DOT]
      ensures DotAt(path, i) ==> R.SegmentAt(path, i, i + 1) && path[i..i + 1] == [DOT]
    {
      DotsAreSegments(path, i);
    }
    forall i: nat, j: nat | R.SegmentAt(path, i, j)
      ensures path[i..j] == [DOT, DOT] ==> I.IsTraversalAt(path, i)
      ensures path[i..j] == [DOT] ==> DotAt(path, i)
    {
      assert |path[i..j]| == j - i;
      DotsAreSegments(path, i);
    }
  }

  /** The reader allows exactly the paths that the inspector does not suspect and that have no NUL, no doubled separator and no dot segment. */
  lemma AllowedIff(path: JsString)
    ensures R.PathAllowed(path) <==>
      && path != [] && !I.SuspiciousPath(path) && 0 !in path
      && (forall i :: 0 <= i < |path| && IsSeparator(path[i]) ==> i > 0 && !IsSeparator(path[i - 1]))
      && forall i: nat :: !DotAt(path, i)
  {
    R.PathAllowedIff(path);
    NoDotSegments(path);
    assert (exists i :: 0 <= i < |path| && I.IsTraversalAt(path, i)) <==> exists i: nat :: I.IsTraversalAt(path, i) by {
      if i: nat :| I.IsTraversalAt(path, i) {
        assert 0 <= i < |path|;
      }
    }
    hide R.PathAllowed, R.SegmentAt, I.IsTraversalAt, DotAt;
    assert forall i :: 0 <= i < |path| ==> path[i] in path;
  }

  // ---------- Descriptors ----------

  lemma {:induction false} TargetComesFromEntry(tools: I.Tools, all: seq<I.Listed>, kind: TargetKind, s: seq<I.Listed>, t: Target)
    returns (k: nat)
    requires t in I.Targets(tools, all, kind, s)
    ensures k < |s| && I.Offered(tools, all, kind, s[k]) && t == I.TargetOf(kind, s[k])
  {
    hide I.Offered, I.TargetOf;
    var n := |s| - 1;
    if I.Offered(tools, all, kind, s[n]) && t == I.TargetOf(kind, s[n]) {
      k := n;
    } else {
      k := TargetComesFromEntry(tools, all, kind, s[..n], t);
    }
  }

  lemma {:induction false} CountedOnce<T>(f: T -> bool, s: seq<T>, i: nat, k: nat)
    requires i < |s| && k < |s| && f(s[i]) && f(s[k]) && I.Count(f, s) == 1
    ensures i == k
    decreases |s|
  {
    var n := |s| - 1;
    if i < n && k < n {
      if f(s[n]) {
        NotCounted(f, s[..n], i);
      }
      CountedOnce(f, s[..n], i, k);
    } else if i < n {
      NotCounted(f, s[..n], i);
    } else if k < n {
      NotCounted(f, s[..n], k);
    }
  }

  lemma {:induction false} NotCounted<T>(f: T -> bool, s: seq<T>, i: nat)
    requires i < |s| && f(s[i])
    ensures I.Count(f, s) > 0
    decreases |s|
  {
    if i < |s| - 1 {
      NotCounted(f, s[..|s| - 1], i);
    }
  }

  /**
   * Every descriptor the inspector offers is matched exactly once by the reader on the same bytes: the scan fails
   * only for a structural or policy reason that holds for the archive whatever the descriptor, never because the
   * target is missing or ambiguous.
   */
  lemma DescriptorIsFound(p: R.Platform, tools: I.Tools, b: seq<byte>, d: R.Directory, kind: TargetKind, n: nat, t: Target)
    requires Compatible(p, tools) && R.DirectoryOf(b) == R.Ok(d)
    requires I.ParseResult(tools, b).Listing? && n <= |I.ParseResult(tools, b).entries|
    requires var all := I.ParseResult(tools, b).entries; t in I.Targets(tools, all, kind, all[..n])
    ensures R.DirectoryHeaders(b, d).Some?
    ensures var hs := R.DirectoryHeaders(b, d).value;
      && (PolicyClean(p, hs) ==> exists k: nat :: R.OnlyMatch(p, hs, t, k))
      && (R.ScanResult(p, b, d, t).Ok? <==> PolicyClean(p, hs))
      && (R.ScanResult(p, b, d, t).Err? ==>
            R.ScanResult(p, b, d, t).code != R.TargetNotFound && R.ScanResult(p, b, d, t).code != R.DuplicateTargetEntry)
  {
    hide R.DirectoryOf, R.DirectoryHeaders, I.ParseResult, R.CleanHeader, I.SuspiciousPath, IsPluginName, IsScriptName;
    DirectoriesAgree(tools, b, d);
    var hs, all := R.DirectoryHeaders(b, d).value, I.ParseResult(tools, b).entries;
    PolicyCodes(p, hs);
    if PolicyClean(p, hs) {
      ParsersAgree(p, tools, b, d);
      var k := TargetComesFromEntry(tools, all, kind, all[..n], t);
      var same := I.Named(tools, I.Normal(tools, all[k]));
      forall i | 0 <= i < |hs| && R.Matches(p, hs[i], t) ensures i == k {
        assert all[i].name == t.path && same(all[i]) && same(all[k]);
        CountedOnce(same, all, i, k);
      }
      assert R.OnlyMatch(p, hs, t, k);
      R.MatchingOnly(p, hs, t, k);
    }
  }

  lemma PolicyCodes(p: R.Platform, hs: seq<Header>)
    ensures R.FirstPolicy(p, hs).None? <==> PolicyClean(p, hs)
    ensures R.FirstPolicy(p, hs) != Some(R.TargetNotFound) && R.FirstPolicy(p, hs) != Some(R.DuplicateTargetEntry)
  {
    hide R.CleanHeader;
    R.FirstPolicyIff(p, hs, R.TargetNotFound);
    R.FirstPolicyIff(p, hs, R.DuplicateTargetEntry);
  }
}
