/** engine.js: the defensive PE parser, its section lookup, its nested import loops and its iteration budget. */
module PeParser {
  import opened Prelude

  const MAX_SECTIONS := 96
  const MAX_DIRECTORIES := 16
  const MAX_DESCRIPTORS := 2000
  const MAX_THUNKS := 4000
  const MAX_CALLBACKS := 64
  const MAX_ITERATIONS := 200000
  const MAX_DLL_NAME := 256
  const MAX_IMPORT_NAME := 512

  datatype ErrorCode =
    | InvalidMz | InvalidPe | MalformedCoff | MalformedOptionalHeader | MalformedSectionTable | ParserLimitReached

  // ---------- Headers ----------

  datatype Header = Header(
    is64: bool, isDll: bool, timestamp: nat, sectionCount: nat, sectionTable: nat,
    directoryBase: nat, directoryCount: nat, entryPointRva: Option<nat>, imageBase: Option<nat>)

  datatype HeaderResult = Bad(code: ErrorCode) | Good(header: Header)

  /** `readUint64Safe`: nothing when the value might not be a safe integer. */
  function U64Safe(b: seq<byte>, o: nat): (r: Option<nat>)
    requires o + 8 <= |b|
    ensures r.Some? ==> r.value < 0x20_0000_0000_0000
  {
    var low, high := U32(b, o), U32(b, o + 4);
    if high >= 0x20_0000 then None else Some(high * 0x1_0000_0000 + low)
  }

  /** The optional header, once its place and size are known to be in the file. */
  function OptionalHeader(b: seq<byte>, coff: nat, opt: nat, size: nat): (r: HeaderResult)
    requires coff + 20 <= |b| && opt + size <= |b| && 24 <= size
    ensures r.Good? ==> r.header.directoryCount <= MAX_DIRECTORIES
    ensures r.Good? ==> r.header.sectionTable + 40 * r.header.sectionCount <= |b|
    ensures r.Good? ==> r.header.sectionCount == U16(b, coff + 2)
    ensures r.Bad? ==> r.code != ParserLimitReached
  {
    var magic := U16(b, opt);
    if magic != 0x10b && magic != 0x20b then Bad(MalformedOptionalHeader)
    else
      var is64 := magic == 0x20b;
      var total, sections := |b|, U16(b, coff + 2);
      var entry := if Fits(opt + 16, 4, total) then Some(U32(b, opt + 16)) else None;
      var base :=
        if is64 then if Fits(opt + 24, 8, total) then U64Safe(b, opt + 24) else None
        else if Fits(opt + 28, 4, total) then Some(U32(b, opt + 28)) else None;
      var countAt := opt + if is64 then 108 else 92;
      var raw := if Fits(countAt, 4, total) then U32(b, countAt) else 0;
      var wanted := if raw < MAX_DIRECTORIES then raw else MAX_DIRECTORIES;
      var dirs := opt + if is64 then 112 else 96;
      var inside := size - (dirs - opt);
      var count := if Fits(dirs, wanted * 8, total) then wanted else if inside > 0 then inside / 8 else 0;
      if !Fits(opt + size, sections * 40, total) then Bad(MalformedSectionTable)
      else
        Good(Header(is64, HasBit(U16(b, coff + 18), 0x2000), U32(b, coff + 4), sections, opt + size, dirs, count, entry, base))
  }

  function ReadHeaders(b: seq<byte>): (r: HeaderResult)
    ensures r.Good? ==> 0 < r.header.sectionCount <= MAX_SECTIONS && r.header.directoryCount <= MAX_DIRECTORIES
    ensures r.Good? ==> r.header.sectionTable + 40 * r.header.sectionCount <= |b|
    ensures r.Bad? ==> r.code != ParserLimitReached
  {
    if |b| < 0x40 || U16(b, 0) != 0x5a4d then Bad(InvalidMz)
    else
      var pe := U32(b, 0x3c);
      if !Fits(pe, 24, |b|) || U32(b, pe) != 0x4550 then Bad(InvalidPe) else CoffHeader(b, pe + 4, pe + 24)
  }

  function CoffHeader(b: seq<byte>, coff: nat, opt: nat): (r: HeaderResult)
    requires coff + 20 <= |b|
    ensures r.Good? ==> 0 < r.header.sectionCount <= MAX_SECTIONS && r.header.directoryCount <= MAX_DIRECTORIES
    ensures r.Good? ==> r.header.sectionTable + 40 * r.header.sectionCount <= |b|
    ensures r.Bad? ==> r.code != ParserLimitReached
  {
    var sections, size := U16(b, coff + 2), U16(b, coff + 16);
    if sections == 0 || sections > MAX_SECTIONS then Bad(MalformedCoff)
    else if size == 0 || !Fits(opt, size, |b|) || size < 24 then Bad(MalformedOptionalHeader)
    else OptionalHeader(b, coff, opt, size)
  }

  datatype DataDirectory = DataDirectory(va: nat, size: nat)

  function DirectoryAt(b: seq<byte>, h: Header, index: nat): Option<DataDirectory> {
    var off := h.directoryBase + index * 8;
    if index >= h.directoryCount || !Fits(off, 8, |b|) then None
    else
      var va, size := U32(b, off), U32(b, off + 4);
      if va == 0 || size == 0 then None else Some(DataDirectory(va, size))
  }

  // ---------- Sections ----------

  datatype Section = Section(
    name: seq<byte>, virtualSize: nat, virtualAddress: nat, rawSize: nat, rawPointer: nat,
    executable: bool, writable: bool, readable: bool, dataAvailable: bool)
  {
    function Span(): nat {
      if virtualSize > rawSize then virtualSize else rawSize
    }

    predicate Hosts(rva: nat) {
      virtualAddress <= rva < virtualAddress + Span()
    }
  }

  /** The bytes in front of the first NUL. */
  function UntilNul(s: seq<byte>): (r: seq<byte>)
    ensures r <= s && 0 !in r
    ensures |r| < |s| ==> s[|r|] == 0
  {
    if s == [] || s[0] == 0 then []
    else
      var rest := UntilNul(s[1..]);
      assert s == [s[0]] + s[1..];
      [s[0]] + rest
  }

  function SectionAt(b: seq<byte>, o: nat): Section
    requires o + 40 <= |b|
  {
    var flags, size, at := U32(b, o + 36), U32(b, o + 16), U32(b, o + 20);
    Section(UntilNul(b[o..o + 8]), U32(b, o + 8), U32(b, o + 12), size, at,
      HasBit(flags, 0x2000_0000), HasBit(flags, 0x8000_0000), HasBit(flags, 0x4000_0000), size > 0 && Fits(at, size, |b|))
  }

  function SectionTable(b: seq<byte>, start: nat, n: nat): (s: seq<Section>)
    requires start + 40 * n <= |b|
    ensures |s| == n
  {
    if n == 0 then [] else SectionTable(b, start, n - 1) + [SectionAt(b, start + 40 * (n - 1))]
  }

  method ReadName(b: seq<byte>, o: nat) returns (name: seq<byte>)
    requires o + 8 <= |b|
    ensures name == UntilNul(b[o..o + 8])
  {
    name := [];
    var k := 0;
    while k < 8
      invariant k <= 8 && name == b[o..o + k] && 0 !in name
    {
      if b[o + k] == 0 {
        break;
      }
      assert b[o..o + k + 1] == b[o..o + k] + [b[o + k]];
      name := name + [b[o + k]];
      k := k + 1;
    }
    PrefixIsUntilNul(b[o..o + 8], name);
  }

  lemma {:induction false} PrefixIsUntilNul(s: seq<byte>, p: seq<byte>)
    requires p <= s && 0 !in p && (|p| < |s| ==> s[|p|] == 0)
    ensures p == UntilNul(s)
    decreases |s|
  {
    if p != [] {
      assert p[0] != 0 && p == [p[0]] + p[1..];
      PrefixIsUntilNul(s[1..], p[1..]);
    }
  }

  /** The first section that hosts `rva`. */
  function HostOf(sections: seq<Section>, rva: nat, from: nat): (r: Option<nat>)
    requires from <= |sections|
    ensures r.Some? ==> from <= r.value < |sections| && sections[r.value].Hosts(rva)
    ensures r.Some? ==> forall i :: from <= i < r.value ==> !sections[i].Hosts(rva)
    ensures r.None? ==> forall i :: from <= i < |sections| ==> !sections[i].Hosts(rva)
    decreases |sections| - from
  {
    if from == |sections| then None
    else if sections[from].Hosts(rva) then Some(from)
    else HostOf(sections, rva, from + 1)
  }

  method FindHost(sections: seq<Section>, rva: nat) returns (r: Option<nat>)
    ensures r == HostOf(sections, rva, 0)
  {
    for i := 0 to |sections|
      invariant HostOf(sections, rva, 0) == HostOf(sections, rva, i)
    {
      if sections[i].Hosts(rva) {
        return Some(i);
      }
    }
    return None;
  }

  /**
   * An offset handed out has its requested bytes in the file, and lies as far into the raw data of the first hosting
   * section as the address lies into its virtual range.
   */
  function RvaToOffset(sections: seq<Section>, total: nat, rva: nat, size: nat): (r: Option<nat>)
    ensures r.Some? ==> r.value + size <= total
    ensures r.Some? ==>
      exists i :: 0 <= i < |sections| && sections[i].Hosts(rva) && (forall j :: 0 <= j < i ==> !sections[j].Hosts(rva)) &&
        r.value - sections[i].rawPointer == rva - sections[i].virtualAddress
  {
    match HostOf(sections, rva, 0)
    case None => None
    case Some(i) =>
      var off := sections[i].rawPointer + (rva - sections[i].virtualAddress);
      if Fits(off, size, total) then Some(off) else None
  }

  // ---------- Strings ----------

  datatype Text = Unterminated | Text(bytes: seq<byte>)

  /** `readAsciiCString` at an offset inside the file. */
  function CString(b: seq<byte>, o: nat, max: nat): Text
    requires o <= |b|
  {
    var end := if o + max < |b| then o + max else |b|;
    var s := UntilNul(b[o..end]);
    if s == [] then Text([]) else if o + |s| == end then Unterminated else Text(s)
  }

  lemma ScannedIsUntilNul(b: seq<byte>, o: nat, end: nat, maxEnd: nat)
    requires o <= end <= maxEnd <= |b| && 0 !in b[o..end] && (end < maxEnd ==> b[end] == 0)
    ensures UntilNul(b[o..maxEnd]) == b[o..end]
    ensures end > o ==> b[end - 1] != 0
  {
    hide UntilNul;
    assert b[o..maxEnd][..end - o] == b[o..end];
    PrefixIsUntilNul(b[o..maxEnd], b[o..end]);
    if end > o {
      assert b[end - 1] == b[o..end][end - 1 - o];
    }
  }

  method ReadAsciiCString(b: seq<byte>, o: nat, max: nat) returns (r: Text)
    requires o <= |b|
    ensures r == CString(b, o, max)
  {
    hide UntilNul;
    var maxEnd := if o + max < |b| then o + max else |b|;
    var end := o;
    while end < maxEnd && b[end] != 0
      invariant o <= end <= maxEnd && 0 !in b[o..end]
    {
      assert b[o..end + 1] == b[o..end] + [b[end]];
      end := end + 1;
    }
    ScannedIsUntilNul(b, o, end, maxEnd);
    if end == o {
      return Text([]);
    }
    if end >= maxEnd && b[end - 1] != 0 {
      return Unterminated;
    }
    return Text(b[o..end]);
  }

  // ---------- Imports ----------

  datatype DllName = NoName | InvalidName | DllName(bytes: seq<byte>)

  datatype Import = ByOrdinal(dll: DllName, ordinal: nat) | ByName(dll: DllName, name: seq<byte>)

  datatype Image = Image(b: seq<byte>, sections: seq<Section>, is64: bool)
  {
    function Locate(rva: nat, size: nat): (r: Option<nat>)
      ensures r.Some? ==> r.value + size <= |b|
    {
      RvaToOffset(sections, |b|, rva, size)
    }

    function ThunkSize(): nat {
      if is64 then 8 else 4
    }
  }

  /** What a loop collects, and how many iterations of the budget it takes. */
  datatype Collected = Collected(imports: seq<Import>, cost: nat)

  predicate ThunkEnds(img: Image, off: nat) {
    || !Fits(off, img.ThunkSize(), |img.b|)
    || (U32(img.b, off) == 0 && (img.is64 ==> U32(img.b, off + 4) == 0))
  }

  function ThunkImports(img: Image, dll: DllName, off: nat): (r: seq<Import>)
    requires Fits(off, img.ThunkSize(), |img.b|)
    ensures |r| <= 1
  {
    var low := U32(img.b, off);
    var isOrdinal := HasBit(if img.is64 then U32(img.b, off + 4) else low, 0x8000_0000);
    if isOrdinal then [ByOrdinal(dll, low % 0x1_0000)]
    else
      match img.Locate(low, 2)
      case None => []
      case Some(at) =>
        match CString(img.b, at + 2, MAX_IMPORT_NAME)
        case Unterminated => []
        case Text(name) => if name == [] then [] else [ByName(dll, name)]
  }

  function Thunks(img: Image, dll: DllName, off: nat, left: nat): (r: Collected)
    ensures |r.imports| <= left && |r.imports| <= r.cost <= left
    decreases left
  {
    if left == 0 then Collected([], 0)
    else if ThunkEnds(img, off) then Collected([], 1)
    else
      var rest := Thunks(img, dll, off + img.ThunkSize(), left - 1);
      Collected(ThunkImports(img, dll, off) + rest.imports, 1 + rest.cost)
  }

  predicate DescriptorEnds(img: Image, off: nat) {
    || !Fits(off, 20, |img.b|)
    || (U32(img.b, off) == 0 && U32(img.b, off + 12) == 0 && U32(img.b, off + 16) == 0)
  }

  function DllNameAt(img: Image, off: nat): DllName
    requires Fits(off, 20, |img.b|)
  {
    match img.Locate(U32(img.b, off + 12), 1)
    case None => NoName
    case Some(at) =>
      match CString(img.b, at, MAX_DLL_NAME)
      case Unterminated => InvalidName
      case Text(name) => if name == [] then InvalidName else DllName(name)
  }

  /** The thunk list of one descriptor. */
  function DescriptorThunks(img: Image, off: nat): (r: Collected)
    requires Fits(off, 20, |img.b|)
    ensures |r.imports| <= r.cost <= MAX_THUNKS
  {
    var original := U32(img.b, off);
    var rva := if original != 0 then original else U32(img.b, off + 16);
    match img.Locate(rva, img.ThunkSize())
    case None => Collected([], 0)
    case Some(at) => Thunks(img, DllNameAt(img, off), at, MAX_THUNKS)
  }

  function Descriptors(img: Image, off: nat, left: nat): (r: Collected)
    ensures |r.imports| <= r.cost <= left * (1 + MAX_THUNKS)
    decreases left
  {
    if left == 0 then Collected([], 0)
    else if DescriptorEnds(img, off) then Collected([], 1)
    else
      var here := DescriptorThunks(img, off);
      var rest := Descriptors(img, off + 20, left - 1);
      Collected(here.imports + rest.imports, 1 + here.cost + rest.cost)
  }

  /** Everything the import directory stands for, as if the budget were unlimited. */
  function ImportsOf(img: Image, directory: Option<DataDirectory>): (r: Collected)
    ensures |r.imports| <= r.cost
  {
    if directory.None? then Collected([], 0)
    else
      match img.Locate(directory.value.va, 20)
      case None => Collected([], 0)
      case Some(at) => Descriptors(img, at, MAX_DESCRIPTORS)
  }

  function Ordinals(imports: seq<Import>): (n: nat)
    ensures n <= |imports|
  {
    if imports == [] then 0
    else Ordinals(imports[..|imports| - 1]) + if imports[|imports| - 1].ByOrdinal? then 1 else 0
  }

  /** The import lists and counters, filled in as the loops go. */
  datatype ImportState = ImportState(imports: seq<Import>, ordinals: nat, named: nat, iterations: nat)

  ghost predicate Counts(s: ImportState) {
    s.ordinals == Ordinals(s.imports) && s.named == |s.imports| - s.ordinals
  }

  /** `s` is `start` after `done`, with `more` still to come of `whole`. */
  ghost predicate Underway(start: ImportState, s: ImportState, whole: Collected, more: Collected) {
    && Counts(s) && s.imports + more.imports == start.imports + whole.imports
    && s.iterations + more.cost == start.iterations + whole.cost
  }

  lemma AddImport(s: ImportState, i: Import)
    requires Counts(s)
    ensures Counts(ImportState(s.imports + [i], s.ordinals + (if i.ByOrdinal? then 1 else 0),
      s.named + (if i.ByOrdinal? then 0 else 1), s.iterations))
  {
    assert (s.imports + [i])[..|s.imports|] == s.imports;
  }

  method ReadThunk(img: Image, dll: DllName, off: nat, s: ImportState) returns (r: ImportState)
    requires Fits(off, img.ThunkSize(), |img.b|) && Counts(s)
    ensures Counts(r) && r.imports == s.imports + ThunkImports(img, dll, off) && r.iterations == s.iterations
  {
    hide U32;
    r := s;
    var low := U32(img.b, off);
    var high := if img.is64 then U32(img.b, off + 4) else 0;
    var isOrdinal := if img.is64 then HasBit(high, 0x8000_0000) else HasBit(low, 0x8000_0000);
    assert s.imports + [] == s.imports;
    if isOrdinal {
      AddImport(s, ByOrdinal(dll, low % 0x1_0000));
      r := ImportState(s.imports + [ByOrdinal(dll, low % 0x1_0000)], s.ordinals + 1, s.named, s.iterations);
    } else {
      var at := img.Locate(low, 2);
      if at.Some? {
        var name := ReadAsciiCString(img.b, at.value + 2, MAX_IMPORT_NAME);
        if name.Text? && name.bytes != [] {
          AddImport(s, ByName(dll, name.bytes));
          r := ImportState(s.imports + [ByName(dll, name.bytes)], s.ordinals, s.named + 1, s.iterations);
        }
      }
    }
  }

  /** The inner loop; `ok` is false when the budget error is thrown. */
  method ReadThunks(img: Image, dll: DllName, start: nat, s0: ImportState) returns (ok: bool, s: ImportState)
    requires Counts(s0)
    ensures var whole := Thunks(img, dll, start, MAX_THUNKS);
      && (ok ==> Underway(s0, s, whole, Collected([], 0)))
      && (!ok ==> s0.iterations + whole.cost > MAX_ITERATIONS)
      && (ok && s0.iterations <= MAX_ITERATIONS ==> s.iterations <= MAX_ITERATIONS)
  {
    hide Thunks, ThunkImports, ThunkEnds, Counts;
    ghost var whole := Thunks(img, dll, start, MAX_THUNKS);
    s := s0;
    var off: nat := start;
    var count := 0;
    while count < MAX_THUNKS
      invariant count <= MAX_THUNKS
      invariant Underway(s0, s, whole, Thunks(img, dll, off, MAX_THUNKS - count))
      invariant s0.iterations <= MAX_ITERATIONS ==> s.iterations <= MAX_ITERATIONS
    {
      ThunksStep(img, dll, off, MAX_THUNKS - count);
      SameCounts(s, s.iterations + 1);
      s := s.(iterations := s.iterations + 1);
      if s.iterations > MAX_ITERATIONS {
        return false, s;
      }
      count := count + 1;
      if ThunkEnds(img, off) {
        break;
      }
      s := ReadThunk(img, dll, off, s);
      off := off + img.ThunkSize();
    }
    assert Thunks(img, dll, off, 0) == Collected([], 0) by {
      NoThunksLeft(img, dll, off);
    }
    return true, s;
  }

  lemma ThunksStep(img: Image, dll: DllName, off: nat, left: nat)
    requires left > 0
    ensures ThunkEnds(img, off) ==> Thunks(img, dll, off, left) == Collected([], 1)
    ensures !ThunkEnds(img, off) ==>
      var rest := Thunks(img, dll, off + img.ThunkSize(), left - 1);
      && Fits(off, img.ThunkSize(), |img.b|)
      && Thunks(img, dll, off, left) == Collected(ThunkImports(img, dll, off) + rest.imports, 1 + rest.cost)
  {
    hide ThunkImports;
  }

  lemma NoThunksLeft(img: Image, dll: DllName, off: nat)
    ensures Thunks(img, dll, off, 0) == Collected([], 0)
  {
  }

  lemma SameCounts(s: ImportState, iterations: nat)
    requires Counts(s)
    ensures Counts(s.(iterations := iterations))
  {
  }

  method ReadDllName(img: Image, off: nat) returns (r: DllName)
    requires Fits(off, 20, |img.b|)
    ensures r == DllNameAt(img, off)
  {
    hide U32;
    var at := img.Locate(U32(img.b, off + 12), 1);
    if at.None? {
      return NoName;
    }
    var name := ReadAsciiCString(img.b, at.value, MAX_DLL_NAME);
    return if name.Text? && name.bytes != [] then DllName(name.bytes) else InvalidName;
  }

  /** The body of the outer loop for one descriptor that does not end the table. */
  method ReadDescriptor(img: Image, off: nat, s0: ImportState) returns (ok: bool, s: ImportState)
    requires !DescriptorEnds(img, off) && Fits(off, 20, |img.b|) && Counts(s0) && s0.iterations <= MAX_ITERATIONS
    ensures var here := DescriptorThunks(img, off);
      && (ok ==> Counts(s) && s.imports == s0.imports + here.imports)
      && (ok ==> s.iterations == s0.iterations + here.cost <= MAX_ITERATIONS)
      && (!ok ==> s0.iterations + here.cost > MAX_ITERATIONS)
  {
    hide U32, Thunks, DllNameAt, DescriptorEnds, Counts;
    var dll := ReadDllName(img, off);
    var original := U32(img.b, off);
    var at := img.Locate(if original != 0 then original else U32(img.b, off + 16), img.ThunkSize());
    if at.None? {
      assert s0.imports + [] == s0.imports;
      return true, s0;
    }
    ok, s := ReadThunks(img, dll, at.value, s0);
    assert ok ==> s.imports + [] == s.imports;
  }

  lemma DescriptorsStep(img: Image, off: nat, left: nat)
    requires left > 0 && !DescriptorEnds(img, off)
    ensures Fits(off, 20, |img.b|)
    ensures var here, rest := DescriptorThunks(img, off), Descriptors(img, off + 20, left - 1);
      Descriptors(img, off, left) == Collected(here.imports + rest.imports, 1 + here.cost + rest.cost)
  {
    hide DescriptorThunks;
  }

  lemma DescriptorsEnd(img: Image, off: nat)
    ensures Descriptors(img, off, 0) == Collected([], 0)
    ensures forall left: nat :: left > 0 && DescriptorEnds(img, off) ==> Descriptors(img, off, left) == Collected([], 1)
  {
    hide DescriptorThunks;
  }

  method ReadImports(img: Image, start: nat, iterations: nat) returns (ok: bool, s: ImportState)
    requires iterations <= MAX_ITERATIONS
    ensures var whole := Descriptors(img, start, MAX_DESCRIPTORS);
      && (ok <==> iterations + whole.cost <= MAX_ITERATIONS)
      && (ok ==> Counts(s) && s.imports == whole.imports && s.iterations == iterations + whole.cost)
  {
    hide Descriptors, DescriptorThunks, DescriptorEnds, Counts;
    ghost var whole := Descriptors(img, start, MAX_DESCRIPTORS);
    ghost var s0 := ImportState([], 0, 0, iterations);
    s := ImportState([], 0, 0, iterations);
    NothingCounted(iterations);
    assert [] + whole.imports == whole.imports;
    var off: nat := start;
    var count := 0;
    while count < MAX_DESCRIPTORS
      invariant count <= MAX_DESCRIPTORS && s.iterations <= MAX_ITERATIONS
      invariant Underway(s0, s, whole, Descriptors(img, off, MAX_DESCRIPTORS - count))
    {
      DescriptorsEnd(img, off);
      ghost var more := Descriptors(img, off, MAX_DESCRIPTORS - count);
      if DescriptorEnds(img, off) {
        assert more == Collected([], 1);
      } else {
        DescriptorsStep(img, off, MAX_DESCRIPTORS - count);
      }
      SameCounts(s, s.iterations + 1);
      s := s.(iterations := s.iterations + 1);
      if s.iterations > MAX_ITERATIONS {
        return false, s;
      }
      count := count + 1;
      if DescriptorEnds(img, off) {
        break;
      }
      ok, s := ReadDescriptor(img, off, s);
      if !ok {
        return false, s;
      }
      off := off + 20;
    }
    DescriptorsEnd(img, off);
    assert s.imports + [] == s.imports;
    return true, s;
  }

  lemma NothingCounted(iterations: nat)
    ensures Counts(ImportState([], 0, 0, iterations))
  {
  }

  // ---------- TLS callbacks ----------

  datatype TlsInfo = NoTls | Present(callbacks: Option<nat>, noted: bool)

  /** The callbacks from `off` on: how many, whether an unsafe pointer ended the array, and the iterations taken. */
  datatype Callbacks = Callbacks(count: nat, unsafePointer: bool, cost: nat)

  function PointerAt(img: Image, off: nat): Option<nat>
    requires Fits(off, img.ThunkSize(), |img.b|)
  {
    if img.is64 then U64Safe(img.b, off) else Some(U32(img.b, off))
  }

  function CallbacksFrom(img: Image, off: nat, left: nat): (r: Callbacks)
    ensures r.count <= left && r.count <= r.cost <= left && (r.unsafePointer ==> r.count < r.cost)
    decreases left
  {
    if left == 0 then Callbacks(0, false, 0)
    else if !Fits(off, img.ThunkSize(), |img.b|) then Callbacks(0, false, 1)
    else if PointerAt(img, off).None? then Callbacks(0, true, 1)
    else if PointerAt(img, off).value == 0 then Callbacks(0, false, 1)
    else
      var rest := CallbacksFrom(img, off + img.ThunkSize(), left - 1);
      Callbacks(1 + rest.count, rest.unsafePointer, 1 + rest.cost)
  }

  /** Where the callback array lies: nothing to walk, an array offset, or a remark instead. */
  datatype CallbackArray = Nothing | Remark | Array(offset: nat)

  function FindCallbacks(img: Image, directory: DataDirectory, imageBase: Option<nat>): CallbackArray {
    match img.Locate(directory.va, if img.is64 then 40 else 24)
    case None => Nothing
    case Some(at) =>
      if imageBase.None? then Nothing
      else
        var va := if img.is64 then U64Safe(img.b, at + 24) else Some(U32(img.b, at + 12));
        if va.None? then Remark
        else if va.value <= imageBase.value then Nothing
        else
          match img.Locate(va.value - imageBase.value, img.ThunkSize())
          case None => Remark
          case Some(off) => Array(off)
  }

  /** One look at the array: `Some(x)` when the walk ends here with outcome `x`. */
  function CallbackHere(img: Image, off: nat): Option<Callbacks> {
    if !Fits(off, img.ThunkSize(), |img.b|) then Some(Callbacks(0, false, 1))
    else if PointerAt(img, off).None? then Some(Callbacks(0, true, 1))
    else if PointerAt(img, off).value == 0 then Some(Callbacks(0, false, 1))
    else None
  }

  lemma CallbacksStep(img: Image, off: nat, left: nat)
    requires left > 0
    ensures var rest := CallbacksFrom(img, off + img.ThunkSize(), left - 1);
      CallbacksFrom(img, off, left) == match CallbackHere(img, off)
        case Some(last) => last
        case None => Callbacks(1 + rest.count, rest.unsafePointer, 1 + rest.cost)
  {
    hide PointerAt;
  }

  /** The loop over the callback array; `ok` is false when the budget error is thrown. */
  method WalkCallbacks(img: Image, start: nat, iterations: nat)
    returns (ok: bool, count: nat, unsafePointer: bool, used: nat)
    requires iterations <= MAX_ITERATIONS
    ensures var all := CallbacksFrom(img, start, MAX_CALLBACKS);
      && (ok <==> iterations + all.cost <= MAX_ITERATIONS)
      && (ok ==> count == all.count && unsafePointer == all.unsafePointer && used == iterations + all.cost)
    ensures count <= MAX_CALLBACKS
  {
    hide CallbacksFrom, PointerAt;
    ghost var all := CallbacksFrom(img, start, MAX_CALLBACKS);
    var off: nat := start;
    count, unsafePointer, used := 0, false, iterations;
    while count < MAX_CALLBACKS
      invariant count <= MAX_CALLBACKS && !unsafePointer && used == iterations + count <= MAX_ITERATIONS
      invariant var more := CallbacksFrom(img, off, MAX_CALLBACKS - count);
        all == Callbacks(count + more.count, more.unsafePointer, count + more.cost)
    {
      CallbacksStep(img, off, MAX_CALLBACKS - count);
      used := used + 1;
      if used > MAX_ITERATIONS {
        return false, count, unsafePointer, used;
      }
      if !Fits(off, img.ThunkSize(), |img.b|) {
        return true, count, unsafePointer, used;
      }
      var pointer := PointerAt(img, off);
      if pointer.None? {
        return true, count, true, used;
      }
      if pointer.value == 0 {
        return true, count, unsafePointer, used;
      }
      count := count + 1;
      off := off + img.ThunkSize();
    }
    return true, count, unsafePointer, used;
  }

  /** What the parser reports about TLS when the budget stands at `iterations`; an overrun is caught here. */
  function TlsOf(img: Image, directory: Option<DataDirectory>, imageBase: Option<nat>, iterations: nat): (r: TlsInfo)
    ensures r.Present? && r.callbacks.Some? ==> r.callbacks.value <= MAX_CALLBACKS
  {
    if directory.None? then NoTls
    else
      match FindCallbacks(img, directory.value, imageBase)
      case Nothing => Present(None, false)
      case Remark => Present(None, true)
      case Array(off) =>
        var all := CallbacksFrom(img, off, MAX_CALLBACKS);
        if iterations + all.cost > MAX_ITERATIONS then Present(None, true)
        else Present(Some(all.count), all.unsafePointer)
  }

  method ReadTls(img: Image, directory: Option<DataDirectory>, imageBase: Option<nat>, iterations: nat) returns (r: TlsInfo)
    requires iterations <= MAX_ITERATIONS
    ensures r == TlsOf(img, directory, imageBase, iterations)
  {
    hide FindCallbacks, CallbacksFrom;
    if directory.None? {
      return NoTls;
    }
    match FindCallbacks(img, directory.value, imageBase) {
      case Nothing => return Present(None, false);
      case Remark => return Present(None, true);
      case Array(off) =>
        var ok, count, unsafePointer, used := WalkCallbacks(img, off, iterations);
        return if ok then Present(Some(count), unsafePointer) else Present(None, true);
    }
  }

  // ---------- Overlay ----------

  datatype Overlay = NoOverlay | Overlay(offset: nat, size: nat)

  function SectionsEnd(sections: seq<Section>, least: nat): (end: nat)
    ensures end >= least
    ensures forall i :: 0 <= i < |sections| && sections[i].rawSize > 0 ==> sections[i].rawPointer + sections[i].rawSize <= end
  {
    if sections == [] then least
    else
      var before, s := SectionsEnd(sections[..|sections| - 1], least), sections[|sections| - 1];
      assert forall i :: 0 <= i < |sections| - 1 ==> sections[i] == sections[..|sections| - 1][i];
      if s.rawSize > 0 && s.rawPointer + s.rawSize > before then s.rawPointer + s.rawSize else before
  }

  method FindOverlay(sections: seq<Section>, headersEnd: nat, total: nat) returns (r: Overlay)
    ensures r == if SectionsEnd(sections, headersEnd) < total
      then Overlay(SectionsEnd(sections, headersEnd), total - SectionsEnd(sections, headersEnd)) else NoOverlay
  {
    var end := headersEnd;
    for i := 0 to |sections|
      invariant end == SectionsEnd(sections[..i], headersEnd)
    {
      assert sections[..i + 1][..i] == sections[..i];
      if sections[i].rawSize > 0 && sections[i].rawPointer + sections[i].rawSize > end {
        end := sections[i].rawPointer + sections[i].rawSize;
      }
    }
    assert sections[..|sections|] == sections;
    return if end < total then Overlay(end, total - end) else NoOverlay;
  }

  // ---------- The parser ----------

  datatype Parsed =
    | Invalid(code: ErrorCode)
    | Valid(header: Header, sections: seq<Section>, entrySection: Option<nat>, imports: seq<Import>,
        ordinals: nat, named: nat, tls: TlsInfo, resourceSection: Option<Option<nat>>, certificate: Option<nat>,
        overlay: Overlay)

  function ImageOf(b: seq<byte>, h: Header): Image
    requires h.sectionTable + 40 * h.sectionCount <= |b|
  {
    Image(b, SectionTable(b, h.sectionTable, h.sectionCount), h.is64)
  }

  /** The certificate table's size, when its file range is inside the file; its address is an offset, not an RVA. */
  function CertificateOf(b: seq<byte>, h: Header): Option<nat> {
    var off := h.directoryBase + 32;
    if h.directoryCount <= 4 || !Fits(off, 8, |b|) then None
    else
      var at, size := U32(b, off), U32(b, off + 4);
      if at > 0 && size > 0 && Fits(at, size, |b|) then Some(size) else None
  }

  /** The iterations spent up to the import table; only they can end the parse. */
  function Cost(b: seq<byte>, h: Header): nat
    requires h.sectionTable + 40 * h.sectionCount <= |b|
  {
    h.sectionCount + ImportsOf(ImageOf(b, h), DirectoryAt(b, h, 1)).cost
  }

  function ParseResult(b: seq<byte>): Parsed {
    match ReadHeaders(b)
    case Bad(code) => Invalid(code)
    case Good(h) =>
      if Cost(b, h) > MAX_ITERATIONS then Invalid(ParserLimitReached)
      else
        var img := ImageOf(b, h);
        var imports := ImportsOf(img, DirectoryAt(b, h, 1)).imports;
        var end := SectionsEnd(img.sections, h.sectionTable + 40 * h.sectionCount);
        var resource := DirectoryAt(b, h, 2);
        Valid(h, img.sections,
          if h.entryPointRva.None? then None else HostOf(img.sections, h.entryPointRva.value, 0),
          imports, Ordinals(imports), |imports| - Ordinals(imports),
          TlsOf(img, DirectoryAt(b, h, 9), h.imageBase, Cost(b, h)),
          if resource.None? then None else Some(HostOf(img.sections, resource.value.va, 0)),
          CertificateOf(b, h), if end < |b| then Overlay(end, |b| - end) else NoOverlay)
  }

  method ReadSections(b: seq<byte>, start: nat, n: nat) returns (sections: seq<Section>, iterations: nat)
    requires start + 40 * n <= |b| && n <= MAX_SECTIONS
    ensures sections == SectionTable(b, start, n) && iterations == n
  {
    hide U32, HasBit;
    sections, iterations := [], 0;
    for i := 0 to n
      invariant sections == SectionTable(b, start, i) && iterations == i
    {
      iterations := iterations + 1;
      var o := start + i * 40;
      var name := ReadName(b, o);
      var flags := U32(b, o + 36);
      var size, at := U32(b, o + 16), U32(b, o + 20);
      var s := Section(name, U32(b, o + 8), U32(b, o + 12), size, at,
        HasBit(flags, 0x2000_0000), HasBit(flags, 0x8000_0000), HasBit(flags, 0x4000_0000), size > 0 && Fits(at, size, |b|));
      assert s == SectionAt(b, start + 40 * i);
      sections := sections + [s];
    }
  }

  /** The import directory, when there is one that can be located. */
  method ReadImportDirectory(img: Image, directory: Option<DataDirectory>, iterations: nat) returns (ok: bool, s: ImportState)
    requires iterations <= MAX_ITERATIONS
    ensures var whole := ImportsOf(img, directory);
      && (ok <==> iterations + whole.cost <= MAX_ITERATIONS)
      && (ok ==> s.imports == whole.imports && s.iterations == iterations + whole.cost)
      && (ok ==> s.ordinals == Ordinals(s.imports) && s.named == |s.imports| - s.ordinals)
  {
    hide Descriptors, Ordinals, Image.Locate;
    ok, s := true, ImportState([], 0, 0, iterations);
    NothingCounted(iterations);
    if directory.Some? {
      var at := img.Locate(directory.value.va, 20);
      if at.Some? {
        ok, s := ReadImports(img, at.value, iterations);
      }
    }
  }

  method ParsePeStructure(b: seq<byte>) returns (r: Parsed)
    ensures r == ParseResult(b)
  {
    hide U32, U16, ReadHeaders, SectionTable, ImportsOf, TlsOf, SectionsEnd, HostOf, Ordinals, DirectoryAt, CertificateOf;
    var headers := ReadHeaders(b);
    if headers.Bad? {
      return Invalid(headers.code);
    }
    var h := headers.header;
    var sections, iterations := ReadSections(b, h.sectionTable, h.sectionCount);
    var img := Image(b, sections, h.is64);
    var entrySection: Option<nat> := None;
    if h.entryPointRva.Some? {
      entrySection := FindHost(sections, h.entryPointRva.value);
    }
    var ok, state := ReadImportDirectory(img, DirectoryAt(b, h, 1), iterations);
    if !ok {
      return Invalid(ParserLimitReached);
    }
    var tls := ReadTls(img, DirectoryAt(b, h, 9), h.imageBase, state.iterations);
    var resource := DirectoryAt(b, h, 2);
    var resourceSection: Option<Option<nat>> := None;
    if resource.Some? {
      var host := FindHost(sections, resource.value.va);
      resourceSection := Some(host);
    }
    var overlay := FindOverlay(sections, h.sectionTable + 40 * h.sectionCount, |b|);
    return Valid(h, sections, entrySection, state.imports, state.ordinals, state.named, tls, resourceSection,
      CertificateOf(b, h), overlay);
  }

  // ---------- Properties ----------

  /** Whatever the bytes, the reported collections stay within their caps. */
  lemma CapsHold(b: seq<byte>)
    requires ParseResult(b).Valid?
    ensures var r := ParseResult(b);
      && 0 < |r.sections| <= MAX_SECTIONS && r.header.directoryCount <= MAX_DIRECTORIES
      && |r.imports| <= MAX_ITERATIONS - |r.sections| && r.ordinals + r.named == |r.imports|
      && (r.tls.Present? && r.tls.callbacks.Some? ==> r.tls.callbacks.value <= MAX_CALLBACKS)
  {
    hide ReadHeaders, Descriptors, TlsOf, HostOf, SectionsEnd, CertificateOf, U16, U32;
  }

  /** A reported overlay reaches to the end of the file and meets neither the headers nor any section's raw range. */
  lemma OverlayIsOutside(b: seq<byte>)
    requires ParseResult(b).Valid? && ParseResult(b).overlay.Overlay?
    ensures var r := ParseResult(b);
      && r.overlay.size > 0 && r.overlay.offset + r.overlay.size == |b|
      && r.header.sectionTable + 40 * |r.sections| <= r.overlay.offset
      && forall i :: 0 <= i < |r.sections| && r.sections[i].rawSize > 0 ==>
           r.sections[i].rawPointer + r.sections[i].rawSize <= r.overlay.offset
  {
    hide ReadHeaders, Cost, ImportsOf, TlsOf, HostOf, CertificateOf, Ordinals;
  }

  // ---------- How much a file can cost ----------

  /** How often `step` bytes fit between `off` and the end. */
  function Room(img: Image, off: nat, step: nat): nat
    requires step > 0
  {
    if off <= |img.b| then (|img.b| - off) / step else 0
  }

  lemma {:induction false} ThunksCostAtMost(img: Image, dll: DllName, off: nat, left: nat)
    ensures Thunks(img, dll, off, left).cost <= 1 + Room(img, off, 4)
    decreases left
  {
    hide ThunkImports, U32;
    if left > 0 && !ThunkEnds(img, off) {
      ThunksCostAtMost(img, dll, off + img.ThunkSize(), left - 1);
    }
  }

  lemma DescriptorCostAtMost(img: Image, off: nat)
    requires Fits(off, 20, |img.b|)
    ensures 1 + DescriptorThunks(img, off).cost <= 2 + |img.b| / 4
  {
    hide Thunks, U32, DllNameAt;
    var original := U32(img.b, off);
    var rva := if original != 0 then original else U32(img.b, off + 16);
    var at := img.Locate(rva, img.ThunkSize());
    if at.Some? {
      ThunksCostAtMost(img, DllNameAt(img, off), at.value, MAX_THUNKS);
    }
  }

  lemma MoreRoom(img: Image, off: nat, each: nat)
    requires Fits(off, 20, |img.b|)
    ensures each * (1 + Room(img, off, 20)) == each + each * (1 + Room(img, off + 20, 20))
  {
    assert Room(img, off, 20) == 1 + Room(img, off + 20, 20);
  }

  lemma {:induction false} DescriptorsCostAtMost(img: Image, off: nat, left: nat)
    ensures Descriptors(img, off, left).cost <= (2 + |img.b| / 4) * (1 + Room(img, off, 20))
    decreases left
  {
    hide DescriptorThunks, U32, Room;
    if left > 0 && !DescriptorEnds(img, off) {
      DescriptorCostAtMost(img, off);
      DescriptorsCostAtMost(img, off + 20, left - 1);
      MoreRoom(img, off, 2 + |img.b| / 4);
    }
  }

  lemma Product(x: nat, y: nat, u: nat)
    requires x <= y
    ensures u * x <= u * y && x * u <= y * u
  {
  }

  /** The iterations grow at most with the square of the size of the file. */
  lemma CostAtMost(b: seq<byte>)
    requires ReadHeaders(b).Good?
    ensures Cost(b, ReadHeaders(b).header) <= MAX_SECTIONS + (2 + |b| / 4) * (1 + |b| / 20)
  {
    hide Descriptors, U32, U16, ReadHeaders, SectionTable, DirectoryAt, Image.Locate;
    var h := ReadHeaders(b).header;
    var img, directory := ImageOf(b, h), DirectoryAt(b, h, 1);
    Product(0, 1 + |b| / 20, 2 + |b| / 4);
    if directory.Some? && img.Locate(directory.value.va, 20).Some? {
      var at := img.Locate(directory.value.va, 20).value;
      DescriptorsCostAtMost(img, at, MAX_DESCRIPTORS);
      Product(1 + Room(img, at, 20), 1 + |b| / 20, 2 + |b| / 4);
    }
  }

  /** A small file never reaches the limit: with sound headers it is always parsed to the end. */
  lemma SmallFilesAreParsed(b: seq<byte>)
    requires |b| < 3992
    ensures ParseResult(b).Valid? <==> ReadHeaders(b).Good?
    ensures ParseResult(b) != Invalid(ParserLimitReached)
  {
    hide ReadHeaders, Cost, ImportsOf, TlsOf, HostOf, SectionsEnd, CertificateOf, Ordinals;
    if ReadHeaders(b).Good? {
      CostAtMost(b);
      Product(|b| / 20, 199, 2 + |b| / 4);
      Product(2 + |b| / 4, 999, 200);
    }
  }
}
