/**
 * A writer of whole PE files, 32-bit and 64-bit: headers, one section with imports and TLS callbacks, and a signature behind
 * it. The parser reports exactly what was written, or exceeds its budget exactly when the imports are too many.
 */
module PeRoundTrip {
  import opened Prelude
  import opened Octets
  import opened PeParser
  import opened PeImports

  /** What the file says; `callbacks` are the addresses of its TLS callbacks. */
  datatype Pe = Pe(
    is64: bool, isDll: bool, timestamp: nat, entry: nat, base: nat, executable: bool, writable: bool, readable: bool,
    libraries: seq<Library>, callbacks: Option<seq<nat>>, signature: seq<byte>)

  // ---------- TLS ----------

  /** Addresses below it are read back: a 64-bit pointer must be a safe integer. */
  function PointerLimit(is64: bool): nat {
    if is64 then 0x20_0000_0000_0000 else 0x1_0000_0000
  }

  /** An address as wide as the file's pointers. */
  function Pointer(is64: bool, n: nat): (p: seq<byte>)
    ensures |p| == ThunkSize(is64)
  {
    if is64 then Bytes(Word(n % 0x1_0000_0000)) + Bytes(Word(n / 0x1_0000_0000)) else Bytes(Word(n))
  }

  function Pointers(is64: bool, ns: seq<nat>): (p: seq<byte>)
    ensures |p| == ListSize(is64, |ns|)
  {
    if ns == [] then Pointer(is64, 0) else Pointer(is64, ns[0]) + Pointers(is64, ns[1..])
  }

  function TlsSize(is64: bool): nat {
    if is64 then 40 else 24
  }

  /** The TLS directory, whose callback array follows at once, loaded at `rva` of an image at `base`. */
  function TlsDirectory(is64: bool, base: nat, rva: nat): (d: seq<byte>)
    ensures |d| == TlsSize(is64)
  {
    Bytes(Zeros(if is64 then 24 else 12)) + Pointer(is64, base + rva + TlsSize(is64)) + Bytes(Zeros(8))
  }

  function TlsPart(pe: Pe, rva: nat): seq<byte> {
    if pe.callbacks.None? then [] else TlsDirectory(pe.is64, pe.base, rva) + Pointers(pe.is64, pe.callbacks.value)
  }

  // ---------- The file ----------

  function TlsRva(pe: Pe): nat {
    BASE + |ImportSection(pe.is64, pe.libraries)|
  }

  function Contents(pe: Pe): seq<byte> {
    ImportSection(pe.is64, pe.libraries) + TlsPart(pe, TlsRva(pe))
  }

  /** A 64-bit optional header is this much longer. */
  function Wider(is64: bool): nat {
    if is64 then 0x10 else 0
  }

  /** The size of the headers, where the section starts. */
  function HeadSize(is64: bool): nat {
    0x160 + Wider(is64)
  }

  /** The numbers that go into the headers. */
  datatype Head = Head(
    is64: bool, isDll: bool, timestamp: nat, entry: nat, base: nat, flags: nat, span: nat, tableSize: nat, tls: Option<nat>,
    signed: nat)

  function SectionFlags(pe: Pe): nat {
    (if pe.executable then 0x2000_0000 else 0) + (if pe.readable then 0x4000_0000 else 0)
      + (if pe.writable then 0x8000_0000 else 0)
  }

  function HeadOf(pe: Pe): Head {
    Head(pe.is64, pe.isDll, pe.timestamp, pe.entry, pe.base, SectionFlags(pe), |Contents(pe)|, 20 * (|pe.libraries| + 1),
      if pe.callbacks.Some? then Some(TlsRva(pe)) else None, |pe.signature|)
  }

  /** The four bytes of the headers at `o`: DOS header, PE signature, COFF header and the fixed part of the optional header. */
  function FirstWords(h: Head, o: nat): nat {
    if o == 0 then 0x5a4d
    else if o == 0x3c then 0x40
    else if o == 0x40 then 0x4550
    else if o == 0x44 then (if h.is64 then 0x8664 else 0x14c) + 0x1_0000 * 1
    else if o == 0x48 then h.timestamp
    else if o == 0x54 then 0xe0 + Wider(h.is64) + 0x1_0000 * if h.isDll then 0x2002 else 2
    else if o == 0x58 then if h.is64 then 0x20b else 0x10b
    else if o == 0x68 then h.entry
    else if o == 0x70 then if h.is64 then h.base % 0x1_0000_0000 else 0
    else if o == 0x74 then if h.is64 then h.base / 0x1_0000_0000 else h.base
    else 0
  }

  /** The data directories and the one section header, at their places in a 32-bit file. */
  function LastWords(h: Head, o: nat): nat {
    if o == 0xb4 then MAX_DIRECTORIES
    else if o == 0xc0 then BASE
    else if o == 0xc4 then h.tableSize
    else if o == 0xd8 then if h.signed > 0 then HeadSize(h.is64) + h.span else 0
    else if o == 0xdc then h.signed
    else if o == 0x100 then if h.tls.Some? then h.tls.value else 0
    else if o == 0x104 then if h.tls.Some? then TlsSize(h.is64) else 0
    else if o == 0x138 then 0x6164_692e
    else if o == 0x13c then 0x6174
    else if o == 0x140 then h.span
    else if o == 0x144 then BASE
    else if o == 0x148 then h.span
    else if o == 0x14c then HeadSize(h.is64)
    else if o == 0x15c then h.flags
    else 0
  }

  function HeaderWord(h: Head, o: nat): nat {
    if o < 0x78 then FirstWords(h, o) else if o < 0xb4 + Wider(h.is64) then 0 else LastWords(h, o - Wider(h.is64))
  }

  function Digit(n: nat, k: nat): Octet {
    if k == 0 then Lo(n) else if k == 1 then Hi(n) else if k == 2 then Lo2(n) else Hi2(n)
  }

  function Headers(h: Head): (b: seq<byte>)
    ensures |b| == HeadSize(h.is64)
  {
    seq(HeadSize(h.is64), i requires 0 <= i < HeadSize(h.is64) => ByteOf(Digit(HeaderWord(h, i - i % 4), i % 4)))
  }

  function WritePe(pe: Pe): seq<byte> {
    Headers(HeadOf(pe)) + Contents(pe) + pe.signature
  }

  ghost predicate Writable(pe: Pe) {
    && (forall l :: l in pe.libraries ==> ValidLibrary(l)) && |pe.libraries| < MAX_DESCRIPTORS
    && pe.timestamp < 0x1_0000_0000 && pe.entry < 0x1_0000_0000 && |pe.signature| < 0x1_0000_0000
    && BASE + |Contents(pe)| < ORDINAL_FLAG && pe.base + BASE + |Contents(pe)| <= PointerLimit(pe.is64)
    && (pe.callbacks.Some? ==>
          |pe.callbacks.value| < MAX_CALLBACKS && forall n :: n in pe.callbacks.value ==> 0 < n < PointerLimit(pe.is64))
  }

  // ---------- The headers read back ----------

  /** The file starts with these headers. */
  ghost predicate Headed(b: seq<byte>, h: Head) {
    Headers(h) <= b
  }

  ghost predicate SmallHead(h: Head) {
    && h.timestamp < 0x1_0000_0000 && h.entry < 0x1_0000_0000 && h.signed < 0x1_0000_0000 && BASE + h.span < ORDINAL_FLAG
    && 0 < h.tableSize < 0x1_0000_0000 && h.flags < 0x1_0000_0000 && (h.tls.Some? ==> 0 < h.tls.value < 0x1_0000_0000)
    && h.base < PointerLimit(h.is64)
  }

  lemma WordIsSmall(h: Head, o: nat)
    requires SmallHead(h)
    ensures HeaderWord(h, o) < 0x1_0000_0000
  {
  }

  lemma HeaderByte(b: seq<byte>, h: Head, o: nat, k: nat)
    requires Headed(b, h) && o % 4 == 0 && k < 4 && o + 4 <= HeadSize(h.is64)
    ensures o + 4 <= |b| && b[o + k] as int == Digit(HeaderWord(h, o), k)
  {
    hide HeaderWord, Digit;
    assert (o + k) % 4 == k && b[o + k] == Headers(h)[o + k];
  }

  lemma HeaderReads(b: seq<byte>, h: Head, o: nat)
    requires Headed(b, h) && SmallHead(h) && o % 4 == 0 && o + 4 <= HeadSize(h.is64)
    ensures o + 4 <= |b| && U32(b, o) == HeaderWord(h, o)
    ensures U16(b, o) == HeaderWord(h, o) % 0x1_0000 && U16(b, o + 2) == HeaderWord(h, o) / 0x1_0000
  {
    var w := HeaderWord(h, o);
    WordIsSmall(h, o);
    hide HeaderWord, Headed, Headers, Lo, Hi, Lo2, Hi2, SmallHead, U16, U32;
    HeaderByte(b, h, o, 0);
    HeaderByte(b, h, o, 1);
    HeaderByte(b, h, o, 2);
    HeaderByte(b, h, o, 3);
    OctetsRead(b, o, w);
  }

  lemma HeadersFit(b: seq<byte>, h: Head)
    requires Headed(b, h)
    ensures |b| >= HeadSize(h.is64)
  {
  }

  lemma FirstFields(b: seq<byte>, h: Head)
    requires Headed(b, h) && SmallHead(h)
    ensures |b| >= HeadSize(h.is64)
    ensures U16(b, 0) == 0x5a4d && U32(b, 0x3c) == 0x40 && U32(b, 0x40) == 0x4550 && U16(b, 0x46) == 1
    ensures U32(b, 0x48) == h.timestamp && U16(b, 0x54) == 0xe0 + Wider(h.is64)
    ensures U16(b, 0x56) == (if h.isDll then 0x2002 else 2) && U16(b, 0x58) == (if h.is64 then 0x20b else 0x10b)
    ensures U32(b, 0x68) == h.entry
  {
    hide U16, U32, Headers, Headed, SmallHead;
    HeadersFit(b, h);
    HeaderReads(b, h, 0);
    HeaderReads(b, h, 0x3c);
    HeaderReads(b, h, 0x40);
    HeaderReads(b, h, 0x44);
    HeaderReads(b, h, 0x48);
    HeaderReads(b, h, 0x54);
    HeaderReads(b, h, 0x58);
    HeaderReads(b, h, 0x68);
  }

  lemma BaseReads(b: seq<byte>, h: Head)
    requires Headed(b, h) && SmallHead(h)
    ensures |b| >= HeadSize(h.is64)
    ensures (h.is64 ==> U64Safe(b, 0x70) == Some(h.base)) && (!h.is64 ==> U32(b, 0x74) == h.base)
  {
    hide U16, U32, Headers, Headed;
    HeadersFit(b, h);
    HeaderReads(b, h, 0x70);
    HeaderReads(b, h, 0x74);
  }

  function HeaderFor(h: Head): Header {
    Header(h.is64, h.isDll, h.timestamp, 1, 0x138 + Wider(h.is64), 0xb8 + Wider(h.is64), MAX_DIRECTORIES, Some(h.entry), Some(h.base))
  }

  lemma HeadersReadBack(b: seq<byte>, h: Head)
    requires Headed(b, h) && SmallHead(h)
    ensures ReadHeaders(b) == Good(HeaderFor(h))
  {
    hide U16, U32, Headers, U64Safe, HeaderWord, Headed, SmallHead;
    FirstFields(b, h);
    BaseReads(b, h);
    CountReads(b, h);
  }

  lemma CountReads(b: seq<byte>, h: Head)
    requires Headed(b, h) && SmallHead(h)
    ensures |b| >= HeadSize(h.is64) && U32(b, 0xb4 + Wider(h.is64)) == MAX_DIRECTORIES
  {
    hide U16, U32, Headers, Headed, SmallHead;
    HeadersFit(b, h);
    HeaderReads(b, h, 0xb4 + Wider(h.is64));
  }

  /** The directories the parser looks at. */
  lemma DirectoriesReadBack(b: seq<byte>, h: Head)
    requires Headed(b, h) && SmallHead(h) && |b| == HeadSize(h.is64) + h.span + h.signed
    ensures DirectoryAt(b, HeaderFor(h), 1) == Some(DataDirectory(BASE, h.tableSize))
    ensures DirectoryAt(b, HeaderFor(h), 2) == None
    ensures DirectoryAt(b, HeaderFor(h), 9) == if h.tls.Some? then Some(DataDirectory(h.tls.value, TlsSize(h.is64))) else None
    ensures CertificateOf(b, HeaderFor(h)) == if h.signed > 0 then Some(h.signed) else None
  {
    hide U16, U32, Headers, Headed;
    var g := Wider(h.is64);
    HeaderReads(b, h, 0xc0 + g);
    HeaderReads(b, h, 0xc4 + g);
    HeaderReads(b, h, 0xc8 + g);
    HeaderReads(b, h, 0xd8 + g);
    HeaderReads(b, h, 0xdc + g);
    HeaderReads(b, h, 0x100 + g);
    HeaderReads(b, h, 0x104 + g);
  }

  const SECTION_NAME: seq<byte> := [0x2e, 0x69, 0x64, 0x61, 0x74, 0x61]

  /** The one section; its name is ".idata". */
  function SectionFor(h: Head): Section {
    Section(SECTION_NAME, h.span, BASE, h.span, HeadSize(h.is64), HasBit(h.flags, 0x2000_0000), HasBit(h.flags, 0x8000_0000),
      HasBit(h.flags, 0x4000_0000), true)
  }

  lemma NameReads(b: seq<byte>, h: Head)
    requires Headed(b, h) && SmallHead(h)
    ensures var o := 0x138 + Wider(h.is64); o + 8 <= |b| && UntilNul(b[o..o + 8]) == SECTION_NAME
  {
    hide Headers, UntilNul, Headed, SmallHead;
    HeadersFit(b, h);
    var o := 0x138 + Wider(h.is64);
    HeaderReads(b, h, o);
    HeaderReads(b, h, o + 4);
    var name := b[o..o + 8];
    assert U16(b, o) == 0x692e && U16(b, o + 2) == 0x6164 && U16(b, o + 4) == 0x6174 && U16(b, o + 6) == 0;
    hide HeaderWord;
    assert name[..6] == SECTION_NAME;
    PrefixIsUntilNul(name, SECTION_NAME);
  }

  lemma SectionReadsBack(b: seq<byte>, h: Head)
    requires Headed(b, h) && SmallHead(h) && 0 < h.span && |b| == HeadSize(h.is64) + h.span + h.signed
    ensures 0x138 + Wider(h.is64) + 40 <= |b|
    ensures SectionTable(b, 0x138 + Wider(h.is64), 1) == [SectionFor(h)]
  {
    hide U16, U32, Headers, UntilNul, HasBit, Headed, SmallHead;
    var g := Wider(h.is64);
    NameReads(b, h);
    HeaderReads(b, h, 0x140 + g);
    HeaderReads(b, h, 0x144 + g);
    HeaderReads(b, h, 0x148 + g);
    HeaderReads(b, h, 0x14c + g);
    HeaderReads(b, h, 0x15c + g);
    assert SectionTable(b, 0x138 + g, 0) == [];
    assert SectionAt(b, 0x138 + g) == SectionFor(h);
  }

  // ---------- The image ----------

  lemma SectionIsMapped(b: seq<byte>, h: Head)
    requires |b| == HeadSize(h.is64) + h.span + h.signed && BASE + h.span < ORDINAL_FLAG
    ensures Mapped(Image(b, [SectionFor(h)], h.is64), HeadSize(h.is64), h.span)
  {
    hide HasBit;
    var img := Image(b, [SectionFor(h)], h.is64);
    forall rva: nat, size: nat | BASE <= rva < BASE + h.span && HeadSize(h.is64) + (rva - BASE) + size <= |b|
      ensures img.Locate(rva, size) == Some(HeadSize(h.is64) + (rva - BASE))
    {
      assert HostOf([SectionFor(h)], rva, 0) == Some(0);
    }
  }

  // ---------- TLS reads back ----------

  lemma PointerReads(img: Image, o: nat, n: nat)
    requires Contains(img.b, o, Pointer(img.is64, n)) && n < PointerLimit(img.is64)
    ensures Fits(o, img.ThunkSize(), |img.b|) && PointerAt(img, o) == Some(n)
  {
    hide Contains, Word, Bytes, U32;
    if img.is64 {
      WordsRead(img.b, o, n % 0x1_0000_0000, n / 0x1_0000_0000);
    } else {
      WordReads(img.b, o, n);
    }
  }

  lemma {:induction false} PointersReadBack(img: Image, o: nat, ns: seq<nat>, left: nat)
    requires Contains(img.b, o, Pointers(img.is64, ns)) && left > |ns|
    requires forall n :: n in ns ==> 0 < n < PointerLimit(img.is64)
    ensures CallbacksFrom(img, o, left) == Callbacks(|ns|, false, |ns| + 1)
    decreases |ns|
  {
    hide Contains, Pointer, PointerAt;
    if ns == [] {
      PointerReads(img, o, 0);
    } else {
      assert ns[0] in ns && forall n :: n in ns[1..] ==> n in ns;
      ContainsHead(img.b, o, Pointer(img.is64, ns[0]), Pointers(img.is64, ns[1..]));
      PointerReads(img, o, ns[0]);
      PointersReadBack(img, o + img.ThunkSize(), ns[1..], left - 1);
    }
  }

  /** The address in the TLS directory. */
  lemma TlsAddress(b: seq<byte>, o: nat, is64: bool, base: nat, rva: nat)
    requires Contains(b, o, TlsDirectory(is64, base, rva))
    ensures o + TlsSize(is64) <= |b|
    ensures Contains(b, o + if is64 then 24 else 12, Pointer(is64, base + rva + TlsSize(is64)))
  {
    hide Contains, Pointer, Zeros;
    var gap := Bytes(Zeros(if is64 then 24 else 12));
    ContainsHead(b, o, gap + Pointer(is64, base + rva + TlsSize(is64)), Bytes(Zeros(8)));
    ContainsHead(b, o, gap, Pointer(is64, base + rva + TlsSize(is64)));
    assert |TlsDirectory(is64, base, rva)| == TlsSize(is64);
    ContainsSlice(b, o, TlsDirectory(is64, base, rva));
  }

  lemma TlsReadsBack(img: Image, raw: nat, len: nat, pe: Pe, rva: nat, iterations: nat)
    requires Mapped(img, raw, len) && Writable(pe) && pe.callbacks.Some? && img.is64 == pe.is64 && len == |Contents(pe)|
    requires LoadedAt(img, raw, len, rva, TlsPart(pe, rva))
    ensures var n := |pe.callbacks.value|;
      TlsOf(img, Some(DataDirectory(rva, TlsSize(pe.is64))), Some(pe.base), iterations)
        == if iterations + n + 1 > MAX_ITERATIONS then Present(None, true) else Present(Some(n), false)
  {
    hide Image.Locate, CallbacksFrom, FindCallbacks, Contains, Pointers, Mapped;
    var at := ArrayIsFound(img, raw, len, pe, rva);
    PointersReadBack(img, at, pe.callbacks.value, MAX_CALLBACKS);
  }

  lemma ArrayIsFound(img: Image, raw: nat, len: nat, pe: Pe, rva: nat) returns (at: nat)
    requires Mapped(img, raw, len) && Writable(pe) && pe.callbacks.Some? && img.is64 == pe.is64 && len == |Contents(pe)|
    requires LoadedAt(img, raw, len, rva, TlsPart(pe, rva))
    ensures FindCallbacks(img, DataDirectory(rva, TlsSize(pe.is64)), Some(pe.base)) == Array(at)
    ensures Contains(img.b, at, Pointers(img.is64, pe.callbacks.value))
  {
    hide Image.Locate, Contains, Pointers, TlsDirectory, U32, U64Safe, Pointer, Contents, Mapped;
    var directory, addresses := TlsDirectory(pe.is64, pe.base, rva), Pointers(pe.is64, pe.callbacks.value);
    var next := rva + TlsSize(pe.is64);
    LoadedSplit(img, raw, len, rva, directory, addresses);
    InFile(img, raw, len, rva, directory);
    InFile(img, raw, len, next, addresses);
    LocatesIn(img, raw, len, rva, TlsSize(pe.is64));
    LocatesIn(img, raw, len, next, img.ThunkSize());
    TlsAddress(img.b, OffsetIn(raw, rva), pe.is64, pe.base, rva);
    PointerReads(img, OffsetIn(raw, rva) + if pe.is64 then 24 else 12, pe.base + next);
    at := OffsetIn(raw, next);
  }

  // ---------- The whole file ----------

  lemma TableFirst(is64: bool, ls: seq<Library>)
    ensures |ImportSection(is64, ls)| >= 20 * (|ls| + 1)
  {
    hide Table, Blocks;
  }

  lemma HeadIsSmall(pe: Pe)
    requires Writable(pe)
    ensures SmallHead(HeadOf(pe)) && HeadOf(pe).span > 0
    ensures var flags := HeadOf(pe).flags;
      && HasBit(flags, 0x2000_0000) == pe.executable && HasBit(flags, 0x4000_0000) == pe.readable
      && HasBit(flags, 0x8000_0000) == pe.writable
  {
    hide ImportSection, TlsPart, ValidLibrary;
    TableFirst(pe.is64, pe.libraries);
  }

  lemma FileParts(pe: Pe)
    ensures var b, h := WritePe(pe), HeadOf(pe);
      && Headed(b, h) && |b| == HeadSize(h.is64) + h.span + h.signed
      && Contains(b, HeadSize(pe.is64), Contents(pe))
  {
    hide Contents, Headers;
    var front := Headers(HeadOf(pe));
    assert WritePe(pe)[..|front|] == front;
    assert WritePe(pe)[|front|..|front| + |Contents(pe)|] == Contents(pe);
  }

  /** The file as the parser sees it. */
  function ImageFor(pe: Pe): Image {
    Image(WritePe(pe), [SectionFor(HeadOf(pe))], pe.is64)
  }

  lemma ContentsAreLoaded(pe: Pe)
    requires Writable(pe)
    ensures var img, raw, len := ImageFor(pe), HeadSize(pe.is64), |Contents(pe)|;
      var table := BASE + 20 * (|pe.libraries| + 1);
      && Mapped(img, raw, len)
      && LoadedAt(img, raw, len, BASE, Table(pe.is64, pe.libraries, table))
      && LoadedAt(img, raw, len, table, Blocks(pe.is64, pe.libraries, table))
      && LoadedAt(img, raw, len, TlsRva(pe), TlsPart(pe, TlsRva(pe)))
  {
    hide Table, Blocks, TlsPart, WritePe, Contains, SectionFor, Mapped, Headed;
    var img, raw, len := ImageFor(pe), HeadSize(pe.is64), |Contents(pe)|;
    var table := BASE + 20 * (|pe.libraries| + 1);
    FileParts(pe);
    SectionIsMapped(WritePe(pe), HeadOf(pe));
    LoadedSplit(img, raw, len, BASE, ImportSection(pe.is64, pe.libraries), TlsPart(pe, TlsRva(pe)));
    LoadedSplit(img, raw, len, BASE, Table(pe.is64, pe.libraries, table), Blocks(pe.is64, pe.libraries, table));
  }

  lemma ImportsReadBack(pe: Pe)
    requires Writable(pe)
    ensures ImportsOf(ImageFor(pe), Some(DataDirectory(BASE, 20 * (|pe.libraries| + 1))))
      == Collected(ImportList(pe.libraries), ImportCost(pe.libraries))
  {
    hide Table, Blocks, TlsPart, Contains, Descriptors, Mapped, Image.Locate, ImageFor, ValidLibrary, Contents, TlsRva;
    ContentsAreLoaded(pe);
    var img, raw, len := ImageFor(pe), HeadSize(pe.is64), |Contents(pe)|;
    var table := BASE + 20 * (|pe.libraries| + 1);
    ImageIs(pe);
    InFile(img, raw, len, BASE, Table(pe.is64, pe.libraries, table));
    LocatesIn(img, raw, len, BASE, 20);
    DescriptorsReadBack(img, raw, len, raw, pe.libraries, table, MAX_DESCRIPTORS);
  }

  lemma ImageIs(pe: Pe)
    ensures ImageFor(pe).is64 == pe.is64 && ImageFor(pe).b == WritePe(pe)
  {
    hide WritePe, SectionFor;
  }

  /** What the parser reports of a written file. */
  function Report(pe: Pe): Parsed {
    var h, size := HeadOf(pe), |Contents(pe)|;
    var spent := 1 + ImportCost(pe.libraries);
    Valid(HeaderFor(h),
      [Section(SECTION_NAME, size, BASE, size, HeadSize(pe.is64), pe.executable, pe.writable, pe.readable, true)],
      if BASE <= pe.entry < BASE + size then Some(0) else None,
      ImportList(pe.libraries), OrdinalCount(pe.libraries), NamedCount(pe.libraries),
      if pe.callbacks.None? then NoTls
      else if spent + |pe.callbacks.value| + 1 > MAX_ITERATIONS then Present(None, true)
      else Present(Some(|pe.callbacks.value|), false),
      None, if pe.signature == [] then None else Some(|pe.signature|),
      if pe.signature == [] then NoOverlay else Overlay(HeadSize(pe.is64) + size, |pe.signature|))
  }

  lemma TlsIs(pe: Pe, iterations: nat)
    requires Writable(pe)
    ensures TlsOf(ImageFor(pe), if pe.callbacks.Some? then Some(DataDirectory(TlsRva(pe), TlsSize(pe.is64))) else None, Some(pe.base), iterations)
      == if pe.callbacks.None? then NoTls
         else if iterations + |pe.callbacks.value| + 1 > MAX_ITERATIONS then Present(None, true)
         else Present(Some(|pe.callbacks.value|), false)
  {
    hide TlsPart, Table, Blocks, Contains, Mapped, ImageFor, ValidLibrary, FindCallbacks, CallbacksFrom, ImportSection, LoadedAt;
    ContentsAreLoaded(pe);
    ImageIs(pe);
    if pe.callbacks.Some? {
      TlsReadsBack(ImageFor(pe), HeadSize(pe.is64), |Contents(pe)|, pe, TlsRva(pe), iterations);
    }
  }

  lemma OneSectionEnds(s: Section, least: nat)
    requires s.rawSize > 0 && s.rawPointer == least
    ensures SectionsEnd([s], least) == least + s.rawSize
  {
    assert [s][..0] == [];
  }

  lemma OneSectionHosts(s: Section, rva: nat)
    ensures HostOf([s], rva, 0) == if s.Hosts(rva) then Some(0) else None
  {
  }

  /**
   * A written file is reported exactly as it was written: headers, section, imports in order with their libraries and counters,
   * callbacks, signature and overlay; and it fails with the limit exactly when its imports take more than the budget.
   */
  lemma WrittenIsReported(pe: Pe)
    requires Writable(pe)
    ensures ParseResult(WritePe(pe))
      == if 1 + ImportCost(pe.libraries) > MAX_ITERATIONS then Invalid(ParserLimitReached) else Report(pe)
  {
    hide ReadHeaders, DirectoryAt, SectionTable, ImportsOf, TlsOf, HostOf, SectionsEnd, CertificateOf, Ordinals;
    hide Contents, WritePe, ValidLibrary, ImportList, ImportCost, OrdinalCount, NamedCount, SmallHead, Headed, Contains, TlsRva;
    var h, b := HeadOf(pe), WritePe(pe);
    HeadIsSmall(pe);
    FileParts(pe);
    HeadersReadBack(b, h);
    DirectoriesReadBack(b, h);
    SectionReadsBack(b, h);
    ImportsReadBack(pe);
    SymbolsCounted(pe.libraries);
    TlsIs(pe, 1 + ImportCost(pe.libraries));
    OneSectionHosts(SectionFor(h), pe.entry);
    OneSectionEnds(SectionFor(h), HeadSize(pe.is64));
  }
}
