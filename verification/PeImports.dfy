/**
 * A writer of import sections: descriptors, thunk lists and hint/name records, as the PE format specification lays them out in
 * section 6.4; the parser's nested loops read back exactly the list that was written, in order.
 */
module PeImports {
  import opened Prelude
  import opened Octets
  import opened PeParser

  /** What a library is asked for: one of its ordinals, or a name with the hint of its place. */
  datatype Symbol = Numbered(ordinal: nat) | Named(hint: nat, name: seq<byte>)

  /** A library with its symbols; without a lookup table of its own, its address table `addresses` serves for both. */
  datatype Library = Library(name: seq<byte>, symbols: seq<Symbol>, lookup: bool, addresses: nat)

  /** The address at which the section is loaded. */
  const BASE := 0x1000
  const ORDINAL_FLAG := 0x8000_0000

  // ---------- The writer ----------

  function ThunkSize(is64: bool): nat {
    if is64 then 8 else 4
  }

  function Record(s: Symbol): seq<byte> {
    if s.Numbered? then [] else Bytes([Lo(s.hint), Hi(s.hint)]) + s.name + [0]
  }

  function Records(symbols: seq<Symbol>): seq<byte> {
    if symbols == [] then [] else Record(symbols[0]) + Records(symbols[1..])
  }

  /** The thunk of a symbol whose record, if it has one, is loaded at `rva`. */
  function Thunk(is64: bool, s: Symbol, rva: nat): (t: seq<byte>)
    ensures |t| == ThunkSize(is64)
  {
    var high := if s.Numbered? then ORDINAL_FLAG else 0;
    var low := if s.Numbered? then s.ordinal else rva;
    if is64 then Bytes(Word(low)) + Bytes(Word(high)) else Bytes(Word(low + high))
  }

  /** The size of `n` thunks and the empty one. */
  function ListSize(is64: bool, n: nat): nat {
    if is64 then 8 * (n + 1) else 4 * (n + 1)
  }

  /** The thunks of symbols whose records start at `rva`, and the empty thunk that ends them. */
  function ThunkList(is64: bool, symbols: seq<Symbol>, rva: nat): (t: seq<byte>)
    ensures |t| == ListSize(is64, |symbols|)
  {
    if symbols == [] then Bytes(Zeros(ThunkSize(is64)))
    else Thunk(is64, symbols[0], rva) + ThunkList(is64, symbols[1..], rva + |Record(symbols[0])|)
  }

  /** Where the name and the records of a library lie when its thunks are loaded at `rva`. */
  function NameRva(is64: bool, l: Library, rva: nat): nat {
    rva + ListSize(is64, |l.symbols|)
  }

  function RecordsRva(is64: bool, l: Library, rva: nat): nat {
    NameRva(is64, l, rva) + |l.name| + 1
  }

  /** A library's thunks, loaded at `rva`, its name and its records. */
  function Block(is64: bool, l: Library, rva: nat): (b: seq<byte>)
    ensures |b| == BlockSize(is64, l)
  {
    ThunkList(is64, l.symbols, RecordsRva(is64, l, rva)) + (l.name + [0]) + Records(l.symbols)
  }

  function BlockSize(is64: bool, l: Library): nat {
    ListSize(is64, |l.symbols|) + |l.name| + 1 + |Records(l.symbols)|
  }

  function Blocks(is64: bool, ls: seq<Library>, rva: nat): seq<byte> {
    if ls == [] then [] else Block(is64, ls[0], rva) + Blocks(is64, ls[1..], rva + BlockSize(is64, ls[0]))
  }

  /** The import descriptor of a library whose block is loaded at `rva`. */
  function Descriptor(is64: bool, l: Library, rva: nat): (d: seq<byte>)
    ensures |d| == 20
  {
    Bytes(Word(if l.lookup then rva else 0)) + Bytes(Zeros(8)) + Bytes(Word(NameRva(is64, l, rva))) +
    Bytes(Word(if l.lookup then l.addresses else rva))
  }

  function Table(is64: bool, ls: seq<Library>, rva: nat): (t: seq<byte>)
    ensures |t| == 20 * (|ls| + 1)
  {
    if ls == [] then Bytes(Zeros(20))
    else Descriptor(is64, ls[0], rva) + Table(is64, ls[1..], rva + BlockSize(is64, ls[0]))
  }

  /** The whole section: the descriptor table and then the blocks. */
  function ImportSection(is64: bool, ls: seq<Library>): seq<byte> {
    var rva := BASE + 20 * (|ls| + 1);
    Table(is64, ls, rva) + Blocks(is64, ls, rva)
  }

  // ---------- What the writer is given ----------

  predicate IsText(name: seq<byte>, limit: nat) {
    0 < |name| < limit && 0 !in name
  }

  predicate ValidSymbol(s: Symbol) {
    match s
    case Numbered(n) => n < 0x1_0000
    case Named(hint, name) => hint < 0x1_0000 && IsText(name, MAX_IMPORT_NAME)
  }

  predicate ValidLibrary(l: Library) {
    && IsText(l.name, MAX_DLL_NAME) && |l.symbols| < MAX_THUNKS && l.addresses < 0x1_0000_0000
    && forall s :: s in l.symbols ==> ValidSymbol(s)
  }

  // ---------- What the parser is to report ----------

  function Reported(dll: DllName, s: Symbol): Import {
    match s
    case Numbered(n) => ByOrdinal(dll, n)
    case Named(_, name) => ByName(dll, name)
  }

  /** The symbols of one library, each with the library's name. */
  function ReportedAll(dll: DllName, symbols: seq<Symbol>): (r: seq<Import>)
    ensures |r| == |symbols|
  {
    seq(|symbols|, i requires 0 <= i < |symbols| => Reported(dll, symbols[i]))
  }

  function ImportList(ls: seq<Library>): seq<Import> {
    if ls == [] then [] else ReportedAll(DllName.DllName(ls[0].name), ls[0].symbols) + ImportList(ls[1..])
  }

  /** One iteration for each descriptor and each thunk, the empty ones included. */
  function ImportCost(ls: seq<Library>): nat {
    if ls == [] then 1 else 1 + (|ls[0].symbols| + 1) + ImportCost(ls[1..])
  }

  function NumberedIn(symbols: seq<Symbol>): nat {
    if symbols == [] then 0 else (if symbols[0].Numbered? then 1 else 0) + NumberedIn(symbols[1..])
  }

  function NamedIn(symbols: seq<Symbol>): nat {
    if symbols == [] then 0 else (if symbols[0].Named? then 1 else 0) + NamedIn(symbols[1..])
  }

  function NamedCount(ls: seq<Library>): nat {
    if ls == [] then 0 else NamedIn(ls[0].symbols) + NamedCount(ls[1..])
  }

  function OrdinalCount(ls: seq<Library>): nat {
    if ls == [] then 0 else NumberedIn(ls[0].symbols) + OrdinalCount(ls[1..])
  }

  // ---------- The image ----------

  /** `len` bytes of the file from `raw` on are what is loaded at `BASE`. */
  ghost predicate Mapped(img: Image, raw: nat, len: nat) {
    && raw + len <= |img.b| && BASE + len < ORDINAL_FLAG
    && forall rva: nat, size: nat :: BASE <= rva < BASE + len && raw + (rva - BASE) + size <= |img.b| ==>
         img.Locate(rva, size) == Some(raw + (rva - BASE))
  }

  /** The file offset of an address in the section. */
  function OffsetIn(raw: nat, rva: nat): nat
    requires BASE <= rva
  {
    raw + (rva - BASE)
  }

  /** `part` is loaded at `rva`. */
  ghost predicate LoadedAt(img: Image, raw: nat, len: nat, rva: nat, part: seq<byte>) {
    BASE <= rva && rva + |part| <= BASE + len && Contains(img.b, OffsetIn(raw, rva), part)
  }

  lemma LoadedSplit(img: Image, raw: nat, len: nat, rva: nat, x: seq<byte>, y: seq<byte>)
    requires LoadedAt(img, raw, len, rva, x + y)
    ensures LoadedAt(img, raw, len, rva, x) && LoadedAt(img, raw, len, rva + |x|, y)
  {
    hide Contains;
    ContainsHead(img.b, OffsetIn(raw, rva), x, y);
  }

  lemma LocatesIn(img: Image, raw: nat, len: nat, rva: nat, size: nat)
    requires Mapped(img, raw, len) && BASE <= rva < BASE + len && OffsetIn(raw, rva) + size <= |img.b|
    ensures img.Locate(rva, size) == Some(OffsetIn(raw, rva))
  {
    hide Image.Locate;
  }

  // ---------- Names ----------

  /** A name with its NUL is read back by the bounded scan. */
  lemma NameReadsBack(b: seq<byte>, o: nat, name: seq<byte>, max: nat)
    requires Contains(b, o, name + [0]) && IsText(name, max)
    ensures o <= |b| && CString(b, o, max) == Text.Text(name)
  {
    ContainsHead(b, o, name, [0]);
    ContainsSlice(b, o, name);
    ContainsSlice(b, o + |name|, [0]);
    hide Contains, UntilNul;
    var end := if o + max < |b| then o + max else |b|;
    assert b[o + |name|] == b[o + |name|..o + |name| + 1][0] == 0;
    ScannedIsUntilNul(b, o, o + |name|, end);
  }

  // ---------- Thunks ----------

  lemma FlagIsBit(n: nat)
    ensures n < 0x1_0000 ==> HasBit(n + ORDINAL_FLAG, 0x8000_0000) && (n + ORDINAL_FLAG) % 0x1_0000 == n
    ensures n < ORDINAL_FLAG ==> !HasBit(n, 0x8000_0000)
    ensures HasBit(ORDINAL_FLAG, 0x8000_0000)
  {
  }

  lemma WordsRead(b: seq<byte>, o: nat, low: nat, high: nat)
    requires Contains(b, o, Bytes(Word(low)) + Bytes(Word(high))) && low < 0x1_0000_0000 && high < 0x1_0000_0000
    ensures o + 8 <= |b| && U32(b, o) == low && U32(b, o + 4) == high
  {
    hide Contains, Word, Bytes, U32;
    ContainsHead(b, o, Bytes(Word(low)), Bytes(Word(high)));
    WordReads(b, o, low);
    WordReads(b, o + 4, high);
  }

  /** The words of a written thunk. */
  lemma ThunkWords(b: seq<byte>, o: nat, is64: bool, s: Symbol, rva: nat)
    requires Contains(b, o, Thunk(is64, s, rva)) && ValidSymbol(s) && rva < ORDINAL_FLAG
    ensures o + ThunkSize(is64) <= |b|
    ensures is64 ==> U32(b, o + 4) == if s.Numbered? then ORDINAL_FLAG else 0
    ensures U32(b, o) == if !s.Numbered? then rva else if is64 then s.ordinal else s.ordinal + ORDINAL_FLAG
  {
    hide Contains, Word, Bytes, U32, IsText;
    var high := if s.Numbered? then ORDINAL_FLAG else 0;
    var low := if s.Numbered? then s.ordinal else rva;
    if is64 {
      WordsRead(b, o, low, high);
    } else {
      WordReads(b, o, low + high);
    }
  }

  /** A thunk of a library is read as its symbol, whether by ordinal or by name. */
  lemma ThunkReadsBack(img: Image, raw: nat, len: nat, dll: DllName, off: nat, s: Symbol, rva: nat)
    requires Mapped(img, raw, len) && ValidSymbol(s) && Contains(img.b, off, Thunk(img.is64, s, rva))
    requires LoadedAt(img, raw, len, rva, Record(s)) && 0 < rva < ORDINAL_FLAG
    ensures Fits(off, img.ThunkSize(), |img.b|) && !ThunkEnds(img, off) && ThunkImports(img, dll, off) == [Reported(dll, s)]
  {
    hide Contains, Thunk, U32, Image.Locate, Mapped, CString, Record;
    ThunkWords(img.b, off, img.is64, s, rva);
    match s
    case Numbered(n) =>
      FlagIsBit(n);
    case Named(hint, name) =>
      FlagIsBit(rva);
      FlagIsBit(0);
      RecordReadsBack(img, raw, len, s, rva);
  }

  lemma RecordReadsBack(img: Image, raw: nat, len: nat, s: Symbol, rva: nat)
    requires Mapped(img, raw, len) && ValidSymbol(s) && s.Named? && LoadedAt(img, raw, len, rva, Record(s))
    ensures img.Locate(rva, 2) == Some(OffsetIn(raw, rva)) && OffsetIn(raw, rva) + 2 <= |img.b|
    ensures CString(img.b, OffsetIn(raw, rva) + 2, MAX_IMPORT_NAME) == Text.Text(s.name)
  {
    hide Contains, Image.Locate, CString, IsText;
    var head := Bytes([Lo(s.hint), Hi(s.hint)]);
    assert Record(s) == head + (s.name + [0]);
    LoadedSplit(img, raw, len, rva, head, s.name + [0]);
    LocatesIn(img, raw, len, rva, 2);
    NameReadsBack(img.b, OffsetIn(raw, rva) + 2, s.name, MAX_IMPORT_NAME);
  }

  lemma ZerosEnd(img: Image, off: nat, n: nat)
    requires Contains(img.b, off, Bytes(Zeros(n)))
    ensures n == img.ThunkSize() ==> ThunkEnds(img, off)
    ensures n == 20 ==> DescriptorEnds(img, off)
  {
    var z := Bytes(Zeros(n));
    ContainsSlice(img.b, off, z);
    forall k | off <= k < off + n
      ensures img.b[k] as int == 0
    {
      ContainsAt(img.b, off, z, k - off);
    }
  }

  lemma ListsStep(is64: bool, dll: DllName, symbols: seq<Symbol>, rva: nat)
    requires symbols != []
    ensures ThunkList(is64, symbols, rva)
      == Thunk(is64, symbols[0], rva) + ThunkList(is64, symbols[1..], rva + |Record(symbols[0])|)
    ensures Records(symbols) == Record(symbols[0]) + Records(symbols[1..])
    ensures ReportedAll(dll, symbols) == [Reported(dll, symbols[0])] + ReportedAll(dll, symbols[1..])
  {
    hide Thunk, Record, Reported;
  }

  /** A written thunk list is read as the library's symbols in order. */
  lemma {:induction false} ThunksReadBack(img: Image, raw: nat, len: nat, dll: DllName, off: nat, symbols: seq<Symbol>, rva: nat,
                                          left: nat)
    requires Mapped(img, raw, len) && (forall s :: s in symbols ==> ValidSymbol(s)) && left > |symbols|
    requires Contains(img.b, off, ThunkList(img.is64, symbols, rva)) && LoadedAt(img, raw, len, rva, Records(symbols))
    ensures Thunks(img, dll, off, left) == Collected(ReportedAll(dll, symbols), |symbols| + 1)
    decreases |symbols|
  {
    hide Mapped, Contains, Thunk, ThunkEnds, ThunkImports, Record, LoadedAt, Reported, Thunks, ValidSymbol;
    ThunksStep(img, dll, off, left);
    if symbols == [] {
      ZerosEnd(img, off, img.ThunkSize());
    } else {
      ListsStep(img.is64, dll, symbols, rva);
      hide ThunkList, Records, ReportedAll;
      var s, next := symbols[0], rva + |Record(symbols[0])|;
      ContainsHead(img.b, off, Thunk(img.is64, s, rva), ThunkList(img.is64, symbols[1..], next));
      LoadedSplit(img, raw, len, rva, Record(s), Records(symbols[1..]));
      AddressIsSmall(img, raw, len, rva, Records(symbols));
      ThunkReadsBack(img, raw, len, dll, off, s, rva);
      ThunksReadBack(img, raw, len, dll, off + img.ThunkSize(), symbols[1..], next, left - 1);
    }
  }

  lemma AddressIsSmall(img: Image, raw: nat, len: nat, rva: nat, part: seq<byte>)
    requires Mapped(img, raw, len) && LoadedAt(img, raw, len, rva, part)
    ensures 0 < rva < ORDINAL_FLAG && rva <= BASE + len
  {
  }

  // ---------- Descriptors ----------

  lemma DescriptorWords(b: seq<byte>, o: nat, is64: bool, l: Library, rva: nat)
    requires Contains(b, o, Descriptor(is64, l, rva)) && l.addresses < 0x1_0000_0000 && NameRva(is64, l, rva) < 0x1_0000_0000
    ensures o + 20 <= |b| && U32(b, o) == (if l.lookup then rva else 0)
    ensures U32(b, o + 12) == NameRva(is64, l, rva) && U32(b, o + 16) == if l.lookup then l.addresses else rva
  {
    hide Contains, Word, Bytes, U32, Zeros, NameRva;
    var first, gap := Bytes(Word(if l.lookup then rva else 0)), Bytes(Zeros(8));
    var name, last := Bytes(Word(NameRva(is64, l, rva))), Bytes(Word(if l.lookup then l.addresses else rva));
    ContainsHead(b, o, first + gap + name, last);
    ContainsHead(b, o, first + gap, name);
    ContainsHead(b, o, first, gap);
    assert rva <= NameRva(is64, l, rva) by { NameIsBehind(is64, l, rva); }
    WordReads(b, o, if l.lookup then rva else 0);
    WordReads(b, o + 12, NameRva(is64, l, rva));
    WordReads(b, o + 16, if l.lookup then l.addresses else rva);
  }

  lemma NameIsBehind(is64: bool, l: Library, rva: nat)
    ensures rva <= NameRva(is64, l, rva)
  {
  }

  /** The three parts of a loaded block. */
  lemma BlockParts(img: Image, raw: nat, len: nat, l: Library, rva: nat)
    requires LoadedAt(img, raw, len, rva, Block(img.is64, l, rva))
    ensures LoadedAt(img, raw, len, rva, ThunkList(img.is64, l.symbols, RecordsRva(img.is64, l, rva)))
    ensures LoadedAt(img, raw, len, NameRva(img.is64, l, rva), l.name + [0])
    ensures LoadedAt(img, raw, len, RecordsRva(img.is64, l, rva), Records(l.symbols))
  {
    hide LoadedAt, ThunkList, Records;
    var thunks := ThunkList(img.is64, l.symbols, RecordsRva(img.is64, l, rva));
    LoadedSplit(img, raw, len, rva, thunks + (l.name + [0]), Records(l.symbols));
    LoadedSplit(img, raw, len, rva, thunks, l.name + [0]);
  }

  /** A written descriptor is read as its library: its name, and through either table its symbols. */
  lemma DescriptorReadsBack(img: Image, raw: nat, len: nat, off: nat, l: Library, rva: nat)
    requires Mapped(img, raw, len) && ValidLibrary(l)
    requires Contains(img.b, off, Descriptor(img.is64, l, rva)) && LoadedAt(img, raw, len, rva, Block(img.is64, l, rva))
    ensures Fits(off, 20, |img.b|) && !DescriptorEnds(img, off)
    ensures DescriptorThunks(img, off)
      == Collected(ReportedAll(DllName.DllName(l.name), l.symbols), |l.symbols| + 1)
  {
    hide Mapped, Contains, Descriptor, U32, Image.Locate, Block, ThunkList, Thunks, CString, ValidSymbol, ReportedAll, Records;
    BlockParts(img, raw, len, l, rva);
    BlockIsLocated(img, raw, len, l, rva);
    DescriptorWords(img.b, off, img.is64, l, rva);
    NameReadsBack(img.b, OffsetIn(raw, NameRva(img.is64, l, rva)), l.name, MAX_DLL_NAME);
    ThunksReadBack(img, raw, len, DllName.DllName(l.name), OffsetIn(raw, rva), l.symbols, RecordsRva(img.is64, l, rva), MAX_THUNKS);
  }

  lemma BlockIsLocated(img: Image, raw: nat, len: nat, l: Library, rva: nat)
    requires Mapped(img, raw, len)
    requires LoadedAt(img, raw, len, rva, ThunkList(img.is64, l.symbols, RecordsRva(img.is64, l, rva)))
    requires LoadedAt(img, raw, len, NameRva(img.is64, l, rva), l.name + [0])
    ensures 0 < rva <= NameRva(img.is64, l, rva) < ORDINAL_FLAG
    ensures img.Locate(rva, img.ThunkSize()) == Some(OffsetIn(raw, rva))
    ensures img.Locate(NameRva(img.is64, l, rva), 1) == Some(OffsetIn(raw, NameRva(img.is64, l, rva)))
  {
    hide Image.Locate, Mapped, ThunkList;
    var name := NameRva(img.is64, l, rva);
    AddressIsSmall(img, raw, len, name, l.name + [0]);
    assert |ThunkList(img.is64, l.symbols, RecordsRva(img.is64, l, rva))| >= img.ThunkSize();
    InFile(img, raw, len, rva, ThunkList(img.is64, l.symbols, RecordsRva(img.is64, l, rva)));
    InFile(img, raw, len, name, l.name + [0]);
    LocatesIn(img, raw, len, rva, img.ThunkSize());
    LocatesIn(img, raw, len, name, 1);
  }

  lemma InFile(img: Image, raw: nat, len: nat, rva: nat, part: seq<byte>)
    requires Mapped(img, raw, len) && LoadedAt(img, raw, len, rva, part)
    ensures OffsetIn(raw, rva) + |part| <= |img.b|
  {
  }

  /** A written descriptor table is read as the list of libraries with all their symbols, in order. */
  lemma {:induction false} DescriptorsReadBack(img: Image, raw: nat, len: nat, off: nat, ls: seq<Library>, rva: nat, left: nat)
    requires Mapped(img, raw, len) && (forall l :: l in ls ==> ValidLibrary(l)) && left > |ls|
    requires Contains(img.b, off, Table(img.is64, ls, rva)) && LoadedAt(img, raw, len, rva, Blocks(img.is64, ls, rva))
    ensures Descriptors(img, off, left) == Collected(ImportList(ls), ImportCost(ls))
    decreases |ls|
  {
    hide Mapped, Contains, Descriptor, DescriptorEnds, DescriptorThunks, Block, BlockSize, LoadedAt, ValidLibrary, ReportedAll;
    if ls == [] {
      ZerosEnd(img, off, 20);
      DescriptorsEnd(img, off);
    } else {
      var l, next := ls[0], rva + BlockSize(img.is64, ls[0]);
      ContainsHead(img.b, off, Descriptor(img.is64, l, rva), Table(img.is64, ls[1..], next));
      LoadedSplit(img, raw, len, rva, Block(img.is64, l, rva), Blocks(img.is64, ls[1..], next));
      DescriptorReadsBack(img, raw, len, off, l, rva);
      DescriptorsReadBack(img, raw, len, off + 20, ls[1..], next, left - 1);
      DescriptorsStep(img, off, left);
    }
  }

  // ---------- The counters ----------

  lemma {:induction false} OrdinalsOfBoth(xs: seq<Import>, ys: seq<Import>)
    ensures Ordinals(xs + ys) == Ordinals(xs) + Ordinals(ys)
    decreases |ys|
  {
    if ys == [] {
      assert xs + ys == xs;
    } else {
      var n := |ys| - 1;
      assert (xs + ys)[..|xs + ys| - 1] == xs + ys[..n] && (xs + ys)[|xs + ys| - 1] == ys[n];
      OrdinalsOfBoth(xs, ys[..n]);
    }
  }

  lemma {:induction false} OrdinalsReported(dll: DllName, symbols: seq<Symbol>)
    ensures Ordinals(ReportedAll(dll, symbols)) == NumberedIn(symbols)
    ensures |symbols| == NumberedIn(symbols) + NamedIn(symbols)
    decreases |symbols|
  {
    if symbols != [] {
      var first := [Reported(dll, symbols[0])];
      ListsStep(false, dll, symbols, 0);
      OrdinalsOfBoth(first, ReportedAll(dll, symbols[1..]));
      OrdinalsReported(dll, symbols[1..]);
      assert first[..0] == [] && Ordinals(first[..0]) == 0;
    }
  }

  /** The parser's counters are the numbers of symbols asked for by ordinal and by name. */
  lemma {:induction false} SymbolsCounted(ls: seq<Library>)
    ensures Ordinals(ImportList(ls)) == OrdinalCount(ls)
    ensures |ImportList(ls)| == OrdinalCount(ls) + NamedCount(ls)
    decreases |ls|
  {
    hide ReportedAll;
    if ls != [] {
      var dll := DllName.DllName(ls[0].name);
      OrdinalsReported(dll, ls[0].symbols);
      SymbolsCounted(ls[1..]);
      OrdinalsOfBoth(ReportedAll(dll, ls[0].symbols), ImportList(ls[1..]));
    }
  }
}
