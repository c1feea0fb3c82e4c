/**
 * Files that spend the PE parser's iteration budget: one section of `w` words filled with ones, in which every import
 * descriptor leads to the same long thunk list, and the callback array never ends. Such a file fails exactly when its imports
 * take too much; when only the callbacks do, it is parsed, without their number.
 */
module PeFlood {
  import opened Prelude
  import opened PeParser

  const FILL := 0x160
  /** Four bytes of one. */
  const WORD := 0x101_0101

  /** `w` words of fill hold an import table of `d` descriptors at their end, and are one thunk list that is never cut. */
  predicate Fitting(w: nat, d: nat) {
    MAX_CALLBACKS <= w < MAX_THUNKS && 5 * d <= w
  }

  function Size(w: nat): nat {
    FILL + 4 * w
  }

  /** The file with `w` words of fill and `d` descriptors, byte by byte. */
  function FloodByte(w: nat, d: nat, i: nat): (n: nat)
    requires Fitting(w, d)
    ensures n < 0x100
  {
    var table := 0x101 + 4 * w - 20 * d;
    if i == 0 then 0x4d
    else if i == 1 then 0x5a
    else if 0x3c <= i < 0x40 then (if i == 0x3c then 0x40 else 0)
    else if 0x40 <= i < 0x44 then (if i == 0x40 then 0x50 else if i == 0x41 then 0x45 else 0)
    else if i == 0x47 then 0
    else if i == 0x54 then 0xe0
    else if i == 0x55 then 0
    else if i == 0x58 then 0x0b
    else if 0x74 <= i < 0x78 then 0
    else if i == 0xc0 then table % 0x100
    else if i == 0xc1 then table / 0x100
    else if 0x14c <= i < 0x150 then (if i == 0x14c then 0x60 else if i == 0x14d then 1 else 0)
    else 1
  }

  function Flood(w: nat, d: nat): (b: seq<byte>)
    requires Fitting(w, d)
    ensures |b| == Size(w)
  {
    seq(Size(w), i requires 0 <= i < Size(w) => ByteOf(FloodByte(w, d, i)))
  }

  lemma Field(w: nat, d: nat, o: nat)
    requires Fitting(w, d) && o + 4 <= Size(w)
    ensures U16(Flood(w, d), o) == FloodByte(w, d, o) + 0x100 * FloodByte(w, d, o + 1)
    ensures U32(Flood(w, d), o) == FloodByte(w, d, o) + 0x100 * FloodByte(w, d, o + 1)
      + 0x1_0000 * (FloodByte(w, d, o + 2) + 0x100 * FloodByte(w, d, o + 3))
  {
    hide FloodByte;
    var b := Flood(w, d);
    assert forall i :: o <= i < o + 4 ==> b[i] as int == FloodByte(w, d, i);
  }

  // ---------- The headers ----------

  lemma FloodFields(w: nat, d: nat)
    requires Fitting(w, d)
    ensures var b := Flood(w, d);
      && U16(b, 0) == 0x5a4d && U32(b, 0x3c) == 0x40 && U32(b, 0x40) == 0x4550 && U16(b, 0x46) == 1
      && U16(b, 0x54) == 0xe0 && U16(b, 0x58) == 0x10b && U32(b, 0x74) == 0 && U32(b, 0xb4) == WORD
  {
    Field(w, d, 0);
    Field(w, d, 0x3c);
    Field(w, d, 0x40);
    Field(w, d, 0x46);
    Field(w, d, 0x54);
    Field(w, d, 0x58);
    Field(w, d, 0x74);
    Field(w, d, 0xb4);
    hide U16, U32, Flood;
  }

  lemma FloodHeaders(w: nat, d: nat)
    requires Fitting(w, d)
    ensures var r := ReadHeaders(Flood(w, d));
      && r.Good? && !r.header.is64 && r.header.sectionCount == 1 && r.header.sectionTable == 0x138
      && r.header.directoryBase == 0xb8 && r.header.directoryCount == 16 && r.header.imageBase == Some(0)
  {
    FloodFields(w, d);
    hide U16, U32, Flood, HasBit;
  }

  lemma TableAddress(w: nat, d: nat)
    requires Fitting(w, d)
    ensures U32(Flood(w, d), 0xc0) == WORD + 4 * w - 20 * d && U32(Flood(w, d), 0xc4) == WORD
  {
    Field(w, d, 0xc0);
    Field(w, d, 0xc4);
    hide U32, U16, Flood;
    var table := 0x101 + 4 * w - 20 * d;
    assert FloodByte(w, d, 0xc0) + 0x100 * FloodByte(w, d, 0xc1) == table;
  }

  lemma TlsAddress(w: nat, d: nat)
    requires Fitting(w, d)
    ensures U32(Flood(w, d), 0x100) == WORD && U32(Flood(w, d), 0x104) == WORD
  {
    Field(w, d, 0x100);
    Field(w, d, 0x104);
    hide U32, U16, Flood;
  }

  lemma FloodDirectories(w: nat, d: nat, h: Header)
    requires Fitting(w, d) && h.directoryBase == 0xb8 && h.directoryCount == 16
    ensures DirectoryAt(Flood(w, d), h, 1) == Some(DataDirectory(WORD + 4 * w - 20 * d, WORD))
    ensures DirectoryAt(Flood(w, d), h, 9) == Some(DataDirectory(WORD, WORD))
  {
    hide U32, Flood;
    TableAddress(w, d);
    TlsAddress(w, d);
  }

  // ---------- The image ----------

  /** All addresses from `WORD` on lie as far behind `FILL`, and from there on the file is ones. */
  ghost predicate Flooded(img: Image, w: nat) {
    && |img.b| == Size(w) && !img.is64
    && (forall rva: nat, size: nat :: WORD <= rva < 2 * WORD ==>
          img.Locate(rva, size) == if FILL + rva - WORD + size <= Size(w) then Some(FILL + rva - WORD) else None)
    && (forall o: nat :: FILL <= o && o + 4 <= Size(w) ==> U32(img.b, o) == WORD)
  }

  lemma FillIsWord(w: nat, d: nat, o: nat)
    requires Fitting(w, d) && FILL <= o && o + 4 <= Size(w)
    ensures U32(Flood(w, d), o) == WORD
  {
    Field(w, d, o);
    hide U32, Flood;
  }

  lemma FloodSection(w: nat, d: nat)
    requires Fitting(w, d)
    ensures var s := SectionAt(Flood(w, d), 0x138);
      s.virtualSize == WORD && s.virtualAddress == WORD && s.rawSize == WORD && s.rawPointer == FILL
  {
    Field(w, d, 0x140);
    Field(w, d, 0x144);
    Field(w, d, 0x148);
    Field(w, d, 0x14c);
    hide U32, Flood, HasBit, UntilNul;
  }

  lemma OneSection(s: Section, w: nat, total: nat, rva: nat, size: nat)
    requires s.virtualSize == WORD && s.virtualAddress == WORD && s.rawSize == WORD && s.rawPointer == FILL
    requires WORD <= rva < 2 * WORD && total == Size(w)
    ensures RvaToOffset([s], total, rva, size) == if FILL + rva - WORD + size <= Size(w) then Some(FILL + rva - WORD) else None
  {
    assert HostOf([s], rva, 0) == Some(0);
  }

  lemma FloodImage(w: nat, d: nat, h: Header)
    requires Fitting(w, d) && !h.is64 && h.sectionCount == 1 && h.sectionTable == 0x138
    ensures Flooded(ImageOf(Flood(w, d), h), w)
  {
    hide U32, U16, Flood, SectionAt, RvaToOffset;
    var img, section := ImageOf(Flood(w, d), h), SectionAt(Flood(w, d), 0x138);
    assert img.sections == [section];
    FloodSection(w, d);
    forall o: nat | FILL <= o && o + 4 <= Size(w)
      ensures U32(img.b, o) == WORD
    {
      FillIsWord(w, d, o);
    }
    forall rva: nat, size: nat | WORD <= rva < 2 * WORD
      ensures img.Locate(rva, size) == if FILL + rva - WORD + size <= Size(w) then Some(FILL + rva - WORD) else None
    {
      OneSection(section, w, |img.b|, rva, size);
    }
  }

  // ---------- What it costs ----------

  lemma {:induction false} FloodThunks(img: Image, w: nat, dll: DllName, done: nat, left: nat)
    requires Flooded(img, w) && done <= w && left > w - done
    ensures Thunks(img, dll, FILL + 4 * done, left).cost == 1 + w - done
    decreases left
  {
    hide ThunkImports, U32, Image.Locate;
    if done < w {
      FloodThunks(img, w, dll, done + 1, left - 1);
    }
  }

  lemma FloodDescriptor(img: Image, w: nat, off: nat)
    requires Flooded(img, w) && 0 < w < MAX_THUNKS && FILL <= off && off + 20 <= Size(w)
    ensures !DescriptorEnds(img, off) && DescriptorThunks(img, off).cost == 1 + w
  {
    hide U32, Thunks, DllNameAt, Image.Locate;
    FloodThunks(img, w, DllNameAt(img, off), 0, MAX_THUNKS);
  }

  lemma {:induction false} FloodDescriptors(img: Image, w: nat, d: nat, left: nat)
    requires Flooded(img, w) && 0 < w < MAX_THUNKS && 5 * d <= w && left > d
    ensures Descriptors(img, Size(w) - 20 * d, left).cost == 1 + d * (2 + w)
    decreases d
  {
    hide DescriptorThunks, U32, Image.Locate;
    var off := Size(w) - 20 * d;
    if d > 0 {
      FloodDescriptor(img, w, off);
      FloodDescriptors(img, w, d - 1, left - 1);
      assert (d - 1) * (2 + w) + (2 + w) == d * (2 + w);
    } else {
      assert !Fits(off, 20, |img.b|);
    }
  }

  lemma {:induction false} FloodCallbacks(img: Image, w: nat, off: nat, left: nat)
    requires Flooded(img, w) && FILL <= off && off + 4 * left <= Size(w)
    ensures CallbacksFrom(img, off, left) == Callbacks(left, false, left)
    decreases left
  {
    hide U32, Image.Locate;
    if left > 0 {
      FloodCallbacks(img, w, off + 4, left - 1);
    }
  }

  lemma FloodImports(img: Image, w: nat, d: nat)
    requires Flooded(img, w) && Fitting(w, d) && d > 0
    ensures ImportsOf(img, Some(DataDirectory(WORD + 4 * w - 20 * d, WORD))).cost == 1 + d * (2 + w)
  {
    hide Descriptors, Image.Locate, U32;
    FloodDescriptors(img, w, d, MAX_DESCRIPTORS);
    assert img.Locate(WORD + 4 * w - 20 * d, 20) == Some(Size(w) - 20 * d);
  }

  /** The iterations of the file, counted exactly: its section, and per descriptor itself, its thunks and their end. */
  lemma FloodCosts(w: nat, d: nat)
    requires Fitting(w, d) && d > 0
    ensures ReadHeaders(Flood(w, d)).Good? && Cost(Flood(w, d), ReadHeaders(Flood(w, d)).header) == 2 + d * (2 + w)
  {
    hide ReadHeaders, Flood, SectionTable, DirectoryAt, ImportsOf, Flooded;
    FloodHeaders(w, d);
    var h := ReadHeaders(Flood(w, d)).header;
    FloodImage(w, d, h);
    FloodDirectories(w, d, h);
    FloodImports(ImageOf(Flood(w, d), h), w, d);
  }

  lemma FloodTls(img: Image, w: nat, iterations: nat)
    requires Flooded(img, w) && w >= MAX_CALLBACKS
    ensures TlsOf(img, Some(DataDirectory(WORD, WORD)), Some(0), iterations) ==
      if iterations + MAX_CALLBACKS > MAX_ITERATIONS then Present(None, true) else Present(Some(MAX_CALLBACKS), false)
  {
    hide CallbacksFrom, Image.Locate, U32;
    FloodCallbacks(img, w, FILL, MAX_CALLBACKS);
    assert img.Locate(WORD, 24) == Some(FILL) && img.Locate(WORD, 4) == Some(FILL);
  }

  /**
   * The file fails with the limit exactly when its imports exceed the budget. Otherwise it is parsed, and its callbacks are
   * counted exactly when they fit the rest of the budget.
   */
  lemma FloodOutcome(w: nat, d: nat)
    requires Fitting(w, d) && d > 0
    ensures var r, cost := ParseResult(Flood(w, d)), 2 + d * (2 + w);
      if cost > MAX_ITERATIONS then r == Invalid(ParserLimitReached)
      else
        r.Valid? && r.tls ==
          if cost + MAX_CALLBACKS > MAX_ITERATIONS then Present(None, true) else Present(Some(MAX_CALLBACKS), false)
  {
    hide ReadHeaders, Flood, SectionTable, DirectoryAt, ImportsOf, Flooded, TlsOf, Cost;
    hide HostOf, SectionsEnd, CertificateOf, Ordinals;
    FloodCosts(w, d);
    FloodHeaders(w, d);
    var h := ReadHeaders(Flood(w, d)).header;
    FloodImage(w, d, h);
    FloodDirectories(w, d, h);
    FloodTls(ImageOf(Flood(w, d), h), w, Cost(Flood(w, d), h));
  }

  /** A file of 4352 bytes reaches the limit, and in a file of 16340 bytes only the callbacks overrun the budget. */
  lemma LimitIsReached()
    ensures |Flood(1000, 200)| == 4352 && ParseResult(Flood(1000, 200)) == Invalid(ParserLimitReached)
    ensures |Flood(3997, 50)| == 16340 && ParseResult(Flood(3997, 50)).Valid?
    ensures ParseResult(Flood(3997, 50)).tls == Present(None, true)
  {
    hide ParseResult, Flood;
    FloodOutcome(1000, 200);
    FloodOutcome(3997, 50);
  }
}
