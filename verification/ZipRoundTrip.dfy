/** A writer for archives of stored and deflated entries per PKWARE APPNOTE.TXT, and what the entry reader makes of its output. */
module ZipRoundTrip {
  import opened Prelude
  import opened ZipFormat
  import opened Crc32
  import opened Octets
  import R = EntryReader

  // ---------- The writer ----------

  /** An entry with its contents `payload`, and `raw` as they are stored by its method. */
  datatype Item = Item(
    rawName: seq<byte>, payload: seq<byte>, compression: nat, raw: seq<byte>, flags: nat, stamp: nat,
    localExtra: seq<byte>, extra: seq<byte>, comment: seq<byte>)
  {
    ghost predicate Encodable() {
      && compression < 0x1_0000 && flags < 0x1_0000 && stamp < 0x1_0000_0000
      && |rawName| < 0x1_0000 && |localExtra| < 0x1_0000 && |extra| < 0x1_0000 && |comment| < 0x1_0000
      && |raw| <= R.MAX_COMPRESSED && |payload| <= R.MAX_UNCOMPRESSED
    }
  }

  /** Time and date, checksum and the two sizes, in both headers. */
  function SizeFields(it: Item): (h: seq<Octet>)
    ensures |h| == 16
  {
    var t, c, z, u := it.stamp, CrcNumber(it.payload), |it.raw|, |it.payload|;
    [Lo(t), Hi(t), Lo2(t), Hi2(t), Lo(c), Hi(c), Lo2(c), Hi2(c),
     Lo(z), Hi(z), Lo2(z), Hi2(z), Lo(u), Hi(u), Lo2(u), Hi2(u)]
  }

  /** Local file header, section 4.3.7. */
  function LocalHead(it: Item): (h: seq<Octet>)
    ensures |h| == LOCAL_SIZE
  {
    var n, x := |it.rawName|, |it.localExtra|;
    [0x50, 0x4b, 0x03, 0x04, 20, 0, Lo(it.flags), Hi(it.flags), Lo(it.compression), Hi(it.compression)] + SizeFields(it) +
    [Lo(n), Hi(n), Lo(x), Hi(x)]
  }

  function LocalRecord(it: Item): seq<byte> {
    Bytes(LocalHead(it)) + it.rawName + it.localExtra + it.raw
  }

  /** Central directory header, section 4.3.12, without its variable part. */
  function CentralHead(it: Item, o: nat): (h: seq<Octet>)
    ensures |h| == HEADER_SIZE
  {
    var n, x, m := |it.rawName|, |it.extra|, |it.comment|;
    [0x50, 0x4b, 0x01, 0x02, 20, 0, 20, 0, Lo(it.flags), Hi(it.flags), Lo(it.compression), Hi(it.compression)] + SizeFields(it) +
    [Lo(n), Hi(n), Lo(x), Hi(x), Lo(m), Hi(m), 0, 0, 0, 0, 0, 0, 0, 0, Lo(o), Hi(o), Lo2(o), Hi2(o)]
  }

  function CentralRecord(it: Item, o: nat): seq<byte> {
    Bytes(CentralHead(it, o)) + it.rawName + it.extra + it.comment
  }

  /** End of central directory record, section 4.3.16, with an empty archive comment. */
  function EndRecordOctets(n: nat, size: nat, offset: nat): (r: seq<Octet>)
    ensures |r| == END_SIZE
  {
    [0x50, 0x4b, 0x05, 0x06, 0, 0, 0, 0, Lo(n), Hi(n), Lo(n), Hi(n),
     Lo(size), Hi(size), Lo2(size), Hi2(size), Lo(offset), Hi(offset), Lo2(offset), Hi2(offset), 0, 0]
  }

  function Locals(items: seq<Item>): seq<byte> {
    if items == [] then [] else Locals(items[..|items| - 1]) + LocalRecord(items[|items| - 1])
  }

  function OffsetOf(items: seq<Item>, k: nat): nat
    requires k <= |items|
  {
    |Locals(items[..k])|
  }

  function Centrals(items: seq<Item>): seq<byte> {
    if items == [] then []
    else Centrals(items[..|items| - 1]) + CentralRecord(items[|items| - 1], OffsetOf(items, |items| - 1))
  }

  function WriteZip(items: seq<Item>): seq<byte> {
    Locals(items) + Centrals(items) + Bytes(EndRecordOctets(|items|, |Centrals(items)|, |Locals(items)|))
  }

  // ---------- Reading fields back ----------

  /** The header the directory holds for an item whose local record starts at `o`. */
  function HeaderOf(it: Item, o: nat): Header {
    Header(it.flags, it.compression, CrcNumber(it.payload), |it.raw|, |it.payload|, it.rawName, o)
  }

  /** Four signature bytes. */
  ghost predicate Signed(part: seq<Octet>, x: Octet, y: Octet) {
    |part| >= 4 && part[0] == 0x50 && part[1] == 0x4b && part[2] == x && part[3] == y
  }

  lemma SizesRead(it: Item)
    requires it.Encodable()
    ensures var h := SizeFields(it);
      Has32(h, 4, CrcNumber(it.payload)) && Has32(h, 8, |it.raw|) && Has32(h, 12, |it.payload|)
  {
    hide CrcNumber, Lo, Hi, Lo2, Hi2;
    Split32(CrcNumber(it.payload));
    Split32(|it.raw|);
    Split32(|it.payload|);
  }

  lemma SizesInside(it: Item, x: seq<Octet>, z: seq<Octet>)
    requires it.Encodable()
    ensures var h := x + SizeFields(it) + z;
      Has32(h, |x| + 4, CrcNumber(it.payload)) && Has32(h, |x| + 8, |it.raw|) && Has32(h, |x| + 12, |it.payload|)
  {
    hide SizeFields, Has32, CrcNumber;
    SizesRead(it);
    FieldInside(x, SizeFields(it), z, 4, CrcNumber(it.payload));
    FieldInside(x, SizeFields(it), z, 8, |it.raw|);
    FieldInside(x, SizeFields(it), z, 12, |it.payload|);
  }

  lemma CentralSizes(it: Item, o: nat)
    requires it.Encodable()
    ensures var h := CentralHead(it, o);
      Has32(h, 16, CrcNumber(it.payload)) && Has32(h, 20, |it.raw|) && Has32(h, 24, |it.payload|)
  {
    hide CrcNumber, Lo, Hi, Lo2, Hi2, SizeFields, Has32;
    var n, x, m := |it.rawName|, |it.extra|, |it.comment|;
    SizesInside(it, [0x50, 0x4b, 0x01, 0x02, 20, 0, 20, 0, Lo(it.flags), Hi(it.flags), Lo(it.compression), Hi(it.compression)],
      [Lo(n), Hi(n), Lo(x), Hi(x), Lo(m), Hi(m), 0, 0, 0, 0, 0, 0, 0, 0, Lo(o), Hi(o), Lo2(o), Hi2(o)]);
  }

  lemma CentralFields(it: Item, o: nat)
    requires it.Encodable() && o < 0x1_0000_0000
    ensures var h := CentralHead(it, o);
      && Signed(h, 0x01, 0x02) && Has16(h, 8, it.flags) && Has16(h, 10, it.compression)
      && Has32(h, 16, CrcNumber(it.payload)) && Has32(h, 20, |it.raw|) && Has32(h, 24, |it.payload|)
      && Has16(h, 28, |it.rawName|) && Has16(h, 30, |it.extra|) && Has16(h, 32, |it.comment|) && Has32(h, 42, o)
  {
    hide CrcNumber, Lo, Hi, Lo2, Hi2, SizeFields;
    CentralSizes(it, o);
    Split16(it.flags);
    Split16(it.compression);
    Split16(|it.rawName|);
    Split16(|it.extra|);
    Split16(|it.comment|);
    Split32(o);
  }

  lemma LocalFields(it: Item)
    requires it.Encodable()
    ensures var h := LocalHead(it);
      && Signed(h, 0x03, 0x04) && Has16(h, 6, it.flags) && Has16(h, 8, it.compression)
      && Has32(h, 14, CrcNumber(it.payload)) && Has32(h, 18, |it.raw|) && Has32(h, 22, |it.payload|)
      && Has16(h, 26, |it.rawName|) && Has16(h, 28, |it.localExtra|)
  {
    hide CrcNumber, Lo, Hi, Lo2, Hi2, SizeFields;
    var n, x := |it.rawName|, |it.localExtra|;
    SizesInside(it, [0x50, 0x4b, 0x03, 0x04, 20, 0, Lo(it.flags), Hi(it.flags), Lo(it.compression), Hi(it.compression)], [Lo(n), Hi(n), Lo(x), Hi(x)]);
    Split16(it.flags);
    Split16(it.compression);
    Split16(n);
    Split16(x);
  }

  lemma EndFields(n: nat, size: nat, offset: nat)
    requires n < 0x1_0000 && size < 0x1_0000_0000 && offset < 0x1_0000_0000
    ensures var r := EndRecordOctets(n, size, offset);
      && Signed(r, 0x05, 0x06) && Has16(r, 4, 0) && Has16(r, 6, 0) && Has16(r, 8, n) && Has16(r, 10, n)
      && Has32(r, 12, size) && Has32(r, 16, offset) && Has16(r, 20, 0)
  {
    hide Lo, Hi, Lo2, Hi2;
    Split16(n);
    Split32(size);
    Split32(offset);
  }

  lemma CentralParts(b: seq<byte>, at: nat, it: Item, o: nat)
    requires Contains(b, at, CentralRecord(it, o))
    ensures Contains(b, at, Bytes(CentralHead(it, o))) && Contains(b, at + HEADER_SIZE, it.rawName)
    ensures |CentralRecord(it, o)| == HEADER_SIZE + |it.rawName| + |it.extra| + |it.comment|
  {
    hide CentralHead, Contains, Bytes;
    var head := Bytes(CentralHead(it, o));
    assert CentralRecord(it, o) == head + (it.rawName + it.extra + it.comment);
    assert CentralRecord(it, o) == head + it.rawName + (it.extra + it.comment);
    ContainsHead(b, at, head, it.rawName + it.extra + it.comment);
    ContainsPart(b, at, head, it.rawName, it.extra + it.comment);
  }

  /** A header at `at` that fits in front of `end` and is followed by `next`. */
  ghost predicate ReadsAs(b: seq<byte>, at: nat, end: nat, h: Header, next: nat) {
    end <= |b| && HeaderFits(b, at, end) && at + HeaderLength(b, at) == next && HeaderAt(b, at) == h
  }

  lemma HeaderReadsBack(b: seq<byte>, at: nat, end: nat, it: Item, o: nat)
    requires it.Encodable() && o < 0x1_0000_0000
    requires Contains(b, at, CentralRecord(it, o)) && at + |CentralRecord(it, o)| <= end <= |b|
    ensures ReadsAs(b, at, end, HeaderOf(it, o), at + |CentralRecord(it, o)|)
  {
    hide CrcNumber, U16, U32, Contains, Bytes, CentralHead, CentralRecord, Has16, Has32, Signed;
    var head := CentralHead(it, o);
    CentralFields(it, o);
    CentralParts(b, at, it, o);
    HeadSignature(b, at, head);
    Contains16(b, at, head, 8, it.flags);
    Contains16(b, at, head, 10, it.compression);
    Contains32(b, at, head, 16, CrcNumber(it.payload));
    Contains32(b, at, head, 20, |it.raw|);
    Contains32(b, at, head, 24, |it.payload|);
    Contains16(b, at, head, 28, |it.rawName|);
    Contains16(b, at, head, 30, |it.extra|);
    Contains16(b, at, head, 32, |it.comment|);
    Contains32(b, at, head, 42, o);
    ContainsSlice(b, at + HEADER_SIZE, it.rawName);
  }

  /** The four signature bytes decode to the signature. */
  lemma HeadSignature(b: seq<byte>, o: nat, part: seq<Octet>)
    requires Contains(b, o, Bytes(part))
    ensures Signed(part, 0x01, 0x02) ==> o + |part| <= |b| && U32(b, o) == HEADER_SIGNATURE
    ensures Signed(part, 0x03, 0x04) ==> o + |part| <= |b| && U32(b, o) == LOCAL_SIGNATURE
    ensures Signed(part, 0x05, 0x06) ==> o + |part| <= |b| && U32(b, o) == END_SIGNATURE
  {
    hide U32;
    if |part| >= 4 {
      Contains32(b, o, part, 0,
        At(part, 0) + 0x100 * At(part, 1) + 0x1_0000 * (At(part, 2) + 0x100 * At(part, 3)));
    }
  }

  // ---------- The directory reads back ----------

  ghost predicate AllEncodable(items: seq<Item>) {
    |Locals(items)| < 0x1_0000_0000 && forall i :: 0 <= i < |items| ==> items[i].Encodable()
  }

  lemma {:induction false} LocalsGrow(items: seq<Item>, k: nat, n: nat)
    requires k <= n <= |items|
    ensures OffsetOf(items, k) + LOCAL_SIZE * (n - k) <= OffsetOf(items, n)
    ensures Locals(items[..k]) <= Locals(items[..n])
    decreases n
  {
    if k < n {
      assert items[..n][..n - 1] == items[..n - 1];
      LocalsGrow(items, k, n - 1);
    }
  }

  lemma {:induction false} CentralsGrow(items: seq<Item>, k: nat, n: nat)
    requires k <= n <= |items|
    ensures Centrals(items[..k]) <= Centrals(items[..n])
    decreases n
  {
    hide CentralRecord;
    if k < n {
      assert items[..n][..n - 1] == items[..n - 1];
      CentralsGrow(items, k, n - 1);
    }
  }

  lemma RecordInCentrals(items: seq<Item>, k: nat)
    requires k < |items|
    ensures var c := Centrals(items[..k]);
      Centrals(items[..k + 1]) == c + CentralRecord(items[k], OffsetOf(items, k)) &&
      Contains(Centrals(items), |c|, CentralRecord(items[k], OffsetOf(items, k)))
  {
    hide CentralRecord, Locals, Contains;
    CentralsGrow(items, k + 1, |items|);
    assert items[..|items|] == items;
    assert items[..k + 1][..k] == items[..k];
    PrefixContains(Centrals(items), Centrals(items[..k]), CentralRecord(items[k], OffsetOf(items, k)));
  }

  lemma RecordInLocals(items: seq<Item>, k: nat)
    requires k < |items|
    ensures Contains(Locals(items), OffsetOf(items, k), LocalRecord(items[k]))
  {
    hide LocalRecord, Contains;
    LocalsGrow(items, k + 1, |items|);
    assert items[..|items|] == items;
    assert items[..k + 1][..k] == items[..k];
    PrefixContains(Locals(items), Locals(items[..k]), LocalRecord(items[k]));
  }

  /** The headers the directory stands for. */
  function HeadersOf(items: seq<Item>, k: nat): (r: seq<Header>)
    requires k <= |items|
    ensures |r| == k
    ensures forall i :: 0 <= i < k ==> r[i] == HeaderOf(items[i], OffsetOf(items, i))
  {
    if k == 0 then [] else HeadersOf(items, k - 1) + [HeaderOf(items[k - 1], OffsetOf(items, k - 1))]
  }

  lemma WalkOne(b: seq<byte>, start: nat, end: nat, k: nat, w: Walked, h: Header, next: nat)
    requires start <= end <= |b| && Walk(b, start, end, k) == Some(w) && ReadsAs(b, w.offset, end, h, next)
    ensures Walk(b, start, end, k + 1) == Some(Walked(next, w.headers + [h]))
  {
    hide HeaderFits, HeaderLength, HeaderAt;
  }

  lemma {:induction false} DirectoryReadsBack(b: seq<byte>, start: nat, items: seq<Item>, k: nat)
    requires AllEncodable(items) && Contains(b, start, Centrals(items)) && k <= |items|
    ensures |Centrals(items[..k])| <= |Centrals(items)| && start + |Centrals(items)| <= |b|
    ensures Walk(b, start, start + |Centrals(items)|, k) ==
      Some(Walked(start + |Centrals(items[..k])|, HeadersOf(items, k)))
  {
    hide Walk, ReadsAs, HeaderOf, Contains, Centrals, OffsetOf, AllEncodable;
    ContainsSlice(b, start, Centrals(items));
    if k == 0 {
      NoCentrals(items);
      NothingWalked(b, start, start + |Centrals(items)|);
    } else {
      DirectoryReadsBack(b, start, items, k - 1);
      NextHeaderReadsBack(b, start, items, k - 1);
      WalkOne(b, start, start + |Centrals(items)|, k - 1, Walked(start + |Centrals(items[..k - 1])|, HeadersOf(items, k - 1)),
        HeaderOf(items[k - 1], OffsetOf(items, k - 1)), start + |Centrals(items[..k])|);
    }
  }

  lemma NothingWalked(b: seq<byte>, start: nat, end: nat)
    requires start <= end <= |b|
    ensures Walk(b, start, end, 0) == Some(Walked(start, []))
  {
  }

  lemma NoCentrals(items: seq<Item>)
    ensures Centrals(items[..0]) == []
  {
  }

  lemma NextHeaderReadsBack(b: seq<byte>, start: nat, items: seq<Item>, k: nat)
    requires AllEncodable(items) && Contains(b, start, Centrals(items)) && k < |items|
    ensures |Centrals(items[..k])| <= |Centrals(items[..k + 1])| <= |Centrals(items)| <= |b| - start
    ensures ReadsAs(b, start + |Centrals(items[..k])|, start + |Centrals(items)|,
      HeaderOf(items[k], OffsetOf(items, k)), start + |Centrals(items[..k + 1])|)
  {
    hide ReadsAs, CentralRecord, HeaderOf, Contains, Locals, Centrals;
    ContainsSlice(b, start, Centrals(items));
    var o, c := OffsetOf(items, k), Centrals(items[..k]);
    RecordInCentrals(items, k);
    CentralsGrow(items, k + 1, |items|);
    assert items[..|items|] == items;
    ContainsTransitive(b, start, Centrals(items), |c|, CentralRecord(items[k], o));
    LocalsGrow(items, k, |items|);
    HeaderReadsBack(b, start + |c|, start + |Centrals(items)|, items[k], o);
  }

  lemma EndReadsBack(b: seq<byte>, n: nat, size: nat, offset: nat)
    requires |b| >= END_SIZE && Contains(b, |b| - END_SIZE, Bytes(EndRecordOctets(n, size, offset)))
    requires n < 0x1_0000 && size < 0x1_0000_0000 && offset < 0x1_0000_0000
    ensures EndOf(b) == Some(|b| - END_SIZE)
    ensures EndRecordAt(b, |b| - END_SIZE) == EndRecord(|b| - END_SIZE, 0, 0, n, n, size, offset)
  {
    hide U16, U32, Contains, Bytes, EndRecordOctets, Has16, Has32, Signed;
    var at, r := |b| - END_SIZE, EndRecordOctets(n, size, offset);
    EndFields(n, size, offset);
    HeadSignature(b, at, r);
    Contains16(b, at, r, 4, 0);
    Contains16(b, at, r, 6, 0);
    Contains16(b, at, r, 8, n);
    Contains16(b, at, r, 10, n);
    Contains32(b, at, r, 12, size);
    Contains32(b, at, r, 16, offset);
    Contains16(b, at, r, 20, 0);
  }

  // ---------- Round trip ----------

  /** The pieces of a stream that has no error, one after the other. */
  function Joined(events: seq<R.StreamEvent>): seq<byte>
    requires forall e :: e in events ==> e.Chunk?
  {
    if events == [] then [] else events[0].data + Joined(events[1..])
  }

  /** `raw` stands for the payload: as it is, or as a deflate stream the platform turns into it piece by piece. */
  ghost predicate Stores(p: R.Platform, it: Item) {
    || (it.compression == 0 && it.raw == it.payload)
    || (it.compression == 8 && p.canInflate && var events := p.inflate(it.raw);
        (forall e :: e in events ==> e.Chunk?) && Joined(events) == it.payload)
  }

  /** A name the reader permits, neither encrypted nor followed by a data descriptor. */
  predicate Plain(p: R.Platform, it: Item) {
    && p.strict(it.rawName).Some? && R.PathAllowed(p.strict(it.rawName).value)
    && it.flags % 2 == 0 && it.flags / 8 % 2 == 0
  }

  /** Stored and deflated entries within the limits, with permitted names and without unsupported features. */
  ghost predicate Writable(p: R.Platform, items: seq<Item>) {
    && |items| <= MAX_ENTRIES && |WriteZip(items)| <= MAX_ARCHIVE_SIZE
    && forall i :: 0 <= i < |items| ==> items[i].Encodable() && Stores(p, items[i]) && Plain(p, items[i])
  }

  /** The file's name ends as the descriptor's kind demands. */
  predicate NamedFor(lower: JsString, kind: TargetKind) {
    || (kind != Script && (EndsWith(lower, ASI) || EndsWith(lower, DLL)))
    || (kind != Plugin && (EndsWith(lower, LUA) || EndsWith(lower, CS)))
  }

  /** The descriptor of the `k`-th entry. */
  function TargetOf(p: R.Platform, items: seq<Item>, k: nat, kind: TargetKind): Target
    requires k < |items| && p.strict(items[k].rawName).Some?
  {
    var it := items[k];
    Target(kind, p.strict(it.rawName).value, OffsetOf(items, k), |it.raw|, |it.payload|, CrcNumber(it.payload), it.compression)
  }

  lemma Layout(l: seq<byte>, c: seq<byte>, e: seq<byte>)
    ensures Contains(l + c + e, 0, l) && Contains(l + c + e, |l|, c) && Contains(l + c + e, |l| + |c|, e)
  {
    var b := l + c + e;
    assert b[0..|l|] == l && b[|l|..|l| + |c|] == c && b[|l| + |c|..|l| + |c| + |e|] == e;
  }

  /** What the reader's directory is for a written archive. */
  function DirectoryFor(items: seq<Item>): R.Directory {
    R.Directory(|Locals(items)| + |Centrals(items)|, |Locals(items)|, |Centrals(items)|, |items|)
  }

  lemma ArchiveReadsBack(p: R.Platform, items: seq<Item>)
    requires Writable(p, items)
    ensures R.DirectoryOf(WriteZip(items)) == R.Ok(DirectoryFor(items))
    ensures R.DirectoryHeaders(WriteZip(items), DirectoryFor(items)) == Some(HeadersOf(items, |items|))
    ensures Contains(WriteZip(items), 0, Locals(items))
  {
    hide Writable, AllEncodable, WriteZip, Locals, Centrals, EndRecordOctets, Bytes, Contains, R.DirectoryOf, Walk,
      HeadersOf;
    WrittenLayout(items);
    EncodableItems(p, items);
    EndAccepted(WriteZip(items), |items|, |Centrals(items)|, |Locals(items)|);
    WholeDirectoryReadsBack(WriteZip(items), |Locals(items)|, items);
  }

  lemma WrittenLayout(items: seq<Item>)
    ensures |WriteZip(items)| == |Locals(items)| + |Centrals(items)| + END_SIZE
    ensures Contains(WriteZip(items), 0, Locals(items))
    ensures Contains(WriteZip(items), |Locals(items)|, Centrals(items))
    ensures Contains(WriteZip(items), |Locals(items)| + |Centrals(items)|,
      Bytes(EndRecordOctets(|items|, |Centrals(items)|, |Locals(items)|)))
  {
    hide Locals, Centrals, EndRecordOctets, Contains;
    Layout(Locals(items), Centrals(items), Bytes(EndRecordOctets(|items|, |Centrals(items)|, |Locals(items)|)));
  }

  lemma EncodableItems(p: R.Platform, items: seq<Item>)
    requires Writable(p, items)
    ensures AllEncodable(items) && |items| <= MAX_ENTRIES && |WriteZip(items)| <= MAX_ARCHIVE_SIZE
  {
    hide Locals, Centrals, Stores, Plain;
  }

  lemma WholeDirectoryReadsBack(b: seq<byte>, start: nat, items: seq<Item>)
    requires AllEncodable(items) && Contains(b, start, Centrals(items))
    ensures start + |Centrals(items)| <= |b|
    ensures Walk(b, start, start + |Centrals(items)|, |items|) ==
      Some(Walked(start + |Centrals(items)|, HeadersOf(items, |items|)))
  {
    hide Walk, Centrals, HeadersOf, AllEncodable;
    assert items[..|items|] == items;
    DirectoryReadsBack(b, start, items, |items|);
  }

  lemma EndAccepted(b: seq<byte>, n: nat, size: nat, offset: nat)
    requires |b| == offset + size + END_SIZE <= MAX_ARCHIVE_SIZE && n <= MAX_ENTRIES
    requires Contains(b, offset + size, Bytes(EndRecordOctets(n, size, offset)))
    ensures R.DirectoryOf(b) == R.Ok(R.Directory(offset + size, offset, size, n))
  {
    hide EndRecordOctets, Bytes, Contains, EndOf, EndRecordAt;
    EndReadsBack(b, n, size, offset);
  }

  lemma JoinAssociates(x: seq<byte>, y: seq<byte>, z: seq<byte>)
    ensures x + (y + z) == x + y + z
  {
  }

  lemma {:induction false} JoinedLast(events: seq<R.StreamEvent>)
    requires events != [] && forall e :: e in events ==> e.Chunk?
    ensures Joined(events) == Joined(events[..|events| - 1]) + events[|events| - 1].data
    decreases |events|
  {
    var n := |events| - 1;
    if n == 0 {
      assert Joined(events[..0]) == [] && Joined(events[1..]) == [];
    } else {
      var init := events[..n];
      JoinedLast(events[1..]);
      assert events[1..][..n - 1] == init[1..];
      assert Joined(init) == events[0].data + Joined(init[1..]);
      JoinAssociates(events[0].data, Joined(init[1..]), events[n].data);
      hide Joined;
    }
  }

  lemma {:induction false} JoinedIsDelivered(events: seq<R.StreamEvent>)
    requires forall e :: e in events ==> e.Chunk?
    ensures R.Delivered(events) == Joined(events)
    decreases |events|
  {
    if events != [] {
      JoinedLast(events);
      JoinedIsDelivered(events[..|events| - 1]);
    }
  }

  /** What the bytes of an item come to, behind the local header. */
  lemma RawReadsBack(p: R.Platform, b: seq<byte>, it: Item, o: nat, data: nat)
    requires it.Encodable() && Stores(p, it) && data + |it.raw| <= |b| && b[data..data + |it.raw|] == it.raw
    ensures R.Extracted(p, b, HeaderOf(it, o), data) == R.Ok(it.payload)
  {
    hide CrcNumber, R.InflateResult, R.Delivered;
    if it.compression == 8 {
      JoinedIsDelivered(p.inflate(it.raw));
      R.InflateAccepts(p.inflate(it.raw), |it.payload|);
    }
  }

  lemma LocalReadsBack(p: R.Platform, b: seq<byte>, it: Item, o: nat, cdOffset: nat)
    requires it.Encodable() && Stores(p, it) && Plain(p, it)
    requires Contains(b, o, LocalRecord(it)) && o + |LocalRecord(it)| <= cdOffset <= |b|
    ensures var name := p.strict(it.rawName);
      && name.Some?
      && R.ExtractResult(p, b, R.Entry(name.value, HeaderOf(it, o)), cdOffset) == R.Ok(it.payload)
  {
    hide CrcNumber, U16, U32, Contains, LocalRecord, Stores, R.PathAllowed, R.LocateData, R.Extracted;
    LocalParts(b, it, o);
    var data := o + LOCAL_SIZE + |it.rawName| + |it.localExtra|;
    ContainsSlice(b, data, it.raw);
    DataIsLocated(p, b, it, o, cdOffset);
    RawReadsBack(p, b, it, o, data);
  }

  /** Every check of the local header passes. */
  lemma DataIsLocated(p: R.Platform, b: seq<byte>, it: Item, o: nat, cdOffset: nat)
    requires it.Encodable() && Plain(p, it)
    requires Contains(b, o, LocalRecord(it)) && o + |LocalRecord(it)| <= cdOffset <= |b|
    ensures p.strict(it.rawName).Some?
    ensures R.LocateData(p, b, R.Entry(p.strict(it.rawName).value, HeaderOf(it, o)), cdOffset)
      == R.Ok(o + LOCAL_SIZE + |it.rawName| + |it.localExtra|)
  {
    hide CrcNumber, U16, U32, Contains, Bytes, LocalHead, Has16, Has32, Signed, R.PathAllowed, LocalRecord;
    var head, n, x := LocalHead(it), |it.rawName|, |it.localExtra|;
    LocalParts(b, it, o);
    LocalFields(it);
    HeadSignature(b, o, head);
    Contains16(b, o, head, 6, it.flags);
    Contains16(b, o, head, 8, it.compression);
    Contains32(b, o, head, 14, CrcNumber(it.payload));
    Contains32(b, o, head, 18, |it.raw|);
    Contains32(b, o, head, 22, |it.payload|);
    Contains16(b, o, head, 26, n);
    Contains16(b, o, head, 28, x);
    ContainsSlice(b, o + LOCAL_SIZE, it.rawName);
  }

  lemma LocalParts(b: seq<byte>, it: Item, o: nat)
    requires Contains(b, o, LocalRecord(it))
    ensures Contains(b, o, Bytes(LocalHead(it))) && Contains(b, o + LOCAL_SIZE, it.rawName)
    ensures Contains(b, o + LOCAL_SIZE + |it.rawName| + |it.localExtra|, it.raw)
    ensures |LocalRecord(it)| == LOCAL_SIZE + |it.rawName| + |it.localExtra| + |it.raw|
  {
    hide LocalHead, Contains, Bytes;
    var h := Bytes(LocalHead(it));
    assert LocalRecord(it) == h + (it.rawName + it.localExtra + it.raw);
    assert LocalRecord(it) == h + it.rawName + (it.localExtra + it.raw);
    assert LocalRecord(it) == (h + it.rawName + it.localExtra) + it.raw;
    ContainsHead(b, o, h, it.rawName + it.localExtra + it.raw);
    ContainsPart(b, o, h, it.rawName, it.localExtra + it.raw);
    ContainsHead(b, o, h + it.rawName + it.localExtra, it.raw);
  }

  lemma HeadersAreClean(p: R.Platform, items: seq<Item>)
    requires Writable(p, items)
    ensures R.FirstPolicy(p, HeadersOf(items, |items|)).None?
  {
    hide Locals, Centrals, WriteZip, R.CleanHeader, R.FirstPolicy, HeaderOf, Stores, Plain, OffsetOf;
    var hs := HeadersOf(items, |items|);
    forall i | 0 <= i < |hs| ensures R.CleanHeader(p, hs[i]) {
      HeaderIsClean(p, items[i], OffsetOf(items, i));
    }
    R.FirstPolicyIff(p, hs, R.PathRejected);
  }

  lemma HeaderIsClean(p: R.Platform, it: Item, o: nat)
    requires it.Encodable() && Stores(p, it) && Plain(p, it)
    ensures R.CleanHeader(p, HeaderOf(it, o))
  {
    hide R.PathAllowed, CrcNumber;
  }

  /** Local offsets are strictly increasing, so a descriptor matches its own header only. */
  lemma DescriptorMatchesOnce(p: R.Platform, items: seq<Item>, k: nat, kind: TargetKind)
    requires k < |items| && p.strict(items[k].rawName).Some?
    ensures R.Matching(p, HeadersOf(items, |items|), TargetOf(p, items, k, kind)) == [HeaderOf(items[k], OffsetOf(items, k))]
  {
    hide Locals, CrcNumber, R.Matching;
    var t, hs := TargetOf(p, items, k, kind), HeadersOf(items, |items|);
    forall i | 0 <= i < |hs| && R.Matches(p, hs[i], t) ensures i == k {
      LocalsGrow(items, if i < k then i else k, if i < k then k else i);
    }
    R.MatchingOnly(p, hs, t, k);
  }

  lemma ScanReadsBack(p: R.Platform, items: seq<Item>, k: nat, kind: TargetKind)
    requires Writable(p, items) && k < |items| && p.strict(items[k].rawName).Some?
    requires |Locals(items)| + |Centrals(items)| <= |WriteZip(items)|
    ensures R.ScanResult(p, WriteZip(items), DirectoryFor(items), TargetOf(p, items, k, kind)) ==
      R.Ok(R.Entry(p.strict(items[k].rawName).value, HeaderOf(items[k], OffsetOf(items, k))))
  {
    hide Locals, Centrals, WriteZip, Writable, R.FirstPolicy, R.Matching, R.DirectoryHeaders, R.DirectoryOf, Contains,
      HeadersOf, CrcNumber;
    ArchiveReadsBack(p, items);
    HeadersAreClean(p, items);
    DescriptorMatchesOnce(p, items, k, kind);
  }

  lemma TargetIsValid(p: R.Platform, items: seq<Item>, k: nat, kind: TargetKind)
    requires Writable(p, items) && k < |items|
    requires p.strict(items[k].rawName).Some? && NamedFor(p.lower(p.strict(items[k].rawName).value), kind)
    ensures R.ValidTarget(p, TargetOf(p, items, k, kind))
  {
    hide Locals, Centrals, WriteZip, CrcNumber, OffsetOf, EndsWith;
    assert items[k].Encodable() && Stores(p, items[k]) && Plain(p, items[k]);
  }

  lemma ItemIsPlain(p: R.Platform, items: seq<Item>, k: nat)
    requires Writable(p, items) && k < |items|
    ensures items[k].Encodable() && Stores(p, items[k]) && Plain(p, items[k]) && p.strict(items[k].rawName).Some?
  {
    hide Locals, Centrals, WriteZip, Stores;
  }

  /**
   * Reading the `k`-th entry of a written archive by its descriptor gives back exactly the `k`-th payload, stored or deflated.
   */
  lemma RoundTrip(p: R.Platform, items: seq<Item>, k: nat, kind: TargetKind)
    requires Writable(p, items) && k < |items|
    requires p.strict(items[k].rawName).Some? ==> NamedFor(p.lower(p.strict(items[k].rawName).value), kind)
    ensures p.strict(items[k].rawName).Some?
    ensures var b := WriteZip(items);
      R.ReadResult(p, |b|, Some(b), TargetOf(p, items, k, kind)) == R.Ok(items[k].payload)
  {
    ItemIsPlain(p, items, k);
    hide Locals, Centrals, LocalRecord, R.DirectoryOf, R.ScanResult, R.ExtractResult, R.ValidTarget, Contains, HeaderOf,
      TargetOf, Stores, Plain, Writable, WriteZip, OffsetOf, NamedFor, R.DirectoryHeaders, HeadersOf;
    hide R.ReadResult;
    EncodableItems(p, items);
    WrittenLayout(items);
    TargetIsValid(p, items, k, kind);
    ArchiveReadsBack(p, items);
    ScanReadsBack(p, items, k, kind);
    RecordReadsBack(p, items, k);
    ReadStages(p, WriteZip(items), TargetOf(p, items, k, kind), DirectoryFor(items),
      R.Entry(p.strict(items[k].rawName).value, HeaderOf(items[k], OffsetOf(items, k))));
  }

  lemma ReadStages(p: R.Platform, b: seq<byte>, t: Target, d: R.Directory, e: R.Entry)
    requires 0 < |b| <= MAX_ARCHIVE_SIZE && R.ValidTarget(p, t) && R.DirectoryOf(b) == R.Ok(d)
    requires R.ScanResult(p, b, d, t) == R.Ok(e)
    ensures R.ReadResult(p, |b|, Some(b), t) == R.ExtractResult(p, b, e, d.offset)
  {
    hide R.ValidTarget, R.DirectoryOf, R.ScanResult, R.ExtractResult;
  }

  lemma RecordReadsBack(p: R.Platform, items: seq<Item>, k: nat)
    requires Writable(p, items) && k < |items| && |Locals(items)| <= |WriteZip(items)| && p.strict(items[k].rawName).Some?
    ensures R.ExtractResult(p, WriteZip(items), R.Entry(p.strict(items[k].rawName).value, HeaderOf(items[k], OffsetOf(items, k))),
      |Locals(items)|) == R.Ok(items[k].payload)
  {
    hide Locals, Centrals, LocalRecord, R.ExtractResult, Contains, HeaderOf, Stores, Plain, Writable, WriteZip, OffsetOf;
    ItemIsPlain(p, items, k);
    WrittenLayout(items);
    RecordInLocals(items, k);
    ContainsTransitive(WriteZip(items), 0, Locals(items), OffsetOf(items, k), LocalRecord(items[k]));
    RecordWithin(items, k);
    LocalReadsBack(p, WriteZip(items), items[k], OffsetOf(items, k), |Locals(items)|);
  }

  lemma RecordWithin(items: seq<Item>, k: nat)
    requires k < |items|
    ensures OffsetOf(items, k) + |LocalRecord(items[k])| <= |Locals(items)|
  {
    hide LocalRecord;
    RecordInLocals(items, k);
  }
}
