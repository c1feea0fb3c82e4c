/** Corruption of an entry's stored bytes is reported as a checksum mismatch, whatever else the archive holds. */
module ZipTamper {
  import opened Prelude
  import opened ZipFormat
  import opened Crc32
  import R = EntryReader

  /** The two files agree from `from` on. */
  ghost predicate SameFrom(b: seq<byte>, c: seq<byte>, from: nat) {
    |b| == |c| && forall i :: from <= i < |b| ==> b[i] == c[i]
  }

  lemma SameFields(b: seq<byte>, c: seq<byte>, from: nat, o: nat)
    requires SameFrom(b, c, from) && from <= o
    ensures o + 2 <= |b| ==> U16(b, o) == U16(c, o)
    ensures o + 4 <= |b| ==> U32(b, o) == U32(c, o)
  {
  }

  lemma SameEndRecord(b: seq<byte>, c: seq<byte>, from: nat, i: nat)
    requires SameFrom(b, c, from) && from <= i
    ensures IsEndRecord(b, i) <==> IsEndRecord(c, i)
    ensures IsEndRecord(b, i) ==> i + END_SIZE <= |b| == |c| && EndRecordAt(b, i) == EndRecordAt(c, i)
  {
    hide SameFrom, U16, U32;
    SameLength(b, c, from);
    if i + END_SIZE <= |b| == |c| {
      SameFields(b, c, from, i);
      SameFields(b, c, from, i + 4);
      SameFields(b, c, from, i + 6);
      SameFields(b, c, from, i + 8);
      SameFields(b, c, from, i + 10);
      SameFields(b, c, from, i + 12);
      SameFields(b, c, from, i + 16);
      SameFields(b, c, from, i + 20);
    }
  }

  lemma SameDirectory(b: seq<byte>, c: seq<byte>, d: R.Directory)
    requires R.DirectoryOf(b) == R.Ok(d) && SameFrom(b, c, d.offset)
    ensures R.DirectoryOf(c) == R.Ok(d)
  {
    hide SameFrom, IsEndRecord, EndRecordAt, EndOf;
    EndOfIsLast(b, d.endOffset);
    SameLength(b, c, d.offset);
    SameEndRecord(b, c, d.offset, d.endOffset);
    forall j | d.endOffset < j ensures !IsEndRecord(c, j) {
      SameEndRecord(b, c, d.offset, j);
    }
    EndOfIsLast(c, d.endOffset);
  }

  lemma SameLength(b: seq<byte>, c: seq<byte>, from: nat)
    requires SameFrom(b, c, from)
    ensures |b| == |c|
  {
  }

  lemma SameHeader(b: seq<byte>, c: seq<byte>, from: nat, o: nat, end: nat)
    requires SameFrom(b, c, from) && from <= o && end <= |b|
    ensures HeaderFits(b, o, end) <==> HeaderFits(c, o, end)
    ensures HeaderFits(b, o, end) ==> HeaderLength(b, o) == HeaderLength(c, o) && HeaderAt(b, o) == HeaderAt(c, o)
  {
    if o + HEADER_SIZE <= end {
      SameHeaderFields(b, c, from, o);
      if HeaderFits(b, o, end) {
        var n := NameLength(b, o);
        assert b[o + HEADER_SIZE..o + HEADER_SIZE + n] == c[o + HEADER_SIZE..o + HEADER_SIZE + n];
      }
    }
  }

  lemma SameHeaderFields(b: seq<byte>, c: seq<byte>, from: nat, o: nat)
    requires SameFrom(b, c, from) && from <= o && o + HEADER_SIZE <= |b|
    ensures U32(b, o) == U32(c, o) && U16(b, o + 8) == U16(c, o + 8) && U16(b, o + 10) == U16(c, o + 10)
    ensures U32(b, o + 16) == U32(c, o + 16) && U32(b, o + 20) == U32(c, o + 20) && U32(b, o + 24) == U32(c, o + 24)
    ensures U16(b, o + 28) == U16(c, o + 28) && U16(b, o + 30) == U16(c, o + 30) && U16(b, o + 32) == U16(c, o + 32)
    ensures U32(b, o + 42) == U32(c, o + 42)
  {
  }

  lemma {:induction false} SameWalk(b: seq<byte>, c: seq<byte>, from: nat, start: nat, end: nat, k: nat)
    requires SameFrom(b, c, from) && from <= start <= end <= |b|
    ensures Walk(b, start, end, k) == Walk(c, start, end, k)
  {
    hide HeaderFits, HeaderAt, HeaderLength;
    if k > 0 {
      SameWalk(b, c, from, start, end, k - 1);
      if Walk(b, start, end, k - 1).Some? {
        SameHeader(b, c, from, Walk(b, start, end, k - 1).value.offset, end);
      }
    }
  }

  /** The two files agree outside `[lo, hi)`. */
  ghost predicate SameOutside(b: seq<byte>, c: seq<byte>, lo: nat, hi: nat) {
    |b| == |c| && forall i :: 0 <= i < |b| && !(lo <= i < hi) ==> b[i] == c[i]
  }

  lemma SameLocalFields(b: seq<byte>, c: seq<byte>, lo: nat, hi: nat, o: nat)
    requires SameOutside(b, c, lo, hi) && o + LOCAL_SIZE <= lo <= |b|
    ensures |b| == |c| && U32(b, o) == U32(c, o) && R.LocalHeaderAt(b, o) == R.LocalHeaderAt(c, o)
  {
  }

  lemma SameSlice(b: seq<byte>, c: seq<byte>, lo: nat, hi: nat, x: nat, y: nat)
    requires SameOutside(b, c, lo, hi) && x <= y <= lo <= |b|
    ensures |b| == |c| && b[x..y] == c[x..y]
  {
  }

  lemma SameLocal(p: R.Platform, b: seq<byte>, c: seq<byte>, e: R.Entry, cdOffset: nat, data: nat)
    requires cdOffset <= |b| && R.LocateData(p, b, e, cdOffset) == R.Ok(data)
    requires SameOutside(b, c, data, data + e.header.compressedSize)
    ensures |b| == |c| && R.LocateData(p, c, e, cdOffset) == R.Ok(data)
  {
    hide HasBit, SameOutside, U32, R.LocalHeaderAt;
    var o, hi := e.header.localOffset, data + e.header.compressedSize;
    SameLocalFields(b, c, data, hi, o);
    SameSlice(b, c, data, hi, o + LOCAL_SIZE, o + LOCAL_SIZE + R.LocalHeaderAt(b, o).nameLength);
  }

  /** Where the reader finds the data of a readable descriptor. */
  ghost predicate DataLocated(p: R.Platform, b: seq<byte>, t: Target, data: nat) {
    && 0 <= t.compressedSize && R.DirectoryOf(b).Ok?
    && R.ScanResult(p, b, R.DirectoryOf(b).value, t).Ok?
    && R.LocateData(p, b, R.ScanResult(p, b, R.DirectoryOf(b).value, t).value, R.DirectoryOf(b).value.offset) == R.Ok(data)
  }

  /**
   * A readable stored entry whose data bytes are then changed, all within four consecutive bytes, is always refused
   * with a checksum mismatch: nothing else about the archive is misjudged, and no wrong payload comes out.
   */
  lemma TamperingIsDetected(p: R.Platform, size: int, b: seq<byte>, c: seq<byte>, t: Target, data: nat, q: nat)
    requires DataLocated(p, b, t, data) && t.compression == 0
    requires b != c && SameOutside(b, c, data, data + t.compressedSize) && SameOutside(b, c, q, q + 4)
    requires R.ReadResult(p, size, Some(b), t).Ok?
    ensures R.ReadResult(p, size, Some(c), t) == R.Err(R.CrcMismatch)
  {
    hide SameOutside, R.DirectoryOf, R.ScanResult, R.LocateData, CrcNumber, R.ValidTarget, R.ExtractResult;
    var d := R.DirectoryOf(b).value;
    var e := R.ScanResult(p, b, d, t).value;
    MatchedFields(p, b, d, t, e);
    SameStages(p, b, c, t, data);
    StoredExtract(p, b, e, d.offset, data);
    StoredExtract(p, c, e, d.offset, data);
    ChangedData(b, c, data, e.header.compressedSize, q);
  }

  lemma StoredExtract(p: R.Platform, b: seq<byte>, e: R.Entry, cdOffset: nat, data: nat)
    requires cdOffset <= |b| && R.LocateData(p, b, e, cdOffset) == R.Ok(data) && e.header.compression == 0
    ensures R.ExtractResult(p, b, e, cdOffset) ==
      if e.header.compressedSize != e.header.uncompressedSize then R.Err(R.LfhCdMismatch)
      else if CrcNumber(b[data..data + e.header.compressedSize]) != e.header.crc32 then R.Err(R.CrcMismatch)
      else R.Ok(b[data..data + e.header.compressedSize])
  {
    hide R.LocateData, CrcNumber;
  }

  /** Every stage in front of the checksum comes to the same result on both files. */
  lemma SameStages(p: R.Platform, b: seq<byte>, c: seq<byte>, t: Target, data: nat)
    requires DataLocated(p, b, t, data)
    requires SameOutside(b, c, data, data + t.compressedSize)
    ensures |b| == |c| && R.DirectoryOf(c) == R.DirectoryOf(b) && DataLocated(p, c, t, data)
    ensures var d := R.DirectoryOf(b).value; R.ScanResult(p, c, d, t) == R.ScanResult(p, b, d, t)
  {
    hide SameOutside, SameFrom, R.DirectoryOf, R.LocateData, R.ScanResult;
    var d := R.DirectoryOf(b).value;
    var e := R.ScanResult(p, b, d, t).value;
    MatchedFields(p, b, d, t, e);
    DataBeforeDirectory(b, c, data, data + e.header.compressedSize, d.offset);
    SameDirectory(b, c, d);
    SameScan(p, b, c, d, t);
    SameLocal(p, b, c, e, d.offset, data);
  }

  lemma MatchedFields(p: R.Platform, b: seq<byte>, d: R.Directory, t: Target, e: R.Entry)
    requires d.offset + d.size <= |b| && R.ScanResult(p, b, d, t) == R.Ok(e)
    ensures e.header.compression == t.compression && e.header.compressedSize == t.compressedSize
  {
    hide R.ScanResult;
    R.ScanSoundAndComplete(p, b, d, t, e);
  }

  lemma SameScan(p: R.Platform, b: seq<byte>, c: seq<byte>, d: R.Directory, t: Target)
    requires d.offset + d.size <= |b| && SameFrom(b, c, d.offset)
    ensures |b| == |c| && R.ScanResult(p, b, d, t) == R.ScanResult(p, c, d, t)
  {
    hide Walk, R.FirstPolicy, R.Matching;
    SameWalk(b, c, d.offset, d.offset, d.offset + d.size, d.entries);
  }

  lemma DataBeforeDirectory(b: seq<byte>, c: seq<byte>, lo: nat, hi: nat, cdOffset: nat)
    requires SameOutside(b, c, lo, hi) && hi <= cdOffset
    ensures SameFrom(b, c, cdOffset)
  {
  }

  lemma SameEverywhere(b: seq<byte>, c: seq<byte>, data: nat, n: nat)
    requires data + n <= |b| && SameOutside(b, c, data, data + n)
    ensures |c| == |b| && (b[data..data + n] == c[data..data + n] ==> b == c)
  {
    var x, y := b[data..data + n], c[data..data + n];
    if x == y {
      forall i | 0 <= i < |b| ensures b[i] == c[i] {
        if data <= i < data + n {
          assert b[i] == x[i - data] && c[i] == y[i - data];
        }
      }
    }
  }

  lemma ChangedData(b: seq<byte>, c: seq<byte>, data: nat, n: nat, q: nat)
    requires b != c && data + n <= |b|
    requires SameOutside(b, c, data, data + n) && SameOutside(b, c, q, q + 4)
    ensures |c| == |b| && CrcNumber(b[data..data + n]) != CrcNumber(c[data..data + n])
  {
    hide Crc;
    var x, y := b[data..data + n], c[data..data + n];
    assert x != y by {
      SameEverywhere(b, c, data, n);
    }
    var p := if q >= data then q - data else 0;
    assert forall i :: 0 <= i < n && !(p <= i < p + 4) ==> x[i] == b[data + i] == c[data + i] == y[i];
    BurstDetected(x, y, p);
    if CrcNumber(x) == CrcNumber(y) {
      CrcNumberInjective(x, y);
    }
  }
}
