/** CRC-32 of archive-entry-reader.js: the 256-entry table, the byte loop, and what the checksum detects. */
module Crc32 {
  import opened Prelude

  const POLY: bv32 := 0xedb88320

  /** Exclusive or, under a name of its own so that proofs can treat it algebraically. */
  function Xor(a: bv32, b: bv32): bv32 {
    a ^ b
  }

  // ---------- Reference definition: one message bit at a time ----------

  function BitStep(c: bv32): bv32 {
    if c & 1 == 1 then POLY ^ (c >> 1) else c >> 1
  }

  function BitSteps(c: bv32, n: nat): bv32
    decreases n
  {
    if n == 0 then c else BitSteps(BitStep(c), n - 1)
  }

  /** Feeds the `left` lowest bits of `b` that remain, least significant first. */
  function FeedBits(c: bv32, b: bv32, left: nat): bv32
    decreases left
  {
    if left == 0 then c else FeedBits(BitStep(Xor(c, b & 1)), b >> 1, left - 1)
  }

  function FeedByte(c: bv32, b: byte): bv32 {
    FeedBits(c, Widen(b), 8)
  }

  function Feed(c: bv32, s: seq<byte>): bv32
    decreases |s|
  {
    if s == [] then c else Feed(FeedByte(c, s[0]), s[1..])
  }

  /** The bit-by-bit CRC-32 of section 8 of RFC 1952. */
  function Crc(s: seq<byte>): bv32 {
    Xor(Feed(0xffff_ffff, s), 0xffff_ffff)
  }

  /** The checksum as the number stored in ZIP headers. */
  function CrcNumber(s: seq<byte>): (n: nat)
    ensures n < 0x1_0000_0000
  {
    Crc(s) as int
  }

  // ---------- Algebra of exclusive or ----------

  lemma XorAssoc(a: bv32, b: bv32, c: bv32)
    ensures Xor(Xor(a, b), c) == Xor(a, Xor(b, c))
  {
  }

  lemma XorCancel(a: bv32, b: bv32, m: bv32)
    ensures Xor(a, m) == Xor(b, m) ==> a == b
    ensures Xor(m, a) == Xor(m, b) ==> a == b
  {
  }

  lemma XorZero(a: bv32, b: bv32)
    ensures Xor(a, b) == 0 <==> a == b
  {
  }

  lemma XorNothing(a: bv32)
    ensures Xor(a, 0) == a
  {
  }

  function Widen(b: byte): bv32 {
    b as bv32
  }

  // ---------- Algebra of one step ----------

  lemma XorParity(a: bv32, b: bv32)
    ensures (a ^ b) & 1 == (a & 1) ^ (b & 1)
  {
  }

  lemma XorShift(a: bv32, b: bv32)
    ensures (a ^ b) >> 1 == (a >> 1) ^ (b >> 1)
  {
  }

  lemma LowBit(a: bv32)
    ensures a & 1 == 0 || a & 1 == 1
  {
  }

  lemma XorPolynomial(p: bv32, x: bv32, y: bv32)
    ensures p ^ (x ^ y) == (p ^ x) ^ y == x ^ (p ^ y)
    ensures (p ^ x) ^ (p ^ y) == x ^ y
  {
  }

  lemma BitStepLinearRaw(a: bv32, b: bv32)
    ensures BitStep(a ^ b) == BitStep(a) ^ BitStep(b)
  {
    XorParity(a, b);
    XorShift(a, b);
    LowBit(a);
    LowBit(b);
    XorPolynomial(POLY, a >> 1, b >> 1);
    assert (0 as bv32) ^ 1 == 1;
    assert (1 as bv32) ^ 1 == 0;
  }

  /** One step is linear over exclusive or. */
  lemma BitStepLinear(a: bv32, b: bv32)
    ensures BitStep(Xor(a, b)) == Xor(BitStep(a), BitStep(b))
  {
    assert Xor(a, b) == a ^ b;
    BitStepLinearRaw(a, b);
  }

  lemma BitStepKernel(a: bv32)
    ensures BitStep(a) == 0 <==> a == 0
  {
  }

  lemma {:induction false} BitStepsLinear(a: bv32, b: bv32, n: nat)
    ensures BitSteps(Xor(a, b), n) == Xor(BitSteps(a, n), BitSteps(b, n))
    decreases n
  {
    if n > 0 {
      BitStepLinear(a, b);
      BitStepsLinear(BitStep(a), BitStep(b), n - 1);
    }
  }

  /** No two register values are merged by shifting. */
  lemma {:induction false} BitStepsInjective(a: bv32, b: bv32, n: nat)
    requires BitSteps(a, n) == BitSteps(b, n)
    ensures a == b
    decreases n
  {
    if n > 0 {
      BitStepsInjective(BitStep(a), BitStep(b), n - 1);
      BitStepLinear(a, b);
      XorZero(BitStep(a), BitStep(b));
      BitStepKernel(Xor(a, b));
      XorZero(a, b);
    }
  }

  lemma {:induction false} BitStepsAdd(c: bv32, m: nat, n: nat)
    ensures BitSteps(c, m + n) == BitSteps(BitSteps(c, m), n)
    decreases m
  {
    if m > 0 {
      BitStepsAdd(BitStep(c), m - 1, n);
    }
  }

  function Eight(c: bv32): bv32 {
    BitStep(BitStep(BitStep(BitStep(BitStep(BitStep(BitStep(BitStep(c))))))))
  }

  lemma EightSteps(c: bv32)
    ensures BitSteps(c, 8) == Eight(c)
  {
    var c4 := BitStep(BitStep(BitStep(BitStep(c))));
    assert BitSteps(c, 8) == BitSteps(BitStep(BitStep(c)), 6);
    assert BitSteps(BitStep(BitStep(c)), 6) == BitSteps(c4, 4);
    assert BitSteps(c4, 4) == BitSteps(BitStep(BitStep(c4)), 2);
  }

  lemma EightShifts(c: bv32)
    requires c & 0xff == 0
    ensures Eight(c) == c >> 8
  {
  }

  /** Eight steps of a word whose low byte is clear only shift it. */
  lemma HighPartShifts(c: bv32)
    requires c & 0xff == 0
    ensures BitSteps(c, 8) == c >> 8
  {
    EightSteps(c);
    EightShifts(c);
  }

  // ---------- Table-driven form ----------

  lemma SplitLowBit(c: bv32, b: bv32)
    ensures Xor(c, b) == Xor(Xor(c, b & 1), b & 0xffff_fffe)
    ensures BitStep(b & 0xffff_fffe) == b >> 1
  {
  }

  ghost predicate FitsIn(b: bv32, left: nat)
    requires left <= 8
  {
    b >> left == 0
  }

  lemma ShiftOnce(b: bv32, left: nat)
    requires 0 < left <= 8 && FitsIn(b, left)
    ensures FitsIn(b >> 1, left - 1)
  {
  }

  lemma ShiftNone(b: bv32)
    requires FitsIn(b, 0)
    ensures b == 0
  {
  }

  /** Feeding bits one by one equals exclusive-oring the byte in first and then shifting. */
  lemma {:induction false} FeedBitsIsXorThenShift(c: bv32, b: bv32, left: nat)
    requires left <= 8 && FitsIn(b, left)
    ensures FeedBits(c, b, left) == BitSteps(Xor(c, b), left)
    decreases left
  {
    if left == 0 {
      ShiftNone(b);
      XorNothing(c);
    } else {
      SplitLowBit(c, b);
      BitStepLinear(Xor(c, b & 1), b & 0xffff_fffe);
      ShiftOnce(b, left);
      FeedBitsIsXorThenShift(BitStep(Xor(c, b & 1)), b >> 1, left - 1);
    }
  }

  lemma ByteFits(b: byte)
    ensures FitsIn(Widen(b), 8)
  {
  }

  lemma FeedByteIsXorThenShift(c: bv32, b: byte)
    ensures FeedByte(c, b) == BitSteps(Xor(c, Widen(b)), 8)
  {
    ByteFits(b);
    FeedBitsIsXorThenShift(c, Widen(b), 8);
  }

  function Low(x: bv32): bv32 {
    x & 0xff
  }

  function High(x: bv32): bv32 {
    x & 0xffff_ff00
  }

  lemma SplitLowByte(c: bv32, b: byte)
    ensures var x := Xor(c, Widen(b));
      x == Xor(Low(x), High(x)) && High(x) & 0xff == 0 && High(x) >> 8 == c >> 8
  {
  }

  /** One iteration of the table loop is one whole byte of the bit-by-bit definition. */
  lemma TableStep(c: bv32, b: byte)
    ensures FeedByte(c, b) == Xor(BitSteps(Low(Xor(c, Widen(b))), 8), c >> 8)
  {
    var x := Xor(c, Widen(b));
    FeedByteIsXorThenShift(c, b);
    SplitLowByte(c, b);
    BitStepsLinear(Low(x), High(x), 8);
    HighPartShifts(High(x));
  }

  function TableEntry(n: nat): bv32
    requires n < 256
  {
    BitSteps(n as bv32, 8)
  }

  /** The first `n` table entries. */
  function Entries(n: nat): (t: seq<bv32>)
    requires n <= 256
    ensures |t| == n
  {
    if n == 0 then [] else Entries(n - 1) + [TableEntry(n - 1)]
  }

  lemma {:induction false} EntriesAt(n: nat, k: nat)
    requires k < n <= 256
    ensures Entries(n)[k] == TableEntry(k)
  {
    if k < n - 1 {
      EntriesAt(n - 1, k);
    }
  }

  /** The inner loop of the table builder. */
  method ShiftEight(n: nat) returns (c: bv32)
    requires n < 256
    ensures c == TableEntry(n)
  {
    c := n as bv32;
    for k := 0 to 8
      invariant BitSteps(c, 8 - k) == TableEntry(n)
    {
      LowBit(c);
      c := if c & 1 != 0 then POLY ^ (c >> 1) else c >> 1;
    }
  }

  method BuildTable() returns (table: array<bv32>)
    ensures fresh(table) && table[..] == Entries(256)
  {
    hide BitStep, BitSteps, TableEntry;
    table := new bv32[256];
    for n := 0 to 256
      invariant table[..n] == Entries(n)
    {
      table[n] := ShiftEight(n);
      assert table[..n + 1] == table[..n] + [table[n]];
    }
    assert table[..256] == table[..];
  }

  lemma {:induction false} FeedAppend(c: bv32, s: seq<byte>, t: seq<byte>)
    ensures Feed(c, s + t) == Feed(Feed(c, s), t)
    decreases |s|
  {
    if s == [] {
      assert s + t == t;
    } else {
      assert (s + t)[1..] == s[1..] + t;
      FeedAppend(FeedByte(c, s[0]), s[1..], t);
    }
  }

  lemma FeedSnoc(c: bv32, s: seq<byte>, i: nat)
    requires i < |s|
    ensures Feed(c, s[..i + 1]) == FeedByte(Feed(c, s[..i]), s[i])
  {
    assert s[..i + 1] == s[..i] + [s[i]];
    FeedAppend(c, s[..i], [s[i]]);
    assert [s[i]][1..] == [];
  }

  lemma LowIndex(x: bv32)
    ensures Low(x) as int < 256 && (Low(x) as int) as bv32 == Low(x)
  {
  }

  lemma TableLookup(x: bv32)
    ensures Low(x) as int < 256 && Entries(256)[Low(x) as int] == BitSteps(Low(x), 8)
  {
    LowIndex(x);
    EntriesAt(256, Low(x) as int);
  }

  method ComputeCrc32(table: array<bv32>, bytes: seq<byte>) returns (checksum: nat)
    requires table[..] == Entries(256)
    ensures checksum == CrcNumber(bytes)
  {
    hide BitStep, BitSteps, FeedByte, Low, Entries, Xor, Widen;
    var crc: bv32 := 0xffff_ffff;
    for i := 0 to |bytes|
      invariant crc == Feed(0xffff_ffff, bytes[..i])
    {
      var index := Low(Xor(crc, Widen(bytes[i])));
      TableLookup(Xor(crc, Widen(bytes[i])));
      TableStep(crc, bytes[i]);
      FeedSnoc(0xffff_ffff, bytes, i);
      assert table[index as int] == table[..][index as int];
      crc := Xor(table[index as int], crc >> 8);
    }
    assert bytes[..|bytes|] == bytes;
    checksum := Xor(crc, 0xffff_ffff) as int;
  }

  // ---------- Error detection ----------

  function Lift(r: bv32): bv32 {
    r << 8
  }

  /** The little-endian word made of up to four bytes. */
  function Word(w: seq<byte>): bv32
    decreases |w|
  {
    if w == [] then 0 else Xor(Widen(w[0]), Lift(Word(w[1..])))
  }

  /** The top `n` bytes of `r` are zero. */
  ghost predicate TopClear(r: bv32, n: nat)
    requires n <= 4
  {
    (n == 1 ==> r & 0xff00_0000 == 0) && (n == 2 ==> r & 0xffff_0000 == 0) &&
    (n == 3 ==> r & 0xffff_ff00 == 0) && (n == 4 ==> r == 0)
  }

  lemma TopClearLift(b: byte, r: bv32, n: nat)
    requires 0 < n <= 4 && TopClear(r, n)
    ensures TopClear(Xor(Widen(b), Lift(r)), n - 1)
  {
  }

  lemma {:induction false} WordBound(w: seq<byte>)
    requires |w| <= 4
    ensures TopClear(Word(w), 4 - |w|)
    decreases |w|
  {
    if w != [] {
      WordBound(w[1..]);
      TopClearLift(w[0], Word(w[1..]), 5 - |w|);
    }
  }

  ghost predicate TopByteZero(r: bv32) {
    r & 0xff00_0000 == 0
  }

  lemma TopMasks(r: bv32)
    ensures r & 0xffff_0000 == 0 ==> r & 0xff00_0000 == 0
    ensures r & 0xffff_ff00 == 0 ==> r & 0xff00_0000 == 0
    ensures r == 0 ==> r & 0xff00_0000 == 0
  {
  }

  lemma TopByteClear(r: bv32, n: nat)
    requires 0 < n <= 4 && TopClear(r, n)
    ensures TopByteZero(r)
  {
    TopMasks(r);
  }

  lemma LiftShifts(r: bv32)
    requires TopByteZero(r)
    ensures Lift(r) & 0xff == 0 && Lift(r) >> 8 == r
  {
  }

  lemma ShiftedWord(c: bv32, r: bv32, n: nat)
    requires 0 < n <= 4 && TopClear(r, n)
    ensures Xor(BitSteps(c, 8), r) == BitSteps(Xor(c, Lift(r)), 8)
  {
    TopByteClear(r, n);
    LiftShifts(r);
    BitStepsLinear(c, Lift(r), 8);
    HighPartShifts(Lift(r));
  }

  /** Up to four bytes act on the register as one shifted word. */
  lemma {:induction false} FeedIsShiftedWord(c: bv32, w: seq<byte>)
    requires |w| <= 4
    ensures Feed(c, w) == BitSteps(Xor(c, Word(w)), 8 * |w|)
    decreases |w|
  {
    hide Xor, Lift, Widen, TopClear, BitStep, FeedByte;
    if w == [] {
      XorNothing(c);
    } else {
      var b, r := Widen(w[0]), Word(w[1..]);
      FeedByteIsXorThenShift(c, w[0]);
      FeedIsShiftedWord(FeedByte(c, w[0]), w[1..]);
      WordBound(w[1..]);
      ShiftedWord(Xor(c, b), r, 5 - |w|);
      XorAssoc(c, b, Lift(r));
      BitStepsAdd(Xor(c, Word(w)), 8, 8 * |w[1..]|);
    }
  }

  lemma WordSplit(b: byte, d: byte, r: bv32, q: bv32)
    requires TopByteZero(r) && TopByteZero(q)
    requires Xor(Widen(b), Lift(r)) == Xor(Widen(d), Lift(q))
    ensures b == d && r == q
  {
  }

  lemma WordHeads(v: seq<byte>, w: seq<byte>)
    requires 0 < |v| == |w| <= 4 && Word(v) == Word(w)
    ensures v[0] == w[0] && Word(v[1..]) == Word(w[1..])
  {
    hide *;
    var q := TailWord(v);
    var r := TailWord(w);
    WordSplit(v[0], w[0], q, r);
  }

  lemma TailWord(w: seq<byte>) returns (r: bv32)
    requires 0 < |w| <= 4
    ensures r == Word(w[1..]) && TopByteZero(r) && Word(w) == Xor(Widen(w[0]), Lift(r))
  {
    hide Xor, Lift, Widen, TopClear, TopByteZero;
    r := Word(w[1..]);
    WordBound(w[1..]);
    TopByteClear(r, 5 - |w|);
  }

  lemma {:induction false} WordInjective(v: seq<byte>, w: seq<byte>)
    requires |v| == |w| <= 4 && Word(v) == Word(w)
    ensures v == w
    decreases |v|
  {
    if v != [] {
      WordHeads(v, w);
      WordInjective(v[1..], w[1..]);
      assert v == [v[0]] + v[1..] && w == [w[0]] + w[1..];
    }
  }

  /** The same bytes never bring two different register values together. */
  lemma {:induction false} FeedInjective(c: bv32, d: bv32, s: seq<byte>)
    requires Feed(c, s) == Feed(d, s)
    ensures c == d
    decreases |s|
  {
    if s != [] {
      var b := Widen(s[0]);
      FeedInjective(FeedByte(c, s[0]), FeedByte(d, s[0]), s[1..]);
      FeedByteIsXorThenShift(c, s[0]);
      FeedByteIsXorThenShift(d, s[0]);
      BitStepsInjective(Xor(c, b), Xor(d, b), 8);
      XorCancel(c, d, b);
    }
  }

  /** Any change confined to four consecutive bytes changes the checksum. */
  lemma BurstDetected(s: seq<byte>, t: seq<byte>, p: nat)
    requires |s| == |t| && s != t
    requires forall i :: 0 <= i < |s| && !(p <= i < p + 4) ==> s[i] == t[i]
    ensures Crc(s) != Crc(t)
  {
    hide Xor, Feed, Word, BitSteps;
    var lo := if p <= |s| then p else |s|;
    var hi := if p + 4 <= |s| then p + 4 else |s|;
    var pre, post, v, w := s[..lo], s[hi..], s[lo..hi], t[lo..hi];
    assert s == pre + (v + post) && t == pre + (w + post);
    var c := Feed(0xffff_ffff, pre);
    FeedAppend(0xffff_ffff, pre, v + post);
    FeedAppend(0xffff_ffff, pre, w + post);
    FeedAppend(c, v, post);
    FeedAppend(c, w, post);
    if Crc(s) == Crc(t) {
      XorCancel(Feed(0xffff_ffff, s), Feed(0xffff_ffff, t), 0xffff_ffff);
      FeedInjective(Feed(c, v), Feed(c, w), post);
      FeedIsShiftedWord(c, v);
      FeedIsShiftedWord(c, w);
      BitStepsInjective(Xor(c, Word(v)), Xor(c, Word(w)), 8 * |v|);
      XorCancel(Word(v), Word(w), c);
      WordInjective(v, w);
      assert false;
    }
  }

  lemma CrcNumberInjective(s: seq<byte>, t: seq<byte>)
    requires CrcNumber(s) == CrcNumber(t)
    ensures Crc(s) == Crc(t)
  {
    assert (Crc(s) as int) as bv32 == Crc(s) && (Crc(t) as int) as bv32 == Crc(t);
  }

  /** The check value of the checksum: that of the digits "123456789". */
  lemma CheckValue()
    ensures CrcNumber([0x31, 0x32, 0x33, 0x34, 0x35, 0x36, 0x37, 0x38, 0x39]) == 0xcbf4_3926
  {
    assert FeedByte(0xffffffff, 0x31) == 0x7c231048;
    assert FeedByte(0x7c231048, 0x32) == 0xb0acbb32;
    assert FeedByte(0xb0acbb32, 0x33) == 0x77b79c2d;
    assert FeedByte(0x77b79c2d, 0x34) == 0x641c1f5c;
    assert FeedByte(0x641c1f5c, 0x35) == 0x340ac5e3;
    assert FeedByte(0x340ac5e3, 0x36) == 0xf68d2c9e;
    assert FeedByte(0xf68d2c9e, 0x37) == 0xaffc9660;
    assert FeedByte(0xaffc9660, 0x38) == 0x651f2550;
    assert FeedByte(0x651f2550, 0x39) == 0x340bc6d9;
  }
}
