/** Shared vocabulary: optional values, bytes, little-endian integers and JavaScript strings. */
module Prelude {

  datatype Option<+T> = None | Some(value: T)

  type byte = bv8

  /** A JavaScript string is a sequence of UTF-16 code units. */
  type CodeUnit = x: int | 0 <= x < 0x10000
  type JsString = seq<CodeUnit>

  /** `DataView.getUint16(offset, true)`. */
  function U16(b: seq<byte>, o: nat): (n: nat)
    requires o + 2 <= |b|
    ensures n < 0x1_0000
  {
    (b[o] as int) + 0x100 * (b[o + 1] as int)
  }

  /** `DataView.getUint32(offset, true)`. */
  function U32(b: seq<byte>, o: nat): (n: nat)
    requires o + 4 <= |b|
    ensures n < 0x1_0000_0000
  {
    U16(b, o) + 0x1_0000 * U16(b, o + 2)
  }

  /** Both bounds checks of the repository: `length <= limit - offset` after the sign checks. */
  predicate Fits(offset: int, length: int, limit: int) {
    0 <= offset && 0 <= length && 0 <= limit && offset <= limit && length <= limit - offset
  }

  /** `(flags & (1 << k)) !== 0`, with the power spelled out. */
  predicate HasBit(flags: nat, power: nat)
    requires power > 0
  {
    (flags / power) % 2 == 1
  }

  lemma DoubleByte(b: byte, c: byte)
    requires b < 128 && c < 2
    ensures (b + b + c) as int == 2 * (b as int) + (c as int)
  {
  }

  /** The byte with value `m`, bit by bit. */
  function ByteOf(m: nat): (b: byte)
    requires m < 0x100
    ensures b as int == m
  {
    if m == 0 then 0
    else
      var half, bit := ByteOf(m / 2), if m % 2 == 1 then 1 else 0;
      DoubleByte(half, bit);
      half + half + bit
  }

  predicate EndsWith(s: JsString, suffix: JsString) {
    |suffix| <= |s| && s[|s| - |suffix|..] == suffix
  }

  function UnitOf(c: char): CodeUnit {
    if c as int < 0x10000 then c as int else 0xfffd
  }

  /** A text of this file as JavaScript holds it; it uses no character beyond the basic plane. */
  function Text(s: string): (t: JsString)
    ensures |t| == |s| && forall i :: 0 <= i < |t| ==> t[i] == UnitOf(s[i])
  {
    seq(|s|, i requires 0 <= i < |s| => UnitOf(s[i]))
  }
}
