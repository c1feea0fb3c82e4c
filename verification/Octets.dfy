/** Little-endian fields as writers put them down, and reading them back out of the bytes around them. */
module Octets {
  import opened Prelude

  type Octet = x: int | 0 <= x < 0x100

  function Lo(n: nat): Octet {
    n % 0x100
  }

  function Hi(n: nat): Octet {
    n / 0x100 % 0x100
  }

  function Lo2(n: nat): Octet {
    n / 0x1_0000 % 0x100
  }

  function Hi2(n: nat): Octet {
    n / 0x100_0000 % 0x100
  }

  function Bytes(octets: seq<Octet>): (b: seq<byte>)
    ensures |b| == |octets|
    ensures forall k :: 0 <= k < |b| ==> b[k] as int == octets[k]
  {
    seq(|octets|, k requires 0 <= k < |octets| => ByteOf(octets[k]))
  }

  /** The octets of a four-byte field. */
  function Word(n: nat): (w: seq<Octet>)
    ensures |w| == 4
  {
    [Lo(n), Hi(n), Lo2(n), Hi2(n)]
  }

  function Zeros(n: nat): (z: seq<Octet>)
    ensures |z| == n && forall k :: 0 <= k < n ==> z[k] == 0
  {
    seq(n, _ => 0)
  }

  // ---------- Parts of a file ----------

  ghost predicate Contains(b: seq<byte>, o: nat, part: seq<byte>) {
    o + |part| <= |b| && b[o..o + |part|] == part
  }

  lemma ContainsAt(b: seq<byte>, o: nat, part: seq<byte>, k: nat)
    requires Contains(b, o, part) && k < |part|
    ensures b[o + k] == part[k]
  {
    assert b[o..o + |part|][k] == b[o + k];
  }

  lemma ContainsPart(b: seq<byte>, o: nat, x: seq<byte>, y: seq<byte>, z: seq<byte>)
    requires Contains(b, o, x + y + z)
    ensures Contains(b, o + |x|, y)
  {
    forall k | 0 <= k < |y| ensures b[o + |x| + k] == y[k] {
      ContainsAt(b, o, x + y + z, |x| + k);
    }
    assert b[o + |x|..o + |x| + |y|] == y;
  }

  lemma ContainsHead(b: seq<byte>, o: nat, x: seq<byte>, y: seq<byte>)
    requires Contains(b, o, x + y)
    ensures Contains(b, o, x) && Contains(b, o + |x|, y)
  {
    assert [] + x + y == x + y && x + y + [] == x + y;
    ContainsPart(b, o, [], x, y);
    ContainsPart(b, o, x, y, []);
  }

  function At(part: seq<Octet>, k: nat): int
    requires k < |part|
  {
    part[k]
  }

  /** A two-byte field with value `n` at `k`. */
  ghost predicate Has16(part: seq<Octet>, k: nat, n: nat) {
    k + 2 <= |part| && n == At(part, k) + 0x100 * At(part, k + 1)
  }

  /** A four-byte field with value `n` at `k`. */
  ghost predicate Has32(part: seq<Octet>, k: nat, n: nat) {
    && k + 4 <= |part|
    && n == At(part, k) + 0x100 * At(part, k + 1) + 0x1_0000 * (At(part, k + 2) + 0x100 * At(part, k + 3))
  }

  lemma Contains16(b: seq<byte>, o: nat, part: seq<Octet>, k: nat, n: nat)
    requires Contains(b, o, Bytes(part)) && Has16(part, k, n)
    ensures o + |part| <= |b| && U16(b, o + k) == n
  {
    hide Bytes;
    ContainsAt(b, o, Bytes(part), k);
    ContainsAt(b, o, Bytes(part), k + 1);
  }

  lemma Contains32(b: seq<byte>, o: nat, part: seq<Octet>, k: nat, n: nat)
    requires Contains(b, o, Bytes(part)) && Has32(part, k, n)
    ensures o + |part| <= |b| && U32(b, o + k) == n
  {
    hide Bytes;
    ContainsAt(b, o, Bytes(part), k);
    ContainsAt(b, o, Bytes(part), k + 1);
    ContainsAt(b, o, Bytes(part), k + 2);
    ContainsAt(b, o, Bytes(part), k + 3);
  }

  lemma Split16(n: nat)
    ensures n < 0x1_0000 ==> n == Lo(n) + 0x100 * Hi(n)
    ensures Lo(0) == Hi(0) == 0
  {
  }

  lemma Split32(n: nat)
    requires n < 0x1_0000_0000
    ensures n == Lo(n) + 0x100 * Hi(n) + 0x1_0000 * (Lo2(n) + 0x100 * Hi2(n))
  {
  }

  lemma SplitHalves(n: nat)
    requires n < 0x1_0000_0000
    ensures Lo(n) + 0x100 * Hi(n) == n % 0x1_0000 && Lo2(n) + 0x100 * Hi2(n) == n / 0x1_0000
  {
    assert n % 0x1_0000 % 0x100 == n % 0x100 && n % 0x1_0000 / 0x100 == n / 0x100 % 0x100;
  }

  /** The fields that the four octets of `n` make up. */
  lemma OctetsRead(b: seq<byte>, o: nat, n: nat)
    requires o + 4 <= |b| && n < 0x1_0000_0000
    requires b[o] as int == Lo(n) && b[o + 1] as int == Hi(n) && b[o + 2] as int == Lo2(n) && b[o + 3] as int == Hi2(n)
    ensures U32(b, o) == n && U16(b, o) == n % 0x1_0000 && U16(b, o + 2) == n / 0x1_0000
  {
    SplitHalves(n);
    hide Lo, Hi, Lo2, Hi2;
  }

  lemma FieldInside(x: seq<Octet>, y: seq<Octet>, z: seq<Octet>, k: nat, n: nat)
    ensures Has16(y, k, n) ==> Has16(x + y + z, |x| + k, n)
    ensures Has32(y, k, n) ==> Has32(x + y + z, |x| + k, n)
  {
    assert forall i :: 0 <= i < |y| ==> (x + y + z)[|x| + i] == y[i];
  }

  lemma ContainsSlice(b: seq<byte>, o: nat, part: seq<byte>)
    requires Contains(b, o, part)
    ensures o + |part| <= |b| && b[o..o + |part|] == part
  {
  }

  lemma PrefixContains(all: seq<byte>, x: seq<byte>, y: seq<byte>)
    requires x + y <= all
    ensures Contains(all, |x|, y)
  {
    assert all[..|x + y|] == x + y;
    assert all[|x|..|x| + |y|] == (x + y)[|x|..];
  }

  lemma ContainsTransitive(b: seq<byte>, o: nat, part: seq<byte>, i: nat, x: seq<byte>)
    requires Contains(b, o, part) && Contains(part, i, x)
    ensures Contains(b, o + i, x)
  {
    forall k | 0 <= k < |x| ensures b[o + i + k] == x[k] {
      ContainsAt(part, i, x, k);
      ContainsAt(b, o, part, i + k);
    }
    assert b[o + i..o + i + |x|] == x;
  }

  lemma WordReads(b: seq<byte>, o: nat, n: nat)
    requires Contains(b, o, Bytes(Word(n))) && n < 0x1_0000_0000
    ensures o + 4 <= |b| && U32(b, o) == n
  {
    hide Bytes, Contains, U32, Lo, Hi, Lo2, Hi2;
    Split32(n);
    Contains32(b, o, Word(n), 0, n);
  }
}
