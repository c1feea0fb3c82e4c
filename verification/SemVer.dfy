/** Versions as the update check reads and compares them, and the precedence of Semantic Versioning 2.0.0, section 11. */
module SemVer {
  import opened Prelude
  import opened CanonicalJson

  const DOT: CodeUnit := 0x2e
  const DASH: CodeUnit := 0x2d
  const ZERO: CodeUnit := 0x30

  // ---------- Reading a version ----------

  /** `text.split(c)`. */
  function Split(s: JsString, c: CodeUnit): (parts: seq<JsString>)
    ensures parts != []
  {
    if s == [] then [[]]
    else
      var rest := Split(s[1..], c);
      if s[0] == c then [[]] + rest else [[s[0]] + rest[0]] + rest[1..]
  }

  function Join(parts: seq<JsString>, c: CodeUnit): JsString
    requires parts != []
  {
    if |parts| == 1 then parts[0] else parts[0] + [c] + Join(parts[1..], c)
  }

  lemma {:induction false} JoinSplit(s: JsString, c: CodeUnit)
    ensures Join(Split(s, c), c) == s
    decreases |s|
  {
    if s != [] {
      var rest := Split(s[1..], c);
      JoinSplit(s[1..], c);
      if s[0] == c {
        assert ([[]] + rest)[1..] == rest;
        assert [] + [c] + s[1..] == s;
      } else {
        var parts := [[s[0]] + rest[0]] + rest[1..];
        assert parts[1..] == rest[1..];
        assert s == [s[0]] + s[1..];
        if |rest| > 1 {
          assert Join(parts, c) == [s[0]] + (rest[0] + [c] + Join(rest[1..], c));
        }
      }
    }
  }

  predicate AllDigits(s: JsString) {
    s != [] && forall i :: 0 <= i < |s| ==> IsDigit(s[i])
  }

  /** `0` or digits that do not start with it. */
  predicate IsNumeric(s: JsString) {
    AllDigits(s) && (|s| == 1 || s[0] != ZERO)
  }

  predicate IsIdentifier(s: JsString) {
    s != [] && forall i :: 0 <= i < |s| ==> IsDigit(s[i]) || s[i] == DASH || 0x41 <= s[i] <= 0x5a || 0x61 <= s[i] <= 0x7a
  }

  function FirstDash(s: JsString): (n: nat)
    ensures n <= |s| && (n < |s| ==> s[n] == DASH)
  {
    if s == [] || s[0] == DASH then 0 else 1 + FirstDash(s[1..])
  }

  /** The three numbers, and the identifiers after the dash. */
  datatype Version = Version(core: seq<nat>, prerelease: seq<JsString>)

  function CoreOf(parts: seq<JsString>): seq<nat>
    requires |parts| == 3 && forall p :: p in parts ==> IsNumeric(p)
  {
    assert IsNumeric(parts[0]) && IsNumeric(parts[1]) && IsNumeric(parts[2]);
    [NatOf(parts[0]), NatOf(parts[1]), NatOf(parts[2])]
  }

  /** `parseVersion`; nothing when it throws. */
  function ParseVersion(s: JsString): (v: Option<Version>)
    ensures v.Some? ==> |v.value.core| == 3
    ensures v.Some? ==> forall id :: id in v.value.prerelease && AllDigits(id) ==> IsNumeric(id)
  {
    var cut := FirstDash(s);
    var parts := Split(s[..cut], DOT);
    if |parts| != 3 || exists p :: p in parts && !IsNumeric(p) then None
    else if cut == |s| then Some(Version(CoreOf(parts), []))
    else
      var ids := Split(s[cut + 1..], DOT);
      if exists id :: id in ids && (!IsIdentifier(id) || (AllDigits(id) && !IsNumeric(id))) then None
      else Some(Version(CoreOf(parts), ids))
  }

  // ---------- Numbers ----------

  const EXACT: nat := 0x20_0000_0000_0000

  /** The distance between neighbouring doubles around `n`. */
  function Ulp(n: nat): (u: nat)
    ensures u > 0
  {
    if n < EXACT then 1 else 2 * Ulp(n / 2)
  }

  /** The multiple of `u` nearest to `q * u + r`, ties to even. */
  function Nearest(q: nat, r: nat, u: nat): nat {
    if 2 * r < u || (2 * r == u && q % 2 == 0) then q else q + 1
  }

  function Power(k: nat): (p: nat)
    ensures p > 0
  {
    if k == 0 then 1 else 2 * Power(k - 1)
  }

  /** What is too large for a double reads as infinity, which stands above every double. */
  const INFINITY: nat := Power(1024)

  /** The nearest number with 53 significant bits. */
  function Rounded(n: nat): nat {
    Nearest(n / Ulp(n), n % Ulp(n), Ulp(n)) * Ulp(n)
  }

  /** `Number(digits)`. */
  function ToDouble(n: nat): nat {
    if Rounded(n) < INFINITY then Rounded(n) else INFINITY
  }

  lemma {:induction false} PowerGrows(i: nat, k: nat)
    requires i <= k
    ensures Power(i) <= Power(k)
  {
    if i < k {
      PowerGrows(i, k - 1);
    }
  }

  lemma InfinityIsLarge()
    ensures INFINITY >= 2 * EXACT
  {
    PowerGrows(54, 1024);
    assert Power(6) == 64;
    Doubled(6);
    Doubled(12);
    Doubled(18);
    Doubled(24);
    Doubled(30);
    Doubled(36);
    Doubled(42);
    Doubled(48);
  }

  /** Six doublings. */
  lemma Doubled(k: nat)
    ensures Power(k + 6) == 64 * Power(k)
  {
    assert Power(k + 2) == 4 * Power(k);
    assert Power(k + 4) == 4 * Power(k + 2);
    assert Power(k + 6) == 4 * Power(k + 4);
  }

  lemma SmallNumbersAreExact(n: nat)
    requires n < EXACT
    ensures ToDouble(n) == n
  {
    InfinityIsLarge();
  }

  // ---------- Comparing ----------

  /** Two different identifiers. */
  function CompareIds(a: JsString, b: JsString): int {
    if AllDigits(a) && AllDigits(b) then (if ToDouble(NatOf(a)) > ToDouble(NatOf(b)) then 1 else -1)
    else if AllDigits(a) then -1
    else if AllDigits(b) then 1
    else if Before(b, a) then 1 else -1
  }

  function CompareLists(a: seq<JsString>, b: seq<JsString>): int {
    if a == [] && b == [] then 0
    else if a == [] then -1
    else if b == [] then 1
    else if a[0] == b[0] then CompareLists(a[1..], b[1..])
    else CompareIds(a[0], b[0])
  }

  function ComparePrerelease(a: seq<JsString>, b: seq<JsString>): int {
    if a == [] && b == [] then 0
    else if a == [] then 1
    else if b == [] then -1
    else CompareLists(a, b)
  }

  function CompareNumbers(a: nat, b: nat): int {
    if ToDouble(a) == ToDouble(b) then 0 else if ToDouble(a) > ToDouble(b) then 1 else -1
  }

  /** The comparison from the `k`-th number on. */
  function CompareFrom(v: Version, w: Version, k: nat): int
    requires |v.core| == 3 && |w.core| == 3 && k <= 3
    decreases 3 - k
  {
    if k == 3 then ComparePrerelease(v.prerelease, w.prerelease)
    else if CompareNumbers(v.core[k], w.core[k]) != 0 then CompareNumbers(v.core[k], w.core[k])
    else CompareFrom(v, w, k + 1)
  }

  function CompareParsed(v: Version, w: Version): int
    requires |v.core| == 3 && |w.core| == 3
  {
    CompareFrom(v, w, 0)
  }

  /** `compareVersions`; nothing when either version is invalid. */
  function Compare(a: JsString, b: JsString): Option<int> {
    var v, w := ParseVersion(a), ParseVersion(b);
    if v.None? || w.None? then None else Some(CompareParsed(v.value, w.value))
  }

  method ComparePrereleaseLists(a: seq<JsString>, b: seq<JsString>) returns (r: int)
    ensures r == ComparePrerelease(a, b)
  {
    if |a| == 0 && |b| == 0 {
      return 0;
    }
    if |a| == 0 {
      return 1;
    }
    if |b| == 0 {
      return -1;
    }
    hide CompareIds;
    var length := if |a| > |b| then |a| else |b|;
    for i := 0 to length
      invariant i <= |a| && i <= |b| && CompareLists(a, b) == CompareLists(a[i..], b[i..])
    {
      if i >= |a| {
        return -1;
      }
      if i >= |b| {
        return 1;
      }
      if a[i] != b[i] {
        return CompareIds(a[i], b[i]);
      }
      assert a[i..][1..] == a[i + 1..] && b[i..][1..] == b[i + 1..];
    }
    return 0;
  }

  method CompareVersions(a: JsString, b: JsString) returns (r: Option<int>)
    ensures r == Compare(a, b)
  {
    hide ParseVersion, ComparePrerelease, ToDouble;
    var v, w := ParseVersion(a), ParseVersion(b);
    if v.None? || w.None? {
      return None;
    }
    for i := 0 to 3
      invariant CompareParsed(v.value, w.value) == CompareFrom(v.value, w.value, i)
    {
      if ToDouble(v.value.core[i]) != ToDouble(w.value.core[i]) {
        return Some(if ToDouble(v.value.core[i]) > ToDouble(w.value.core[i]) then 1 else -1);
      }
    }
    var p := ComparePrereleaseLists(v.value.prerelease, w.value.prerelease);
    return Some(p);
  }

  // ---------- Precedence ----------

  /** Numbers by value, and below everything else; other identifiers by their code units. */
  ghost predicate IdPrecedes(a: JsString, b: JsString) {
    if AllDigits(a) && AllDigits(b) then NatOf(a) < NatOf(b)
    else if AllDigits(a) != AllDigits(b) then AllDigits(a)
    else PrecedesText(a, b)
  }

  /** The first identifiers that differ decide; a list precedes its extensions. */
  ghost predicate ListPrecedesAt(a: seq<JsString>, b: seq<JsString>, i: nat) {
    i <= |a| && i < |b| && a[..i] == b[..i] && (i == |a| || (a[i] != b[i] && IdPrecedes(a[i], b[i])))
  }

  ghost predicate ListPrecedes(a: seq<JsString>, b: seq<JsString>) {
    exists i: nat :: ListPrecedesAt(a, b, i)
  }

  predicate CorePrecedesAt(a: seq<nat>, b: seq<nat>, i: nat) {
    i < |a| && i < |b| && a[..i] == b[..i] && a[i] < b[i]
  }

  /** Numbers from left to right; then a prerelease precedes its release; then the prerelease identifiers. */
  ghost predicate Precedes(v: Version, w: Version) {
    || (exists i: nat :: CorePrecedesAt(v.core, w.core, i))
    || (v.core == w.core && v.prerelease != [] && (w.prerelease == [] || ListPrecedes(v.prerelease, w.prerelease)))
  }

  /** Every number in the version is below 2^53. */
  predicate Exact(v: Version) {
    && (forall i :: 0 <= i < |v.core| ==> v.core[i] < EXACT)
    && (forall id :: id in v.prerelease && AllDigits(id) ==> IsNumeric(id) && NatOf(id) < EXACT)
  }

  // ---------- Equal versions are equal texts ----------

  lemma {:induction false} NumericIsDigits(s: JsString)
    requires IsNumeric(s)
    ensures Digits(NatOf(s)) == s && (s[0] != ZERO ==> NatOf(s) > 0)
    decreases |s|
  {
    if |s| > 1 {
      var front := s[..|s| - 1];
      assert AllDigits(front) && front[0] == s[0];
      NumericIsDigits(front);
      assert NatOf(s) / 10 == NatOf(front) && NatOf(s) % 10 == s[|s| - 1] as int - 0x30;
      assert s == front + [s[|s| - 1]];
    } else {
      assert s == [s[0]] && NatOf(s[..0]) == 0;
    }
  }

  lemma NumericInjective(a: JsString, b: JsString)
    requires IsNumeric(a) && IsNumeric(b) && NatOf(a) == NatOf(b)
    ensures a == b
  {
    NumericIsDigits(a);
    NumericIsDigits(b);
  }

  lemma CoreInjective(p: seq<JsString>, q: seq<JsString>)
    requires |p| == 3 && |q| == 3 && (forall x :: x in p ==> IsNumeric(x)) && (forall x :: x in q ==> IsNumeric(x))
    requires CoreOf(p) == CoreOf(q)
    ensures p == q
  {
    assert IsNumeric(p[0]) && IsNumeric(p[1]) && IsNumeric(p[2]) && IsNumeric(q[0]) && IsNumeric(q[1]) && IsNumeric(q[2]);
    assert CoreOf(p)[0] == CoreOf(q)[0] && CoreOf(p)[1] == CoreOf(q)[1] && CoreOf(p)[2] == CoreOf(q)[2];
    NumericInjective(p[0], q[0]);
    NumericInjective(p[1], q[1]);
    NumericInjective(p[2], q[2]);
  }

  /** What a valid version consists of. */
  lemma ParsedIs(s: JsString)
    requires ParseVersion(s).Some?
    ensures var v, cut := ParseVersion(s).value, FirstDash(s);
      var parts := Split(s[..cut], DOT);
      && |parts| == 3 && (forall p :: p in parts ==> IsNumeric(p)) && v.core == CoreOf(parts)
      && v.prerelease == if cut == |s| then [] else Split(s[cut + 1..], DOT)
  {
    hide NatOf, IsNumeric, IsIdentifier, AllDigits, CoreOf;
  }

  /** A version can be read in one way only. */
  lemma ParseInjective(a: JsString, b: JsString)
    requires ParseVersion(a).Some? && ParseVersion(a) == ParseVersion(b)
    ensures a == b
  {
    hide NatOf, IsNumeric, ParseVersion, CoreOf, Split, Join, FirstDash;
    ParsedIs(a);
    ParsedIs(b);
    var i, j := FirstDash(a), FirstDash(b);
    JoinSplit(a[..i], DOT);
    JoinSplit(b[..j], DOT);
    CoreInjective(Split(a[..i], DOT), Split(b[..j], DOT));
    assert a[..i] == b[..j];
    if i < |a| {
      JoinSplit(a[i + 1..], DOT);
      assert a == a[..i] + [DASH] + a[i + 1..];
    }
    if j < |b| {
      JoinSplit(b[j + 1..], DOT);
      assert b == b[..j] + [DASH] + b[j + 1..];
    }
  }

  // ---------- The comparison is precedence ----------

  lemma ExactIds(a: JsString, b: JsString)
    requires a != b
    requires AllDigits(a) ==> IsNumeric(a) && NatOf(a) < EXACT
    requires AllDigits(b) ==> IsNumeric(b) && NatOf(b) < EXACT
    ensures CompareIds(a, b) == 1 <==> IdPrecedes(b, a)
    ensures CompareIds(a, b) == -1 <==> IdPrecedes(a, b)
    ensures CompareIds(a, b) == 1 || CompareIds(a, b) == -1
  {
    hide ToDouble, Before, PrecedesText;
    BeforeIff(a, b);
    BeforeIff(b, a);
    BeforeIsTotal(a, b);
    if AllDigits(a) && AllDigits(b) {
      SmallNumbersAreExact(NatOf(a));
      SmallNumbersAreExact(NatOf(b));
      if NatOf(a) == NatOf(b) {
        NumericInjective(a, b);
      }
    }
  }

  ghost predicate ExactList(a: seq<JsString>) {
    forall id :: id in a && AllDigits(id) ==> IsNumeric(id) && NatOf(id) < EXACT
  }

  lemma ListPrecedesCons(x: JsString, a: seq<JsString>, b: seq<JsString>)
    ensures ListPrecedes([x] + a, [x] + b) <==> ListPrecedes(a, b)
  {
    hide IdPrecedes;
    if i: nat :| ListPrecedesAt(a, b, i) {
      assert ([x] + a)[..i + 1] == [x] + a[..i] && ([x] + b)[..i + 1] == [x] + b[..i];
      assert ListPrecedesAt([x] + a, [x] + b, i + 1);
    }
    if i: nat :| ListPrecedesAt([x] + a, [x] + b, i) {
      assert i > 0;
      assert a[..i - 1] == ([x] + a)[1..i] && b[..i - 1] == ([x] + b)[1..i];
      assert ([x] + a)[1..i] == ([x] + a)[..i][1..] && ([x] + b)[1..i] == ([x] + b)[..i][1..];
      assert ListPrecedesAt(a, b, i - 1);
    }
  }

  lemma ListPrecedesFirst(a: seq<JsString>, b: seq<JsString>)
    requires a == [] || b == [] || a[0] != b[0]
    ensures ListPrecedes(a, b) <==> b != [] && (a == [] || IdPrecedes(a[0], b[0]))
  {
    assert forall i: nat :: i > 0 && i <= |a| && i <= |b| && a[..i] == b[..i] ==> a[..i][0] == b[..i][0];
    if b != [] && (a == [] || IdPrecedes(a[0], b[0])) {
      assert ListPrecedesAt(a, b, 0);
    }
  }

  lemma {:induction false} ExactLists(a: seq<JsString>, b: seq<JsString>)
    requires ExactList(a) && ExactList(b)
    ensures CompareLists(a, b) == 1 <==> ListPrecedes(b, a)
    ensures CompareLists(a, b) == -1 <==> ListPrecedes(a, b)
    ensures CompareLists(a, b) == 0 <==> a == b
    ensures CompareLists(a, b) in {-1, 0, 1}
    decreases |a|
  {
    hide ListPrecedes, CompareIds, IdPrecedes;
    if a == [] || b == [] || a[0] != b[0] {
      ListPrecedesFirst(a, b);
      ListPrecedesFirst(b, a);
      if a != [] && b != [] {
        ExactIds(a[0], b[0]);
      }
    } else {
      ListPrecedesCons(a[0], a[1..], b[1..]);
      ListPrecedesCons(b[0], b[1..], a[1..]);
      assert a == [a[0]] + a[1..] && b == [b[0]] + b[1..];
      ExactLists(a[1..], b[1..]);
    }
  }

  lemma CoreFirst(a: seq<nat>, b: seq<nat>)
    requires |a| == 3 && |b| == 3
    ensures (exists i: nat :: CorePrecedesAt(a, b, i)) <==>
      a[0] < b[0] || (a[0] == b[0] && (a[1] < b[1] || (a[1] == b[1] && a[2] < b[2])))
  {
    assert CorePrecedesAt(a, b, 0) <==> a[0] < b[0];
    assert CorePrecedesAt(a, b, 1) <==> a[0] == b[0] && a[1] < b[1] by {
      assert a[..1] == [a[0]] && b[..1] == [b[0]];
    }
    assert CorePrecedesAt(a, b, 2) <==> a[0] == b[0] && a[1] == b[1] && a[2] < b[2] by {
      assert a[..2] == [a[0], a[1]] && b[..2] == [b[0], b[1]];
    }
  }

  lemma ExactParsed(v: Version, w: Version)
    requires |v.core| == 3 && |w.core| == 3 && Exact(v) && Exact(w)
    ensures CompareParsed(v, w) == 1 <==> Precedes(w, v)
    ensures CompareParsed(v, w) == -1 <==> Precedes(v, w)
    ensures CompareParsed(v, w) == 0 <==> v == w
  {
    hide ToDouble, ListPrecedes, CompareLists, CorePrecedesAt;
    CoreFirst(v.core, w.core);
    CoreFirst(w.core, v.core);
    ExactLists(v.prerelease, w.prerelease);
    forall i | 0 <= i < 3
      ensures ToDouble(v.core[i]) == v.core[i] && ToDouble(w.core[i]) == w.core[i]
    {
      SmallNumbersAreExact(v.core[i]);
      SmallNumbersAreExact(w.core[i]);
    }
    assert v.core == [v.core[0], v.core[1], v.core[2]] && w.core == [w.core[0], w.core[1], w.core[2]];
  }

  /** With numbers below 2^53, `compareVersions` is the precedence of SemVer, and 0 only for the same text. */
  lemma CompareIsPrecedence(a: JsString, b: JsString)
    requires ParseVersion(a).Some? && ParseVersion(b).Some?
    requires Exact(ParseVersion(a).value) && Exact(ParseVersion(b).value)
    ensures Compare(a, b) == Some(1) <==> Precedes(ParseVersion(b).value, ParseVersion(a).value)
    ensures Compare(a, b) == Some(-1) <==> Precedes(ParseVersion(a).value, ParseVersion(b).value)
    ensures Compare(a, b) == Some(0) <==> a == b
  {
    hide CompareParsed, Precedes, Exact;
    ExactParsed(ParseVersion(a).value, ParseVersion(b).value);
    if ParseVersion(a) == ParseVersion(b) {
      ParseInjective(a, b);
    }
  }

  // ---------- Precedence is a strict total order ----------

  lemma IdsChain(a: JsString, b: JsString, c: JsString)
    requires IdPrecedes(a, b) && IdPrecedes(b, c)
    ensures IdPrecedes(a, c) && !IdPrecedes(a, a)
  {
    hide Before, PrecedesText;
    BeforeIff(a, a);
    BeforeIsTotal(a, a);
    if !AllDigits(a) {
      BeforeIff(a, b);
      BeforeIff(b, c);
      BeforeIff(a, c);
      BeforeChains(a, b, c);
    }
  }

  lemma ListsChain(a: seq<JsString>, b: seq<JsString>, c: seq<JsString>)
    requires ListPrecedes(a, b) && ListPrecedes(b, c)
    ensures ListPrecedes(a, c)
  {
    var i: nat :| ListPrecedesAt(a, b, i);
    var j: nat :| ListPrecedesAt(b, c, j);
    hide IdPrecedes;
    var k := if i < j then i else j;
    assert a[..k] == a[..i][..k] && b[..k] == b[..i][..k] == b[..j][..k] && c[..k] == c[..j][..k];
    if i < j {
      assert b[..j][i] == b[i] && c[..j][i] == c[i];
    } else if j < i {
      assert a[..i][j] == a[j] && b[..i][j] == b[j];
    } else if i < |a| {
      IdsChain(a[i], b[i], c[i]);
    }
    assert ListPrecedesAt(a, c, k);
  }

  lemma ListIrreflexive(a: seq<JsString>)
    ensures !ListPrecedes(a, a)
  {
    hide IdPrecedes;
  }

  lemma {:induction false} ListsTotal(a: seq<JsString>, b: seq<JsString>)
    requires forall id :: (id in a || id in b) && AllDigits(id) ==> IsNumeric(id)
    ensures a == b || ListPrecedes(a, b) || ListPrecedes(b, a)
    decreases |a|
  {
    hide ListPrecedes;
    if a == [] || b == [] || a[0] != b[0] {
      ListPrecedesFirst(a, b);
      ListPrecedesFirst(b, a);
      if a != [] && b != [] {
        IdsTotal(a[0], b[0]);
      }
    } else {
      assert a == [a[0]] + a[1..] && b == [b[0]] + b[1..];
      ListsTotal(a[1..], b[1..]);
      ListPrecedesCons(a[0], a[1..], b[1..]);
      ListPrecedesCons(b[0], b[1..], a[1..]);
    }
  }

  lemma IdsTotal(a: JsString, b: JsString)
    requires (AllDigits(a) ==> IsNumeric(a)) && (AllDigits(b) ==> IsNumeric(b)) && a != b
    ensures IdPrecedes(a, b) || IdPrecedes(b, a)
  {
    hide Before, PrecedesText;
    BeforeIff(a, b);
    BeforeIff(b, a);
    BeforeIsTotal(a, b);
    if AllDigits(a) && AllDigits(b) && NatOf(a) == NatOf(b) {
      NumericInjective(a, b);
    }
  }

  /** Section 11 orders all versions totally, whatever the size of their numbers. */
  lemma PrecedenceIsTotalOrder(v: Version, w: Version, u: Version)
    requires |v.core| == 3 && |w.core| == 3 && |u.core| == 3
    requires forall id :: (id in v.prerelease || id in w.prerelease) && AllDigits(id) ==> IsNumeric(id)
    ensures v == w || Precedes(v, w) || Precedes(w, v)
    ensures !Precedes(v, v)
    ensures Precedes(v, w) && Precedes(w, u) ==> Precedes(v, u)
  {
    hide ListPrecedes, CorePrecedesAt;
    CoreFirst(v.core, v.core);
    CoreFirst(v.core, w.core);
    CoreFirst(w.core, v.core);
    CoreFirst(w.core, u.core);
    CoreFirst(v.core, u.core);
    assert v.core == [v.core[0], v.core[1], v.core[2]] && w.core == [w.core[0], w.core[1], w.core[2]];
    ListIrreflexive(v.prerelease);
    ListsTotal(v.prerelease, w.prerelease);
    if ListPrecedes(v.prerelease, w.prerelease) && ListPrecedes(w.prerelease, u.prerelease) {
      ListsChain(v.prerelease, w.prerelease, u.prerelease);
    }
  }

  // ---------- Being newer is an order even with rounding ----------

  /** `compareVersions(a, b) > 0`. */
  predicate Newer(a: JsString, b: JsString) {
    Compare(a, b) == Some(1)
  }

  lemma {:induction false} ListsGreaterChain(a: seq<JsString>, b: seq<JsString>, c: seq<JsString>)
    requires CompareLists(a, b) == 1 && CompareLists(b, c) == 1
    ensures CompareLists(a, c) == 1
    decreases |a|
  {
    hide Before, ToDouble;
    if c != [] {
      if a[0] == b[0] && b[0] == c[0] {
        ListsGreaterChain(a[1..], b[1..], c[1..]);
      } else if a[0] != b[0] && b[0] != c[0] {
        GreaterIdsChain(a[0], b[0], c[0]);
      }
    }
  }

  lemma GreaterIdsChain(a: JsString, b: JsString, c: JsString)
    requires CompareIds(a, b) == 1 && CompareIds(b, c) == 1
    ensures a != c && CompareIds(a, c) == 1
  {
    hide Before, ToDouble;
    if !AllDigits(a) && !AllDigits(b) && !AllDigits(c) {
      BeforeChains(c, b, a);
    }
    BeforeIsTotal(a, a);
    BeforeIsTotal(b, a);
  }

  lemma {:induction false} ListsSame(a: seq<JsString>)
    ensures CompareLists(a, a) == 0
    decreases |a|
  {
    if a != [] {
      ListsSame(a[1..]);
    }
  }

  /** Strictly newer is irreflexive and transitive for all versions, also those whose numbers are rounded. */
  lemma NewerIsStrictOrder(a: JsString, b: JsString, c: JsString)
    ensures !Newer(a, a)
    ensures Newer(a, b) && Newer(b, c) ==> Newer(a, c)
  {
    hide ParseVersion, CompareLists, ToDouble;
    if ParseVersion(a).Some? {
      ListsSame(ParseVersion(a).value.prerelease);
    }
    if Newer(a, b) && Newer(b, c) {
      var v, w, u := ParseVersion(a).value.prerelease, ParseVersion(b).value.prerelease, ParseVersion(c).value.prerelease;
      if v != [] && w != [] && u != [] && CompareLists(v, w) == 1 && CompareLists(w, u) == 1 {
        ListsGreaterChain(v, w, u);
      }
    }
  }

  // ---------- Rounding keeps the order ----------

  lemma {:induction false} UlpBounds(n: nat)
    ensures n < EXACT * Ulp(n)
    ensures n >= EXACT ==> EXACT * Ulp(n) <= 2 * n
  {
    if n >= EXACT {
      UlpBounds(n / 2);
    }
  }

  lemma {:induction false} UlpGrows(a: nat, b: nat)
    requires a <= b
    ensures Ulp(a) == Ulp(b) || (2 * Ulp(a) <= Ulp(b) && b >= EXACT)
  {
    if a >= EXACT {
      UlpGrows(a / 2, b / 2);
    }
  }

  lemma Divided(n: nat, u: nat)
    requires u > 0
    ensures n == n / u * u + n % u && 0 <= n % u < u
  {
  }

  lemma Scaled(x: nat, y: nat, u: nat)
    ensures x <= y ==> x * u <= y * u
    ensures x * u < y * u ==> x < y
  {
  }

  lemma NearestIsNear(q: nat, r: nat, u: nat)
    ensures q <= Nearest(q, r, u) <= q + 1
  {
  }

  /** Rounding a number below `2 * h` units gives at most `2 * h` units, and at least `h` units if there were. */
  lemma RoundingStaysWithin(n: nat, u: nat, q: nat, r: nat, k: nat, h: nat)
    requires n == q * u + r && r < u && q <= k <= q + 1
    ensures n < (2 * h) * u ==> k * u <= (2 * h) * u
    ensures h * u <= n ==> h * u <= k * u
  {
    if n < (2 * h) * u {
      Scaled(2 * h, q, u);
      Scaled(k, 2 * h, u);
    }
    if h * u <= n {
      Scaled(q + 1, h, u);
      assert (q + 1) * u == q * u + u;
      Scaled(h, k, u);
    }
  }

  lemma RoundedBounds(n: nat)
    ensures Rounded(n) <= EXACT * Ulp(n)
    ensures n >= EXACT ==> EXACT * Ulp(n) <= 2 * Rounded(n)
  {
    hide Nearest, Ulp;
    var u, q := Ulp(n), n / Ulp(n);
    NearestIsNear(q, n % u, u);
    UlpBounds(n);
    Divided(n, u);
    RoundingStaysWithin(n, u, q, n % u, Nearest(q, n % u, u), EXACT / 2);
    assert 2 * (EXACT / 2) == EXACT;
  }

  lemma NearestIsMonotone(p: nat, q: nat, x: nat, y: nat, u: nat)
    requires p < q || (p == q && x <= y)
    ensures Nearest(p, x, u) <= Nearest(q, y, u)
  {
  }

  lemma QuotientGrows(p: nat, x: nat, q: nat, y: nat, u: nat)
    requires x < u && y < u && p * u + x <= q * u + y
    ensures p < q || (p == q && x <= y)
  {
    Scaled(q + 1, p, u);
    assert (q + 1) * u == q * u + u;
  }

  lemma SameUlpMonotone(a: nat, b: nat)
    requires a <= b && Ulp(a) == Ulp(b)
    ensures Rounded(a) <= Rounded(b)
  {
    var u := Ulp(a);
    hide Nearest, Ulp;
    Divided(a, u);
    Divided(b, u);
    var p, q, x, y := a / u, b / u, a % u, b % u;
    QuotientGrows(p, x, q, y, u);
    NearestIsMonotone(p, q, x, y, u);
    Scaled(Nearest(p, x, u), Nearest(q, y, u), u);
  }

  /** A larger number never gets a smaller double. */
  lemma ToDoubleIsMonotone(a: nat, b: nat)
    requires a <= b
    ensures ToDouble(a) <= ToDouble(b)
  {
    hide Rounded;
    UlpGrows(a, b);
    if Ulp(a) == Ulp(b) {
      SameUlpMonotone(a, b);
    } else {
      RoundedBounds(a);
      RoundedBounds(b);
    }
  }

  // ---------- Exactly when the comparison is the precedence ----------

  function Sign(a: nat, b: nat): int {
    if a < b then -1 else if a > b then 1 else 0
  }

  /** Different numbers are told apart, and then rightly, exactly when their doubles differ. */
  lemma NumbersRightIff(a: nat, b: nat)
    requires a != b
    ensures CompareNumbers(a, b) == Sign(a, b) <==> ToDouble(a) != ToDouble(b)
    ensures CompareNumbers(a, b) in {0, Sign(a, b)}
  {
    hide ToDouble;
    if a < b {
      ToDoubleIsMonotone(a, b);
    } else {
      ToDoubleIsMonotone(b, a);
    }
  }

  /** Two numeric identifiers with the same double, the first of which is the larger. */
  predicate Swallowed(a: JsString, b: JsString) {
    AllDigits(a) && AllDigits(b) && NatOf(a) > NatOf(b) && ToDouble(NatOf(a)) == ToDouble(NatOf(b))
  }

  /** Different identifiers compare rightly unless they are numeric with the same double and the first is the larger. */
  lemma IdsRightIff(a: JsString, b: JsString)
    requires a != b && (AllDigits(a) ==> IsNumeric(a)) && (AllDigits(b) ==> IsNumeric(b))
    ensures CompareIds(a, b) == -1 <==> IdPrecedes(a, b) || Swallowed(a, b)
    ensures CompareIds(a, b) == 1 <==> IdPrecedes(b, a) && !Swallowed(a, b)
    ensures Swallowed(a, b) ==> IdPrecedes(b, a) && !IdPrecedes(a, b)
  {
    hide ToDouble, Before, NatOf, PrecedesText;
    BeforeIff(a, b);
    BeforeIff(b, a);
    BeforeIsTotal(a, b);
    if AllDigits(a) && AllDigits(b) {
      if NatOf(a) == NatOf(b) {
        NumericInjective(a, b);
      }
      NumbersRightIff(NatOf(a), NatOf(b));
    }
  }

  /** The comparison of two lists says what precedence says. */
  ghost predicate ListsAgree(a: seq<JsString>, b: seq<JsString>) {
    && (CompareLists(a, b) == 1 <==> ListPrecedes(b, a))
    && (CompareLists(a, b) == -1 <==> ListPrecedes(a, b))
    && (CompareLists(a, b) == 0 <==> a == b)
  }

  /** The first identifiers that differ are numeric with the same double, and the first is the larger. */
  predicate SwallowedAt(a: seq<JsString>, b: seq<JsString>, i: nat) {
    i < |a| && i < |b| && a[..i] == b[..i] && Swallowed(a[i], b[i])
  }

  lemma SwallowedRest(a: seq<JsString>, b: seq<JsString>)
    requires a != [] && b != [] && a[0] == b[0]
    ensures (exists i: nat :: SwallowedAt(a, b, i)) <==> (exists i: nat :: SwallowedAt(a[1..], b[1..], i))
  {
    hide Swallowed;
    assert !Swallowed(a[0], b[0]) by { SelfIsNotSwallowed(a[0]); }
    if i: nat :| SwallowedAt(a, b, i) {
      assert i > 0 && a[1..][..i - 1] == a[..i][1..] && b[1..][..i - 1] == b[..i][1..];
      assert SwallowedAt(a[1..], b[1..], i - 1);
    }
    if i: nat :| SwallowedAt(a[1..], b[1..], i) {
      assert a[..i + 1] == [a[0]] + a[1..][..i] && b[..i + 1] == [b[0]] + b[1..][..i];
      assert SwallowedAt(a, b, i + 1);
    }
  }

  lemma SelfIsNotSwallowed(a: JsString)
    ensures !Swallowed(a, a)
  {
  }

  lemma {:induction false} ListsRightIff(a: seq<JsString>, b: seq<JsString>)
    requires forall id :: (id in a || id in b) && AllDigits(id) ==> IsNumeric(id)
    ensures ListsAgree(a, b) <==> !exists i: nat :: SwallowedAt(a, b, i)
    ensures CompareLists(a, b) in {-1, 0, 1} && (CompareLists(a, b) == 0 <==> a == b)
    decreases |a|
  {
    hide ListPrecedes, CompareIds, IdPrecedes, Swallowed;
    if a == [] || b == [] {
      ListPrecedesFirst(a, b);
      ListPrecedesFirst(b, a);
    } else if a[0] != b[0] {
      ListPrecedesFirst(a, b);
      ListPrecedesFirst(b, a);
      IdsRightIff(a[0], b[0]);
      IdsTotal(a[0], b[0]);
      IdsOneWay(a[0], b[0]);
      FirstSwallowed(a, b);
    } else {
      ListPrecedesCons(a[0], a[1..], b[1..]);
      ListPrecedesCons(b[0], b[1..], a[1..]);
      assert a == [a[0]] + a[1..] && b == [b[0]] + b[1..];
      SwallowedRest(a, b);
      ListsRightIff(a[1..], b[1..]);
    }
  }

  lemma IdsOneWay(a: JsString, b: JsString)
    ensures !(IdPrecedes(a, b) && IdPrecedes(b, a))
  {
    hide Before, PrecedesText;
    BeforeIff(a, b);
    BeforeIff(b, a);
    BeforeIsTotal(a, b);
  }

  lemma FirstSwallowed(a: seq<JsString>, b: seq<JsString>)
    requires a != [] && b != [] && a[0] != b[0]
    ensures (exists i: nat :: SwallowedAt(a, b, i)) <==> Swallowed(a[0], b[0])
  {
    hide Swallowed;
    if Swallowed(a[0], b[0]) {
      assert SwallowedAt(a, b, 0);
    }
  }

  /** The comparison of two versions says what precedence says, and 0 only for equal versions. */
  ghost predicate Agrees(v: Version, w: Version)
    requires |v.core| == 3 && |w.core| == 3
  {
    && (CompareParsed(v, w) == 1 <==> Precedes(w, v))
    && (CompareParsed(v, w) == -1 <==> Precedes(v, w))
    && (CompareParsed(v, w) == 0 <==> v == w)
  }

  /** A swallowed identifier makes the first list the older one. */
  lemma {:induction false} SwallowedIsOlder(a: seq<JsString>, b: seq<JsString>, i: nat)
    requires SwallowedAt(a, b, i)
    ensures CompareLists(a, b) == -1
    decreases i
  {
    hide AllDigits, NatOf, ToDouble;
    if i > 0 {
      assert a[..i][0] == b[..i][0];
      assert a[1..][..i - 1] == a[..i][1..] && b[1..][..i - 1] == b[..i][1..];
      SwallowedIsOlder(a[1..], b[1..], i - 1);
    } else {
      SelfIsNotSwallowed(a[0]);
    }
  }

  /**
   * The prereleases order their versions as `x` says: one without a prerelease is the newer; if the first identifiers that
   * differ are swallowed, the first is the older; otherwise precedence decides.
   */
  ghost predicate PreSays(a: seq<JsString>, b: seq<JsString>, x: int) {
    if a == [] || b == [] then (x == 1 && a == [] && b != []) || (x == -1 && a != [] && b == [])
    else if exists i: nat :: SwallowedAt(a, b, i) then x == -1
    else (x == 1 && ListPrecedes(b, a)) || (x == -1 && ListPrecedes(a, b))
  }

  lemma PreSaysIff(a: seq<JsString>, b: seq<JsString>, x: int)
    requires forall id :: (id in a || id in b) && AllDigits(id) ==> IsNumeric(id)
    requires x == 1 || x == -1
    ensures ComparePrerelease(a, b) == x <==> PreSays(a, b, x)
  {
    hide CompareLists, ListPrecedes, SwallowedAt;
    if a != [] && b != [] {
      ListsRightIff(a, b);
      if i: nat :| SwallowedAt(a, b, i) {
        SwallowedIsOlder(a, b, i);
      }
    }
  }

  predicate SameDoubles(v: Version, w: Version, from: nat, to: nat)
    requires |v.core| == 3 && |w.core| == 3 && to <= 3
  {
    forall j :: from <= j < to ==> ToDouble(v.core[j]) == ToDouble(w.core[j])
  }

  /** From the `k`-th on, the `j`-th numbers are the first whose doubles differ, and they are ordered as `x` says. */
  predicate NumberSays(v: Version, w: Version, k: nat, j: nat, x: int)
    requires |v.core| == 3 && |w.core| == 3
  {
    k <= j < 3 && SameDoubles(v, w, k, j) && ToDouble(v.core[j]) != ToDouble(w.core[j]) && x == Sign(v.core[j], w.core[j])
  }

  /** What follows the first `k` numbers orders the versions as `x` says: the first different doubles, or the prereleases. */
  ghost predicate RestSays(v: Version, w: Version, k: nat, x: int)
    requires |v.core| == 3 && |w.core| == 3
  {
    || (exists j: nat :: NumberSays(v, w, k, j, x))
    || (SameDoubles(v, w, k, 3) && PreSays(v.prerelease, w.prerelease, x))
  }

  lemma {:induction false} RestSaysIff(v: Version, w: Version, k: nat, x: int)
    requires |v.core| == 3 && |w.core| == 3 && k <= 3 && (x == 1 || x == -1)
    requires forall id :: (id in v.prerelease || id in w.prerelease) && AllDigits(id) ==> IsNumeric(id)
    ensures CompareFrom(v, w, k) == x <==> RestSays(v, w, k, x)
    decreases 3 - k
  {
    hide ToDouble, ComparePrerelease, PreSays;
    if k == 3 {
      PreSaysIff(v.prerelease, w.prerelease, x);
    } else if ToDouble(v.core[k]) != ToDouble(w.core[k]) {
      NumbersRightIff(v.core[k], w.core[k]);
      assert NumberSays(v, w, k, k, Sign(v.core[k], w.core[k]));
    } else {
      RestSaysIff(v, w, k + 1, x);
      var next := k + 1;
      if j: nat :| NumberSays(v, w, k, j, x) {
        assert NumberSays(v, w, next, j, x);
      }
      if j: nat :| NumberSays(v, w, next, j, x) {
        assert NumberSays(v, w, k, j, x);
      }
    }
  }

  /**
   * What can be read off the two versions: the first numbers that differ have different doubles, or what follows them orders
   * the versions the same way; and if no numbers differ, the first identifiers that differ are not swallowed.
   */
  ghost predicate ToldApart(v: Version, w: Version)
    requires |v.core| == 3 && |w.core| == 3
  {
    && (forall i :: 0 <= i < 3 && v.core[..i] == w.core[..i] && v.core[i] != w.core[i] ==>
          ToDouble(v.core[i]) != ToDouble(w.core[i]) || RestSays(v, w, i + 1, Sign(v.core[i], w.core[i])))
    && (v.core == w.core && v.prerelease != [] && w.prerelease != [] ==>
          !exists i: nat :: SwallowedAt(v.prerelease, w.prerelease, i))
  }

  /** Equal numbers are skipped. */
  lemma SkipsEqual(v: Version, w: Version, i: nat)
    requires |v.core| == 3 && |w.core| == 3 && i <= 3 && v.core[..i] == w.core[..i]
    ensures CompareParsed(v, w) == CompareFrom(v, w, i)
  {
    hide ToDouble, ComparePrerelease;
    assert forall j :: 0 <= j < i ==> v.core[j] == v.core[..i][j] && w.core[j] == w.core[..i][j];
  }

  lemma CoreDecides(v: Version, w: Version, i: nat)
    requires |v.core| == 3 && |w.core| == 3 && i < 3 && v.core[..i] == w.core[..i] && v.core[i] != w.core[i]
    ensures Precedes(v, w) <==> v.core[i] < w.core[i]
    ensures Precedes(w, v) <==> w.core[i] < v.core[i]
  {
    hide ListPrecedes, CorePrecedesAt;
    CoreFirst(v.core, w.core);
    CoreFirst(w.core, v.core);
    assert forall j :: 0 <= j < i ==> v.core[j] == v.core[..i][j] && w.core[j] == w.core[..i][j];
  }

  lemma DifferentCores(v: Version, w: Version) returns (i: nat)
    requires |v.core| == 3 && |w.core| == 3 && v.core != w.core
    ensures i < 3 && v.core[..i] == w.core[..i] && v.core[i] != w.core[i]
  {
    i := if v.core[0] != w.core[0] then 0 else if v.core[1] != w.core[1] then 1 else 2;
    assert v.core == [v.core[0], v.core[1], v.core[2]] && w.core == [w.core[0], w.core[1], w.core[2]];
  }

  lemma OnlyOneFirst(v: Version, w: Version, i: nat, j: nat)
    requires |v.core| == 3 && |w.core| == 3
    requires i < 3 && v.core[..i] == w.core[..i] && v.core[i] != w.core[i]
    requires j < 3 && v.core[..j] == w.core[..j] && v.core[j] != w.core[j]
    ensures i == j
  {
  }

  lemma ParsedRightIff(v: Version, w: Version)
    requires |v.core| == 3 && |w.core| == 3
    requires forall id :: (id in v.prerelease || id in w.prerelease) && AllDigits(id) ==> IsNumeric(id)
    ensures Agrees(v, w) <==> ToldApart(v, w)
  {
    hide ToDouble, ListPrecedes, CompareLists, CorePrecedesAt, CompareParsed, SwallowedAt, RestSays;
    if v.core != w.core {
      var i := DifferentCores(v, w);
      CoreDecides(v, w, i);
      SkipsEqual(v, w, i);
      NumbersRightIff(v.core[i], w.core[i]);
      RestSaysIff(v, w, i + 1, Sign(v.core[i], w.core[i]));
      hide Precedes;
      forall j | 0 <= j < 3 && v.core[..j] == w.core[..j] && v.core[j] != w.core[j]
        ensures j == i
      {
        OnlyOneFirst(v, w, i, j);
      }
    } else {
      SkipsEqual(v, w, 3);
      CoreFirst(v.core, w.core);
      ListsRightIff(v.prerelease, w.prerelease);
    }
  }

  /** For any two valid versions, however large their numbers: exactly when `compareVersions` is the precedence of SemVer. */
  lemma CompareIsPrecedenceIff(a: JsString, b: JsString)
    requires ParseVersion(a).Some? && ParseVersion(b).Some?
    ensures var v, w := ParseVersion(a).value, ParseVersion(b).value;
      (&& (Compare(a, b) == Some(1) <==> Precedes(w, v))
       && (Compare(a, b) == Some(-1) <==> Precedes(v, w))
       && (Compare(a, b) == Some(0) <==> a == b)) <==> ToldApart(v, w)
  {
    hide CompareParsed, Precedes, ToldApart;
    ParsedRightIff(ParseVersion(a).value, ParseVersion(b).value);
    if ParseVersion(a) == ParseVersion(b) {
      ParseInjective(a, b);
    }
  }

  // ---------- Where rounding shows ----------

  lemma RoundingTies()
    ensures ToDouble(EXACT) == ToDouble(EXACT + 1) == EXACT && ToDouble(EXACT + 2) == EXACT + 2
  {
    InfinityIsLarge();
    assert Ulp(EXACT + 2) == 2 * Ulp((EXACT + 2) / 2) == 2;
    assert Ulp(EXACT) == 2 * Ulp(EXACT / 2) == 2;
    assert Ulp(EXACT + 1) == 2 * Ulp((EXACT + 1) / 2) == 2;
  }

  lemma {:induction false} SplitHead(p: JsString, rest: JsString, c: CodeUnit)
    requires c !in p
    ensures Split(p + [c] + rest, c) == [p] + Split(rest, c)
    decreases |p|
  {
    var s := p + [c] + rest;
    if p == [] {
      assert s[1..] == rest && s[0] == c;
    } else {
      assert s[1..] == p[1..] + [c] + rest && s[0] == p[0];
      SplitHead(p[1..], rest, c);
      assert p == [p[0]] + p[1..];
    }
  }

  lemma {:induction false} SplitWhole(p: JsString, c: CodeUnit)
    requires c !in p
    ensures Split(p, c) == [p]
    decreases |p|
  {
    if p != [] {
      SplitWhole(p[1..], c);
      assert p == [p[0]] + p[1..];
      assert [p][1..] == [];
    }
  }

  lemma {:induction false} NoDash(s: JsString)
    requires DASH !in s
    ensures FirstDash(s) == |s|
    decreases |s|
  {
    if s != [] {
      NoDash(s[1..]);
    }
  }

  lemma {:induction false} DigitsAreNumeric(n: nat)
    ensures IsNumeric(Digits(n)) && (n > 0 ==> Digits(n)[0] != ZERO)
  {
    if n >= 10 {
      DigitsAreNumeric(n / 10);
    }
  }

  /** The text of release `n.0.0`. */
  function Release(n: nat): JsString {
    Digits(n) + [DOT] + ([ZERO] + [DOT] + [ZERO])
  }

  lemma ReleaseReads(n: nat)
    ensures ParseVersion(Release(n)) == Some(Version([n, 0, 0], []))
  {
    var d, tail := Digits(n), [ZERO] + [DOT] + [ZERO];
    DigitsAreNumeric(n);
    DigitsReadBack(n);
    hide Digits, NatOf;
    assert forall c :: c in d ==> IsDigit(c);
    SplitHead(d, tail, DOT);
    SplitHead([ZERO], [ZERO], DOT);
    SplitWhole([ZERO], DOT);
    NoDash(Release(n));
    assert Release(n)[..|Release(n)|] == Release(n);
    var parts := [d, [ZERO], [ZERO]];
    assert Split(Release(n), DOT) == parts;
    ZeroIsZero();
    assert forall p :: p in parts ==> IsNumeric(p);
    assert parts[0] == d && parts[1] == [ZERO] && parts[2] == [ZERO];
  }

  lemma ZeroIsZero()
    ensures NatOf([ZERO]) == 0
  {
    assert [ZERO][..0] == [];
  }

  /** The text of prerelease `n` of 1.0.0. */
  function Prerelease(n: nat): JsString {
    Release(1) + [DASH] + Digits(n)
  }

  lemma {:induction false} DashCuts(p: JsString, rest: JsString)
    requires DASH !in p
    ensures FirstDash(p + [DASH] + rest) == |p|
    decreases |p|
  {
    var s := p + [DASH] + rest;
    if p == [] {
      assert s[0] == DASH;
    } else {
      assert s[0] == p[0] && s[1..] == p[1..] + [DASH] + rest;
      DashCuts(p[1..], rest);
    }
  }

  lemma DigitsAreIdentifier(n: nat)
    ensures IsIdentifier(Digits(n)) && AllDigits(Digits(n)) && IsNumeric(Digits(n)) && NatOf(Digits(n)) == n
    ensures DOT !in Digits(n) && DASH !in Digits(n)
  {
    DigitsAreNumeric(n);
    DigitsReadBack(n);
    hide Digits, NatOf;
    assert forall c :: c in Digits(n) ==> IsDigit(c);
  }

  lemma ReleaseHasNoDash(n: nat)
    ensures DASH !in Release(n)
  {
    DigitsAreIdentifier(n);
    hide Digits;
  }

  lemma PrereleaseReads(n: nat)
    ensures ParseVersion(Prerelease(n)) == Some(Version([1, 0, 0], [Digits(n)]))
  {
    var s, r, d := Prerelease(n), Release(1), Digits(n);
    ReleaseReads(1);
    ReleaseHasNoDash(1);
    NoDash(r);
    assert r[..|r|] == r;
    ParsedIs(r);
    DashCuts(r, d);
    DigitsAreIdentifier(n);
    SplitWhole(d, DOT);
    hide Digits, NatOf, Release, IsNumeric, IsIdentifier, AllDigits, CoreOf, Split;
    assert s[..|r|] == r && s[|r| + 1..] == d;
    assert forall id :: id in [d] ==> id == d;
  }

  /** From 2^53 on, different versions can compare as equal, though they need not. */
  lemma RoundingMergesReleases()
    ensures Release(EXACT) != Release(EXACT + 1)
    ensures Compare(Release(EXACT), Release(EXACT + 1)) == Some(0)
    ensures Compare(Release(EXACT), Release(EXACT + 2)) == Some(-1)
  {
    hide ParseVersion, Release, ToDouble;
    RoundingTies();
    ReleaseReads(EXACT);
    ReleaseReads(EXACT + 1);
    ReleaseReads(EXACT + 2);
    assert [EXACT, 0, 0][0] != [EXACT + 1, 0, 0][0];
  }

  lemma BothOlder(x: JsString, y: JsString)
    requires x != y && AllDigits(x) && AllDigits(y) && ToDouble(NatOf(x)) == ToDouble(NatOf(y))
    ensures var v, w := Version([1, 0, 0], [x]), Version([1, 0, 0], [y]);
      CompareParsed(v, w) == -1 && CompareParsed(w, v) == -1
  {
    hide ToDouble, AllDigits, NatOf;
    assert CompareLists([x], [y]) == -1 && CompareLists([y], [x]) == -1;
  }

  /** And two prereleases, 1.0.0-9007199254740992 and 1.0.0-9007199254740993, each compare as older than the other. */
  lemma RoundingBreaksPrereleases()
    ensures ParseVersion(Prerelease(EXACT)).Some? && ParseVersion(Prerelease(EXACT + 1)).Some?
    ensures Compare(Prerelease(EXACT), Prerelease(EXACT + 1)) == Some(-1)
    ensures Compare(Prerelease(EXACT + 1), Prerelease(EXACT)) == Some(-1)
  {
    RoundingTies();
    hide ParseVersion, Prerelease, ToDouble, Digits, NatOf, AllDigits, CompareParsed;
    PrereleaseReads(EXACT);
    PrereleaseReads(EXACT + 1);
    DigitsAreIdentifier(EXACT);
    DigitsAreIdentifier(EXACT + 1);
    BothOlder(Digits(EXACT), Digits(EXACT + 1));
  }

  // ---------- The grammar of versions ----------

  /** The characters of an identifier in section 9 of Semantic Versioning 2.0.0. */
  predicate IsVersionCharacter(c: CodeUnit) {
    || '0' as int <= c <= '9' as int
    || 'A' as int <= c <= 'Z' as int
    || 'a' as int <= c <= 'z' as int
    || c == '-' as int
  }

  /** Section 9: identifiers are not empty, and numbers among them have no leading zero. */
  predicate IsPrerelease(ids: seq<JsString>) {
    forall id :: id in ids ==>
      && id != []
      && (forall c :: c in id ==> IsVersionCharacter(c))
      && ((forall c :: c in id ==> '0' as int <= c <= '9' as int) ==> id == ['0' as int] || id[0] != '0' as int)
  }

  function CoreText(core: seq<nat>): JsString
    requires |core| == 3
  {
    Digits(core[0]) + ['.' as int] + Digits(core[1]) + ['.' as int] + Digits(core[2])
  }

  /** A version written down: three decimal numbers, and after a dash the identifiers with dots between. */
  function VersionText(v: Version): JsString
    requires |v.core| == 3
  {
    CoreText(v.core) + if v.prerelease == [] then [] else ['-' as int] + Join(v.prerelease, '.' as int)
  }

  lemma {:induction false} SplitJoin(parts: seq<JsString>, c: CodeUnit)
    requires parts != [] && forall p :: p in parts ==> c !in p
    ensures Split(Join(parts, c), c) == parts
    decreases |parts|
  {
    if |parts| == 1 {
      SplitWhole(parts[0], c);
    } else {
      SplitHead(parts[0], Join(parts[1..], c), c);
      SplitJoin(parts[1..], c);
    }
  }

  lemma CoreTextIsJoin(core: seq<nat>)
    requires |core| == 3
    ensures CoreText(core) == Join([Digits(core[0]), Digits(core[1]), Digits(core[2])], DOT)
    ensures DASH !in CoreText(core)
  {
    DigitsAreIdentifier(core[0]);
    DigitsAreIdentifier(core[1]);
    DigitsAreIdentifier(core[2]);
    hide Digits;
    var x, y, z := Digits(core[0]), Digits(core[1]), Digits(core[2]);
    assert [x, y, z][1..] == [y, z] && [y, z][1..] == [z];
    assert Join([y, z], DOT) == y + [DOT] + z;
    assert x + [DOT] + y + [DOT] + z == x + [DOT] + (y + [DOT] + z);
  }

  lemma CoreTextReads(core: seq<nat>)
    requires |core| == 3
    ensures var parts := Split(CoreText(core), DOT);
      |parts| == 3 && (forall p :: p in parts ==> IsNumeric(p)) && CoreOf(parts) == core
  {
    CoreTextIsJoin(core);
    DigitsAreIdentifier(core[0]);
    DigitsAreIdentifier(core[1]);
    DigitsAreIdentifier(core[2]);
    hide Digits, NatOf, IsNumeric, Join, CoreText;
    var parts := [Digits(core[0]), Digits(core[1]), Digits(core[2])];
    assert parts[0] == Digits(core[0]) && parts[1] == Digits(core[1]) && parts[2] == Digits(core[2]);
    assert forall p :: p in parts ==> p == parts[0] || p == parts[1] || p == parts[2];
    SplitJoin(parts, DOT);
  }

  lemma PrereleaseIffIdentifiers(ids: seq<JsString>)
    ensures IsPrerelease(ids) <==> forall id :: id in ids ==> IsIdentifier(id) && (AllDigits(id) ==> IsNumeric(id))
  {
    forall id | id in ids && id != []
      ensures (forall c :: c in id ==> IsVersionCharacter(c)) <==> IsIdentifier(id)
      ensures (forall c :: c in id ==> '0' as int <= c <= '9' as int) <==> AllDigits(id)
      ensures id == ['0' as int] || id[0] != '0' as int <==> |id| == 1 || id[0] != ZERO
    {
      assert forall i :: 0 <= i < |id| ==> id[i] in id;
    }
  }

  /** A text is read as a version exactly when it is that version written down, with identifiers as section 9 has them. */
  lemma ReadsExactlyWhatIsWritten(s: JsString, v: Version)
    ensures ParseVersion(s) == Some(v) <==> |v.core| == 3 && IsPrerelease(v.prerelease) && s == VersionText(v)
  {
    if |v.core| == 3 && IsPrerelease(v.prerelease) && s == VersionText(v) {
      WrittenIsRead(v);
    }
    if ParseVersion(s) == Some(v) {
      ReadIsWritten(s);
    }
  }

  lemma WrittenIsRead(v: Version)
    requires |v.core| == 3 && IsPrerelease(v.prerelease)
    ensures ParseVersion(VersionText(v)) == Some(v)
  {
    hide CoreText, CoreOf, IsNumeric, IsIdentifier, AllDigits, Split, Join, IsPrerelease, FirstDash, NatOf, Digits;
    var s, core := VersionText(v), CoreText(v.core);
    CoreTextIsJoin(v.core);
    CoreTextReads(v.core);
    PrereleaseIffIdentifiers(v.prerelease);
    NoDash(core);
    if v.prerelease != [] {
      DashCuts(core, Join(v.prerelease, DOT));
      NoDotIn(v.prerelease);
      SplitJoin(v.prerelease, DOT);
      assert s == core + [DASH] + Join(v.prerelease, DOT);
    }
    assert s[..|core|] == core;
    assert v.prerelease != [] ==> s[|core| + 1..] == Join(v.prerelease, DOT);
  }

  lemma NoDotIn(ids: seq<JsString>)
    requires IsPrerelease(ids)
    ensures forall id :: id in ids ==> DOT !in id
  {
  }

  lemma ReadIsWritten(s: JsString)
    requires ParseVersion(s).Some?
    ensures var v := ParseVersion(s).value;
      |v.core| == 3 && IsPrerelease(v.prerelease) && s == VersionText(v)
  {
    hide ParseVersion, CoreText, CoreOf, IsNumeric, IsIdentifier, AllDigits, Split, Join, IsPrerelease, FirstDash;
    var v, cut := ParseVersion(s).value, FirstDash(s);
    ParsedIs(s);
    var parts := Split(s[..cut], DOT);
    CoreInjectiveText(parts);
    JoinSplit(s[..cut], DOT);
    if cut < |s| {
      JoinSplit(s[cut + 1..], DOT);
      assert s == s[..cut] + [DASH] + s[cut + 1..];
    } else {
      assert s == s[..cut];
    }
    PrereleaseIffIdentifiers(v.prerelease);
    IdsRead(s);
  }

  lemma IdsRead(s: JsString)
    requires ParseVersion(s).Some?
    ensures forall id :: id in ParseVersion(s).value.prerelease ==> IsIdentifier(id) && (AllDigits(id) ==> IsNumeric(id))
  {
    hide NatOf, IsNumeric, IsIdentifier, AllDigits, CoreOf, Split, FirstDash;
  }

  lemma CoreInjectiveText(parts: seq<JsString>)
    requires |parts| == 3 && forall p :: p in parts ==> IsNumeric(p)
    ensures CoreText(CoreOf(parts)) == Join(parts, DOT)
  {
    assert IsNumeric(parts[0]) && IsNumeric(parts[1]) && IsNumeric(parts[2]);
    NumericIsDigits(parts[0]);
    NumericIsDigits(parts[1]);
    NumericIsDigits(parts[2]);
    CoreTextIsJoin(CoreOf(parts));
    hide CoreText, IsNumeric, Digits;
    assert parts == [parts[0], parts[1], parts[2]];
  }
}
