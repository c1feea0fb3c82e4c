/**
 * The canonical text whose signature an update manifest carries, and a parser that reads it back: two manifests have
 * the same text exactly when they hold the same data.
 */
module CanonicalJson {
  import opened Prelude

  /** A parsed JSON value as JavaScript holds it: objects list their own keys in insertion order. */
  datatype Value =
    | Null
    | Bool(b: bool)
    | Num(n: int)
    | Str(s: JsString)
    | Arr(items: seq<Value>)
    | Obj(fields: seq<Field>)

  datatype Field = Field(key: JsString, value: Value)

  /** The data itself: objects are maps. */
  datatype Json =
    | JNull
    | JBool(b: bool)
    | JNum(n: int)
    | JStr(s: JsString)
    | JArr(items: seq<Json>)
    | JObj(fields: map<JsString, Json>)

  const QUOTE: CodeUnit := 0x22
  const COMMA: CodeUnit := 0x2c
  const MINUS: CodeUnit := 0x2d
  const COLON: CodeUnit := 0x3a
  const OPEN_BRACKET: CodeUnit := 0x5b
  const BACKSLASH: CodeUnit := 0x5c
  const CLOSE_BRACKET: CodeUnit := 0x5d
  const LETTER_U: CodeUnit := 0x75
  const OPEN_BRACE: CodeUnit := 0x7b
  const CLOSE_BRACE: CodeUnit := 0x7d
  const NULL_TEXT: JsString := [0x6e, 0x75, 0x6c, 0x6c]
  const TRUE_TEXT: JsString := [0x74, 0x72, 0x75, 0x65]
  const FALSE_TEXT: JsString := [0x66, 0x61, 0x6c, 0x73, 0x65]

  // ---------- JSON.stringify of strings and integers ----------

  predicate IsHigh(c: CodeUnit) {
    0xd800 <= c < 0xdc00
  }

  predicate IsLow(c: CodeUnit) {
    0xdc00 <= c < 0xe000
  }

  function HexDigit(d: nat): CodeUnit
    requires d < 16
  {
    if d < 10 then 0x30 + d else 0x57 + d
  }

  function Hex4(c: CodeUnit): (h: JsString)
    ensures |h| == 4
  {
    [HexDigit(c / 0x1000), HexDigit(c / 0x100 % 16), HexDigit(c / 16 % 16), HexDigit(c % 16)]
  }

  /** The letter after the backslash of a two-character escape. */
  function ShortEscape(c: CodeUnit): Option<CodeUnit> {
    if c == QUOTE || c == BACKSLASH then Some(c)
    else if c == 8 then Some(0x62)
    else if c == 9 then Some(0x74)
    else if c == 10 then Some(0x6e)
    else if c == 12 then Some(0x66)
    else if c == 13 then Some(0x72)
    else None
  }

  /** A code unit on its own: controls and lone surrogates are spelled out. */
  function EscapeOne(c: CodeUnit): JsString {
    if ShortEscape(c).Some? then [BACKSLASH, ShortEscape(c).value]
    else if c < 0x20 || IsHigh(c) || IsLow(c) then [BACKSLASH, LETTER_U] + Hex4(c)
    else [c]
  }

  predicate StartsPair(s: JsString) {
    |s| > 1 && IsHigh(s[0]) && IsLow(s[1])
  }

  function Escape(s: JsString): JsString {
    if s == [] then []
    else if StartsPair(s) then s[..2] + Escape(s[2..])
    else EscapeOne(s[0]) + Escape(s[1..])
  }

  function Quoted(s: JsString): JsString {
    [QUOTE] + Escape(s) + [QUOTE]
  }

  predicate IsDigit(c: CodeUnit) {
    0x30 <= c <= 0x39
  }

  function Digits(n: nat): (d: JsString)
    ensures d != [] && forall i :: 0 <= i < |d| ==> IsDigit(d[i])
  {
    if n < 10 then [0x30 + n] else Digits(n / 10) + [0x30 + n % 10]
  }

  function Decimal(n: int): JsString {
    if n < 0 then [MINUS] + Digits(-n) else Digits(n)
  }

  // ---------- The order of keys ----------

  /** JavaScript's `<` on strings: by code units. */
  predicate Before(a: JsString, b: JsString) {
    if b == [] then false
    else if a == [] then true
    else if a[0] != b[0] then a[0] < b[0]
    else Before(a[1..], b[1..])
  }

  lemma {:induction false} BeforeIsTotal(a: JsString, b: JsString)
    ensures a == b || Before(a, b) || Before(b, a)
    ensures !(Before(a, b) && Before(b, a)) && !Before(a, a)
    decreases |a|
  {
    if a != [] {
      BeforeIsTotal(a[1..], a[1..]);
      if b != [] && a[0] == b[0] {
        BeforeIsTotal(a[1..], b[1..]);
        assert a == [a[0]] + a[1..] && b == [b[0]] + b[1..];
      }
    }
  }

  lemma {:induction false} BeforeChains(a: JsString, b: JsString, c: JsString)
    requires Before(a, b) && Before(b, c)
    ensures Before(a, c)
    decreases |a|
  {
    if a != [] && a[0] == b[0] && b[0] == c[0] {
      BeforeChains(a[1..], b[1..], c[1..]);
    }
  }

  /** The strings agree up to `i`, where the first has ended or has the smaller code unit. */
  predicate PrecedesAt(a: JsString, b: JsString, i: nat) {
    i <= |a| && i < |b| && a[..i] == b[..i] && (i == |a| || a[i] < b[i])
  }

  /** The lexicographic order of code units. */
  ghost predicate PrecedesText(a: JsString, b: JsString) {
    exists i: nat :: PrecedesAt(a, b, i)
  }

  lemma {:induction false} BeforeIff(a: JsString, b: JsString)
    ensures Before(a, b) <==> PrecedesText(a, b)
    decreases |a|
  {
    if a == [] {
      assert b != [] ==> PrecedesAt(a, b, 0);
    } else if b != [] && a[0] != b[0] {
      assert a[0] < b[0] ==> PrecedesAt(a, b, 0);
      if i: nat :| PrecedesAt(a, b, i) {
        assert i > 0 ==> a[..i][0] == b[..i][0];
      }
    } else if b != [] {
      BeforeIff(a[1..], b[1..]);
      if i: nat :| PrecedesAt(a[1..], b[1..], i) {
        assert a[..i + 1] == [a[0]] + a[1..][..i] && b[..i + 1] == [b[0]] + b[1..][..i];
        assert PrecedesAt(a, b, i + 1);
      }
      if i: nat :| PrecedesAt(a, b, i) {
        assert a[1..][..i - 1] == a[..i][1..] && b[1..][..i - 1] == b[..i][1..];
        assert PrecedesAt(a[1..], b[1..], i - 1);
      }
    }
  }

  ghost predicate Increasing(fs: seq<Field>) {
    forall i, j :: 0 <= i < j < |fs| ==> PrecedesText(fs[i].key, fs[j].key)
  }

  predicate DistinctKeys(fs: seq<Field>) {
    forall i, j :: 0 <= i < j < |fs| ==> fs[i].key != fs[j].key
  }

  function Insert(f: Field, fs: seq<Field>): (r: seq<Field>)
    ensures multiset(r) == multiset(fs) + multiset{f}
  {
    if fs == [] || !Before(fs[0].key, f.key) then
      [f] + fs
    else
      assert fs == [fs[0]] + fs[1..];
      [fs[0]] + Insert(f, fs[1..])
  }

  /** `Object.keys(value).sort()`, with the values alongside. */
  function Sorted(fs: seq<Field>): (r: seq<Field>)
    ensures multiset(r) == multiset(fs)
  {
    if fs == [] then []
    else
      assert fs == [fs[0]] + fs[1..];
      Insert(fs[0], Sorted(fs[1..]))
  }

  lemma {:induction false} InsertIncreasing(f: Field, fs: seq<Field>)
    requires Increasing(fs) && forall i :: 0 <= i < |fs| ==> fs[i].key != f.key
    ensures Increasing(Insert(f, fs))
    decreases |fs|
  {
    hide Before, PrecedesText;
    if fs != [] {
      BeforeIsTotal(fs[0].key, f.key);
      BeforeIff(fs[0].key, f.key);
      BeforeIff(f.key, fs[0].key);
      if Before(fs[0].key, f.key) {
        InsertIncreasing(f, fs[1..]);
        var r := Insert(f, fs[1..]);
        forall j | 0 <= j < |r|
          ensures PrecedesText(fs[0].key, r[j].key)
        {
          assert r[j] in multiset(r);
          assert r[j] == f || r[j] in fs[1..];
        }
      } else {
        forall j | 0 <= j < |fs|
          ensures PrecedesText(f.key, fs[j].key)
        {
          if j > 0 {
            BeforeIff(fs[0].key, fs[j].key);
            BeforeIff(f.key, fs[j].key);
            BeforeChains(f.key, fs[0].key, fs[j].key);
          }
        }
      }
    }
  }

  lemma {:induction false} SortedIncreasing(fs: seq<Field>)
    requires DistinctKeys(fs)
    ensures Increasing(Sorted(fs))
    decreases |fs|
  {
    if fs != [] {
      SortedIncreasing(fs[1..]);
      var rest := Sorted(fs[1..]);
      forall i | 0 <= i < |rest|
        ensures rest[i].key != fs[0].key
      {
        assert rest[i] in multiset(rest);
        assert rest[i] in fs[1..];
      }
      InsertIncreasing(fs[0], rest);
    }
  }

  lemma SortedMembers(fs: seq<Field>)
    ensures forall f :: f in Sorted(fs) <==> f in fs
  {
    assert forall f :: f in Sorted(fs) <==> f in multiset(Sorted(fs));
    assert forall f :: f in fs <==> f in multiset(fs);
  }

  // ---------- canonicalize ----------

  function Canonicalize(v: Value): JsString
    decreases v, 0
  {
    match v
    case Null => NULL_TEXT
    case Bool(b) => if b then TRUE_TEXT else FALSE_TEXT
    case Num(n) => Decimal(n)
    case Str(s) => Quoted(s)
    case Arr(items) => [OPEN_BRACKET] + Items(v, items) + [CLOSE_BRACKET]
    case Obj(fields) =>
      SortedMembers(fields);
      [OPEN_BRACE] + Members(v, Sorted(fields)) + [CLOSE_BRACE]
  }

  /** The elements of the array `v` from some point on, with commas between. */
  function Items(v: Value, items: seq<Value>): JsString
    requires v.Arr? && forall x :: x in items ==> x in v.items
    decreases v, 0, |items|
  {
    if items == [] then []
    else
      assert items[0] in v.items;
      if |items| == 1 then Canonicalize(items[0])
      else Canonicalize(items[0]) + [COMMA] + Items(v, items[1..])
  }

  function Members(v: Value, fs: seq<Field>): JsString
    requires v.Obj? && forall f :: f in fs ==> f in v.fields
    decreases v, 0, |fs|
  {
    if fs == [] then []
    else if |fs| == 1 then Member(v, fs[0])
    else Member(v, fs[0]) + [COMMA] + Members(v, fs[1..])
  }

  function Member(v: Value, f: Field): JsString
    requires v.Obj? && f in v.fields
    decreases v, 0, 0
  {
    Quoted(f.key) + [COLON] + Canonicalize(f.value)
  }

  // ---------- What a value means ----------

  /** JavaScript objects never list a key twice. */
  ghost predicate WellFormed(v: Value)
    decreases v
  {
    match v
    case Arr(items) => forall x :: x in items ==> WellFormed(x)
    case Obj(fields) => DistinctKeys(fields) && forall f :: f in fields ==> WellFormed(f.value)
    case _ => true
  }

  function Data(v: Value): Json
    decreases v, 0
  {
    match v
    case Null => JNull
    case Bool(b) => JBool(b)
    case Num(n) => JNum(n)
    case Str(s) => JStr(s)
    case Arr(items) => JArr(ItemsData(v, items))
    case Obj(fields) => JObj(FieldsData(v, fields))
  }

  function ItemsData(v: Value, items: seq<Value>): (r: seq<Json>)
    requires v.Arr? && forall x :: x in items ==> x in v.items
    ensures |r| == |items|
    decreases v, 0, |items|
  {
    if items == [] then []
    else
      assert items[0] in v.items;
      [Data(items[0])] + ItemsData(v, items[1..])
  }

  function FieldsData(v: Value, fs: seq<Field>): map<JsString, Json>
    requires v.Obj? && forall f :: f in fs ==> f in v.fields
    decreases v, 0, |fs|
  {
    if fs == [] then map[]
    else
      assert fs[0] in v.fields;
      FieldsData(v, fs[1..])[fs[0].key := Data(fs[0].value)]
  }

  lemma {:induction false} FieldsDataHas(v: Value, fs: seq<Field>)
    requires v.Obj? && (forall f :: f in fs ==> f in v.fields) && DistinctKeys(fs)
    ensures forall k :: k in FieldsData(v, fs) <==> exists f :: f in fs && f.key == k
    ensures forall f :: f in fs ==> f.key in FieldsData(v, fs) && FieldsData(v, fs)[f.key] == Data(f.value)
    decreases |fs|
  {
    if fs != [] {
      FieldsDataHas(v, fs[1..]);
      assert forall f :: f in fs <==> f == fs[0] || f in fs[1..];
    }
  }

  // ---------- A parser ----------

  datatype Parsed<T> = Parsed(value: T, rest: JsString)

  function HexValue(c: CodeUnit): Option<nat> {
    if IsDigit(c) then Some(c - 0x30) else if 0x61 <= c <= 0x66 then Some(c - 0x57) else None
  }

  function ParseHex4(s: JsString): Option<CodeUnit>
    requires |s| >= 4
  {
    var a, b, c, d := HexValue(s[0]), HexValue(s[1]), HexValue(s[2]), HexValue(s[3]);
    if a.None? || b.None? || c.None? || d.None? then None
    else Some(a.value * 0x1000 + b.value * 0x100 + c.value * 16 + d.value)
  }

  function Unescape(letter: CodeUnit): Option<CodeUnit> {
    if letter == QUOTE || letter == BACKSLASH then Some(letter)
    else if letter == 0x62 then Some(8)
    else if letter == 0x74 then Some(9)
    else if letter == 0x6e then Some(10)
    else if letter == 0x66 then Some(12)
    else if letter == 0x72 then Some(13)
    else None
  }

  /** The first character of a string body: its code unit and what follows. */
  function ParseUnit(s: JsString): (r: Option<Parsed<CodeUnit>>)
    requires s != []
    ensures r.Some? ==> |r.value.rest| < |s|
  {
    if s[0] != BACKSLASH then (if s[0] < 0x20 then None else Some(Parsed(s[0], s[1..])))
    else if |s| >= 6 && s[1] == LETTER_U then
      var c := ParseHex4(s[2..6]);
      if c.None? then None else Some(Parsed(c.value, s[6..]))
    else if |s| >= 2 && Unescape(s[1]).Some? then Some(Parsed(Unescape(s[1]).value, s[2..]))
    else None
  }

  /** A string body up to its closing quote. */
  function ParseString(s: JsString): (r: Option<Parsed<JsString>>)
    ensures r.Some? ==> |r.value.rest| < |s|
    decreases |s|
  {
    if s == [] then None
    else if s[0] == QUOTE then Some(Parsed([], s[1..]))
    else
      var c := ParseUnit(s);
      if c.None? then None
      else
        var more := ParseString(c.value.rest);
        if more.None? then None else Some(Parsed([c.value.value] + more.value.value, more.value.rest))
  }

  /** How many digits `s` starts with. */
  function DigitRun(s: JsString): (n: nat)
    ensures n <= |s| && forall i :: 0 <= i < n ==> IsDigit(s[i])
    decreases |s|
  {
    if s == [] || !IsDigit(s[0]) then 0 else 1 + DigitRun(s[1..])
  }

  function NatOf(d: JsString): nat
    requires forall i :: 0 <= i < |d| ==> IsDigit(d[i])
  {
    if d == [] then 0
    else
      assert IsDigit(d[|d| - 1]);
      NatOf(d[..|d| - 1]) * 10 + (d[|d| - 1] as int - 0x30)
  }

  function ParseNat(s: JsString): (r: Option<Parsed<nat>>)
    ensures r.Some? ==> |r.value.rest| < |s|
  {
    var n := DigitRun(s);
    if n == 0 then None else Some(Parsed(NatOf(s[..n]), s[n..]))
  }

  predicate StartsWith(s: JsString, prefix: JsString) {
    |prefix| <= |s| && s[..|prefix|] == prefix
  }

  function Parse(s: JsString): (r: Option<Parsed<Json>>)
    ensures r.Some? ==> |r.value.rest| < |s|
    decreases |s|, 0
  {
    if s == [] then None
    else if s[0] == QUOTE then
      var t := ParseString(s[1..]);
      if t.None? then None else Some(Parsed(JStr(t.value.value), t.value.rest))
    else if s[0] == OPEN_BRACKET then ParseArray(s[1..])
    else if s[0] == OPEN_BRACE then ParseObject(s[1..])
    else if s[0] == MINUS then
      var n := ParseNat(s[1..]);
      if n.None? then None else Some(Parsed(JNum(0 - (n.value.value as int)), n.value.rest))
    else if IsDigit(s[0]) then
      var n := ParseNat(s);
      if n.None? then None else Some(Parsed(JNum(n.value.value), n.value.rest))
    else ParseWord(s)
  }

  function ParseWord(s: JsString): (r: Option<Parsed<Json>>)
    ensures r.Some? ==> |r.value.rest| < |s|
  {
    if StartsWith(s, NULL_TEXT) then Some(Parsed(JNull, s[4..]))
    else if StartsWith(s, TRUE_TEXT) then Some(Parsed(JBool(true), s[4..]))
    else if StartsWith(s, FALSE_TEXT) then Some(Parsed(JBool(false), s[5..]))
    else None
  }

  function ParseArray(s: JsString): (r: Option<Parsed<Json>>)
    ensures r.Some? ==> |r.value.rest| <= |s|
    decreases |s|, 2
  {
    if s != [] && s[0] == CLOSE_BRACKET then Some(Parsed(JArr([]), s[1..]))
    else
      var items := ParseItems(s);
      if items.None? then None else Some(Parsed(JArr(items.value.value), items.value.rest))
  }

  /** One element, then a comma and more of them, or the closing bracket. */
  function ParseItems(s: JsString): (r: Option<Parsed<seq<Json>>>)
    ensures r.Some? ==> |r.value.rest| < |s|
    decreases |s|, 1
  {
    var first := Parse(s);
    if first.None? || first.value.rest == [] then None
    else
      var rest := first.value.rest;
      if rest[0] == CLOSE_BRACKET then Some(Parsed([first.value.value], rest[1..]))
      else if rest[0] == COMMA then
        var more := ParseItems(rest[1..]);
        if more.None? then None else Some(Parsed([first.value.value] + more.value.value, more.value.rest))
      else None
  }

  function ParseObject(s: JsString): (r: Option<Parsed<Json>>)
    ensures r.Some? ==> |r.value.rest| <= |s|
    decreases |s|, 2
  {
    if s != [] && s[0] == CLOSE_BRACE then Some(Parsed(JObj(map[]), s[1..]))
    else
      var fields := ParseMembers(s);
      if fields.None? then None else Some(Parsed(JObj(fields.value.value), fields.value.rest))
  }

  /** A key, a colon and a value. */
  function ParseMember(s: JsString): (r: Option<Parsed<(JsString, Json)>>)
    ensures r.Some? ==> |r.value.rest| < |s|
    decreases |s|, 0
  {
    if s == [] || s[0] != QUOTE then None
    else
      var key := ParseString(s[1..]);
      if key.None? || key.value.rest == [] || key.value.rest[0] != COLON then None
      else
        var v := Parse(key.value.rest[1..]);
        if v.None? then None else Some(Parsed((key.value.value, v.value.value), v.value.rest))
  }

  function ParseMembers(s: JsString): (r: Option<Parsed<map<JsString, Json>>>)
    ensures r.Some? ==> |r.value.rest| < |s|
    decreases |s|, 1
  {
    var first := ParseMember(s);
    if first.None? || first.value.rest == [] then None
    else
      var (key, value), rest := first.value.value, first.value.rest;
      if rest[0] == CLOSE_BRACE then Some(Parsed(map[key := value], rest[1..]))
      else if rest[0] == COMMA then
        var more := ParseMembers(rest[1..]);
        if more.None? then None else Some(Parsed(more.value.value[key := value], more.value.rest))
      else None
  }

  // ---------- The parser reads the text back ----------

  lemma HexDigitReadsBack(d: nat)
    requires d < 16
    ensures HexValue(HexDigit(d)) == Some(d)
  {
  }

  lemma HexReadsBack(c: CodeUnit)
    ensures ParseHex4(Hex4(c)) == Some(c)
  {
    hide HexDigit, HexValue;
    var a, b, d, e := c / 0x1000, c / 0x100 % 16, c / 16 % 16, c % 16;
    assert a * 0x1000 + b * 0x100 + d * 16 + e == c by {
      assert c / 0x100 == a * 16 + b && c / 16 == (c / 0x100) * 16 + d;
    }
    HexDigitReadsBack(a);
    HexDigitReadsBack(b);
    HexDigitReadsBack(d);
    HexDigitReadsBack(e);
  }

  lemma EscapeReadsBack(c: CodeUnit, rest: JsString)
    ensures EscapeOne(c) != [] && EscapeOne(c)[0] != QUOTE
    ensures ParseUnit(EscapeOne(c) + rest) == Some(Parsed(c, rest))
  {
    hide HexValue;
    HexReadsBack(c);
    var t := EscapeOne(c) + rest;
    if ShortEscape(c).Some? {
      assert t[2..] == rest;
    } else if c < 0x20 || IsHigh(c) || IsLow(c) {
      assert t[2..6] == Hex4(c) && t[6..] == rest;
    } else {
      assert t[1..] == rest;
    }
  }

  lemma UnitThenString(text: JsString, c: CodeUnit, after: JsString, s: JsString, rest: JsString)
    requires text != [] && text[0] != QUOTE && ParseUnit(text) == Some(Parsed(c, after))
    requires ParseString(after) == Some(Parsed(s, rest))
    ensures ParseString(text) == Some(Parsed([c] + s, rest))
  {
    hide ParseUnit;
  }

  lemma QuoteEnds(rest: JsString)
    ensures ParseString([QUOTE] + rest) == Some(Parsed([], rest))
  {
    assert ([QUOTE] + rest)[1..] == rest;
  }

  lemma {:induction false} StringReadsBack(s: JsString, rest: JsString)
    ensures ParseString(Escape(s) + [QUOTE] + rest) == Some(Parsed(s, rest))
    decreases |s|
  {
    hide ParseUnit, ParseString, EscapeOne;
    var t := Escape(s) + [QUOTE] + rest;
    if s == [] {
      assert t == [QUOTE] + rest;
      QuoteEnds(rest);
    } else if StartsPair(s) {
      var after := Escape(s[2..]) + [QUOTE] + rest;
      assert t == [s[0]] + ([s[1]] + after);
      RawUnit(s[0], [s[1]] + after);
      RawUnit(s[1], after);
      StringReadsBack(s[2..], rest);
      UnitThenString([s[1]] + after, s[1], after, s[2..], rest);
      UnitThenString(t, s[0], [s[1]] + after, [s[1]] + s[2..], rest);
      assert s == [s[0]] + ([s[1]] + s[2..]);
    } else {
      var after := Escape(s[1..]) + [QUOTE] + rest;
      assert t == EscapeOne(s[0]) + after;
      EscapeReadsBack(s[0], after);
      StringReadsBack(s[1..], rest);
      UnitThenString(t, s[0], after, s[1..], rest);
      assert s == [s[0]] + s[1..];
    }
  }

  lemma RawUnit(c: CodeUnit, rest: JsString)
    requires IsHigh(c) || IsLow(c)
    ensures ParseUnit([c] + rest) == Some(Parsed(c, rest))
  {
    assert ([c] + rest)[1..] == rest;
  }

  lemma {:induction false} DigitsReadBack(n: nat)
    ensures NatOf(Digits(n)) == n
  {
    if n >= 10 {
      DigitsReadBack(n / 10);
      var d := Digits(n);
      assert d[..|d| - 1] == Digits(n / 10);
    }
  }

  lemma {:induction false} RunIs(d: JsString, rest: JsString)
    requires (forall i :: 0 <= i < |d| ==> IsDigit(d[i])) && (rest == [] || !IsDigit(rest[0]))
    ensures DigitRun(d + rest) == |d|
    decreases |d|
  {
    if d == [] {
      assert d + rest == rest;
    } else {
      assert (d + rest)[1..] == d[1..] + rest;
      RunIs(d[1..], rest);
    }
  }

  lemma NatReadsBack(n: nat, rest: JsString)
    requires rest == [] || !IsDigit(rest[0])
    ensures ParseNat(Digits(n) + rest) == Some(Parsed(n, rest))
  {
    var d := Digits(n);
    DigitsReadBack(n);
    RunIs(d, rest);
    assert (d + rest)[..|d|] == d && (d + rest)[|d|..] == rest;
  }

  /** What may follow a value: nothing, a comma or a closing bracket. */
  predicate Ends(rest: JsString) {
    rest == [] || rest[0] == COMMA || rest[0] == CLOSE_BRACKET || rest[0] == CLOSE_BRACE
  }

  lemma WordsReadBack(rest: JsString)
    ensures Parse(NULL_TEXT + rest) == Some(Parsed(JNull, rest))
    ensures Parse(TRUE_TEXT + rest) == Some(Parsed(JBool(true), rest))
    ensures Parse(FALSE_TEXT + rest) == Some(Parsed(JBool(false), rest))
  {
    assert (NULL_TEXT + rest)[..4] == NULL_TEXT && (NULL_TEXT + rest)[4..] == rest;
    assert (TRUE_TEXT + rest)[..4] == TRUE_TEXT && (TRUE_TEXT + rest)[4..] == rest;
    assert (FALSE_TEXT + rest)[..5] == FALSE_TEXT && (FALSE_TEXT + rest)[5..] == rest;
  }

  lemma NumberReadsBack(n: int, rest: JsString)
    requires Ends(rest)
    ensures Parse(Decimal(n) + rest) == Some(Parsed(JNum(n), rest))
  {
    hide ParseNat;
    if n < 0 {
      assert ([MINUS] + Digits(-n) + rest)[1..] == Digits(-n) + rest;
      NatReadsBack(-n, rest);
    } else {
      NatReadsBack(n, rest);
    }
  }

  lemma QuotedReadsBack(s: JsString, rest: JsString)
    ensures Parse(Quoted(s) + rest) == Some(Parsed(JStr(s), rest))
  {
    hide ParseString, Escape;
    assert (Quoted(s) + rest)[1..] == Escape(s) + [QUOTE] + rest;
    StringReadsBack(s, rest);
  }

  /** A canonical text never starts with a closing bracket or brace. */
  lemma FirstUnit(v: Value)
    ensures Canonicalize(v) != [] && Canonicalize(v)[0] != CLOSE_BRACKET && Canonicalize(v)[0] != CLOSE_BRACE
  {
  }

  lemma {:induction false} ReadsBack(v: Value, rest: JsString)
    requires WellFormed(v) && Ends(rest)
    ensures Parse(Canonicalize(v) + rest) == Some(Parsed(Data(v), rest))
    decreases v, 0
  {
    hide Parse, WellFormed;
    match v
    case Null => WordsReadBack(rest);
    case Bool(b) => WordsReadBack(rest);
    case Num(n) => NumberReadsBack(n, rest);
    case Str(s) => QuotedReadsBack(s, rest);
    case Arr(items) => ArrayReadsBack(v, rest);
    case Obj(fields) => ObjectReadsBack(v, rest);
  }

  lemma Brackets(body: JsString)
    ensures Parse([OPEN_BRACKET] + body) == ParseArray(body)
    ensures Parse([OPEN_BRACE] + body) == ParseObject(body)
  {
    hide ParseArray, ParseObject;
    assert ([OPEN_BRACKET] + body)[1..] == body && ([OPEN_BRACE] + body)[1..] == body;
  }

  lemma {:induction false} ArrayReadsBack(v: Value, rest: JsString)
    requires v.Arr? && WellFormed(v)
    ensures Parse(Canonicalize(v) + rest) == Some(Parsed(Data(v), rest))
    decreases v, 0, |v.items| + 1
  {
    hide ParseItems, Parse, WellFormed;
    var body := Items(v, v.items) + [CLOSE_BRACKET] + rest;
    assert Canonicalize(v) + rest == [OPEN_BRACKET] + body;
    Brackets(body);
    if v.items == [] {
      assert body == [CLOSE_BRACKET] + rest && body[1..] == rest;
    } else {
      ItemsReadBack(v, v.items, rest);
      FirstUnit(v.items[0]);
    }
  }

  lemma {:induction false} ItemsReadBack(v: Value, items: seq<Value>, rest: JsString)
    requires v.Arr? && WellFormed(v) && items != [] && forall x :: x in items ==> x in v.items
    ensures ParseItems(Items(v, items) + [CLOSE_BRACKET] + rest) == Some(Parsed(ItemsData(v, items), rest))
    decreases v, 0, |items|
  {
    hide Parse;
    assert items[0] in v.items;
    var text := Items(v, items) + [CLOSE_BRACKET] + rest;
    if |items| == 1 {
      var after := [CLOSE_BRACKET] + rest;
      assert text == Canonicalize(items[0]) + after && after[1..] == rest;
      ReadsBack(items[0], after);
      assert ItemsData(v, items) == [Data(items[0])] + ItemsData(v, items[1..]) == [Data(items[0])];
    } else {
      var more := Items(v, items[1..]) + [CLOSE_BRACKET] + rest;
      var after := [COMMA] + more;
      assert text == Canonicalize(items[0]) + after && after[1..] == more;
      ReadsBack(items[0], after);
      ItemsReadBack(v, items[1..], rest);
    }
  }

  lemma SortedData(v: Value)
    requires v.Obj? && DistinctKeys(v.fields)
    ensures (forall f :: f in Sorted(v.fields) ==> f in v.fields) && (Sorted(v.fields) == [] <==> v.fields == [])
    ensures FieldsData(v, Sorted(v.fields)) == FieldsData(v, v.fields)
  {
    SortedMembers(v.fields);
    SortedIncreasing(v.fields);
    IncreasingDistinct(Sorted(v.fields));
    SameData(v, Sorted(v.fields));
    assert |Sorted(v.fields)| == |multiset(Sorted(v.fields))| == |multiset(v.fields)|;
  }

  lemma ObjectText(v: Value, rest: JsString)
    requires v.Obj? && forall f :: f in Sorted(v.fields) ==> f in v.fields
    ensures Canonicalize(v) + rest == [OPEN_BRACE] + (Members(v, Sorted(v.fields)) + [CLOSE_BRACE] + rest)
  {
    hide Members, Sorted;
  }

  lemma {:induction false} ObjectReadsBack(v: Value, rest: JsString)
    requires v.Obj? && WellFormed(v)
    ensures Parse(Canonicalize(v) + rest) == Some(Parsed(Data(v), rest))
    decreases v, 0, |v.fields| + 2
  {
    assert DistinctKeys(v.fields);
    hide ParseObject, Parse, WellFormed, DistinctKeys, FieldsData, Sorted, Members, Canonicalize;
    SortedData(v);
    ObjectText(v, rest);
    Brackets(Members(v, Sorted(v.fields)) + [CLOSE_BRACE] + rest);
    assert |Sorted(v.fields)| == |multiset(Sorted(v.fields))| == |multiset(v.fields)|;
    BodyReadsBack(v, Sorted(v.fields), rest);
  }

  lemma {:induction false} BodyReadsBack(v: Value, fs: seq<Field>, rest: JsString)
    requires v.Obj? && WellFormed(v) && forall f :: f in fs ==> f in v.fields
    ensures ParseObject(Members(v, fs) + [CLOSE_BRACE] + rest) == Some(Parsed(JObj(FieldsData(v, fs)), rest))
    decreases v, 0, |fs| + 1
  {
    hide ParseMembers, WellFormed, FieldsData, Members;
    if fs == [] {
      NoMembers(v, rest);
    } else {
      MembersReadBack(v, fs, rest);
      MembersStart(v, fs);
    }
  }

  lemma NoMembers(v: Value, rest: JsString)
    requires v.Obj?
    ensures var body := Members(v, []) + [CLOSE_BRACE] + rest;
      body != [] && body[0] == CLOSE_BRACE && body[1..] == rest && FieldsData(v, []) == map[]
  {
  }

  lemma MembersStart(v: Value, fs: seq<Field>)
    requires v.Obj? && fs != [] && forall f :: f in fs ==> f in v.fields
    ensures Members(v, fs) != [] && Members(v, fs)[0] == QUOTE
  {
  }

  lemma IncreasingDistinct(fs: seq<Field>)
    requires Increasing(fs)
    ensures DistinctKeys(fs)
  {
    forall i, j | 0 <= i < j < |fs|
      ensures fs[i].key != fs[j].key
    {
      BeforeIff(fs[i].key, fs[j].key);
      BeforeIsTotal(fs[i].key, fs[j].key);
    }
  }

  /** The order of the fields does not matter to the data. */
  lemma SameData(v: Value, fs: seq<Field>)
    requires v.Obj? && (forall f :: f in fs <==> f in v.fields) && DistinctKeys(fs) && DistinctKeys(v.fields)
    ensures FieldsData(v, fs) == FieldsData(v, v.fields)
  {
    FieldsDataHas(v, fs);
    FieldsDataHas(v, v.fields);
  }

  lemma MemberText(v: Value, f: Field, rest: JsString)
    requires v.Obj? && f in v.fields
    ensures Member(v, f) + rest == [QUOTE] + (Escape(f.key) + [QUOTE] + ([COLON] + (Canonicalize(f.value) + rest)))
  {
    hide Escape, Canonicalize;
  }

  lemma {:induction false} MemberReadsBack(v: Value, f: Field, rest: JsString)
    requires v.Obj? && WellFormed(v) && f in v.fields && Ends(rest)
    ensures ParseMember(Member(v, f) + rest) == Some(Parsed((f.key, Data(f.value)), rest))
    decreases v, 0, 0
  {
    hide Parse, ParseString, Member, Escape, Canonicalize;
    MemberText(v, f, rest);
    var after := [COLON] + (Canonicalize(f.value) + rest);
    var body := Escape(f.key) + [QUOTE] + after;
    assert ([QUOTE] + body)[1..] == body && after[1..] == Canonicalize(f.value) + rest;
    StringReadsBack(f.key, after);
    ReadsBack(f.value, rest);
  }

  lemma {:induction false} MembersReadBack(v: Value, fs: seq<Field>, rest: JsString)
    requires v.Obj? && WellFormed(v) && fs != [] && forall f :: f in fs ==> f in v.fields
    ensures ParseMembers(Members(v, fs) + [CLOSE_BRACE] + rest) == Some(Parsed(FieldsData(v, fs), rest))
    decreases v, 0, |fs|
  {
    hide ParseMember, Member;
    assert fs[0] in v.fields;
    var text := Members(v, fs) + [CLOSE_BRACE] + rest;
    if |fs| == 1 {
      var after := [CLOSE_BRACE] + rest;
      assert text == Member(v, fs[0]) + after && after[1..] == rest;
      MemberReadsBack(v, fs[0], after);
      assert FieldsData(v, fs) == map[fs[0].key := Data(fs[0].value)];
    } else {
      var more := Members(v, fs[1..]) + [CLOSE_BRACE] + rest;
      var after := [COMMA] + more;
      assert text == Member(v, fs[0]) + after && after[1..] == more;
      MemberReadsBack(v, fs[0], after);
      MembersReadBack(v, fs[1..], rest);
    }
  }

  // ---------- Same text, same data ----------

  lemma {:induction false} SameDataSameText(v: Value, w: Value)
    requires WellFormed(v) && WellFormed(w) && Data(v) == Data(w)
    ensures Canonicalize(v) == Canonicalize(w)
    decreases v, 0
  {
    match v
    case Arr(items) => SameItems(v, items, w, w.items);
    case Obj(fields) =>
      assert DistinctKeys(v.fields) && DistinctKeys(w.fields);
      SortedData(v);
      SortedData(w);
      SortedIncreasing(v.fields);
      SortedIncreasing(w.fields);
      SameMembers(v, Sorted(fields), w, Sorted(w.fields));
    case _ =>
  }

  lemma {:induction false} SameItems(v: Value, items: seq<Value>, w: Value, others: seq<Value>)
    requires v.Arr? && w.Arr? && WellFormed(v) && WellFormed(w)
    requires (forall x :: x in items ==> x in v.items) && (forall x :: x in others ==> x in w.items)
    requires ItemsData(v, items) == ItemsData(w, others)
    ensures Items(v, items) == Items(w, others)
    decreases v, 0, |items|
  {
    hide Canonicalize, Data;
    assert |items| == |ItemsData(v, items)| == |others|;
    if items != [] {
      assert items[0] in v.items && others[0] in w.items;
      assert ItemsData(v, items)[0] == Data(items[0]) && ItemsData(w, others)[0] == Data(others[0]);
      assert ItemsData(v, items)[1..] == ItemsData(v, items[1..]) && ItemsData(w, others)[1..] == ItemsData(w, others[1..]);
      SameDataSameText(items[0], others[0]);
      SameItems(v, items[1..], w, others[1..]);
    }
  }

  lemma Smallest(v: Value, fs: seq<Field>, k: JsString)
    requires v.Obj? && (forall f :: f in fs ==> f in v.fields) && Increasing(fs) && k in FieldsData(v, fs)
    ensures fs != [] && (k == fs[0].key || Before(fs[0].key, k)) && fs[0].key in FieldsData(v, fs)
  {
    IncreasingDistinct(fs);
    FieldsDataHas(v, fs);
    var f :| f in fs && f.key == k;
    var i :| 0 <= i < |fs| && fs[i] == f;
    BeforeIff(fs[0].key, k);
  }

  lemma PutThenDrop(m: map<JsString, Json>, k: JsString, d: Json)
    requires k !in m
    ensures m[k := d] - {k} == m
  {
  }

  lemma {:induction false} NotAmong(v: Value, fs: seq<Field>, k: JsString)
    requires v.Obj? && forall f :: f in fs ==> f in v.fields && f.key != k
    ensures k !in FieldsData(v, fs)
    decreases |fs|
  {
    hide Data;
    if fs != [] {
      NotAmong(v, fs[1..], k);
    }
  }

  lemma FieldsDataTail(v: Value, fs: seq<Field>)
    requires v.Obj? && (forall f :: f in fs ==> f in v.fields) && DistinctKeys(fs) && fs != []
    ensures fs[0] in v.fields && fs[0].key in FieldsData(v, fs) && FieldsData(v, fs)[fs[0].key] == Data(fs[0].value)
    ensures FieldsData(v, fs[1..]) == FieldsData(v, fs) - {fs[0].key}
  {
    hide Data;
    assert fs[0] in v.fields;
    NotAmong(v, fs[1..], fs[0].key);
    PutThenDrop(FieldsData(v, fs[1..]), fs[0].key, Data(fs[0].value));
  }

  lemma {:induction false} SameMembers(v: Value, fs: seq<Field>, w: Value, gs: seq<Field>)
    requires v.Obj? && w.Obj? && WellFormed(v) && WellFormed(w) && Increasing(fs) && Increasing(gs)
    requires (forall f :: f in fs ==> f in v.fields) && (forall g :: g in gs ==> g in w.fields)
    requires FieldsData(v, fs) == FieldsData(w, gs)
    ensures Members(v, fs) == Members(w, gs)
    decreases v, 0, |fs|
  {
    hide Canonicalize, Data, FieldsData, Quoted;
    IncreasingDistinct(fs);
    IncreasingDistinct(gs);
    if fs == [] || gs == [] {
      BothEmpty(v, fs, w, gs);
    } else {
      FieldsDataTail(v, fs);
      FieldsDataTail(w, gs);
      Smallest(v, fs, gs[0].key);
      Smallest(w, gs, fs[0].key);
      BeforeIsTotal(fs[0].key, gs[0].key);
      SameDataSameText(fs[0].value, gs[0].value);
      SameMembers(v, fs[1..], w, gs[1..]);
      assert Member(v, fs[0]) == Member(w, gs[0]);
      SameLength(v, fs, w, gs);
    }
  }

  lemma BothEmpty(v: Value, fs: seq<Field>, w: Value, gs: seq<Field>)
    requires v.Obj? && w.Obj? && (fs == [] || gs == [])
    requires (forall f :: f in fs ==> f in v.fields) && (forall g :: g in gs ==> g in w.fields)
    requires FieldsData(v, fs) == FieldsData(w, gs)
    ensures fs == [] && gs == []
  {
    if fs != [] {
      HasFields(v, fs);
    }
    if gs != [] {
      HasFields(w, gs);
    }
  }

  lemma HasFields(v: Value, fs: seq<Field>)
    requires v.Obj? && fs != [] && forall f :: f in fs ==> f in v.fields
    ensures FieldsData(v, fs) != map[]
  {
    assert fs[0].key in FieldsData(v, fs);
  }

  lemma SameLength(v: Value, fs: seq<Field>, w: Value, gs: seq<Field>)
    requires v.Obj? && w.Obj? && fs != [] && gs != []
    requires (forall f :: f in fs ==> f in v.fields) && (forall g :: g in gs ==> g in w.fields)
    requires FieldsData(v, fs[1..]) == FieldsData(w, gs[1..])
    ensures |fs| == 1 <==> |gs| == 1
  {
    if fs[1..] == [] || gs[1..] == [] {
      BothEmpty(v, fs[1..], w, gs[1..]);
    }
  }

  /** The signed text determines the data and nothing but the data: the order in which keys were inserted never shows. */
  lemma SameTextIffSameData(v: Value, w: Value)
    requires WellFormed(v) && WellFormed(w)
    ensures Canonicalize(v) == Canonicalize(w) <==> Data(v) == Data(w)
  {
    hide Parse, Canonicalize, Data;
    ReadsBack(v, []);
    ReadsBack(w, []);
    assert Canonicalize(v) + [] == Canonicalize(v) && Canonicalize(w) + [] == Canonicalize(w);
    if Data(v) == Data(w) {
      SameDataSameText(v, w);
    }
  }

  // ---------- The text survives UTF-8 ----------

  /** Every surrogate is half of a pair, so encoding to UTF-8 replaces nothing. */
  predicate WellFormedText(s: JsString) {
    if s == [] then true
    else if StartsPair(s) then WellFormedText(s[2..])
    else !IsHigh(s[0]) && !IsLow(s[0]) && WellFormedText(s[1..])
  }

  lemma {:induction false} TextsJoin(a: JsString, b: JsString)
    requires WellFormedText(a) && WellFormedText(b)
    ensures WellFormedText(a + b)
    decreases |a|
  {
    if a == [] {
      assert a + b == b;
    } else if StartsPair(a) {
      assert (a + b)[2..] == a[2..] + b;
      TextsJoin(a[2..], b);
    } else {
      assert (a + b)[1..] == a[1..] + b;
      TextsJoin(a[1..], b);
    }
  }

  predicate Plain(s: JsString) {
    forall i :: 0 <= i < |s| ==> !IsHigh(s[i]) && !IsLow(s[i])
  }

  lemma {:induction false} PlainIsWellFormed(s: JsString)
    requires Plain(s)
    ensures WellFormedText(s)
    decreases |s|
  {
    if s != [] {
      PlainIsWellFormed(s[1..]);
    }
  }

  lemma {:induction false} EscapeIsWellFormed(s: JsString)
    ensures WellFormedText(Escape(s))
    decreases |s|
  {
    if s != [] && StartsPair(s) {
      EscapeIsWellFormed(s[2..]);
      var t := Escape(s);
      assert t[2..] == Escape(s[2..]) && StartsPair(t);
    } else if s != [] {
      EscapeIsWellFormed(s[1..]);
      PlainIsWellFormed(EscapeOne(s[0]));
      TextsJoin(EscapeOne(s[0]), Escape(s[1..]));
    }
  }

  lemma QuotedIsWellFormed(s: JsString)
    ensures WellFormedText(Quoted(s))
  {
    EscapeIsWellFormed(s);
    PlainIsWellFormed([QUOTE]);
    TextsJoin([QUOTE], Escape(s));
    TextsJoin([QUOTE] + Escape(s), [QUOTE]);
  }

  lemma Wrapped(open: CodeUnit, body: JsString, close: CodeUnit)
    requires WellFormedText(body) && Plain([open, close])
    ensures WellFormedText([open] + body + [close])
  {
    assert Plain([open]) && Plain([close]) by {
      assert [open, close][0] == open && [open, close][1] == close;
    }
    PlainIsWellFormed([open]);
    PlainIsWellFormed([close]);
    TextsJoin([open], body);
    TextsJoin([open] + body, [close]);
  }

  lemma Linked(a: JsString, link: CodeUnit, b: JsString)
    requires WellFormedText(a) && WellFormedText(b) && Plain([link])
    ensures WellFormedText(a + [link] + b)
  {
    PlainIsWellFormed([link]);
    TextsJoin(a, [link]);
    TextsJoin(a + [link], b);
  }

  /** The signed bytes are the UTF-8 form of a well-formed text, so they determine it. */
  lemma {:induction false} TextIsWellFormed(v: Value)
    ensures WellFormedText(Canonicalize(v))
    decreases v, 0
  {
    hide WellFormedText;
    match v
    case Null => PlainIsWellFormed(NULL_TEXT);
    case Bool(b) =>
      PlainIsWellFormed(TRUE_TEXT);
      PlainIsWellFormed(FALSE_TEXT);
    case Num(n) => PlainIsWellFormed(Decimal(n));
    case Str(s) => QuotedIsWellFormed(s);
    case Arr(items) =>
      ItemsAreWellFormed(v, items);
      Wrapped(OPEN_BRACKET, Items(v, items), CLOSE_BRACKET);
    case Obj(fields) =>
      SortedMembers(fields);
      MembersAreWellFormed(v, Sorted(fields));
      Wrapped(OPEN_BRACE, Members(v, Sorted(fields)), CLOSE_BRACE);
  }

  lemma {:induction false} ItemsAreWellFormed(v: Value, items: seq<Value>)
    requires v.Arr? && forall x :: x in items ==> x in v.items
    ensures WellFormedText(Items(v, items))
    decreases v, 0, |items|
  {
    hide Canonicalize;
    if items != [] {
      assert items[0] in v.items;
      TextIsWellFormed(items[0]);
      ItemsAreWellFormed(v, items[1..]);
      Linked(Canonicalize(items[0]), COMMA, Items(v, items[1..]));
    }
  }

  lemma {:induction false} MembersAreWellFormed(v: Value, fs: seq<Field>)
    requires v.Obj? && forall f :: f in fs ==> f in v.fields
    ensures WellFormedText(Members(v, fs))
    decreases v, 0, |fs|
  {
    hide Canonicalize, WellFormedText;
    if fs == [] {
      PlainIsWellFormed([]);
    } else {
      assert fs[0] in v.fields;
      QuotedIsWellFormed(fs[0].key);
      TextIsWellFormed(fs[0].value);
      Linked(Quoted(fs[0].key), COLON, Canonicalize(fs[0].value));
      MembersAreWellFormed(v, fs[1..]);
      Linked(Member(v, fs[0]), COMMA, Members(v, fs[1..]));
    }
  }

  // ---------- How it is spelled ----------

  lemma Literals()
    ensures Canonicalize(Null) == Text("null") && Canonicalize(Bool(true)) == Text("true")
    ensures Canonicalize(Bool(false)) == Text("false")
    ensures Canonicalize(Num(0)) == Text("0") && Canonicalize(Num(-7)) == Text("-7") && Canonicalize(Num(10)) == Text("10")
  {
    assert Digits(10) == Digits(1) + [0x30];
  }

  /** JSON's short escapes; other characters but controls and lone surrogates stand for themselves. */
  lemma EscapesAre(c: CodeUnit)
    ensures EscapeOne('"' as int) == Text("\\\"") && EscapeOne('\\' as int) == Text("\\\\")
    ensures EscapeOne('\n' as int) == Text("\\n") && EscapeOne('\r' as int) == Text("\\r") && EscapeOne('\t' as int) == Text("\\t")
    ensures EscapeOne(8) == Text("\\b") && EscapeOne(12) == Text("\\f")
    ensures 0x20 <= c && c != '"' as int && c != '\\' as int && !(0xd800 <= c < 0xe000) ==> EscapeOne(c) == [c]
  {
  }

  lemma LongEscapes()
    ensures EscapeOne(0) == Text("\\u0000") && EscapeOne(0x1f) == Text("\\u001f") && EscapeOne(0xdabc) == Text("\\udabc")
  {
  }

  /** Two elements in brackets, with a comma between. */
  lemma PairText(x: Value, y: Value)
    ensures Canonicalize(Arr([x, y])) == Text("[") + Canonicalize(x) + Text(",") + Canonicalize(y) + Text("]")
  {
    var v := Arr([x, y]);
    ItemsText(v, x, y);
    assert Canonicalize(v) == [OPEN_BRACKET] + Items(v, [x, y]) + [CLOSE_BRACKET];
    assert Text("[") == [OPEN_BRACKET] && Text(",") == [COMMA] && Text("]") == [CLOSE_BRACKET];
    hide Canonicalize, Items;
  }

  lemma ItemsText(v: Value, x: Value, y: Value)
    requires v == Arr([x, y])
    ensures Items(v, [x, y]) == Canonicalize(x) + [COMMA] + Canonicalize(y)
  {
    hide Canonicalize;
    assert [x, y][1..] == [y];
  }

  lemma TwoSorted(f: Field, g: Field)
    requires PrecedesText(f.key, g.key)
    ensures Sorted([g, f]) == [f, g] && Sorted([f, g]) == [f, g]
  {
    BeforeIff(f.key, g.key);
    BeforeIff(g.key, f.key);
    BeforeIsTotal(f.key, g.key);
    hide Before, PrecedesText;
    assert [g, f][1..] == [f] && [f, g][1..] == [g] && [f][1..] == [] && [g][1..] == [];
    assert Sorted([]) == [] && Insert(f, []) == [f] + [] == [f] && Insert(g, []) == [g] + [] == [g];
    assert Sorted([f]) == [f] && Sorted([g]) == [g];
    assert Insert(g, [f]) == [f] + Insert(g, [f][1..]);
    assert Insert(f, [g]) == [f] + [g];
  }

  /** Two members in braces, the one whose key comes first in front, whatever the order of the fields. */
  lemma MembersText(k: JsString, x: Value, l: JsString, y: Value)
    requires PrecedesText(k, l)
    ensures Canonicalize(Obj([Field(l, y), Field(k, x)]))
      == Text("{") + Quoted(k) + Text(":") + Canonicalize(x) + Text(",") + Quoted(l) + Text(":") + Canonicalize(y) + Text("}")
  {
    var f, g := Field(k, x), Field(l, y);
    var v := Obj([g, f]);
    TwoSorted(f, g);
    SortedMembers(v.fields);
    assert [f, g][1..] == [g] && [f, g][0] == f && [g][0] == g && f in v.fields && g in v.fields;
    hide Sorted, PrecedesText, Quoted;
    assert Members(v, [g]) == Member(v, g) == Quoted(l) + [COLON] + Canonicalize(y);
    assert Member(v, f) == Quoted(k) + [COLON] + Canonicalize(x);
    assert Members(v, [f, g]) == Member(v, f) + [COMMA] + Members(v, [g]);
    assert Canonicalize(v) == [OPEN_BRACE] + Members(v, [f, g]) + [CLOSE_BRACE];
    assert Text("{") == [OPEN_BRACE] && Text(":") == [COLON] && Text(",") == [COMMA] && Text("}") == [CLOSE_BRACE];
    Flattened(Text("{"), Quoted(k), Text(":"), Canonicalize(x), Text(","), Quoted(l), Canonicalize(y), Text("}"));
  }

  lemma Flattened(open: JsString, k: JsString, colon: JsString, x: JsString, comma: JsString, l: JsString, y: JsString,
                  close: JsString)
    ensures open + ((k + colon + x) + comma + (l + colon + y)) + close == open + k + colon + x + comma + l + colon + y + close
  {
  }
}
