/** script-analyzer.js: the two comment strippers against character-level lexers, and line numbers. */
module ScriptComments {
  import opened Prelude

  const LF: CodeUnit := 10
  const CR: CodeUnit := 13
  const BLANK: CodeUnit := 32
  const DOUBLE: CodeUnit := '"' as int
  const SINGLE: CodeUnit := '\'' as int
  const ESCAPE: CodeUnit := '\\' as int
  const DASH: CodeUnit := '-' as int
  const OPEN: CodeUnit := '[' as int
  const CLOSE: CodeUnit := ']' as int
  const SLASH: CodeUnit := '/' as int
  const STAR: CodeUnit := '*' as int
  const AT: CodeUnit := '@' as int

  predicate IsNewline(c: CodeUnit) {
    c == LF || c == CR
  }

  // ---------- Lexers ----------

  datatype Mode = Code | Quoted(quote: CodeUnit) | Escaped(quote: CodeUnit) | Verbatim | LineComment | BlockComment

  /** The two characters at `i` are `x` and `y`. */
  predicate Pair(text: JsString, i: nat, x: CodeUnit, y: CodeUnit) {
    i + 1 < |text| && text[i] == x && text[i + 1] == y
  }

  /** A quoted string, one character at a time. */
  function QuotedStep(c: CodeUnit, mode: Mode): Mode
    requires mode.Quoted? || mode.Escaped?
  {
    if mode.Escaped? then Quoted(mode.quote)
    else if c == ESCAPE then Escaped(mode.quote)
    else if c == mode.quote then Code
    else mode
  }

  /**
   * The inside of a comment: how many of its characters come next, and the mode after them. A line comment ends in
   * front of its line feed. A block comment that is never closed ends in front of the last character of the text.
   */
  function CommentStep(text: JsString, i: nat, mode: Mode, x: CodeUnit, y: CodeUnit): (r: (nat, Mode))
    requires i < |text| && (mode.LineComment? || mode.BlockComment?)
    ensures i + r.0 <= |text| && r.0 <= 2 && (r.0 == 0 ==> r.1 == Code)
  {
    if mode.LineComment? then if text[i] == LF then (0, Code) else (1, LineComment)
    else if Pair(text, i, x, y) then (2, Code)
    else if i + 1 < |text| then (1, BlockComment)
    else (0, Code)
  }

  /** Characters of `text` from `i` on that belong to a Lua comment, delimiters included. */
  function LuaMask(text: JsString, i: nat, mode: Mode): (m: seq<bool>)
    requires i <= |text|
    ensures |m| == |text| - i
    decreases |text| - i
  {
    if i == |text| then []
    else if mode.Quoted? || mode.Escaped? then [false] + LuaMask(text, i + 1, QuotedStep(text[i], mode))
    else if mode.LineComment? || mode.BlockComment? then
      var (n, next) := CommentStep(text, i, mode, CLOSE, CLOSE);
      if n == 0 then [false] + LuaMask(text, i + 1, Code)
      else if n == 1 then [true] + LuaMask(text, i + 1, next)
      else [true, true] + LuaMask(text, i + 2, next)
    else if text[i] == DOUBLE || text[i] == SINGLE then [false] + LuaMask(text, i + 1, Quoted(text[i]))
    else if Pair(text, i, DASH, DASH) then
      if Pair(text, i + 2, OPEN, OPEN) then [true, true, true, true] + LuaMask(text, i + 4, BlockComment)
      else [true, true] + LuaMask(text, i + 2, LineComment)
    else [false] + LuaMask(text, i + 1, Code)
  }

  /** The same for C#, whose verbatim strings know no escapes except a doubled quote. */
  function CSharpMask(text: JsString, i: nat, mode: Mode): (m: seq<bool>)
    requires i <= |text|
    ensures |m| == |text| - i
    decreases |text| - i
  {
    if i == |text| then []
    else if mode.Verbatim? then
      if Pair(text, i, DOUBLE, DOUBLE) then [false, false] + CSharpMask(text, i + 2, Verbatim)
      else [false] + CSharpMask(text, i + 1, if text[i] == DOUBLE then Code else Verbatim)
    else if mode.Quoted? || mode.Escaped? then [false] + CSharpMask(text, i + 1, QuotedStep(text[i], mode))
    else if mode.LineComment? || mode.BlockComment? then
      var (n, next) := CommentStep(text, i, mode, STAR, SLASH);
      if n == 0 then [false] + CSharpMask(text, i + 1, Code)
      else if n == 1 then [true] + CSharpMask(text, i + 1, next)
      else [true, true] + CSharpMask(text, i + 2, next)
    else if Pair(text, i, AT, DOUBLE) then [false, false] + CSharpMask(text, i + 2, Verbatim)
    else if text[i] == DOUBLE || text[i] == SINGLE then [false] + CSharpMask(text, i + 1, Quoted(text[i]))
    else if Pair(text, i, SLASH, SLASH) then [true, true] + CSharpMask(text, i + 2, LineComment)
    else if Pair(text, i, SLASH, STAR) then [true, true] + CSharpMask(text, i + 2, BlockComment)
    else [false] + CSharpMask(text, i + 1, Code)
  }

  datatype Language = Lua | CSharp

  function Mask(language: Language, text: JsString, i: nat, mode: Mode): (m: seq<bool>)
    requires i <= |text|
    ensures |m| == |text| - i
  {
    if language == Lua then LuaMask(text, i, mode) else CSharpMask(text, i, mode)
  }

  function Blanked(c: CodeUnit, inComment: bool): CodeUnit {
    if inComment && !IsNewline(c) then BLANK else c
  }

  /** The text with its comments blanked, line breaks kept. */
  function Strip(language: Language, text: JsString): (r: JsString)
    ensures |r| == |text|
    ensures forall k :: 0 <= k < |text| ==> r[k] == Blanked(text[k], Mask(language, text, 0, Code)[k])
  {
    seq(|text|, k requires 0 <= k < |text| => Blanked(text[k], Mask(language, text, 0, Code)[k]))
  }

  // ---------- Block comments, closed or not ----------

  /** The opening characters of a block comment. */
  function Opening(language: Language): seq<CodeUnit> {
    if language == Lua then [DASH, DASH, OPEN, OPEN] else [SLASH, STAR]
  }

  /** The closing pair of a block comment. */
  function Closing(language: Language): (CodeUnit, CodeUnit) {
    if language == Lua then (CLOSE, CLOSE) else (STAR, SLASH)
  }

  predicate ClosesAt(language: Language, text: JsString, i: nat) {
    Pair(text, i, Closing(language).0, Closing(language).1)
  }

  /** The first closing pair from `i` on. */
  function NextClosing(language: Language, text: JsString, i: nat): (r: Option<nat>)
    requires i <= |text|
    ensures r.Some? ==> i <= r.value && ClosesAt(language, text, r.value)
    ensures forall k: nat :: i <= k < (if r.Some? then r.value else |text|) ==> !ClosesAt(language, text, k)
    decreases |text| - i
  {
    if i == |text| then None else if ClosesAt(language, text, i) then Some(i) else NextClosing(language, text, i + 1)
  }

  /** One character of a block comment, as the lexer of either language reads it. */
  lemma BlockStep(language: Language, text: JsString, i: nat)
    requires i < |text|
    ensures Mask(language, text, i, BlockComment) ==
      if ClosesAt(language, text, i) then [true, true] + Mask(language, text, i + 2, Code)
      else if i + 1 < |text| then [true] + Mask(language, text, i + 1, BlockComment)
      else [false]
  {
  }

  /**
   * Inside a block comment every character through its closing pair is flagged, and then the lexer reads code; if the comment
   * is never closed, every character but the last of the text.
   */
  lemma {:induction false} BlockMask(language: Language, text: JsString, i: nat)
    requires i <= |text|
    ensures var m := Mask(language, text, i, BlockComment);
      match NextClosing(language, text, i)
      case Some(c) => m == seq(c + 2 - i, _ => true) + Mask(language, text, c + 2, Code)
      case None => forall k :: 0 <= k < |m| ==> (m[k] <==> k < |m| - 1)
    decreases |text| - i
  {
    hide LuaMask, CSharpMask, Mask;
    if i < |text| {
      BlockStep(language, text, i);
      if !ClosesAt(language, text, i) {
        BlockMask(language, text, i + 1);
      }
      var c := NextClosing(language, text, i);
      if c.Some? && c.value > i {
        assert seq(c.value + 2 - i, _ => true) == [true] + seq(c.value + 2 - (i + 1), _ => true);
      } else if c.Some? {
        assert seq(2, _ => true) == [true, true];
      }
    }
  }

  /** The lexer reads code at `o`, where a block comment opens. */
  ghost predicate OpensAt(language: Language, text: JsString, o: nat) {
    && o + |Opening(language)| <= |text| && text[o..o + |Opening(language)|] == Opening(language)
    && CodeAt(language, text, o)
  }

  lemma OpeningMask(language: Language, text: JsString, o: nat)
    requires OpensAt(language, text, o)
    ensures var n := |Opening(language)|;
      Mask(language, text, o, Code) == seq(n, _ => true) + Mask(language, text, o + n, BlockComment)
  {
    var n := |Opening(language)|;
    assert text[o] == text[o..o + n][0] && text[o + 1] == text[o..o + n][1];
    if language == Lua {
      assert text[o + 2] == text[o..o + n][2] && text[o + 3] == text[o..o + n][3];
      assert seq(4, _ => true) == [true, true, true, true];
    } else {
      assert seq(2, _ => true) == [true, true];
    }
  }

  predicate IsBlank(c: CodeUnit) {
    c == BLANK || IsNewline(c)
  }

  /** Behind the block comment that opens at `o`: its closing pair, or the end of the text. */
  function CommentEnd(language: Language, text: JsString, o: nat): (e: nat)
    requires o + |Opening(language)| <= |text|
    ensures o + |Opening(language)| <= e <= |text|
  {
    match NextClosing(language, text, o + |Opening(language)|)
    case Some(c) => c + 2
    case None => |text|
  }

  /** The last character of an unclosed block comment with anything in it. */
  predicate Escapes(language: Language, text: JsString, o: nat, k: nat)
    requires o + |Opening(language)| <= |text|
  {
    k == |text| - 1 && o + |Opening(language)| < |text| && NextClosing(language, text, o + |Opening(language)|).None?
  }

  lemma CommentMask(language: Language, text: JsString, o: nat, k: nat)
    requires OpensAt(language, text, o) && o <= k < CommentEnd(language, text, o)
    ensures Mask(language, text, 0, Code)[k] <==> !Escapes(language, text, o, k)
  {
    hide Mask, NextClosing;
    OpeningMask(language, text, o);
    BlockMask(language, text, o + |Opening(language)|);
    assert Mask(language, text, 0, Code)[k] == Mask(language, text, 0, Code)[o..][k - o];
  }

  /** The characters of a block comment that is closed, or not, in the stripped text. */
  lemma StrippedComment(language: Language, text: JsString, o: nat, k: nat)
    requires OpensAt(language, text, o) && o <= k < CommentEnd(language, text, o)
    ensures var r := Strip(language, text);
      if Escapes(language, text, o, k) then r[k] == text[k] else IsBlank(r[k])
  {
    hide Mask, NextClosing;
    CommentMask(language, text, o, k);
  }

  /**
   * A block comment is wholly blanked exactly when it is closed, or is nothing but its opening, or ends in a character that is
   * blank anyway.
   */
  lemma CommentIsBlankedIff(language: Language, text: JsString, o: nat)
    requires OpensAt(language, text, o)
    ensures var body := o + |Opening(language)|;
      (forall k :: o <= k < CommentEnd(language, text, o) ==> IsBlank(Strip(language, text)[k])) <==>
        NextClosing(language, text, body).Some? || body == |text| || IsBlank(text[|text| - 1])
  {
    assert o + |Opening(language)| <= |text| && |Opening(language)| > 0;
    hide Mask, Strip, NextClosing, OpensAt;
    var r, last := Strip(language, text), |text| - 1;
    forall k | o <= k < CommentEnd(language, text, o)
      ensures if Escapes(language, text, o, k) then r[k] == text[k] else IsBlank(r[k])
    {
      StrippedComment(language, text, o, k);
    }
    if Escapes(language, text, o, last) {
      assert IsBlank(r[last]) <==> IsBlank(text[last]);
    }
  }

  /** A text that opens a block comment and does not close it: what is left of it is its last character. */
  lemma UnclosedBlockKeepsLast(language: Language, text: JsString)
    requires Opening(language) < text && NextClosing(language, text, |Opening(language)|).None?
    ensures var r := Strip(language, text);
      r[|text| - 1] == text[|text| - 1] && forall k :: 0 <= k < |text| - 1 ==> IsBlank(r[k])
  {
    hide Mask, Strip, NextClosing;
    assert OpensAt(language, text, 0);
    forall k | 0 <= k < |text|
      ensures if Escapes(language, text, 0, k) then Strip(language, text)[k] == text[k] else IsBlank(Strip(language, text)[k])
    {
      StrippedComment(language, text, 0, k);
    }
  }

  // ---------- Strings and line comments ----------

  /** The lexer reads code at `o`. */
  ghost predicate CodeAt(language: Language, text: JsString, o: nat) {
    o <= |text| && Mask(language, text, 0, Code)[o..] == Mask(language, text, o, Code)
  }

  /** The inside of a string literal: any characters but the quote and the backslash, and pairs of a backslash and anything. */
  predicate StringBody(body: JsString, quote: CodeUnit) {
    || body == []
    || (body[0] == ESCAPE && |body| >= 2 && StringBody(body[2..], quote))
    || (body[0] != ESCAPE && body[0] != quote && StringBody(body[1..], quote))
  }

  /** One character of a string literal, as the lexer of either language reads it. */
  lemma StringStep(language: Language, text: JsString, i: nat, quote: CodeUnit)
    requires i < |text|
    ensures text[i] == quote && quote != ESCAPE ==>
      Mask(language, text, i, Quoted(quote)) == [false] + Mask(language, text, i + 1, Code)
    ensures text[i] != quote && text[i] != ESCAPE ==>
      Mask(language, text, i, Quoted(quote)) == [false] + Mask(language, text, i + 1, Quoted(quote))
    ensures text[i] == ESCAPE && i + 1 < |text| ==>
      Mask(language, text, i, Quoted(quote)) == [false] + ([false] + Mask(language, text, i + 2, Quoted(quote)))
  {
    if text[i] == ESCAPE && i + 1 < |text| {
      assert Mask(language, text, i, Quoted(quote)) == [false] + Mask(language, text, i + 1, Escaped(quote));
      assert Mask(language, text, i + 1, Escaped(quote)) == [false] + Mask(language, text, i + 2, Quoted(quote));
    }
  }

  lemma Unflagged(n: nat, rest: seq<bool>)
    ensures [false] + (seq(n, _ => false) + rest) == seq(n + 1, _ => false) + rest
  {
  }

  /** The lexer passes over a string literal to its closing quote, and an escaped quote is not that. */
  lemma {:induction false} StringMask(language: Language, text: JsString, i: nat, body: JsString, quote: CodeUnit)
    requires quote != ESCAPE && StringBody(body, quote)
    requires i + |body| < |text| && text[i..i + |body|] == body && text[i + |body|] == quote
    ensures Mask(language, text, i, Quoted(quote)) == seq(|body| + 1, _ => false) + Mask(language, text, i + |body| + 1, Code)
    decreases |body|
  {
    hide Mask, LuaMask, CSharpMask;
    StringStep(language, text, i, quote);
    var rest := Mask(language, text, i + |body| + 1, Code);
    if body == [] {
      assert seq(1, _ => false) == [false];
    } else {
      assert text[i] == text[i..i + |body|][0];
      if body[0] == ESCAPE {
        assert body[2..] == text[i + 2..i + |body|];
        StringMask(language, text, i + 2, body[2..], quote);
        Unflagged(|body| - 1, rest);
        Unflagged(|body|, rest);
      } else {
        assert body[1..] == text[i + 1..i + |body|];
        StringMask(language, text, i + 1, body[1..], quote);
        Unflagged(|body|, rest);
      }
    }
  }

  /** The lexer leaves what it passes over without a flag, and goes on with code behind it. */
  lemma PassedOver(language: Language, text: JsString, o: nat, n: nat)
    requires CodeAt(language, text, o) && o + n <= |text|
    requires Mask(language, text, o, Code) == seq(n, _ => false) + Mask(language, text, o + n, Code)
    ensures Strip(language, text)[o..o + n] == text[o..o + n] && CodeAt(language, text, o + n)
  {
    hide LuaMask, CSharpMask;
    var all := Mask(language, text, 0, Code);
    assert all[o + n..] == all[o..][n..];
    forall k | o <= k < o + n
      ensures Strip(language, text)[k] == text[k]
    {
      assert all[k] == all[o..][k - o];
    }
  }

  /** A string literal is kept as it is, comment markers and escaped quotes inside it included, and code goes on behind it. */
  lemma StringIsKept(language: Language, text: JsString, o: nat, body: JsString, quote: CodeUnit)
    requires CodeAt(language, text, o) && (quote == DOUBLE || quote == SINGLE) && StringBody(body, quote)
    requires o + |body| + 2 <= |text|
    requires text[o] == quote && text[o + 1..o + 1 + |body|] == body && text[o + 1 + |body|] == quote
    ensures Strip(language, text)[o..o + |body| + 2] == text[o..o + |body| + 2]
    ensures CodeAt(language, text, o + |body| + 2)
  {
    hide Mask, LuaMask, CSharpMask, Strip, CodeAt, StringBody;
    StringStarts(language, text, o);
    StringMask(language, text, o + 1, body, quote);
    Unflagged(|body| + 1, Mask(language, text, o + |body| + 2, Code));
    PassedOver(language, text, o, |body| + 2);
  }

  lemma StringStarts(language: Language, text: JsString, o: nat)
    requires o < |text| && (text[o] == DOUBLE || text[o] == SINGLE)
    ensures Mask(language, text, o, Code) == [false] + Mask(language, text, o + 1, Quoted(text[o]))
  {
  }

  /** The inside of a C# verbatim string: any characters but the quote, and doubled quotes. */
  predicate VerbatimBody(body: JsString) {
    || body == []
    || (body[0] == DOUBLE && |body| >= 2 && body[1] == DOUBLE && VerbatimBody(body[2..]))
    || (body[0] != DOUBLE && VerbatimBody(body[1..]))
  }

  lemma VerbatimStep(text: JsString, i: nat)
    requires i < |text|
    ensures Pair(text, i, DOUBLE, DOUBLE) ==>
      Mask(CSharp, text, i, Verbatim) == [false] + ([false] + Mask(CSharp, text, i + 2, Verbatim))
    ensures !Pair(text, i, DOUBLE, DOUBLE) ==>
      Mask(CSharp, text, i, Verbatim) == [false] + Mask(CSharp, text, i + 1, if text[i] == DOUBLE then Code else Verbatim)
  {
  }

  lemma {:induction false} VerbatimMask(text: JsString, i: nat, body: JsString)
    requires VerbatimBody(body) && i + |body| < |text| && text[i..i + |body|] == body
    requires text[i + |body|] == DOUBLE && !Pair(text, i + |body|, DOUBLE, DOUBLE)
    ensures Mask(CSharp, text, i, Verbatim) == seq(|body| + 1, _ => false) + Mask(CSharp, text, i + |body| + 1, Code)
    decreases |body|
  {
    hide Mask, LuaMask, CSharpMask;
    VerbatimStep(text, i);
    var rest := Mask(CSharp, text, i + |body| + 1, Code);
    if body == [] {
      assert seq(1, _ => false) == [false];
    } else {
      assert text[i] == text[i..i + |body|][0];
      if body[0] == DOUBLE {
        assert text[i + 1] == text[i..i + |body|][1];
        assert body[2..] == text[i + 2..i + |body|];
        VerbatimMask(text, i + 2, body[2..]);
        Unflagged(|body| - 1, rest);
        Unflagged(|body|, rest);
      } else {
        assert body[1..] == text[i + 1..i + |body|];
        VerbatimMask(text, i + 1, body[1..]);
        Unflagged(|body|, rest);
      }
    }
  }

  /** A verbatim string is kept as it is; a backslash escapes nothing in it, and a doubled quote does not end it. */
  lemma VerbatimIsKept(text: JsString, o: nat, body: JsString)
    requires CodeAt(CSharp, text, o) && VerbatimBody(body) && o + |body| + 3 <= |text|
    requires Pair(text, o, AT, DOUBLE) && text[o + 2..o + 2 + |body|] == body
    requires text[o + 2 + |body|] == DOUBLE && !Pair(text, o + 2 + |body|, DOUBLE, DOUBLE)
    ensures Strip(CSharp, text)[o..o + |body| + 3] == text[o..o + |body| + 3]
    ensures CodeAt(CSharp, text, o + |body| + 3)
  {
    hide Mask, LuaMask, CSharpMask, Strip, CodeAt, VerbatimBody;
    VerbatimStarts(text, o);
    VerbatimMask(text, o + 2, body);
    Unflagged(|body| + 1, Mask(CSharp, text, o + |body| + 3, Code));
    Unflagged(|body| + 2, Mask(CSharp, text, o + |body| + 3, Code));
    PassedOver(CSharp, text, o, |body| + 3);
  }

  lemma VerbatimStarts(text: JsString, o: nat)
    requires Pair(text, o, AT, DOUBLE)
    ensures Mask(CSharp, text, o, Code) == [false] + ([false] + Mask(CSharp, text, o + 2, Verbatim))
  {
  }

  /** The two characters that start a line comment. */
  predicate StartsLine(language: Language, text: JsString, o: nat) {
    if language == Lua then Pair(text, o, DASH, DASH) && !Pair(text, o + 2, OPEN, OPEN) else Pair(text, o, SLASH, SLASH)
  }

  lemma LineStep(language: Language, text: JsString, i: nat)
    requires i < |text| && text[i] != LF
    ensures Mask(language, text, i, LineComment) == [true] + Mask(language, text, i + 1, LineComment)
  {
  }

  lemma {:induction false} LineMask(language: Language, text: JsString, i: nat, e: nat)
    requires i <= e <= |text| && (forall k :: i <= k < e ==> text[k] != LF) && (e < |text| ==> text[e] == LF)
    ensures Mask(language, text, i, LineComment) == seq(e - i, _ => true) + Mask(language, text, e, Code)
    decreases e - i
  {
    hide Mask, LuaMask, CSharpMask;
    if i == e {
      LineCommentOver(language, text, i);
    } else {
      LineStep(language, text, i);
      LineMask(language, text, i + 1, e);
      assert seq(e - i, _ => true) == [true] + seq(e - (i + 1), _ => true);
    }
  }

  lemma LineCommentStarts(language: Language, text: JsString, o: nat)
    requires o < |text| && StartsLine(language, text, o)
    ensures o + 2 <= |text|
    ensures Mask(language, text, o, Code) == [true, true] + Mask(language, text, o + 2, LineComment)
  {
  }

  /** A line comment is blanked up to its line feed or the end of the text, and code goes on from there. */
  lemma LineIsBlanked(language: Language, text: JsString, o: nat, e: nat)
    requires CodeAt(language, text, o) && o < |text| && StartsLine(language, text, o)
    requires o + 2 <= e <= |text| && (forall k :: o + 2 <= k < e ==> text[k] != LF) && (e < |text| ==> text[e] == LF)
    ensures (forall k :: o <= k < e ==> IsBlank(Strip(language, text)[k])) && CodeAt(language, text, e)
  {
    LineCommentStarts(language, text, o);
    LineMask(language, text, o + 2, e);
    hide LuaMask, CSharpMask, StartsLine;
    var all := Mask(language, text, 0, Code);
    var flags := seq(e - o, _ => true);
    assert [true, true] + seq(e - o - 2, _ => true) == flags;
    assert all[o..] == flags + Mask(language, text, e, Code);
    assert all[e..] == all[o..][e - o..];
    forall k | o <= k < e
      ensures IsBlank(Strip(language, text)[k])
    {
      assert all[k] == all[o..][k - o];
    }
  }

  // ---------- The strippers ----------

  /** `out` is final in front of `i` and still the text from `i` on, where the lexer is in `mode`. */
  ghost predicate StrippedTo(language: Language, text: JsString, out: seq<CodeUnit>, i: nat, mode: Mode) {
    && |out| == |text| && i <= |text|
    && Mask(language, text, 0, Code)[i..] == Mask(language, text, i, mode)
    && (forall k :: 0 <= k < i ==> out[k] == Blanked(text[k], Mask(language, text, 0, Code)[k]))
    && (forall k :: i <= k < |text| ==> out[k] == text[k])
  }

  /** The lexer consumes `n` characters with the same comment flag. */
  ghost predicate Consumes(language: Language, text: JsString, i: nat, mode: Mode, n: nat, flag: bool, next: Mode) {
    && i + n <= |text|
    && Mask(language, text, i, mode) == seq(n, k => flag) + Mask(language, text, i + n, next)
  }

  lemma Advance(language: Language, text: JsString, out: seq<CodeUnit>, i: nat, mode: Mode,
                later: seq<CodeUnit>, n: nat, flag: bool, next: Mode)
    requires StrippedTo(language, text, out, i, mode) && Consumes(language, text, i, mode, n, flag, next)
    requires |later| == |text|
    requires forall k :: 0 <= k < |text| ==>
      later[k] == if i <= k < i + n then Blanked(text[k], flag) else out[k]
    ensures StrippedTo(language, text, later, i + n, next)
  {
    hide LuaMask, CSharpMask;
    var all := Mask(language, text, 0, Code);
    assert all[i + n..] == all[i..][n..];
    assert forall k :: i <= k < i + n ==> all[k] == all[i..][k - i];
  }

  lemma Start(language: Language, text: JsString)
    ensures StrippedTo(language, text, text, 0, Code)
  {
    hide LuaMask, CSharpMask;
  }

  lemma Finish(language: Language, text: JsString, out: seq<CodeUnit>, mode: Mode)
    requires StrippedTo(language, text, out, |text|, mode)
    ensures out == Strip(language, text)
  {
    hide LuaMask, CSharpMask;
  }

  lemma CommentConsumes(language: Language, text: JsString, i: nat, mode: Mode)
    requires i < |text| && (mode.LineComment? || mode.BlockComment?)
    ensures var (x, y) := Closing(language);
      var (n, next) := CommentStep(text, i, mode, x, y);
      Consumes(language, text, i, mode, if n == 0 then 1 else n, n != 0, next)
  {
  }

  /** In front of a line feed, and at the end of the text, a line comment is code again. */
  lemma LineCommentOver(language: Language, text: JsString, i: nat)
    requires i <= |text| && (i < |text| ==> text[i] == LF)
    ensures Mask(language, text, i, LineComment) == Mask(language, text, i, Code)
  {
  }

  lemma EndOfText(language: Language, text: JsString, mode: Mode)
    ensures Mask(language, text, |text|, mode) == []
  {
  }

  /** The loop over a line comment; `i` is where the lexer goes on. */
  method BlankLine(language: Language, text: JsString, out: array<CodeUnit>, start: nat) returns (i: nat)
    requires StrippedTo(language, text, out[..], start, LineComment)
    modifies out
    ensures start <= i <= |text| && StrippedTo(language, text, out[..], i, Code)
  {
    hide LuaMask, CSharpMask, StrippedTo, Mask;
    i := start;
    Bounds(language, text, out[..], i, LineComment);
    while i < |text| && text[i] != LF
      invariant start <= i <= |text| == out.Length
      invariant StrippedTo(language, text, out[..], i, LineComment)
    {
      ghost var before := out[..];
      CommentConsumes(language, text, i, LineComment);
      Bounds(language, text, before, i, LineComment);
      if text[i] != CR { out[i] := BLANK; }
      Advance(language, text, before, i, LineComment, out[..], 1, true, LineComment);
      i := i + 1;
    }
    LineCommentOver(language, text, i);
    SameRest(language, text, out[..], i, LineComment, Code);
  }

  lemma Bounds(language: Language, text: JsString, out: seq<CodeUnit>, i: nat, mode: Mode)
    requires StrippedTo(language, text, out, i, mode)
    ensures i <= |text| == |out| && forall k :: i <= k < |text| ==> out[k] == text[k]
  {
    hide LuaMask, CSharpMask;
  }

  lemma SameRest(language: Language, text: JsString, out: seq<CodeUnit>, i: nat, mode: Mode, other: Mode)
    requires StrippedTo(language, text, out, i, mode)
    requires i <= |text| && Mask(language, text, i, mode) == Mask(language, text, i, other)
    ensures StrippedTo(language, text, out, i, other)
  {
    hide LuaMask, CSharpMask;
  }

  /** The loop over a block comment and its closing pair; an unclosed one skips the last character. */
  method BlankBlock(language: Language, text: JsString, out: array<CodeUnit>, start: nat) returns (i: nat)
    requires StrippedTo(language, text, out[..], start, BlockComment)
    modifies out
    ensures start <= i <= |text| && StrippedTo(language, text, out[..], i, Code)
  {
    hide LuaMask, CSharpMask, StrippedTo, Mask;
    var (x, y) := Closing(language);
    i := start;
    Bounds(language, text, out[..], i, BlockComment);
    while i < |text| - 1 && !(text[i] == x && text[i + 1] == y)
      invariant start <= i <= |text| == out.Length
      invariant StrippedTo(language, text, out[..], i, BlockComment)
    {
      ghost var before := out[..];
      CommentConsumes(language, text, i, BlockComment);
      Bounds(language, text, before, i, BlockComment);
      if text[i] != LF && text[i] != CR { out[i] := BLANK; }
      Advance(language, text, before, i, BlockComment, out[..], 1, true, BlockComment);
      i := i + 1;
    }
    ghost var before := out[..];
    Bounds(language, text, before, i, BlockComment);
    if i < |text| {
      CommentConsumes(language, text, i, BlockComment);
    }
    if i < |text| - 1 {
      out[i], out[i + 1] := BLANK, BLANK;
      Advance(language, text, before, i, BlockComment, out[..], 2, true, Code);
      i := i + 2;
    } else if i < |text| {
      Advance(language, text, before, i, BlockComment, out[..], 1, false, Code);
      i := i + 1;
    } else {
      EndOfText(language, text, BlockComment);
      EndOfText(language, text, Code);
      SameRest(language, text, out[..], i, BlockComment, Code);
    }
  }

  /** The lexer mode that the flags `quote`, `escaped` and `verbatim` stand for. */
  function ModeOf(quote: Option<CodeUnit>, escaped: bool, verbatim: bool): Mode {
    if quote.None? then Code
    else if verbatim then Verbatim
    else if escaped then Escaped(quote.value)
    else Quoted(quote.value)
  }

  lemma QuotedConsumes(language: Language, text: JsString, i: nat, mode: Mode)
    requires i < |text| && (mode.Quoted? || mode.Escaped?)
    ensures Consumes(language, text, i, mode, 1, false, QuotedStep(text[i], mode))
  {
  }

  lemma LuaCodeConsumes(text: JsString, i: nat)
    requires i < |text|
    ensures
      if text[i] == DOUBLE || text[i] == SINGLE then Consumes(Lua, text, i, Code, 1, false, Quoted(text[i]))
      else if Pair(text, i, DASH, DASH) && Pair(text, i + 2, OPEN, OPEN) then Consumes(Lua, text, i, Code, 4, true, BlockComment)
      else if Pair(text, i, DASH, DASH) then Consumes(Lua, text, i, Code, 2, true, LineComment)
      else Consumes(Lua, text, i, Code, 1, false, Code)
  {
  }

  method StripLuaComments(text: JsString) returns (r: JsString)
    ensures r == Strip(Lua, text)
  {
    hide LuaMask, CSharpMask, StrippedTo, Mask, Consumes;
    var out := new CodeUnit[|text|](k requires 0 <= k < |text| => text[k]);
    assert out[..] == text;
    var quote: Option<CodeUnit> := None;
    var escaped := false;
    var i := 0;
    Start(Lua, text);
    while i < |text|
      invariant i <= |text| == out.Length && (quote.None? ==> !escaped)
      invariant StrippedTo(Lua, text, out[..], i, ModeOf(quote, escaped, false))
      decreases |text| - i
    {
      ghost var before := out[..];
      var c := text[i];
      Bounds(Lua, text, before, i, ModeOf(quote, escaped, false));
      if quote.Some? {
        ghost var mode := ModeOf(quote, escaped, false);
        QuotedConsumes(Lua, text, i, mode);
        if escaped { escaped := false; }
        else if c == ESCAPE { escaped := true; }
        else if c == quote.value { quote := None; }
        Advance(Lua, text, before, i, mode, out[..], 1, false, ModeOf(quote, escaped, false));
        i := i + 1;
        continue;
      }
      LuaCodeConsumes(text, i);
      if c == DOUBLE || c == SINGLE {
        quote := Some(c);
        Advance(Lua, text, before, i, Code, out[..], 1, false, Quoted(c));
        i := i + 1;
      } else if Pair(text, i, DASH, DASH) {
        if Pair(text, i + 2, OPEN, OPEN) {
          out[i], out[i + 1], out[i + 2], out[i + 3] := BLANK, BLANK, BLANK, BLANK;
          Advance(Lua, text, before, i, Code, out[..], 4, true, BlockComment);
          i := BlankBlock(Lua, text, out, i + 4);
        } else {
          out[i], out[i + 1] := BLANK, BLANK;
          Advance(Lua, text, before, i, Code, out[..], 2, true, LineComment);
          i := BlankLine(Lua, text, out, i + 2);
        }
      } else {
        Advance(Lua, text, before, i, Code, out[..], 1, false, Code);
        i := i + 1;
      }
    }
    Finish(Lua, text, out[..], ModeOf(quote, escaped, false));
    return out[..];
  }

  lemma VerbatimConsumes(text: JsString, i: nat)
    requires i < |text|
    ensures
      if Pair(text, i, DOUBLE, DOUBLE) then Consumes(CSharp, text, i, Verbatim, 2, false, Verbatim)
      else Consumes(CSharp, text, i, Verbatim, 1, false, if text[i] == DOUBLE then Code else Verbatim)
  {
  }

  lemma CSharpCodeConsumes(text: JsString, i: nat)
    requires i < |text|
    ensures
      if Pair(text, i, AT, DOUBLE) then Consumes(CSharp, text, i, Code, 2, false, Verbatim)
      else if text[i] == DOUBLE || text[i] == SINGLE then Consumes(CSharp, text, i, Code, 1, false, Quoted(text[i]))
      else if Pair(text, i, SLASH, SLASH) then Consumes(CSharp, text, i, Code, 2, true, LineComment)
      else if Pair(text, i, SLASH, STAR) then Consumes(CSharp, text, i, Code, 2, true, BlockComment)
      else Consumes(CSharp, text, i, Code, 1, false, Code)
  {
  }

  method StripCSharpComments(text: JsString) returns (r: JsString)
    ensures r == Strip(CSharp, text)
  {
    hide LuaMask, CSharpMask, StrippedTo, Mask, Consumes;
    var out := new CodeUnit[|text|](k requires 0 <= k < |text| => text[k]);
    assert out[..] == text;
    var quote: Option<CodeUnit> := None;
    var escaped, verbatim := false, false;
    var i := 0;
    Start(CSharp, text);
    while i < |text|
      invariant i <= |text| == out.Length
      invariant quote.None? ==> !escaped && !verbatim
      invariant verbatim ==> quote == Some(DOUBLE) && !escaped
      invariant StrippedTo(CSharp, text, out[..], i, ModeOf(quote, escaped, verbatim))
      decreases |text| - i
    {
      ghost var before := out[..];
      ghost var mode := ModeOf(quote, escaped, verbatim);
      var c := text[i];
      Bounds(CSharp, text, before, i, mode);
      if verbatim {
        VerbatimConsumes(text, i);
        if Pair(text, i, DOUBLE, DOUBLE) {
          Advance(CSharp, text, before, i, mode, out[..], 2, false, Verbatim);
          i := i + 2;
          continue;
        }
        if c == DOUBLE { quote := None; verbatim := false; }
        Advance(CSharp, text, before, i, mode, out[..], 1, false, ModeOf(quote, escaped, verbatim));
        i := i + 1;
        continue;
      }
      if quote.Some? {
        QuotedConsumes(CSharp, text, i, mode);
        if escaped { escaped := false; }
        else if c == ESCAPE { escaped := true; }
        else if c == quote.value { quote := None; }
        Advance(CSharp, text, before, i, mode, out[..], 1, false, ModeOf(quote, escaped, false));
        i := i + 1;
        continue;
      }
      CSharpCodeConsumes(text, i);
      if Pair(text, i, AT, DOUBLE) {
        quote := Some(DOUBLE);
        verbatim := true;
        Advance(CSharp, text, before, i, Code, out[..], 2, false, Verbatim);
        i := i + 2;
      } else if c == DOUBLE || c == SINGLE {
        quote := Some(c);
        Advance(CSharp, text, before, i, Code, out[..], 1, false, Quoted(c));
        i := i + 1;
      } else if Pair(text, i, SLASH, SLASH) {
        out[i], out[i + 1] := BLANK, BLANK;
        Advance(CSharp, text, before, i, Code, out[..], 2, true, LineComment);
        i := BlankLine(CSharp, text, out, i + 2);
      } else if Pair(text, i, SLASH, STAR) {
        out[i], out[i + 1] := BLANK, BLANK;
        Advance(CSharp, text, before, i, Code, out[..], 2, true, BlockComment);
        i := BlankBlock(CSharp, text, out, i + 2);
      } else {
        Advance(CSharp, text, before, i, Code, out[..], 1, false, Code);
        i := i + 1;
      }
    }
    Finish(CSharp, text, out[..], ModeOf(quote, escaped, verbatim));
    return out[..];
  }

  // ---------- Stripping twice ----------

  /** `t` is `text` from `i` on, blanked by the mask that the lexer gives in `mode`. */
  ghost predicate IsStripped(language: Language, text: JsString, t: JsString, i: nat, mode: Mode) {
    && |t| == |text| && i <= |text|
    && forall k :: i <= k < |text| ==> t[k] == Blanked(text[k], Mask(language, text, i, mode)[k - i])
  }

  /** A stripped comment reads as code. */
  function Reread(mode: Mode): Mode {
    if mode.LineComment? || mode.BlockComment? then Code else mode
  }

  ghost predicate NoComment(m: seq<bool>) {
    forall k :: 0 <= k < |m| ==> !m[k]
  }

  lemma StrippedNext(language: Language, text: JsString, t: JsString, i: nat, mode: Mode, n: nat, flag: bool, next: Mode)
    requires IsStripped(language, text, t, i, mode) && Consumes(language, text, i, mode, n, flag, next)
    ensures IsStripped(language, text, t, i + n, next)
    ensures forall k :: i <= k < i + n ==> t[k] == Blanked(text[k], flag)
  {
    hide LuaMask, CSharpMask;
    var m := Mask(language, text, i, mode);
    assert forall k :: 0 <= k < n ==> m[k] == flag;
    forall k | i + n <= k < |text|
      ensures t[k] == Blanked(text[k], Mask(language, text, i + n, next)[k - i - n])
    {
      assert m[k - i] == Mask(language, text, i + n, next)[k - i - n];
    }
  }

  /** Blanks are read as code one by one. */
  lemma {:induction false} BlanksAreCode(language: Language, t: JsString, i: nat, n: nat)
    requires i + n <= |t| && forall k :: i <= k < i + n ==> IsBlank(t[k])
    ensures Mask(language, t, i, Code) == seq(n, k => false) + Mask(language, t, i + n, Code)
    decreases n
  {
    if n > 0 {
      BlanksAreCode(language, t, i + 1, n - 1);
      assert seq(n, k => false) == [false] + seq(n - 1, k => false);
    } else {
      assert seq(0, k => false) + Mask(language, t, i, Code) == Mask(language, t, i, Code);
    }
  }

  /** The character after an unflagged one is itself or a blank, so no new pair appears. */
  lemma NoNewPair(language: Language, text: JsString, t: JsString, i: nat, next: Mode, x: CodeUnit, y: CodeUnit)
    requires i < |text| && IsStripped(language, text, t, i + 1, next) && t[i] == text[i]
    requires !Pair(text, i, x, y) && !IsBlank(y)
    ensures !Pair(t, i, x, y)
  {
    hide LuaMask, CSharpMask;
  }

  lemma {:induction false} RereadLua(text: JsString, t: JsString, i: nat, mode: Mode)
    requires IsStripped(Lua, text, t, i, mode) && !mode.Verbatim?
    ensures NoComment(Mask(Lua, t, i, Reread(mode)))
    decreases |text| - i
  {
    hide LuaMask, CSharpMask, IsStripped, Mask, NoComment, Consumes;
    StrippedBounds(Lua, text, t, i, mode);
    if i == |text| {
      NothingLeft(Lua, t, Reread(mode));
    } else if mode.LineComment? || mode.BlockComment? {
      CommentConsumes(Lua, text, i, mode);
      var (n, next) := CommentStep(text, i, mode, CLOSE, CLOSE);
      RereadComment(Lua, text, t, i, mode);
      RereadLua(text, t, i + (if n == 0 then 1 else n), next);
      if Consumes(Lua, t, i, Code, if n == 0 then 1 else n, false, Code) {
        Prepend(Lua, t, i, Code, if n == 0 then 1 else n, Code);
      }
    } else if mode.Quoted? || mode.Escaped? {
      QuotedConsumes(Lua, text, i, mode);
      StrippedNext(Lua, text, t, i, mode, 1, false, QuotedStep(text[i], mode));
      QuotedConsumes(Lua, t, i, mode);
      RereadLua(text, t, i + 1, QuotedStep(text[i], mode));
      Prepend(Lua, t, i, mode, 1, QuotedStep(text[i], mode));
    } else {
      LuaCodeConsumes(text, i);
      if text[i] == DOUBLE || text[i] == SINGLE {
        StrippedNext(Lua, text, t, i, Code, 1, false, Quoted(text[i]));
        LuaCodeConsumes(t, i);
        RereadLua(text, t, i + 1, Quoted(text[i]));
        Prepend(Lua, t, i, Code, 1, Quoted(text[i]));
      } else if Pair(text, i, DASH, DASH) {
        var n, next := if Pair(text, i + 2, OPEN, OPEN) then 4 else 2, if Pair(text, i + 2, OPEN, OPEN) then BlockComment else LineComment;
        StrippedNext(Lua, text, t, i, Code, n, true, next);
        BlanksConsumed(Lua, t, i, n);
        RereadLua(text, t, i + n, next);
        Prepend(Lua, t, i, Code, n, Code);
      } else {
        StrippedNext(Lua, text, t, i, Code, 1, false, Code);
        NoNewPair(Lua, text, t, i, Code, DASH, DASH);
        LuaCodeConsumes(t, i);
        RereadLua(text, t, i + 1, Code);
        Prepend(Lua, t, i, Code, 1, Code);
      }
    }
  }

  lemma StrippedBounds(language: Language, text: JsString, t: JsString, i: nat, mode: Mode)
    requires IsStripped(language, text, t, i, mode)
    ensures i <= |text| == |t|
  {
  }

  lemma NothingLeft(language: Language, t: JsString, mode: Mode)
    ensures NoComment(Mask(language, t, |t|, mode))
  {
  }

  lemma BlanksConsumed(language: Language, t: JsString, i: nat, n: nat)
    requires i + n <= |t| && forall k :: i <= k < i + n ==> IsBlank(t[k])
    ensures Consumes(language, t, i, Code, n, false, Code)
  {
    hide LuaMask, CSharpMask;
    BlanksAreCode(language, t, i, n);
  }

  lemma Prepend(language: Language, t: JsString, i: nat, mode: Mode, n: nat, next: Mode)
    requires Consumes(language, t, i, mode, n, false, next) && NoComment(Mask(language, t, i + n, next))
    ensures NoComment(Mask(language, t, i, mode))
  {
    hide LuaMask, CSharpMask;
  }

  /** What is left of a comment step: blanks, a line feed, or the last character of the text. */
  lemma RereadComment(language: Language, text: JsString, t: JsString, i: nat, mode: Mode)
    requires IsStripped(language, text, t, i, mode) && i < |text| && (mode.LineComment? || mode.BlockComment?)
    ensures var (x, y) := Closing(language);
      var (n, next) := CommentStep(text, i, mode, x, y);
      var m := if n == 0 then 1 else n;
      && IsStripped(language, text, t, i + m, next)
      && (Consumes(language, t, i, Code, m, false, Code) || (i + 1 == |t| && NoComment(Mask(language, t, i, Code))))
  {
    hide LuaMask, CSharpMask, Mask, NoComment, Consumes;
    var (x, y) := Closing(language);
    var (n, next) := CommentStep(text, i, mode, x, y);
    CommentConsumes(language, text, i, mode);
    StrippedNext(language, text, t, i, mode, if n == 0 then 1 else n, n != 0, next);
    if n == 0 && mode.BlockComment? {
      LastCharacter(language, t);
    } else {
      BlanksConsumed(language, t, i, if n == 0 then 1 else n);
    }
  }

  /** One character alone is never a comment. */
  lemma LastCharacter(language: Language, t: JsString)
    requires |t| > 0
    ensures NoComment(Mask(language, t, |t| - 1, Code))
  {
    assert forall mode: Mode :: Mask(language, t, |t|, mode) == [];
  }

  lemma {:induction false} RereadCSharp(text: JsString, t: JsString, i: nat, mode: Mode)
    requires IsStripped(CSharp, text, t, i, mode)
    ensures NoComment(Mask(CSharp, t, i, Reread(mode)))
    decreases |text| - i
  {
    hide LuaMask, CSharpMask, IsStripped, Mask, NoComment, Consumes;
    StrippedBounds(CSharp, text, t, i, mode);
    if i == |text| {
      NothingLeft(CSharp, t, Reread(mode));
    } else if mode.LineComment? || mode.BlockComment? {
      var (n, next) := CommentStep(text, i, mode, STAR, SLASH);
      RereadComment(CSharp, text, t, i, mode);
      RereadCSharp(text, t, i + (if n == 0 then 1 else n), next);
      if Consumes(CSharp, t, i, Code, if n == 0 then 1 else n, false, Code) {
        Prepend(CSharp, t, i, Code, if n == 0 then 1 else n, Code);
      }
    } else if mode.Quoted? || mode.Escaped? {
      QuotedConsumes(CSharp, text, i, mode);
      StrippedNext(CSharp, text, t, i, mode, 1, false, QuotedStep(text[i], mode));
      QuotedConsumes(CSharp, t, i, mode);
      RereadCSharp(text, t, i + 1, QuotedStep(text[i], mode));
      Prepend(CSharp, t, i, mode, 1, QuotedStep(text[i], mode));
    } else if mode.Verbatim? {
      RereadVerbatim(text, t, i);
      var n := if Pair(text, i, DOUBLE, DOUBLE) then 2 else 1;
      var next := if n == 1 && text[i] == DOUBLE then Code else Verbatim;
      RereadCSharp(text, t, i + n, next);
      Prepend(CSharp, t, i, Verbatim, n, next);
    } else {
      CSharpCodeConsumes(text, i);
      if Pair(text, i, AT, DOUBLE) {
        StrippedNext(CSharp, text, t, i, Code, 2, false, Verbatim);
        CSharpCodeConsumes(t, i);
        RereadCSharp(text, t, i + 2, Verbatim);
        Prepend(CSharp, t, i, Code, 2, Verbatim);
      } else if text[i] == DOUBLE || text[i] == SINGLE {
        StrippedNext(CSharp, text, t, i, Code, 1, false, Quoted(text[i]));
        CSharpCodeConsumes(t, i);
        RereadCSharp(text, t, i + 1, Quoted(text[i]));
        Prepend(CSharp, t, i, Code, 1, Quoted(text[i]));
      } else if Pair(text, i, SLASH, SLASH) || Pair(text, i, SLASH, STAR) {
        var next := if Pair(text, i, SLASH, SLASH) then LineComment else BlockComment;
        StrippedNext(CSharp, text, t, i, Code, 2, true, next);
        BlanksConsumed(CSharp, t, i, 2);
        RereadCSharp(text, t, i + 2, next);
        Prepend(CSharp, t, i, Code, 2, Code);
      } else {
        StrippedNext(CSharp, text, t, i, Code, 1, false, Code);
        NoNewPair(CSharp, text, t, i, Code, AT, DOUBLE);
        NoNewPair(CSharp, text, t, i, Code, SLASH, SLASH);
        NoNewPair(CSharp, text, t, i, Code, SLASH, STAR);
        CSharpCodeConsumes(t, i);
        RereadCSharp(text, t, i + 1, Code);
        Prepend(CSharp, t, i, Code, 1, Code);
      }
    }
  }

  lemma RereadVerbatim(text: JsString, t: JsString, i: nat)
    requires IsStripped(CSharp, text, t, i, Verbatim) && i < |text|
    ensures var n := if Pair(text, i, DOUBLE, DOUBLE) then 2 else 1;
      var next := if n == 1 && text[i] == DOUBLE then Code else Verbatim;
      IsStripped(CSharp, text, t, i + n, next) && Consumes(CSharp, t, i, Verbatim, n, false, next)
  {
    hide LuaMask, CSharpMask, IsStripped, Mask, Consumes;
    StrippedBounds(CSharp, text, t, i, Verbatim);
    VerbatimConsumes(text, i);
    var n := if Pair(text, i, DOUBLE, DOUBLE) then 2 else 1;
    var next := if n == 1 && text[i] == DOUBLE then Code else Verbatim;
    StrippedNext(CSharp, text, t, i, Verbatim, n, false, next);
    if n == 1 {
      NoNewPair(CSharp, text, t, i, next, DOUBLE, DOUBLE);
    }
    VerbatimConsumes(t, i);
  }

  /** Stripping is idempotent, for every text, closed comments or not. */
  lemma StripTwice(language: Language, text: JsString)
    ensures Strip(language, Strip(language, text)) == Strip(language, text)
  {
    hide LuaMask, CSharpMask, Mask;
    var t := Strip(language, text);
    assert IsStripped(language, text, t, 0, Code);
    if language == Lua {
      RereadLua(text, t, 0, Code);
    } else {
      RereadCSharp(text, t, 0, Code);
    }
    assert NoComment(Mask(language, t, 0, Code));
  }

  // ---------- Line numbers ----------

  /** The number of line feeds in front of `index`. */
  function Newlines(text: JsString, index: nat): nat {
    if text == [] then 0
    else
      Newlines(text[..|text| - 1], index) +
        if |text| - 1 < index && text[|text| - 1] == LF then 1 else 0
  }

  /** `buildLineStarts`: zero, and the position after every line feed. */
  function LineStarts(text: JsString): (s: seq<nat>)
    ensures |s| >= 1 && s[0] == 0
    ensures forall k :: 0 <= k < |s| ==> s[k] <= |text|
  {
    if text == [] then [0]
    else
      LineStarts(text[..|text| - 1]) + if text[|text| - 1] == LF then [|text|] else []
  }

  method BuildLineStarts(text: JsString) returns (starts: seq<nat>)
    ensures starts == LineStarts(text)
  {
    starts := [0];
    for i := 0 to |text|
      invariant starts == LineStarts(text[..i])
    {
      assert text[..i + 1][..i] == text[..i];
      assert starts + [] == starts;
      if text[i] == 10 { starts := starts + [i + 1]; }
    }
    assert text[..|text|] == text;
  }

  ghost predicate Sorted(s: seq<nat>) {
    forall i, j :: 0 <= i < j < |s| ==> s[i] < s[j]
  }

  /** Line starts are sorted, and as many lie at or before an index as line feeds precede it, plus one. */
  lemma {:induction false} StartsCountNewlines(text: JsString, index: nat)
    ensures Sorted(LineStarts(text)) && |LineStarts(text)| == 1 + Newlines(text, |text|)
    ensures Newlines(text, index) < |LineStarts(text)|
    ensures forall k :: 0 <= k < |LineStarts(text)| ==> (LineStarts(text)[k] <= index <==> k <= Newlines(text, index))
  {
    if text != [] {
      var init := text[..|text| - 1];
      StartsCountNewlines(init, index);
      StartsCountNewlines(init, |text|);
      NewlinesBeyond(init, |text|);
      NewlinesMonotone(init, index, |init|);
      if index >= |init| {
        NewlinesBeyond(init, index);
      }
    }
  }

  lemma {:induction false} NewlinesBeyond(text: JsString, index: nat)
    requires index >= |text|
    ensures Newlines(text, index) == Newlines(text, |text|)
  {
    if text != [] {
      NewlinesBeyond(text[..|text| - 1], index);
      NewlinesBeyond(text[..|text| - 1], |text|);
    }
  }

  lemma {:induction false} NewlinesMonotone(text: JsString, index: nat, most: nat)
    requires |text| <= most
    ensures Newlines(text, index) <= Newlines(text, most)
  {
    if text != [] {
      NewlinesMonotone(text[..|text| - 1], index, most);
    }
  }

  function Max(a: int, b: int): int {
    if a > b then a else b
  }

  method LineForIndex(starts: seq<nat>, index: nat) returns (line: nat)
    requires |starts| >= 1 && starts[0] == 0 && Sorted(starts)
    ensures 1 <= line <= |starts|
    ensures forall k :: 0 <= k < |starts| ==> (starts[k] <= index <==> k < line)
  {
    var lo, hi := 0, |starts| - 1;
    while lo <= hi
      invariant 0 <= lo <= hi + 1 <= |starts|
      invariant forall k :: 0 <= k < lo ==> starts[k] <= index
      invariant forall k :: hi < k < |starts| ==> starts[k] > index
    {
      var mid := (lo + hi) / 2;
      if starts[mid] <= index { lo := mid + 1; } else { hi := mid - 1; }
    }
    line := Max(1, hi + 1);
  }

  /** Two texts with the same line feeds in the same places have the same lines. */
  lemma {:induction false} SameNewlines(text: JsString, t: JsString, index: nat)
    requires |t| == |text| && forall k :: 0 <= k < |text| ==> (t[k] == LF <==> text[k] == LF)
    ensures Newlines(t, index) == Newlines(text, index)
  {
    if text != [] {
      SameNewlines(text[..|text| - 1], t[..|text| - 1], index);
    }
  }

  /** The line a match in the stripped text is reported on is one plus the line feeds before it in the original text. */
  method LineOfMatch(language: Language, text: JsString, index: nat) returns (line: nat)
    ensures line == 1 + Newlines(text, index)
  {
    hide LuaMask, CSharpMask, Mask;
    var stripped;
    if language == Lua {
      stripped := StripLuaComments(text);
    } else {
      stripped := StripCSharpComments(text);
    }
    var starts := BuildLineStarts(stripped);
    StartsCountNewlines(stripped, index);
    line := LineForIndex(starts, index);
    SameNewlines(text, stripped, index);
    var count := Newlines(stripped, index);
    assert starts[count] <= index && starts[line - 1] <= index;
    if line < |starts| {
      assert starts[line] > index;
    }
  }
}
