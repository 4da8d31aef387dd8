/**
 * The Rust scanner (rust/src/scanner.rs).  It scans what the Java scanner
 * scans, with three differences of its own:
 *  - strings, numbers and identifiers (keywords included) carry their text
 *    as a boxed string literal;
 *  - an unterminated string still adds a STRING token, after the report,
 *    whose literal drops the last character of the source;
 *  - a double quote that is the last character of the source makes the slice
 *    `source[start + 1..current - 1]` panic, which ends the program;
 *  - the cursor counts characters (`chars().nth(current)`) but `is_at_end`
 *    compares it with the length in UTF-8 bytes, so on a source holding a
 *    character beyond ASCII the cursor reaches the last character before
 *    the end and the next `unwrap` of a missing character panics.
 * Step and ScanFrom say what the scanner does over the characters of an
 * ASCII source and are None where it panics there; Scan is None for every
 * other source.
 */
module RustScanner {
  import opened Tokens
  import opened Lexing

  /** The token list `scan_tokens` returns. */
  type TokenList = seq<Token>

  /** Every character is ASCII, one byte in UTF-8. */
  predicate Ascii(s: string)
  {
    forall i :: 0 <= i < |s| ==> s[i] as int < 128
  }

  /** The bytes UTF-8 spends on c: one for ASCII, then two, three or four. */
  function Utf8Width(c: char): (w: nat)
    ensures 1 <= w <= 4 && (w == 1 <==> c as int < 128)
  {
    if c as int < 0x80 then 1 else if c as int < 0x800 then 2 else if c as int < 0x1_0000 then 3 else 4
  }

  /** `str::len`: the length of s in UTF-8 bytes, never below the number of characters. */
  function Utf8Length(s: string): (n: nat)
    ensures n >= |s|
  {
    if s == [] then 0 else Utf8Width(s[0]) + Utf8Length(s[1..])
  }

  /** The length in bytes equals the number of characters exactly on ASCII text. */
  lemma {:induction false} Utf8LengthAscii(s: string)
    ensures Utf8Length(s) == |s| <==> Ascii(s)
  {
    if s != [] {
      Utf8LengthAscii(s[1..]);
      if s[0] as int < 128 && Ascii(s[1..]) {
        forall i | 0 < i < |s| ensures s[i] as int < 128 {
          assert s[i] == s[1..][i - 1];
        }
      }
    }
  }

  /**
   * `string()` after the opening quote at s.  With a closing quote at e
   * the token spans s..e + 1 and its literal is the body s + 1..e.  Without
   * one the cursor stays at the end: the report comes first, then a token
   * spanning s to the end whose literal is s + 1..|src| - 1, which panics
   * when the quote is the last character.
   */
  function StringLexeme(src: string, s: nat, line: int): (r: Option<Lexed>)
    requires s < |src| && src[s] == Quote
    ensures r.None? <==> s == |src| - 1
    ensures r.Some? ==> s < r.value.next <= |src| && r.value.line == line + LineBreaks(src, s, r.value.next)
    ensures r.Some? ==> |r.value.tokens| == 1 && |r.value.reports| <= 1
    ensures r.Some? ==> forall t <- r.value.tokens ::
      r.value.next >= s + 2 && t == Token(String, src[s..r.value.next], Text(src[s + 1..r.value.next - 1]), r.value.line)
  {
    var e := QuoteEnd(src, s + 1);
    var l := line + LineBreaks(src, s, e);
    if e < |src| then
      Some(Lexed(e + 1, l, [Token(String, src[s..e + 1], Text(src[s + 1..e]), l)], []))
    else if s + 1 < |src| then
      Some(Lexed(e, l, [Token(String, src[s..e], Text(src[s + 1..e - 1]), l)], [Report(l, "Unterminated string.")]))
    else
      None
  }

  /**
   * StringLexeme spelt out where the body stops at e (a closing quote or
   * the end) and the cursor ends at n.
   */
  lemma StringLexemeAt(src: string, s: nat, line: int, e: nat, n: nat, l: int, reports: seq<Report>)
    requires s < |src| && src[s] == Quote && e == QuoteEnd(src, s + 1)
    requires n == if e < |src| then e + 1 else e
    requires l == line + LineBreaks(src, s, e)
    requires reports == if e == |src| then [Report(l, "Unterminated string.")] else []
    ensures s + 1 == |src| ==> StringLexeme(src, s, line) == None
    ensures s + 1 < |src| ==>
      s + 2 <= n && StringLexeme(src, s, line) == Some(Lexed(n, l, [Token(String, src[s..n], Text(src[s + 1..n - 1]), l)], reports))
  {
  }

  /** `number()` after the first digit at s: the literal is the lexeme's text. */
  function NumberLexeme(src: string, s: nat, line: int): (r: Lexed)
    requires s < |src| && IsDigit(src[s])
    ensures r.next == NumberEnd(src, s + 1) && r.line == line && r.reports == []
    ensures LineBreaks(src, s, NumberEnd(src, s + 1)) == 0
    ensures r.tokens == [Token(Number, src[s..NumberEnd(src, s + 1)], Text(src[s..NumberEnd(src, s + 1)]), line)]
  {
    var e := NumberEnd(src, s + 1);
    LineBreaksNone(src, s, e);
    Emit(src, s, e, Number, Text(src[s..e]), line)
  }

  /** `identifier()` after the first letter or `_` at s: the literal is the word itself. */
  function IdentifierLexeme(src: string, s: nat, line: int): (r: Lexed)
    requires s < |src| && IsAlpha(src[s])
    ensures r.next == AlnumEnd(src, s + 1) && r.line == line && r.reports == []
    ensures LineBreaks(src, s, AlnumEnd(src, s + 1)) == 0
    ensures var word := src[s..AlnumEnd(src, s + 1)]; r.tokens == [Token(WordKind(word), word, Text(word), line)]
  {
    var e := AlnumEnd(src, s + 1);
    LineBreaksNone(src, s, e);
    Emit(src, s, e, WordKind(src[s..e]), Text(src[s..e]), line)
  }

  /**
   * What `scan_token` does on an ASCII source when the lexeme starts at s
   * and the line counter is `line`; None when it panics, which happens
   * exactly when the lexeme is a double quote in the last position.
   */
  function Step(src: string, s: nat, line: int): (r: Option<Lexed>)
    requires s < |src|
    ensures r.None? <==> src[s] == Quote && s == |src| - 1
    ensures r.Some? ==> s < r.value.next <= |src| && r.value.line == line + LineBreaks(src, s, r.value.next)
    ensures r.Some? ==> |r.value.tokens| <= 1 && |r.value.reports| <= 1
    ensures r.Some? ==> forall t <- r.value.tokens ::
      t.lexeme == src[s..r.value.next] && t.line == r.value.line && t.kind != Eof
  {
    var p := Punctuation(src, s, line);
    var c := src[s];
    if p.Some? then p
    else if c == Quote then StringLexeme(src, s, line)
    else if IsDigit(c) then Some(NumberLexeme(src, s, line))
    else if IsAlpha(c) then Some(IdentifierLexeme(src, s, line))
    else Some(Lexed(s + 1, line, [], [Report(line, "Unexpected character.")]))
  }

  /**
   * What the `scan_tokens` loop appends, reports and leaves in `line` when
   * it starts at i on an ASCII source; None when some step panics, which
   * needs a double quote at the very end of the source.
   */
  function ScanFrom(src: string, i: nat, line: int): (r: Option<Scanned>)
    requires i <= |src|
    ensures r.None? ==> |src| > 0 && src[|src| - 1] == Quote
    ensures r.Some? ==> forall t <- r.value.tokens :: t.kind != Eof
    ensures r.Some? ==> r.value.line == line + LineBreaks(src, i, |src|)
    decreases |src| - i
  {
    if i == |src| then Some(Scanned([], line, []))
    else
      match Step(src, i, line)
      case None => None
      case Some(st) =>
        match ScanFrom(src, st.next, st.line)
        case None => None
        case Some(rest) =>
          LineBreaksSplit(src, i, st.next, |src|);
          Some(Scanned(st.tokens + rest.tokens, rest.line, st.reports + rest.reports))
  }

  /** One scanning step that does not panic moves its output from the rest of the source to what is done. */
  lemma {:induction false} ScanFromStep(src: string, i: nat, line: int, done: seq<Token>, said: seq<Report>)
    requires i < |src| && Step(src, i, line).Some?
    ensures var st := Step(src, i, line).value;
      var now, rest := ScanFrom(src, i, line), ScanFrom(src, st.next, st.line);
      (now.Some? <==> rest.Some?) &&
      (now.Some? ==>
        done + now.value.tokens == (done + st.tokens) + rest.value.tokens &&
        said + now.value.reports == (said + st.reports) + rest.value.reports && now.value.line == rest.value.line)
  {
    var st := Step(src, i, line).value;
    var rest := ScanFrom(src, st.next, st.line);
    if rest.Some? {
      assert ScanFrom(src, i, line) ==
        Some(Scanned(st.tokens + rest.value.tokens, rest.value.line, st.reports + rest.value.reports));
    }
  }

  /**
   * The token list `scan_tokens` returns for a fresh scanner, None when it
   * panics: always beyond ASCII, and on an ASCII source only when it ends
   * with a double quote.  Otherwise exactly one EOF token, last, carrying
   * the final line.
   */
  function Scan(src: string): (r: Option<TokenList>)
    ensures !Ascii(src) ==> r.None?
    ensures r.None? ==> !Ascii(src) || (|src| > 0 && src[|src| - 1] == Quote)
    ensures r.Some? ==> |r.value| > 0 && r.value[|r.value| - 1] == Token(Eof, "", NoLiteral, 1 + LineBreaks(src, 0, |src|))
    ensures r.Some? ==> forall k :: 0 <= k < |r.value| - 1 ==> r.value[k].kind != Eof
  {
    if !Ascii(src) then None
    else
      match ScanFrom(src, 0, 1)
      case None => None
      case Some(s) => Some(s.tokens + [Token(Eof, "", NoLiteral, s.line)])
  }

  /** Every token's lexeme is the stretch of source it was scanned from. */
  lemma {:induction false} ScanFromLocated(src: string, i: nat, line: int)
    requires i <= |src| && ScanFrom(src, i, line).Some?
    ensures forall t <- ScanFrom(src, i, line).value.tokens :: Located(src, i, line, t)
    decreases |src| - i
  {
    if i < |src| {
      var st := Step(src, i, line).value;
      var rest := ScanFrom(src, st.next, st.line).value;
      ScanFromLocated(src, st.next, st.line);
      assert ScanFrom(src, i, line).value.tokens == st.tokens + rest.tokens;
      forall t <- ScanFrom(src, i, line).value.tokens ensures Located(src, i, line, t) {
        if t in st.tokens {
          assert t.lexeme == src[i..st.next] && t.line == line + LineBreaks(src, i, st.next);
        } else {
          assert t in rest.tokens;
          var a, b :| st.next <= a < b <= |src| && t.lexeme == src[a..b] && t.line == st.line + LineBreaks(src, st.next, b);
          LineBreaksSplit(src, i, st.next, b);
        }
      }
    }
  }

  /**
   * A terminated string's literal is its body without the quotes; line
   * breaks in the body bump the line counter, and the token carries the
   * counter reached at the closing quote.
   */
  lemma StringsExcludeQuotes(src: string, s: nat, e: nat, line: int)
    requires s < e < |src| && src[s] == Quote && src[e] == Quote
    requires forall k :: s < k < e ==> src[k] != Quote
    ensures src[s..e + 1] == [Quote] + src[s + 1..e] + [Quote]
    ensures var l := line + LineBreaks(src, s + 1, e);
      Step(src, s, line) == Some(Lexed(e + 1, l, [Token(String, src[s..e + 1], Text(src[s + 1..e]), l)], []))
  {
    ClosedString(src, s, e, line);
    StepOnQuote(src, s, line);
    Enclosed(src, s, e);
  }

  /** StringLexeme where a quote at e closes the string opened at s. */
  lemma ClosedString(src: string, s: nat, e: nat, line: int)
    requires s < e < |src| && src[s] == Quote && src[e] == Quote
    requires forall k :: s < k < e ==> src[k] != Quote
    ensures var l := line + LineBreaks(src, s + 1, e);
      StringLexeme(src, s, line) == Some(Lexed(e + 1, l, [Token(String, src[s..e + 1], Text(src[s + 1..e]), l)], []))
  {
    LineBreaksCons(src, s, e);
    QuoteEndAt(src, s + 1, e);
    StringLexemeAt(src, s, line, e, e + 1, line + LineBreaks(src, s + 1, e), []);
  }

  /**
   * An unterminated string that is not the last character reports
   * "Unterminated string." and still adds a STRING token spanning to the
   * end, whose literal drops the last character of the source.
   */
  lemma UnterminatedStringKeepsToken(src: string, s: nat, line: int)
    requires s + 1 < |src| && src[s] == Quote
    requires forall j :: s < j < |src| ==> src[j] != Quote
    ensures var l := line + LineBreaks(src, s, |src|);
      Step(src, s, line) ==
        Some(Lexed(|src|, l, [Token(String, src[s..|src|], Text(src[s + 1..|src| - 1]), l)], [Report(l, "Unterminated string.")]))
  {
    OpenString(src, s, line);
    StepOnQuote(src, s, line);
  }

  /** StringLexeme where no quote closes the string opened at s. */
  lemma OpenString(src: string, s: nat, line: int)
    requires s + 1 < |src| && src[s] == Quote
    requires forall j :: s < j < |src| ==> src[j] != Quote
    ensures var l := line + LineBreaks(src, s, |src|);
      StringLexeme(src, s, line) ==
        Some(Lexed(|src|, l, [Token(String, src[s..|src|], Text(src[s + 1..|src| - 1]), l)], [Report(l, "Unterminated string.")]))
  {
    var e := |src|;
    QuoteEndAt(src, s + 1, e);
    var l := line + LineBreaks(src, s, e);
    var reports := [Report(l, "Unterminated string.")];
    StringLexemeAt(src, s, line, e, e, l, reports);
  }

  /** A double quote starts a string literal. */
  lemma StepOnQuote(src: string, s: nat, line: int)
    requires s < |src| && src[s] == Quote
    ensures Step(src, s, line) == StringLexeme(src, s, line)
  {
    assert Punctuation(src, s, line) == None;
  }

  /** A double quote as the last character panics, and so does every scan that reaches it. */
  lemma LoneQuotePanics(src: string, line: int)
    requires |src| > 0 && src[|src| - 1] == Quote
    ensures Step(src, |src| - 1, line).None?
    ensures ScanFrom(src, |src| - 1, line).None?
  {
  }

  /** The smallest source that panics: a lone double quote. */
  lemma QuoteAlonePanics()
    ensures Scan([Quote]) == None
  {
    LoneQuotePanics([Quote], 1);
  }

  /**
   * A number is a maximal run of digits, followed by `.` and a second run
   * only when the `.` is followed by a digit; its literal is its own text.
   */
  lemma NumbersAreMaximal(src: string, s: nat, line: int)
    requires s < |src| && IsDigit(src[s])
    ensures Step(src, s, line).Some?
    ensures var r := Step(src, s, line).value;
      var lexeme := src[s..r.next];
      r.tokens == [Token(Number, lexeme, Text(lexeme), line)] && r.reports == [] &&
      (forall j :: s <= j < r.next ==> IsDigit(src[j]) || (src[j] == '.' && j + 1 < r.next && IsDigit(src[j + 1]))) &&
      (r.next < |src| ==> !IsDigit(src[r.next])) &&
      (forall j, k :: s <= j < k < r.next && src[j] == '.' ==> src[k] != '.')
  {
    assert Punctuation(src, s, line) == None;
    NumberShape(src, s + 1);
  }

  /**
   * An identifier is a maximal run of letters, digits and `_`; it takes a
   * keyword's kind exactly when the whole run is that keyword, and keeps
   * its text as the literal either way.
   */
  lemma IdentifiersAreMaximal(src: string, s: nat, line: int)
    requires s < |src| && IsAlpha(src[s])
    ensures Step(src, s, line).Some?
    ensures var r := Step(src, s, line).value;
      var text := src[s..r.next];
      |r.tokens| == 1 && r.reports == [] && r.tokens[0].lexeme == text && r.tokens[0].literal == Text(text) &&
      (forall j :: s <= j < r.next ==> IsAlphaNumeric(src[j])) &&
      (r.next < |src| ==> !IsAlphaNumeric(src[r.next])) &&
      (text in Keywords ==> r.tokens[0].kind == Keywords[text]) &&
      (text !in Keywords ==> r.tokens[0].kind == Identifier)
  {
    assert Punctuation(src, s, line) == None;
  }

  /** Any other character is reported as unexpected at the current line, and scanning goes on. */
  lemma UnexpectedCharacters(src: string, s: nat, line: int)
    requires s < |src|
    requires Punctuation(src, s, line) == None && src[s] != Quote && !IsAlphaNumeric(src[s])
    ensures Step(src, s, line) == Some(Lexed(s + 1, line, [], [Report(line, "Unexpected character.")]))
  {
  }

  /** The Scanner struct of scanner.rs: a cursor over `source` that appends to `tokens`. */
  class Scanner {
    const source: string
    var tokens: seq<Token>
    var start: nat
    var current: nat
    var line: int
    /** What was handed to `Lox::error`, in order. */
    var reports: seq<Report>

    /** Scanner::new */
    constructor (source: string)
      ensures this.source == source && tokens == [] && reports == []
      ensures start == 0 && current == 0 && line == 1
    {
      this.source := source;
      tokens := [];
      start, current, line := 0, 0, 1;
      reports := [];
    }

    /** `source.len()`: the length in bytes, which `is_at_end` compares the character cursor with. */
    function Len(): (n: nat)
      ensures n >= |source|
    {
      Utf8Length(source)
    }

    /** The source is ASCII: it has as many bytes as characters. */
    predicate CharsAreBytes()
    {
      Len() == |source|
    }

    /** `is_at_end`: the character cursor against the byte length; on an ASCII source short of the end it is on a character. */
    predicate IsAtEnd()
      reads this
      ensures !IsAtEnd() && CharsAreBytes() ==> current < |source|
    {
      current >= Len()
    }

    /**
     * `chars().nth(current)` finds no character although the cursor is not
     * at the end: the `unwrap` in `peek` and `match_char` panics.
     */
    predicate PeekPanics()
      reads this
    {
      !IsAtEnd() && current >= |source|
    }

    /** The same for `peek_next` and `chars().nth(current + 1)`. */
    predicate PeekNextPanics()
      reads this
    {
      current + 1 < Len() && current + 1 >= |source|
    }

    /** `peek`: the current character, `'\0'` at the end. */
    function Peek(): (c: char)
      reads this
      requires !PeekPanics()
      ensures current < |source| ==> c == source[current]
      ensures current >= |source| ==> c == '\0'
    {
      if IsAtEnd() then '\0' else source[current]
    }

    /** `peek_next`: the character after the current one, `'\0'` past the end. */
    function PeekNext(): (c: char)
      reads this
      requires !PeekNextPanics()
      ensures current + 1 < |source| ==> c == source[current + 1]
      ensures current + 1 >= |source| ==> c == '\0'
    {
      if current + 1 >= Len() then '\0' else source[current + 1]
    }

    /**
     * `advanced`: at the end None, and the cursor stays; otherwise the
     * cursor moves one on and the answer is the character it passed, None
     * when the characters ran out before the bytes did.
     */
    method Advanced() returns (c: Option<char>)
      modifies this`current
      ensures old(current) >= Len() ==> c == None && current == old(current)
      ensures old(current) < Len() ==> current == old(current) + 1
      ensures old(current) < Len() ==> c == if old(current) < |source| then Some(source[old(current)]) else None
    {
      if IsAtEnd() {
        return None;
      }
      c := if current < |source| then Some(source[current]) else None;
      current := current + 1;
    }

    /** `match_char`: consumes the next character only when it is `expected`. */
    method MatchChar(expected: char) returns (matched: bool)
      requires !PeekPanics()
      modifies this`current
      ensures matched <==> old(current) < |source| && source[old(current)] == expected
      ensures current == if matched then old(current) + 1 else old(current)
    {
      if IsAtEnd() {
        return false;
      }
      if source[current] != expected {
        return false;
      }
      current := current + 1;
      return true;
    }

    /** `add_token_literal`; `add_token` passes NoLiteral. */
    method AddTokenLiteral(kind: Kind, literal: Literal)
      requires start <= current <= |source|
      modifies this`tokens
      ensures tokens == old(tokens) + [Token(kind, source[start..current], literal, line)]
    {
      var text := source[start..current];
      tokens := tokens + [Token(kind, text, literal, line)];
    }

    /** identifier(); `ok` is false where `peek` panics, never on an ASCII source. */
    method ScanIdentifier() returns (ok: bool)
      requires start < current == start + 1 <= |source| && IsAlpha(source[start])
      modifies this`current, this`tokens
      ensures CharsAreBytes() ==> ok
      ensures ok ==> current == AlnumEnd(source, start + 1)
      ensures ok ==> var text := source[start..current];
        tokens == old(tokens) + [Token(WordKind(text), text, Text(text), line)]
    {
      while !PeekPanics() && IsAlphaNumeric(Peek())
        invariant start + 1 <= current <= |source| && tokens == old(tokens)
        invariant forall j :: start + 1 <= j < current ==> IsAlphaNumeric(source[j])
        decreases |source| - current
      {
        var _ := Advanced();
      }
      if PeekPanics() {
        return false;
      }
      AlnumEndAt(source, start + 1, current);
      var text := source[start..current];
      AddTokenLiteral(WordKind(text), Text(text));
      return true;
    }

    /** A digit loop of `number()`: on to the first character that is not a digit, or the end. */
    method SkipDigits() returns (ok: bool)
      requires current <= |source|
      modifies this`current
      ensures CharsAreBytes() ==> ok
      ensures ok ==> current == DigitsEnd(source, old(current)) && !PeekPanics()
    {
      while !PeekPanics() && IsDigit(Peek())
        invariant old(current) <= current <= |source|
        invariant forall j :: old(current) <= j < current ==> IsDigit(source[j])
        decreases |source| - current
      {
        var _ := Advanced();
      }
      if PeekPanics() {
        return false;
      }
      DigitsEndAt(source, old(current), current);
      return true;
    }

    /** number(); `ok` is false where `peek` or `peek_next` panics, never on an ASCII source. */
    method ScanNumber() returns (ok: bool)
      requires start < current == start + 1 <= |source| && IsDigit(source[start])
      modifies this`current, this`tokens
      ensures CharsAreBytes() ==> ok
      ensures ok ==> current == NumberEnd(source, start + 1)
      ensures ok ==> tokens == old(tokens) + [Token(Number, source[start..current], Text(source[start..current]), line)]
    {
      ok := SkipDigits();
      if !ok {
        return;
      }
      if Peek() == '.' && PeekNextPanics() {
        return false;
      }
      if Peek() == '.' && IsDigit(PeekNext()) {
        var _ := Advanced();
        ok := SkipDigits();
        if !ok {
          return;
        }
      }
      var value := source[start..current];
      AddTokenLiteral(Number, Text(value));
      return true;
    }

    /** The loop of `string()`: on to the closing quote or the end, counting line breaks. */
    method SkipStringBody() returns (ok: bool)
      requires current <= |source|
      modifies this`current, this`line
      ensures CharsAreBytes() ==> ok
      ensures ok ==> current == QuoteEnd(source, old(current)) && (current < |source| || IsAtEnd())
      ensures ok ==> line == old(line) + LineBreaks(source, old(current), current)
    {
      while !PeekPanics() && Peek() != Quote && !IsAtEnd()
        invariant old(current) <= current <= |source|
        invariant forall j :: old(current) <= j < current ==> source[j] != Quote
        invariant line == old(line) + LineBreaks(source, old(current), current)
        decreases |source| - current
      {
        if Peek() == '\n' {
          line := line + 1;
        }
        var _ := Advanced();
      }
      if PeekPanics() {
        return false;
      }
      QuoteEndAt(source, old(current), current);
      return true;
    }

    /**
     * string(); `ok` is false where `peek` panics or the slice of the
     * literal does, and on an ASCII source exactly where StringLexeme
     * panics.
     */
    method ScanString() returns (ok: bool)
      requires start < current == start + 1 <= |source| && source[start] == Quote
      modifies this`current, this`tokens, this`line, this`reports
      ensures CharsAreBytes() ==> (ok <==> StringLexeme(source, old(start), old(line)).Some?)
      ensures ok ==> StringLexeme(source, old(start), old(line)).Some?
      ensures ok ==> var r := StringLexeme(source, old(start), old(line)).value;
        current == r.next && line == r.line &&
        tokens == old(tokens) + r.tokens && reports == old(reports) + r.reports
    {
      ok := SkipStringBody();
      if !ok {
        return;
      }
      LineBreaksCons(source, start, current);
      ghost var e := current;
      if IsAtEnd() {
        reports := reports + [Report(line, "Unterminated string.")];
      }
      var _ := Advanced();
      StringLexemeAt(source, start, old(line), e, current, line, reports[|old(reports)|..]);
      if start + 1 > current - 1 {
        return false;
      }
      var value := source[start + 1..current - 1];
      AddTokenLiteral(String, Text(value));
      return true;
    }

    /** The loop of a `//` comment: on to the next line break or the end. */
    method SkipComment() returns (ok: bool)
      requires current <= |source|
      modifies this`current
      ensures CharsAreBytes() ==> ok
      ensures ok ==> current == LineEnd(source, old(current))
    {
      while !PeekPanics() && Peek() != '\n' && !IsAtEnd()
        invariant old(current) <= current <= |source|
        invariant forall j :: old(current) <= j < current ==> source[j] != '\n'
        decreases |source| - current
      {
        var _ := Advanced();
      }
      if PeekPanics() {
        return false;
      }
      LineEndAt(source, old(current), current);
      return true;
    }

    /**
     * The arms of `scan_token` for punctuation, operators, comments, blanks
     * and line breaks; `ok` is false where `match_char` or `peek` panics,
     * never on an ASCII source.
     */
    method ScanPunctuation(c: char) returns (ok: bool)
      requires start < current == start + 1 <= |source| && c == source[start]
      requires SingleKind(c).Some? || IsOperatorStart(c) || c in "/ \r\t\n"
      modifies this`current, this`tokens, this`line
      ensures CharsAreBytes() ==> ok
      ensures ok ==> var r := Punctuation(source, start, old(line)).value;
        current == r.next && line == r.line && tokens == old(tokens) + r.tokens
    {
      if SingleKind(c).Some? {
        AddTokenLiteral(SingleKind(c).value, NoLiteral);
      } else if IsOperatorStart(c) {
        if PeekPanics() {
          return false;
        }
        var two := MatchChar('=');
        AddTokenLiteral(OperatorKind(c, two), NoLiteral);
      } else if c == '/' {
        if PeekPanics() {
          return false;
        }
        var comment := MatchChar('/');
        if comment {
          ok := SkipComment();
          return;
        } else {
          AddTokenLiteral(Slash, NoLiteral);
        }
      } else if c == '\n' {
        line := line + 1;
      }
      return true;
    }

    /**
     * scan_token(); `ok` is false where it panics: the `unwrap` of the
     * first character, or any panic of the arm it takes.  On an ASCII
     * source that is exactly where Step is None.
     */
    method ScanToken() returns (ok: bool)
      requires start == current <= |source| && current < Len()
      modifies this`current, this`tokens, this`line, this`reports
      ensures CharsAreBytes() ==> (ok <==> Step(source, old(current), old(line)).Some?)
      ensures ok ==> old(current) < |source| && Step(source, old(current), old(line)).Some?
      ensures ok ==> var r := Step(source, old(current), old(line)).value;
        current == r.next && line == r.line &&
        tokens == old(tokens) + r.tokens && reports == old(reports) + r.reports
    {
      var next := Advanced();
      if next.None? {
        return false;
      }
      var c := next.value;
      ok := true;
      if SingleKind(c).Some? || IsOperatorStart(c) || c in "/ \r\t\n" {
        ok := ScanPunctuation(c);
      } else if c == Quote {
        ok := ScanString();
      } else if IsDigit(c) {
        ok := ScanNumber();
      } else if IsAlpha(c) {
        ok := ScanIdentifier();
      } else {
        reports := reports + [Report(line, "Unexpected character.")];
      }
    }

    /**
     * scan_tokens(); None where some step panics: on every source beyond
     * ASCII, since the character cursor never reaches the byte end, and on
     * an ASCII source exactly where ScanFrom does.
     */
    method ScanTokens() returns (result: Option<TokenList>)
      requires current <= |source|
      modifies this`start, this`current, this`tokens, this`line, this`reports
      ensures !Ascii(source) ==> result.None?
      ensures Ascii(source) ==> var s := ScanFrom(source, old(current), old(line));
        (result.None? <==> s.None?) &&
        (s.Some? ==>
          tokens == old(tokens) + s.value.tokens + [Token(Eof, "", NoLiteral, s.value.line)] &&
          line == s.value.line && reports == old(reports) + s.value.reports && result == Some(tokens))
    {
      Utf8LengthAscii(source);
      ghost var total := ScanFrom(source, current, line);
      ghost var tokens0, reports0 := tokens, reports;
      while !IsAtEnd()
        invariant current <= |source|
        invariant ScanFrom(source, current, line).None? ==> total.None?
        invariant ScanFrom(source, current, line).Some? ==> var s := ScanFrom(source, current, line).value;
          total.Some? && tokens0 + total.value.tokens == tokens + s.tokens &&
          reports0 + total.value.reports == reports + s.reports && total.value.line == s.line
        decreases |source| - current
      {
        if current < |source| && Step(source, current, line).Some? {
          ScanFromStep(source, current, line, tokens, reports);
        }
        start := current;
        var ok := ScanToken();
        if !ok {
          return None;
        }
      }
      tokens := tokens + [Token(Eof, "", NoLiteral, line)];
      result := Some(tokens);
    }
  }

  /** A fresh scanner's scan_tokens returns Scan(source). */
  method ScanSource(source: string) returns (tokens: Option<TokenList>)
    ensures tokens == Scan(source)
  {
    var scanner := new Scanner(source);
    tokens := scanner.ScanTokens();
    if Ascii(source) {
      assert ScanFrom(source, 0, 1).Some? ==> scanner.tokens == ScanFrom(source, 0, 1).value.tokens + [Token(Eof, "", NoLiteral, ScanFrom(source, 0, 1).value.line)];
    }
  }
}
