/**
 * The Java scanner (dev/asazutaiga/lox/Scanner.java): the complete one.
 * On top of the shared punctuation branches it scans string literals,
 * number literals, identifiers and keywords.
 *
 * Step and ScanFrom say, as functions, what one `scanToken` call and the
 * `scanTokens` loop do; the class Scanner is the cursor-driven state
 * machine of the source, proved against them.
 */
module JavaScanner {
  import opened Tokens
  import opened Lexing

  /**
   * `string()` after the opening quote at s: the body runs to the next double quote.
   * Line breaks inside it bump the counter, and the token is added at the
   * counter reached after the closing quote.  Without a closing quote the
   * scanner reports at that counter and adds nothing.
   */
  function StringLexeme(src: string, s: nat, line: int): (r: Lexed)
    requires s < |src| && src[s] == Quote
    ensures s < r.next <= |src| && r.line == line + LineBreaks(src, s, r.next)
    ensures |r.tokens| + |r.reports| == 1
    ensures forall t <- r.tokens :: (t.kind == String && t.line == r.line && t.lexeme <= src[s..] && s + |t.lexeme| == r.next &&
      |t.lexeme| >= 2 && t.literal == Text(t.lexeme[1..|t.lexeme| - 1]))
  {
    var e := QuoteEnd(src, s + 1);
    var l := line + LineBreaks(src, s, e);
    if e == |src| then
      Lexed(e, l, [], [Report(l, "Unterminated string.")])
    else
      var lexeme := src[s..e + 1];
      Inside(src, s, e + 1);
      assert lexeme <= src[s..];
      Lexed(e + 1, l, [Token(String, lexeme, Text(src[s + 1..e]), l)], [])
  }

  /** StringLexeme spelt out at the closing quote e. */
  lemma StringLexemeAt(src: string, s: nat, line: int, e: nat, l: int)
    requires s < |src| && src[s] == Quote && e == QuoteEnd(src, s + 1)
    requires l == line + LineBreaks(src, s, e)
    ensures e == |src| ==> StringLexeme(src, s, line) == Lexed(e, l, [], [Report(l, "Unterminated string.")])
    ensures e < |src| ==> StringLexeme(src, s, line) == Lexed(e + 1, l, [Token(String, src[s..e + 1], Text(src[s + 1..e]), l)], [])
  {
  }

  /** `number()` after the first digit at s. */
  function NumberLexeme(src: string, s: nat, line: int): (r: Lexed)
    requires s < |src| && IsDigit(src[s])
    ensures r.next == NumberEnd(src, s + 1) && r.line == line && r.reports == []
    ensures LineBreaks(src, s, NumberEnd(src, s + 1)) == 0
    ensures r.tokens == [Token(Number, src[s..NumberEnd(src, s + 1)], Numeral(src[s..NumberEnd(src, s + 1)]), line)]
  {
    var e := NumberEnd(src, s + 1);
    LineBreaksNone(src, s, e);
    Emit(src, s, e, Number, Numeral(src[s..e]), line)
  }

  /** `identifier()` after the first letter or `_` at s. */
  function IdentifierLexeme(src: string, s: nat, line: int): (r: Lexed)
    requires s < |src| && IsAlpha(src[s])
    ensures r.next == AlnumEnd(src, s + 1) && r.line == line && r.reports == []
    ensures LineBreaks(src, s, AlnumEnd(src, s + 1)) == 0
    ensures r.tokens == [Token(WordKind(src[s..AlnumEnd(src, s + 1)]), src[s..AlnumEnd(src, s + 1)], NoLiteral, line)]
  {
    var e := AlnumEnd(src, s + 1);
    LineBreaksNone(src, s, e);
    Emit(src, s, e, WordKind(src[s..e]), NoLiteral, line)
  }

  /** What `scanToken` does when the lexeme starts at s and the line counter is `line`. */
  function Step(src: string, s: nat, line: int): (r: Lexed)
    requires s < |src|
    ensures s < r.next <= |src|
    ensures r.line == line + LineBreaks(src, s, r.next)
    ensures |r.tokens| <= 1 && |r.reports| <= 1
    ensures forall t <- r.tokens :: t.lexeme <= src[s..] && s + |t.lexeme| == r.next && t.line == r.line && t.kind != Eof
  {
    var p := Punctuation(src, s, line);
    var c := src[s];
    if p.Some? then p.value
    else if c == Quote then StringLexeme(src, s, line)
    else if IsDigit(c) then NumberLexeme(src, s, line)
    else if IsAlpha(c) then IdentifierLexeme(src, s, line)
    else Lexed(s + 1, line, [], [Report(line, "Unexpected character.")])
  }

  /** What the `scanTokens` loop appends, reports and leaves in `line` when it starts at i. */
  function ScanFrom(src: string, i: nat, line: int): (r: Scanned)
    requires i <= |src|
    ensures forall t <- r.tokens :: t.kind != Eof
    ensures r.line == line + LineBreaks(src, i, |src|)
    decreases |src| - i
  {
    if i == |src| then Scanned([], line, [])
    else
      var st := Step(src, i, line);
      var rest := ScanFrom(src, st.next, st.line);
      LineBreaksSplit(src, i, st.next, |src|);
      Scanned(st.tokens + rest.tokens, rest.line, st.reports + rest.reports)
  }

  /** One scanning step moves the step's output from the rest of the source to what is done. */
  lemma {:induction false} ScanFromStep(src: string, i: nat, line: int, done: seq<Token>, said: seq<Report>)
    requires i < |src|
    ensures var st := Step(src, i, line);
      var now, rest := ScanFrom(src, i, line), ScanFrom(src, st.next, st.line);
      done + now.tokens == (done + st.tokens) + rest.tokens &&
      said + now.reports == (said + st.reports) + rest.reports && now.line == rest.line
  {
    var st := Step(src, i, line);
    var rest := ScanFrom(src, st.next, st.line);
    assert ScanFrom(src, i, line) == Scanned(st.tokens + rest.tokens, rest.line, st.reports + rest.reports);
  }

  /**
   * The token list `scanTokens` returns for a fresh scanner: exactly one
   * EOF token, last, carrying the final line.
   */
  function Scan(src: string): (r: seq<Token>)
    ensures |r| > 0 && r[|r| - 1] == Token(Eof, "", NoLiteral, 1 + LineBreaks(src, 0, |src|))
    ensures forall k :: 0 <= k < |r| - 1 ==> r[k].kind != Eof
  {
    var s := ScanFrom(src, 0, 1);
    s.tokens + [Token(Eof, "", NoLiteral, s.line)]
  }

  /** The diagnostics a fresh scanner hands to `Lox.error`. */
  function Reports(src: string): seq<Report>
  {
    ScanFrom(src, 0, 1).reports
  }

  /** Every token's lexeme is the stretch of source it was scanned from. */
  lemma {:induction false} ScanFromLocated(src: string, i: nat, line: int)
    requires i <= |src|
    ensures forall t <- ScanFrom(src, i, line).tokens :: Located(src, i, line, t)
    decreases |src| - i
  {
    if i < |src| {
      var st := Step(src, i, line);
      ScanFromLocated(src, st.next, st.line);
      forall t <- ScanFrom(src, i, line).tokens ensures Located(src, i, line, t) {
        if t in st.tokens {
          assert t.lexeme == src[i..st.next] && t.line == line + LineBreaks(src, i, st.next);
        } else {
          assert t in ScanFrom(src, st.next, st.line).tokens;
          var a, b :| st.next <= a < b <= |src| && t.lexeme == src[a..b] && t.line == st.line + LineBreaks(src, st.next, b);
          LineBreaksSplit(src, i, st.next, b);
        }
      }
    }
  }

  /**
   * A number is a maximal run of digits, followed by `.` and a second run
   * only when the `.` is followed by a digit; its literal is its own text.
   */
  lemma NumbersAreMaximal(src: string, s: nat, line: int)
    requires s < |src| && IsDigit(src[s])
    ensures var r := Step(src, s, line);
      var lexeme := src[s..r.next];
      r.tokens == [Token(Number, lexeme, Numeral(lexeme), line)] && r.reports == [] &&
      (forall j :: s <= j < r.next ==> IsDigit(src[j]) || (src[j] == '.' && j + 1 < r.next && IsDigit(src[j + 1]))) &&
      (r.next < |src| ==> !IsDigit(src[r.next])) &&
      (forall j, k :: s <= j < k < r.next && src[j] == '.' ==> src[k] != '.')
  {
    assert Punctuation(src, s, line) == None;
    NumberShape(src, s + 1);
  }

  /** `1.` stops before the dot, which is then scanned as a DOT token. */
  lemma TrailingDotIsNotAFraction()
    ensures Scan("1.") == [
      Token(Number, "1", Numeral("1"), 1), Token(Dot, ".", NoLiteral, 1), Token(Eof, "", NoLiteral, 1)]
  {
    var src := "1.";
    NumberBeforeDot();
    SingleCharacterTokens(src, 1, 1);
    assert Step(src, 1, 1) == Lexed(2, 1, [Token(Dot, ".", NoLiteral, 1)], []);
    assert ScanFrom(src, 1, 1).tokens == [Token(Dot, ".", NoLiteral, 1)];
  }

  /** The first step of scanning `1.`: the number stops before the dot. */
  lemma NumberBeforeDot()
    ensures Step("1.", 0, 1) == Lexed(1, 1, [Token(Number, "1", Numeral("1"), 1)], [])
  {
    var src := "1.";
    assert DigitsEnd(src, 1) == 1;
    assert NumberEnd(src, 1) == 1;
    assert src[0..1] == "1";
    assert Punctuation(src, 0, 1) == None;
  }

  /**
   * A terminated string's literal is its body without the quotes; line
   * breaks in the body bump the line counter, and the token carries the
   * counter reached at the closing quote.
   */
  lemma StringsExcludeQuotes(src: string, s: nat, e: nat, line: int)
    requires s < e < |src| && src[s] == Quote && src[e] == Quote
    requires forall k :: s < k < e ==> src[k] != Quote
    ensures src[s..e + 1] == [Quote] + src[s + 1..e] + [Quote]
    ensures var l := line + LineBreaks(src, s + 1, e);
      Step(src, s, line) == Lexed(e + 1, l, [Token(String, src[s..e + 1], Text(src[s + 1..e]), l)], [])
  {
    StepOnQuote(src, s, line);
    QuoteEndAt(src, s + 1, e);
    StringLexemeAt(src, s, line, e, line + LineBreaks(src, s, e));
    LineBreaksCons(src, s, e);
    Enclosed(src, s, e);
  }

  /**
   * An unterminated string runs to the end of the source, reports
   * "Unterminated string." at the line reached there, and adds no token.
   */
  lemma UnterminatedString(src: string, s: nat, line: int)
    requires s < |src| && src[s] == Quote
    requires forall j :: s < j < |src| ==> src[j] != Quote
    ensures Step(src, s, line) == Lexed(|src|, line + LineBreaks(src, s, |src|), [], [Report(line + LineBreaks(src, s, |src|), "Unterminated string.")])
  {
    StepOnQuote(src, s, line);
    QuoteEndAt(src, s + 1, |src|);
  }

  /** A double quote starts a string literal. */
  lemma StepOnQuote(src: string, s: nat, line: int)
    requires s < |src| && src[s] == Quote
    ensures Step(src, s, line) == StringLexeme(src, s, line)
  {
    assert Punctuation(src, s, line) == None;
  }

  /**
   * An identifier is a maximal run of letters, digits and `_`; it takes a
   * keyword's kind exactly when the whole run is that keyword.
   */
  lemma IdentifiersAreMaximal(src: string, s: nat, line: int)
    requires s < |src| && IsAlpha(src[s])
    ensures var r := Step(src, s, line);
      var text := src[s..r.next];
      |r.tokens| == 1 && r.reports == [] && r.tokens[0].lexeme == text &&
      (forall j :: s <= j < r.next ==> IsAlphaNumeric(src[j])) &&
      (r.next < |src| ==> !IsAlphaNumeric(src[r.next])) &&
      (text in Keywords ==> r.tokens[0].kind == Keywords[text]) &&
      (text !in Keywords ==> r.tokens[0].kind == Identifier)
  {
    assert Punctuation(src, s, line) == None;
  }

  /** `printed` scans as one identifier, not as `print` followed by `ed`. */
  lemma PrintedIsAnIdentifier()
    ensures Step("printed", 0, 1) == Lexed(7, 1, [Token(Identifier, "printed", NoLiteral, 1)], [])
  {
    var src := "printed";
    PrintedIsOneWord();
    assert src[0..7] == src;
    assert WordKind(src) == Identifier;
    assert Punctuation(src, 0, 1) == None;
  }

  lemma PrintedIsOneWord()
    ensures AlnumEnd("printed", 1) == 7
  {
    var src := "printed";
    assert AlnumEnd(src, 7) == 7;
    assert AlnumEnd(src, 6) == 7;
    assert AlnumEnd(src, 5) == 7;
    assert AlnumEnd(src, 4) == 7;
    assert AlnumEnd(src, 3) == 7;
    assert AlnumEnd(src, 2) == 7;
  }

  /** Any other character is reported as unexpected at the current line, and scanning goes on. */
  lemma UnexpectedCharacters(src: string, s: nat, line: int)
    requires s < |src|
    requires Punctuation(src, s, line) == None && src[s] != Quote && !IsAlphaNumeric(src[s])
    ensures Step(src, s, line) == Lexed(s + 1, line, [], [Report(line, "Unexpected character.")])
  {
  }

  /** The scanner of Scanner.java: a cursor over `source` that appends to `tokens`. */
  class Scanner {
    const source: string
    var tokens: seq<Token>
    var start: nat
    var current: nat
    var line: int
    /** What was handed to `Lox.error`, in order. */
    var reports: seq<Report>

    constructor (source: string)
      ensures this.source == source && tokens == [] && reports == []
      ensures start == 0 && current == 0 && line == 1
    {
      this.source := source;
      tokens := [];
      start, current, line := 0, 0, 1;
      reports := [];
    }

    /** `isAtEnd`; short of the end the cursor is on a character. */
    predicate IsAtEnd()
      reads this
      ensures !IsAtEnd() ==> current < |source|
    {
      current >= |source|
    }

    /** `peek`: the character at the cursor, `'\0'` at the end. */
    function Peek(): (c: char)
      reads this
      ensures current < |source| ==> c == source[current]
      ensures current >= |source| ==> c == '\0'
    {
      if IsAtEnd() then '\0' else source[current]
    }

    /** `peekNext`: the character after the cursor, `'\0'` past the end. */
    function PeekNext(): (c: char)
      reads this
      ensures current + 1 < |source| ==> c == source[current + 1]
      ensures current + 1 >= |source| ==> c == '\0'
    {
      if current + 1 >= |source| then '\0' else source[current + 1]
    }

    method Advance() returns (c: char)
      requires current < |source|
      modifies this`current
      ensures c == source[old(current)] && current == old(current) + 1
    {
      current := current + 1;
      c := source[current - 1];
    }

    /** Consumes the next character only when it is `expected`. */
    method Match(expected: char) returns (matched: bool)
      modifies this`current
      ensures matched <==> old(current) < |source| && source[old(current)] == expected
      ensures current == if matched then old(current) + 1 else old(current)
    {
      if IsAtEnd() {
        return false;
      }
      if source[current] != expected {
        return false;
      }
      current := current + 1;
      return true;
    }

    method AddToken(kind: Kind, literal: Literal)
      requires start <= current <= |source|
      modifies this`tokens
      ensures tokens == old(tokens) + [Token(kind, source[start..current], literal, line)]
    {
      var text := source[start..current];
      tokens := tokens + [Token(kind, text, literal, line)];
    }

    /** identifier() */
    method ScanIdentifier()
      requires start < current == start + 1 <= |source| && IsAlpha(source[start])
      modifies this`current, this`tokens
      ensures current == AlnumEnd(source, start + 1)
      ensures tokens == old(tokens) + [Token(WordKind(source[start..current]), source[start..current], NoLiteral, line)]
    {
      while IsAlphaNumeric(Peek())
        invariant start + 1 <= current <= |source| && tokens == old(tokens)
        invariant forall j :: start + 1 <= j < current ==> IsAlphaNumeric(source[j])
        decreases |source| - current
      {
        var _ := Advance();
      }
      AlnumEndAt(source, start + 1, current);
      var text := source[start..current];
      AddToken(WordKind(text), NoLiteral);
    }

    /** number() */
    method ScanNumber()
      requires start < current == start + 1 <= |source| && IsDigit(source[start])
      modifies this`current, this`tokens
      ensures current == NumberEnd(source, start + 1)
      ensures tokens == old(tokens) + [Token(Number, source[start..current], Numeral(source[start..current]), line)]
    {
      while IsDigit(Peek())
        invariant start + 1 <= current <= |source| && tokens == old(tokens)
        invariant forall j :: start + 1 <= j < current ==> IsDigit(source[j])
        decreases |source| - current
      {
        var _ := Advance();
      }
      DigitsEndAt(source, start + 1, current);
      if Peek() == '.' && IsDigit(PeekNext()) {
        var _ := Advance();
        ghost var f := current;
        while IsDigit(Peek())
          invariant f <= current <= |source| && tokens == old(tokens)
          invariant forall j :: f <= j < current ==> IsDigit(source[j])
          decreases |source| - current
        {
          var _ := Advance();
        }
        DigitsEndAt(source, f, current);
      }
      AddToken(Number, Numeral(source[start..current]));
    }

    /** string() */
    method ScanString()
      requires start < current == start + 1 <= |source| && source[start] == Quote
      modifies this`current, this`tokens, this`line, this`reports
      ensures var r := StringLexeme(source, old(start), old(line));
        current == r.next && line == r.line &&
        tokens == old(tokens) + r.tokens && reports == old(reports) + r.reports
    {
      while Peek() != Quote && !IsAtEnd()
        invariant start + 1 <= current <= |source|
        invariant forall j :: start + 1 <= j < current ==> source[j] != Quote
        invariant line == old(line) + LineBreaks(source, start + 1, current)
        invariant tokens == old(tokens) && reports == old(reports)
        decreases |source| - current
      {
        if Peek() == '\n' {
          line := line + 1;
        }
        var _ := Advance();
      }
      QuoteEndAt(source, start + 1, current);
      LineBreaksCons(source, start, current);
      StringLexemeAt(source, start, old(line), current, line);
      if IsAtEnd() {
        reports := reports + [Report(line, "Unterminated string.")];
        return;
      }
      ghost var e := current;
      var _ := Advance();
      var value := source[start + 1..current - 1];
      assert current == e + 1 && value == source[start + 1..e];
      AddToken(String, Text(value));
    }

    /** The branches of `scanToken` for punctuation, operators, comments, blanks and line breaks. */
    method ScanPunctuation(c: char)
      requires start < current == start + 1 <= |source| && c == source[start]
      requires SingleKind(c).Some? || IsOperatorStart(c) || c in "/ \r\t\n"
      modifies this`current, this`tokens, this`line
      ensures var r := Punctuation(source, start, old(line)).value;
        current == r.next && line == r.line && tokens == old(tokens) + r.tokens
    {
      if SingleKind(c).Some? {
        AddToken(SingleKind(c).value, NoLiteral);
      } else if IsOperatorStart(c) {
        var two := Match('=');
        AddToken(OperatorKind(c, two), NoLiteral);
      } else if c == '/' {
        var comment := Match('/');
        if comment {
          while Peek() != '\n' && !IsAtEnd()
            invariant start + 2 <= current <= |source|
            invariant forall j :: start + 2 <= j < current ==> source[j] != '\n'
            invariant line == old(line) && tokens == old(tokens)
            decreases |source| - current
          {
            var _ := Advance();
          }
          LineEndAt(source, start + 2, current);
        } else {
          AddToken(Slash, NoLiteral);
        }
      } else if c == '\n' {
        line := line + 1;
      }
    }

    method ScanToken()
      requires start == current < |source|
      modifies this`current, this`tokens, this`line, this`reports
      ensures var r := Step(source, old(current), old(line));
        current == r.next && line == r.line &&
        tokens == old(tokens) + r.tokens && reports == old(reports) + r.reports
    {
      var c := Advance();
      if SingleKind(c).Some? || IsOperatorStart(c) || c in "/ \r\t\n" {
        ScanPunctuation(c);
      } else if c == Quote {
        ScanString();
      } else if IsDigit(c) {
        ScanNumber();
      } else if IsAlpha(c) {
        ScanIdentifier();
      } else {
        reports := reports + [Report(line, "Unexpected character.")];
      }
    }

    method ScanTokens() returns (result: seq<Token>)
      requires current <= |source|
      modifies this`start, this`current, this`tokens, this`line, this`reports
      ensures var s := ScanFrom(source, old(current), old(line));
        tokens == old(tokens) + s.tokens + [Token(Eof, "", NoLiteral, s.line)] &&
        line == s.line && reports == old(reports) + s.reports
      ensures current == |source| && result == tokens
    {
      ghost var total := ScanFrom(source, current, line);
      ghost var tokens0, reports0 := tokens, reports;
      while !IsAtEnd()
        invariant current <= |source|
        invariant var s := ScanFrom(source, current, line);
          tokens0 + total.tokens == tokens + s.tokens &&
          reports0 + total.reports == reports + s.reports && total.line == s.line
        decreases |source| - current
      {
        ScanFromStep(source, current, line, tokens, reports);
        start := current;
        ScanToken();
      }
      tokens := tokens + [Token(Eof, "", NoLiteral, line)];
      result := tokens;
    }
  }

  /** A fresh scanner's scanTokens returns Scan(source) and reports Reports(source). */
  method ScanSource(source: string) returns (tokens: seq<Token>, reports: seq<Report>)
    ensures tokens == Scan(source) && reports == Reports(source)
  {
    var scanner := new Scanner(source);
    tokens := scanner.ScanTokens();
    reports := scanner.reports;
  }
}
