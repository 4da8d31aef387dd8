/**
 * Character classes, tables and cursor runs that the scanners share: the
 * keyword table, the kinds of the fixed-spelling tokens, and the positions
 * where a comment, a digit run, an identifier or a string literal stops.
 */
module Lexing {
  import opened Tokens

  /** The double quote that opens and closes a string literal (code point 34). */
  const Quote: char := 34 as char

  predicate IsDigit(c: char) { '0' <= c <= '9' }

  predicate IsAlpha(c: char) { 'a' <= c <= 'z' || 'A' <= c <= 'Z' || c == '_' }

  predicate IsAlphaNumeric(c: char) { IsAlpha(c) || IsDigit(c) }

  /** Number of line breaks in src[a..b]. */
  function LineBreaks(src: string, a: nat, b: nat): (r: nat)
    requires a <= b <= |src|
    ensures r <= b - a
    decreases b
  {
    if a == b then 0 else LineBreaks(src, a, b - 1) + if src[b - 1] == '\n' then 1 else 0
  }

  /** Line breaks add up over adjacent stretches. */
  lemma {:induction false} LineBreaksSplit(src: string, a: nat, m: nat, b: nat)
    requires a <= m <= b <= |src|
    ensures LineBreaks(src, a, b) == LineBreaks(src, a, m) + LineBreaks(src, m, b)
    decreases b
  {
    if m < b {
      LineBreaksSplit(src, a, m, b - 1);
    }
  }

  /** Dropping the first character of a stretch uncounts that character alone. */
  lemma LineBreaksCons(src: string, a: nat, b: nat)
    requires a < b <= |src|
    ensures LineBreaks(src, a, b) == LineBreaks(src, a + 1, b) + if src[a] == '\n' then 1 else 0
  {
    LineBreaksSplit(src, a, a + 1, b);
  }

  /** A stretch without a line break counts none. */
  lemma {:induction false} LineBreaksNone(src: string, a: nat, b: nat)
    requires a <= b <= |src|
    requires forall j :: a <= j < b ==> src[j] != '\n'
    ensures LineBreaks(src, a, b) == 0
    decreases b
  {
    if a < b {
      LineBreaksNone(src, a, b - 1);
    }
  }

  /** The text of every kind whose tokens are always spelt the same way. */
  function Spelling(k: Kind): Option<string>
  {
    match k
    case LeftParen => Some("(")
    case RightParen => Some(")")
    case LeftBrace => Some("{")
    case RightBrace => Some("}")
    case Comma => Some(",")
    case Dot => Some(".")
    case Minus => Some("-")
    case Plus => Some("+")
    case Semicolon => Some(";")
    case Slash => Some("/")
    case Star => Some("*")
    case Bang => Some("!")
    case BangEqual => Some("!=")
    case Equal => Some("=")
    case EqualEqual => Some("==")
    case Greater => Some(">")
    case GreaterEqual => Some(">=")
    case Less => Some("<")
    case LessEqual => Some("<=")
    case And => Some("and")
    case Class => Some("class")
    case Else => Some("else")
    case False => Some("false")
    case Fun => Some("fun")
    case For => Some("for")
    case If => Some("if")
    case Nil => Some("nil")
    case Or => Some("or")
    case Print => Some("print")
    case Return => Some("return")
    case Super => Some("super")
    case This => Some("this")
    case True => Some("true")
    case Var => Some("var")
    case While => Some("while")
    case _ => None
  }

  /** The characters that always form a one-character token on their own. */
  function SingleKind(c: char): Option<Kind>
  {
    match c
    case '(' => Some(LeftParen)
    case ')' => Some(RightParen)
    case '{' => Some(LeftBrace)
    case '}' => Some(RightBrace)
    case ',' => Some(Comma)
    case '.' => Some(Dot)
    case '-' => Some(Minus)
    case '+' => Some(Plus)
    case ';' => Some(Semicolon)
    case '*' => Some(Star)
    case _ => None
  }

  /** `!`, `=`, `<` and `>`, and the kind they form with or without a trailing `=`. */
  predicate IsOperatorStart(c: char) { c == '!' || c == '=' || c == '<' || c == '>' }

  function OperatorKind(c: char, withEqual: bool): Kind
    requires IsOperatorStart(c)
  {
    match c
    case '!' => if withEqual then BangEqual else Bang
    case '=' => if withEqual then EqualEqual else Equal
    case '<' => if withEqual then LessEqual else Less
    case '>' => if withEqual then GreaterEqual else Greater
  }

  /** The reserved words and their kinds (Scanner.java's `keywords`, scanner.rs's `keywords()`). */
  const Keywords: map<string, Kind> := map[
    "and" := And, "class" := Class, "else" := Else, "false" := False,
    "for" := For, "fun" := Fun, "if" := If, "nil" := Nil, "or" := Or,
    "print" := Print, "return" := Return, "super" := Super, "this" := This,
    "true" := True, "var" := Var, "while" := While]

  /** Exact-match keyword lookup: a keyword's own kind, anything else an identifier. */
  function WordKind(text: string): (k: Kind)
    ensures k == Identifier <==> text !in Keywords
  {
    if text in Keywords then Keywords[text] else Identifier
  }

  /** Where a `//` comment stops: the first line break at or after i, or the end. */
  function LineEnd(src: string, i: nat): (r: nat)
    requires i <= |src|
    ensures i <= r <= |src|
    ensures forall j :: i <= j < r ==> src[j] != '\n'
    ensures r < |src| ==> src[r] == '\n'
    decreases |src| - i
  {
    if i == |src| || src[i] == '\n' then i else LineEnd(src, i + 1)
  }

  /** Where a string body stops: the first double quote at or after i, or the end. */
  function QuoteEnd(src: string, i: nat): (r: nat)
    requires i <= |src|
    ensures i <= r <= |src|
    ensures forall j :: i <= j < r ==> src[j] != Quote
    ensures r < |src| ==> src[r] == Quote
    decreases |src| - i
  {
    if i == |src| || src[i] == Quote then i else QuoteEnd(src, i + 1)
  }

  /** The end of the maximal digit run starting at i. */
  function DigitsEnd(src: string, i: nat): (r: nat)
    requires i <= |src|
    ensures i <= r <= |src|
    ensures forall j :: i <= j < r ==> IsDigit(src[j])
    ensures r < |src| ==> !IsDigit(src[r])
    decreases |src| - i
  {
    if i < |src| && IsDigit(src[i]) then DigitsEnd(src, i + 1) else i
  }

  /** The end of the maximal run of letters, digits and `_` starting at i. */
  function AlnumEnd(src: string, i: nat): (r: nat)
    requires i <= |src|
    ensures i <= r <= |src|
    ensures forall j :: i <= j < r ==> IsAlphaNumeric(src[j])
    ensures r < |src| ==> !IsAlphaNumeric(src[r])
    decreases |src| - i
  {
    if i < |src| && IsAlphaNumeric(src[i]) then AlnumEnd(src, i + 1) else i
  }

  /** A stretch is its first character, its inside and its last character. */
  lemma Enclosed(src: string, s: nat, e: nat)
    requires s < e < |src|
    ensures src[s..e + 1] == [src[s]] + src[s + 1..e] + [src[e]]
  {
  }

  /** Dropping the first and last characters of the stretch s..e leaves s + 1..e - 1. */
  lemma Inside(src: string, s: nat, e: nat)
    requires s + 2 <= e <= |src|
    ensures var w := src[s..e]; w[1..|w| - 1] == src[s + 1..e - 1]
  {
    var w := src[s..e];
    var inner := w[1..|w| - 1];
    assert |inner| == |src[s + 1..e - 1]|;
    forall k | 0 <= k < |inner|
      ensures inner[k] == src[s + 1..e - 1][k]
    {
      assert inner[k] == w[k + 1] == src[s + 1 + k];
    }
  }

  /** LineEnd(src, i) is the k that the loop of a `//` comment stops at. */
  lemma {:induction false} LineEndAt(src: string, i: nat, k: nat)
    requires i <= k <= |src|
    requires forall j :: i <= j < k ==> src[j] != '\n'
    requires k < |src| ==> src[k] == '\n'
    ensures LineEnd(src, i) == k
    decreases k - i
  {
    if i < k { LineEndAt(src, i + 1, k); }
  }

  /** QuoteEnd(src, i) is the k that the loop of a string literal stops at. */
  lemma {:induction false} QuoteEndAt(src: string, i: nat, k: nat)
    requires i <= k <= |src|
    requires forall j :: i <= j < k ==> src[j] != Quote
    requires k < |src| ==> src[k] == Quote
    ensures QuoteEnd(src, i) == k
    decreases k - i
  {
    if i < k { QuoteEndAt(src, i + 1, k); }
  }

  /** DigitsEnd(src, i) is the k that a digit loop stops at. */
  lemma {:induction false} DigitsEndAt(src: string, i: nat, k: nat)
    requires i <= k <= |src|
    requires forall j :: i <= j < k ==> IsDigit(src[j])
    requires k < |src| ==> !IsDigit(src[k])
    ensures DigitsEnd(src, i) == k
    decreases k - i
  {
    if i < k { DigitsEndAt(src, i + 1, k); }
  }

  /** AlnumEnd(src, i) is the k that an identifier loop stops at. */
  lemma {:induction false} AlnumEndAt(src: string, i: nat, k: nat)
    requires i <= k <= |src|
    requires forall j :: i <= j < k ==> IsAlphaNumeric(src[j])
    requires k < |src| ==> !IsAlphaNumeric(src[k])
    ensures AlnumEnd(src, i) == k
    decreases k - i
  {
    if i < k { AlnumEndAt(src, i + 1, k); }
  }

  /**
   * The end of a number literal whose first digit is just before i: the
   * digit run, then a `.` and a second digit run only when the `.` is
   * followed by a digit.
   */
  function NumberEnd(src: string, i: nat): (r: nat)
    requires i <= |src|
    ensures i <= r <= |src|
    ensures forall j :: i <= j < r ==> src[j] != '\n'
  {
    var d := DigitsEnd(src, i);
    if d + 1 < |src| && src[d] == '.' && IsDigit(src[d + 1]) then DigitsEnd(src, d + 1) else d
  }

  /**
   * What NumberEnd stops at: digits, and at most one `.` that is followed
   * by a digit; the next character is no digit, and when no `.` was taken
   * the next two characters are not a `.` and a digit.
   */
  lemma NumberShape(src: string, i: nat)
    requires i <= |src|
    ensures var r := NumberEnd(src, i);
      (forall j :: i <= j < r ==> IsDigit(src[j]) || (src[j] == '.' && j + 1 < r && IsDigit(src[j + 1]))) &&
      (forall j, k :: i <= j < k < r && src[j] == '.' ==> src[k] != '.') &&
      (r < |src| ==> !IsDigit(src[r])) &&
      ((forall j :: i <= j < r ==> src[j] != '.') ==> !(r + 1 < |src| && src[r] == '.' && IsDigit(src[r + 1])))
  {
  }

  /** A lexeme with a single token, spanning s to e, at the given line. */
  function Emit(src: string, s: nat, e: nat, kind: Kind, literal: Literal, line: int): Lexed
    requires s <= e <= |src|
  {
    Lexed(e, line, [Token(kind, src[s..e], literal, line)], [])
  }

  /**
   * The branches of `scanToken` that the Go, Java and Rust scanners share:
   * the ten one-character tokens, `! = < >` with an optional `=`, `/` and
   * `//` comments, blanks and line breaks.  None for any other character.
   */
  function Punctuation(src: string, s: nat, line: int): (r: Option<Lexed>)
    requires s < |src|
    ensures r.Some? <==> SingleKind(src[s]).Some? || IsOperatorStart(src[s]) || src[s] in "/ \r\t\n"
    ensures r.Some? ==> s < r.value.next <= |src| && r.value.reports == [] && |r.value.tokens| <= 1
    ensures r.Some? ==> r.value.line == line + LineBreaks(src, s, r.value.next)
    ensures r.Some? ==> forall t <- r.value.tokens ::
      t == Token(t.kind, t.lexeme, NoLiteral, line) && t.lexeme <= src[s..] && s + |t.lexeme| == r.value.next &&
      r.value.line == line && t.kind != Eof
  {
    var c := src[s];
    assert src[s..s + 1] == [c];
    if SingleKind(c).Some? then
      Some(Emit(src, s, s + 1, SingleKind(c).value, NoLiteral, line))
    else if IsOperatorStart(c) then
      var two := s + 1 < |src| && src[s + 1] == '=';
      assert two ==> src[s..s + 2] == [c, '='];
      Some(Emit(src, s, if two then s + 2 else s + 1, OperatorKind(c, two), NoLiteral, line))
    else if c == '/' then
      if s + 1 < |src| && src[s + 1] == '/' then
        var e := LineEnd(src, s + 2);
        LineBreaksNone(src, s, e);
        Some(Lexed(e, line, [], []))
      else
        Some(Emit(src, s, s + 1, Slash, NoLiteral, line))
    else if c == ' ' || c == '\r' || c == '\t' then
      Some(Lexed(s + 1, line, [], []))
    else if c == '\n' then
      Some(Lexed(s + 1, line + 1, [], []))
    else
      None
  }

  /** A keyword's kind is spelt as the keyword itself. */
  lemma KeywordsAreSpelt(text: string)
    ensures WordKind(text) == Identifier || Spelling(WordKind(text)) == Some(text)
  {
    if text in Keywords {
      KeywordTable(text, Keywords[text]);
    }
  }

  lemma KeywordTable(text: string, k: Kind)
    requires text in Keywords && Keywords[text] == k
    ensures Spelling(k) == Some(text)
  {
    match k
    case And => assert text == "and";
    case Class => assert text == "class";
    case Else => assert text == "else";
    case False => assert text == "false";
    case For => assert text == "for";
    case Fun => assert text == "fun";
    case If => assert text == "if";
    case Nil => assert text == "nil";
    case Or => assert text == "or";
    case Print => assert text == "print";
    case Return => assert text == "return";
    case Super => assert text == "super";
    case This => assert text == "this";
    case True => assert text == "true";
    case Var => assert text == "var";
    case While => assert text == "while";
    case _ =>
  }

  /**
   * Every token of the shared punctuation branches is spelt exactly as its
   * kind: its lexeme is the kind's fixed text.
   */
  lemma PunctuationIsSpelt(src: string, s: nat, line: int)
    requires s < |src|
    ensures var r := Punctuation(src, s, line);
      r.Some? ==> forall t <- r.value.tokens :: Spelling(t.kind) == Some(t.lexeme)
  {
    var c := src[s];
    assert src[s..s + 1] == [c];
    if s + 1 < |src| {
      assert src[s..s + 2] == [c, src[s + 1]];
    }
  }

  /** `( ) { } , . - + ; *` each give one token of their own kind. */
  lemma SingleCharacterTokens(src: string, s: nat, line: int)
    requires s < |src| && SingleKind(src[s]).Some?
    ensures Punctuation(src, s, line) == Some(Lexed(s + 1, line, [Token(SingleKind(src[s]).value, [src[s]], NoLiteral, line)], []))
  {
    assert src[s..s + 1] == [src[s]];
  }

  /** `!`, `=`, `<`, `>` take a following `=` into a two-character token, and only then. */
  lemma OperatorsMunchEqual(src: string, s: nat, line: int)
    requires s < |src| && IsOperatorStart(src[s])
    ensures var r := Punctuation(src, s, line).value;
      |r.tokens| == 1 && r.reports == [] && r.line == line &&
      (r.tokens[0].lexeme == [src[s], '='] <==> s + 1 < |src| && src[s + 1] == '=') &&
      (r.tokens[0].lexeme == [src[s]] <==> !(s + 1 < |src| && src[s + 1] == '='))
  {
  }

  /** `//` emits nothing and stops just before the next line break, which is scanned next. */
  lemma CommentStopsBeforeNewline(src: string, s: nat, line: int)
    requires s + 1 < |src| && src[s] == '/' && src[s + 1] == '/'
    ensures var r := Punctuation(src, s, line).value;
      r.tokens == [] && r.reports == [] && r.line == line &&
      (forall j :: s + 2 <= j < r.next ==> src[j] != '\n') &&
      (r.next < |src| ==> src[r.next] == '\n')
  {
  }

  /** A line break emits nothing and bumps the line counter by exactly one; blanks emit nothing. */
  lemma Whitespace(src: string, s: nat, line: int)
    requires s < |src| && src[s] in " \r\t\n"
    ensures Punctuation(src, s, line) == Some(Lexed(s + 1, if src[s] == '\n' then line + 1 else line, [], []))
  {
  }

  /**
   * A token scanned from position i on with line counter `line` is a
   * stretch src[a..b] of the source, and its line is the counter reached
   * at the end of that stretch.
   */
  ghost predicate Located(src: string, i: nat, line: int, t: Token)
    requires i <= |src|
  {
    exists a, b :: i <= a < b <= |src| && t.lexeme == src[a..b] && t.line == line + LineBreaks(src, i, b)
  }

  /** `printed` is an identifier: keywords match exactly, never as prefixes. */
  lemma KeywordsMatchExactly()
    ensures WordKind("printed") == Identifier && WordKind("print") == Print
  {
  }
}
