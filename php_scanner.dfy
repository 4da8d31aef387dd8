/**
 * The PHP scanner (php/lox/Scanner.php), modelled as PHP executes it.
 *
 * Three PHP details shape what it does:
 *  - the cases '\r', '\t' and '\n' are single-quoted, so each is the
 *    two-character text backslash-letter and no scanned character equals
 *    it: a real carriage return, tab or line feed is an unexpected
 *    character, comments run to the end of the source, and the line
 *    counter never moves;
 *  - `substr(source, start, current)` takes a length as its third
 *    argument, so a lexeme that does not start at 0 runs on past the
 *    cursor;
 *  - `peekNext` compares the integer `current + 1` with the source text
 *    itself, which PHP does numerically for a numeric source and as
 *    text otherwise.
 *
 * Step and ScanFrom say, as functions, what one `scanToken` call and the
 * `scanTokens` loop do; the class Scanner is the cursor-driven state
 * machine of the source, proved against them.
 */
module PhpScanner {
  import opened Tokens
  import opened Lexing

  /** PHP's `substr(src, start, length)` for a start inside the source and a length of at least 0. */
  function Substr(src: string, start: nat, length: nat): (r: string)
    requires start <= |src|
    ensures |r| == if start + length <= |src| then length else |src| - start
  {
    src[start..if start + length <= |src| then start + length else |src|]
  }

  /**
   * PHP's `isDigit($c)` on the strings the scanner passes it: one source
   * character, the two-character '\0' of `peek`/`peekNext` at the end,
   * or the empty string of an offset past the end.  Only a single digit
   * lies between "0" and "9".
   */
  predicate IsDigitText(c: string)
  {
    |c| == 1 && IsDigit(c[0])
  }

  // ---------------------------------------------------------------------
  // PHP's comparison of an integer with a string

  /** The blanks PHP allows around a numeric string. */
  predicate IsBlank(c: char)
  {
    c == ' ' || c == '\t' || c == '\n' || c == '\r' || c == '\U{B}' || c == '\U{C}'
  }

  /** Where PHP's recognizer of numeric strings stands. */
  datatype Phase =
    | Lead        // blanks so far
    | Signed      // after the sign
    | Whole       // in the digits before the point
    | Point       // after a point that no digit precedes
    | Fraction    // after the point, with a digit read
    | Mark        // after `e` or `E`
    | MarkSigned  // after the exponent's sign
    | Power       // in the exponent's digits
    | Trail       // in the blanks after the number

  /**
   * What the recognizer has read: the sign, the mantissa's digits as one
   * number, how many of them follow the point, and the exponent.
   */
  datatype Reading = Reading(negative: bool, digits: nat, places: nat, powerNegative: bool, power: nat)

  function Digit(c: char): nat
    requires IsDigit(c)
  {
    c as int - '0' as int
  }

  /** m times 10 to the power e. */
  function Scale(m: real, e: int): real
    decreases if e < 0 then -e else e
  {
    if e == 0 then m else if e > 0 then 10.0 * Scale(m, e - 1) else Scale(m, e + 1) / 10.0
  }

  /** The value a complete reading stands for. */
  function Value(r: Reading): real
  {
    var power := if r.powerNegative then -(r.power as int) else r.power as int;
    Scale(if r.negative then -(r.digits as real) else r.digits as real, power - r.places)
  }

  /** The phases in which a numeric string may end. */
  predicate Accepting(phase: Phase)
  {
    phase.Whole? || phase.Fraction? || phase.Power? || phase.Trail?
  }

  /**
   * PHP's recognizer of numeric strings, from position i on: blanks, an
   * optional sign, digits with an optional `.` and at least one digit in
   * all, an optional exponent `e`/`E` with an optional sign and digits,
   * blanks.  The value of the string when it is numeric, None otherwise.
   */
  function Numeric(s: string, i: nat, phase: Phase, r: Reading): (v: Option<real>)
    requires i <= |s|
    ensures phase.Trail? ==> (v.Some? <==> forall j :: i <= j < |s| ==> IsBlank(s[j]))
    ensures i == |s| ==> (v.Some? <==> Accepting(phase))
    decreases |s| - i
  {
    if i == |s| then
      if Accepting(phase) then Some(Value(r)) else None
    else
      var c := s[i];
      match phase
      case Lead =>
        if IsBlank(c) then Numeric(s, i + 1, Lead, r)
        else if c == '+' || c == '-' then Numeric(s, i + 1, Signed, r.(negative := c == '-'))
        else if IsDigit(c) then Numeric(s, i + 1, Whole, r.(digits := Digit(c)))
        else if c == '.' then Numeric(s, i + 1, Point, r)
        else None
      case Signed =>
        if IsDigit(c) then Numeric(s, i + 1, Whole, r.(digits := Digit(c)))
        else if c == '.' then Numeric(s, i + 1, Point, r)
        else None
      case Whole =>
        if IsDigit(c) then Numeric(s, i + 1, Whole, r.(digits := 10 * r.digits + Digit(c)))
        else if c == '.' then Numeric(s, i + 1, Fraction, r)
        else if c == 'e' || c == 'E' then Numeric(s, i + 1, Mark, r)
        else if IsBlank(c) then Numeric(s, i + 1, Trail, r)
        else None
      case Point =>
        if IsDigit(c) then Numeric(s, i + 1, Fraction, r.(digits := 10 * r.digits + Digit(c), places := r.places + 1))
        else None
      case Fraction =>
        if IsDigit(c) then Numeric(s, i + 1, Fraction, r.(digits := 10 * r.digits + Digit(c), places := r.places + 1))
        else if c == 'e' || c == 'E' then Numeric(s, i + 1, Mark, r)
        else if IsBlank(c) then Numeric(s, i + 1, Trail, r)
        else None
      case Mark =>
        if c == '+' || c == '-' then Numeric(s, i + 1, MarkSigned, r.(powerNegative := c == '-'))
        else if IsDigit(c) then Numeric(s, i + 1, Power, r.(power := Digit(c)))
        else None
      case MarkSigned =>
        if IsDigit(c) then Numeric(s, i + 1, Power, r.(power := Digit(c)))
        else None
      case Power =>
        if IsDigit(c) then Numeric(s, i + 1, Power, r.(power := 10 * r.power + Digit(c)))
        else if IsBlank(c) then Numeric(s, i + 1, Trail, r)
        else None
      case Trail =>
        if IsBlank(c) then Numeric(s, i + 1, Trail, r)
        else None
  }

  /** The value PHP gives a numeric string, None for any other string. */
  function NumericValue(s: string): Option<real>
  {
    Numeric(s, 0, Lead, Reading(false, 0, 0, false, 0))
  }

  /** A bare point or exponent mark is not numeric, and a trailing letter spoils a number. */
  lemma NotNumericExamples()
    ensures NumericValue(".") == None
    ensures NumericValue("1e") == None
    ensures NumericValue("12a") == None
  {
  }

  /** Blanks may surround a numeric string, and an exponent scales it. */
  lemma {:induction false} NumericExamples()
    ensures NumericValue(" 12 ") == Some(12.0)
    ensures NumericValue("1e3") == Some(1000.0)
  {
    var z := Reading(false, 0, 0, false, 0);
    assert Numeric(" 12 ", 4, Trail, z.(digits := 12)) == Some(12.0);
    assert Numeric(" 12 ", 2, Whole, z.(digits := 1)) == Some(12.0);
    assert Scale(1.0, 3) == 1000.0 by {
      assert Scale(1.0, 1) == 10.0;
      assert Scale(1.0, 2) == 100.0;
    }
    assert Numeric("1e3", 3, Power, z.(digits := 1, power := 3)) == Some(1000.0);
    assert Numeric("1e3", 1, Whole, z.(digits := 1)) == Some(1000.0);
  }

  function DigitChar(d: nat): char
    requires d < 10
  {
    ('0' as int + d) as char
  }

  /** An integer's decimal text, as PHP converts it to a string. */
  function Decimal(k: nat): (r: string)
    ensures |r| > 0 && forall j :: 0 <= j < |r| ==> IsDigit(r[j])
  {
    if k < 10 then [DigitChar(k)] else Decimal(k / 10) + [DigitChar(k % 10)]
  }

  /**
   * Byte-wise string order from position i on: the first differing
   * character decides, and a proper prefix is smaller.
   */
  predicate TextBelow(a: string, b: string, i: nat)
    requires i <= |a| && i <= |b|
    decreases |a| - i
  {
    if i == |a| then i < |b|
    else if i == |b| then false
    else if a[i] != b[i] then a[i] < b[i]
    else TextBelow(a, b, i + 1)
  }

  /**
   * PHP's `k >= s` for an integer k and a string s: by value when s is a
   * numeric string, otherwise by comparing k's decimal text with s.
   */
  predicate IntAtLeast(k: nat, s: string)
    ensures NumericValue(s).Some? ==> (IntAtLeast(k, s) <==> k as real >= NumericValue(s).value)
    ensures NumericValue(s).None? && |s| > 0 && s[0] > '9' ==> !IntAtLeast(k, s)
  {
    match NumericValue(s)
    case Some(x) => k as real >= x
    case None => !TextBelow(Decimal(k), s, 0)
  }

  // ---------------------------------------------------------------------
  // One scanning step

  /**
   * Whether `number()` takes a fraction when its digit run ends at d: the
   * next character is `.`, the guard of `peekNext` does not fire, and
   * the character after the `.` exists and is a digit.
   */
  predicate FractionTaken(src: string, d: nat)
    ensures FractionTaken(src, d) && NumericValue(src).Some? ==> ((d + 1) as real) < NumericValue(src).value
  {
    d + 1 < |src| && src[d] == '.' && !IntAtLeast(d + 1, src) && IsDigit(src[d + 1])
  }

  /** Where `number()` leaves the cursor when the first digit is just before i. */
  function NumeralEnd(src: string, i: nat): (r: nat)
    requires i <= |src|
    ensures i <= r <= |src|
  {
    var d := DigitsEnd(src, i);
    if FractionTaken(src, d) then DigitsEnd(src, d + 1) else d
  }

  /** A token added with the cursor at e: its lexeme is `substr(src, s, e)`. */
  function Add(src: string, s: nat, e: nat, kind: Kind, literal: Literal, line: int): Lexed
    requires s <= e <= |src|
  {
    Lexed(e, line, [Token(kind, Substr(src, s, e), literal, line)], [])
  }

  /**
   * The branches of `scanToken` for the ten one-character tokens, `! = < >`
   * with an optional `=`, `/` and `//` comments.  A comment's loop stops
   * only at the end of the source.
   */
  function Symbol(src: string, s: nat, line: int): (r: Lexed)
    requires s < |src| && (SingleKind(src[s]).Some? || IsOperatorStart(src[s]) || src[s] == '/')
    ensures s < r.next <= |src| && r.line == line && r.reports == [] && |r.tokens| <= 1
    ensures r.tokens == [] <==> src[s] == '/' && s + 1 < |src| && src[s + 1] == '/'
    ensures r.tokens == [] ==> r.next == |src|
  {
    var c := src[s];
    if SingleKind(c).Some? then
      Add(src, s, s + 1, SingleKind(c).value, NoLiteral, line)
    else if IsOperatorStart(c) then
      var two := s + 1 < |src| && src[s + 1] == '=';
      Add(src, s, if two then s + 2 else s + 1, OperatorKind(c, two), NoLiteral, line)
    else if s + 1 < |src| && src[s + 1] == '/' then
      Lexed(|src|, line, [], [])
    else
      Add(src, s, s + 1, Slash, NoLiteral, line)
  }

  /**
   * `string()` after the opening quote at s.  Without a closing quote it
   * reports and adds nothing; otherwise the lexeme and the value are taken
   * with `substr`, the value as `substr(src, s + 1, current - 1)`.
   */
  function StringLexeme(src: string, s: nat, line: int): (r: Lexed)
    requires s < |src| && src[s] == Quote
    ensures var e := QuoteEnd(src, s + 1);
      e == |src| ==> r == Lexed(|src|, line, [], [Report(line, "Unterminated string.")])
    ensures var e := QuoteEnd(src, s + 1);
      e < |src| ==> r.next == e + 1 && r.reports == [] && |r.tokens| == 1
    ensures var e := QuoteEnd(src, s + 1);
      e < |src| ==> r.tokens[0].kind == String && r.tokens[0].literal == Text(Substr(src, s + 1, e))
  {
    var e := QuoteEnd(src, s + 1);
    if e == |src| then Lexed(e, line, [], [Report(line, "Unterminated string.")])
    else Add(src, s, e + 1, String, Text(Substr(src, s + 1, e)), line)
  }

  /** `number()` after the first digit at s: the literal is the lexeme's text. */
  function NumberLexeme(src: string, s: nat, line: int): (r: Lexed)
    requires s < |src|
    ensures r.next == NumeralEnd(src, s + 1) && r.line == line && r.reports == []
    ensures |r.tokens| == 1 && r.tokens[0].kind == Number && r.tokens[0].literal == Numeral(r.tokens[0].lexeme)
  {
    var e := NumeralEnd(src, s + 1);
    Add(src, s, e, Number, Numeral(Substr(src, s, e)), line)
  }

  /** What `scanToken` does when the lexeme starts at s and the line counter is `line`. */
  function Step(src: string, s: nat, line: int): (r: Lexed)
    requires s < |src|
    ensures s < r.next <= |src| && r.line == line
    ensures |r.tokens| + |r.reports| <= 1
    ensures forall t <- r.tokens :: t.lexeme == Substr(src, s, r.next) && t.line == line && t.kind != Eof
  {
    var c := src[s];
    if SingleKind(c).Some? || IsOperatorStart(c) || c == '/' then Symbol(src, s, line)
    else if c == ' ' then Lexed(s + 1, line, [], [])
    else if c == Quote then StringLexeme(src, s, line)
    else if IsDigit(c) then NumberLexeme(src, s, line)
    else Lexed(s + 1, line, [], [Report(line, "Unexpected character.")])
  }

  /**
   * What the `scanTokens` loop appends and reports when it starts at i.
   * The line counter ends where it started, and every token carries it.
   */
  function ScanFrom(src: string, i: nat, line: int): (r: Scanned)
    requires i <= |src|
    ensures r.line == line
    ensures forall t <- r.tokens :: t.kind != Eof && t.line == line
    decreases |src| - i
  {
    if i == |src| then Scanned([], line, [])
    else
      var st := Step(src, i, line);
      var rest := ScanFrom(src, st.next, st.line);
      Scanned(st.tokens + rest.tokens, rest.line, st.reports + rest.reports)
  }

  /** One scanning step moves the step's output from the rest of the source to what is done. */
  lemma {:induction false} ScanFromStep(src: string, i: nat, line: int, done: seq<Token>, said: seq<Report>)
    requires i < |src|
    ensures var st := Step(src, i, line);
      var now, rest := ScanFrom(src, i, line), ScanFrom(src, st.next, st.line);
      done + now.tokens == (done + st.tokens) + rest.tokens &&
      said + now.reports == (said + st.reports) + rest.reports && now.line == rest.line
  {
    var st := Step(src, i, line);
    var rest := ScanFrom(src, st.next, st.line);
    assert ScanFrom(src, i, line) == Scanned(st.tokens + rest.tokens, rest.line, st.reports + rest.reports);
  }

  /**
   * The token list `scanTokens` returns for a fresh scanner: exactly one
   * EOF token, last, and every token on line 1.
   */
  function Scan(src: string): (r: seq<Token>)
    ensures |r| > 0 && r[|r| - 1] == Token(Eof, "", NoLiteral, 1)
    ensures forall k :: 0 <= k < |r| - 1 ==> r[k].kind != Eof
    ensures forall t <- r :: t.line == 1
  {
    var s := ScanFrom(src, 0, 1);
    s.tokens + [Token(Eof, "", NoLiteral, s.line)]
  }

  /** The diagnostics a fresh scanner hands to `Lox::error`. */
  function Reports(src: string): seq<Report>
  {
    ScanFrom(src, 0, 1).reports
  }

  // ---------------------------------------------------------------------
  // Properties of one step

  /** `! = < >` take the following `=` exactly when it is there; the lexeme is the substr from the operator. */
  lemma {:induction false} OperatorsMunchEqual(src: string, s: nat, line: int)
    requires s < |src| && IsOperatorStart(src[s])
    ensures var r := Step(src, s, line);
      var two := s + 1 < |src| && src[s + 1] == '=';
      r.next == (if two then s + 2 else s + 1) && r.reports == [] &&
      r.tokens == [Token(OperatorKind(src[s], two), Substr(src, s, r.next), NoLiteral, line)]
  {
  }

  /**
   * Where a number ends: a maximal run of digits, with a `.` and a second
   * run taken only when the `.` is followed by a digit inside the source.
   * A `.` and a digit after the first run (ending at d) are left alone only
   * when the guard of `peekNext` fires.
   */
  lemma {:induction false} NumbersAreDigitRuns(src: string, i: nat)
    requires i <= |src|
    ensures var r, d := NumeralEnd(src, i), DigitsEnd(src, i);
      (forall j :: i <= j < r ==> IsDigit(src[j]) || j == d) &&
      (r < |src| ==> !IsDigit(src[r])) &&
      (r > d ==> d + 1 < |src| && src[d] == '.' && IsDigit(src[d + 1])) &&
      (r == d && d + 1 < |src| && src[d] == '.' && IsDigit(src[d + 1]) ==> IntAtLeast(d + 1, src))
  {
  }

  /** A digit starts a NUMBER token that spans to NumeralEnd; its literal is its lexeme's text. */
  lemma {:induction false} StepOnDigit(src: string, s: nat, line: int)
    requires s < |src| && IsDigit(src[s])
    ensures var e := NumeralEnd(src, s + 1);
      Step(src, s, line) == Lexed(e, line, [Token(Number, Substr(src, s, e), Numeral(Substr(src, s, e)), line)], [])
  {
  }

  /**
   * The test of `number()` for a fraction, given what `peek` and `peekNext`
   * return with the cursor at d, and the cursor it leads to.
   */
  lemma {:induction false} FractionTest(src: string, i: nat, d: nat, peek: string, peekNext: string)
    requires i <= |src| && i <= d == DigitsEnd(src, i)
    requires peek == if d >= |src| then "\\0" else [src[d]]
    requires peekNext == if IntAtLeast(d + 1, src) then "\\0" else if d + 1 < |src| then [src[d + 1]] else ""
    ensures FractionTaken(src, d) <==> peek == "." && IsDigitText(peekNext)
    ensures NumeralEnd(src, i) == if FractionTaken(src, d) then DigitsEnd(src, d + 1) else d
  {
  }

  /** The one-character tokens, `! = < >` and `/` take the symbol branches. */
  lemma {:induction false} StepOnSymbol(src: string, s: nat, line: int)
    requires s < |src| && (SingleKind(src[s]).Some? || IsOperatorStart(src[s]) || src[s] == '/')
    ensures Step(src, s, line) == Symbol(src, s, line)
  {
  }

  /** A one-character token's lexeme is `substr(src, s, s + 1)`: from s, s + 1 characters. */
  lemma {:induction false} SingleCharacterTokens(src: string, s: nat, line: int)
    requires s < |src| && SingleKind(src[s]).Some?
    ensures Step(src, s, line) == Lexed(s + 1, line, [Token(SingleKind(src[s]).value, Substr(src, s, s + 1), NoLiteral, line)], [])
  {
    StepOnSymbol(src, s, line);
  }

  /** A double quote starts a string literal. */
  lemma {:induction false} StepOnQuote(src: string, s: nat, line: int)
    requires s < |src| && src[s] == Quote
    ensures Step(src, s, line) == StringLexeme(src, s, line)
  {
  }

  /**
   * A terminated string's token spans the quotes, and its value starts
   * after the opening quote and runs at least up to and including the
   * closing one: `substr` is given the cursor as a length.
   */
  lemma {:induction false} StringValueKeepsClosingQuote(src: string, s: nat, e: nat, line: int)
    requires s < e < |src| && src[s] == Quote && src[e] == Quote
    requires forall k :: s < k < e ==> src[k] != Quote
    ensures var r := Step(src, s, line);
      r.next == e + 1 && r.reports == [] && |r.tokens| == 1 &&
      r.tokens[0].kind == String && r.tokens[0].literal.Text? &&
      src[s + 1..e + 1] <= r.tokens[0].literal.text && src[s..e + 1] <= r.tokens[0].lexeme
  {
    StepOnQuote(src, s, line);
    QuoteEndAt(src, s + 1, e);
  }

  /** An unterminated string reports "Unterminated string.", adds no token and ends the scan. */
  lemma {:induction false} UnterminatedString(src: string, s: nat, line: int)
    requires s < |src| && src[s] == Quote
    requires forall j :: s < j < |src| ==> src[j] != Quote
    ensures Step(src, s, line) == Lexed(|src|, line, [], [Report(line, "Unterminated string.")])
  {
    StepOnQuote(src, s, line);
    QuoteEndAt(src, s + 1, |src|);
  }

  /** A `//` comment swallows the rest of the source, line breaks included. */
  lemma {:induction false} CommentsRunToTheEnd(src: string, s: nat, line: int)
    requires s + 1 < |src| && src[s] == '/' && src[s + 1] == '/'
    ensures Step(src, s, line) == Lexed(|src|, line, [], [])
  {
  }

  /**
   * A real line feed, carriage return or tab, a letter, and every other
   * character outside the listed cases is reported as unexpected at the
   * current line; nothing is added and scanning goes on.
   */
  lemma {:induction false} UnexpectedCharacters(src: string, s: nat, line: int)
    requires s < |src|
    requires SingleKind(src[s]).None? && !IsOperatorStart(src[s]) && !IsDigit(src[s])
    requires src[s] !in ['/', ' ', Quote]
    ensures Step(src, s, line) == Lexed(s + 1, line, [], [Report(line, "Unexpected character.")])
  {
  }

  /** A line feed is one of those characters: it is reported, and the line counter stays. */
  lemma {:induction false} LineFeedIsUnexpected()
    ensures Scan("\n") == [Token(Eof, "", NoLiteral, 1)]
    ensures Reports("\n") == [Report(1, "Unexpected character.")]
  {
    assert Step("\n", 0, 1) == Lexed(1, 1, [], [Report(1, "Unexpected character.")]);
  }

  // ---------------------------------------------------------------------
  // Whole sources

  /** In `(+)` the PLUS token's lexeme is `substr("(+)", 1, 2)`, which is `+)`. */
  lemma {:induction false} LexemesRunOn()
    ensures Step("(+)", 1, 1) == Lexed(2, 1, [Token(Plus, "+)", NoLiteral, 1)], [])
  {
    SingleCharacterTokens("(+)", 1, 1);
    assert Substr("(+)", 1, 2) == "+)";
  }

  /**
   * In `(1.5)` the guard of `peekNext` compares 3 with the text `(1.5)`;
   * "3" sorts after "(", so the guard fires and the number stops at the dot.
   */
  lemma {:induction false} GuardSplitsFraction()
    ensures IntAtLeast(3, "(1.5)")
    ensures Step("(1.5)", 1, 1) == Lexed(2, 1, [Token(Number, "1.", Numeral("1."), 1)], [])
  {
    var src := "(1.5)";
    assert NumericValue(src) == None;
    assert Decimal(3) == "3";
    assert DigitsEnd(src, 2) == 2;
    assert NumeralEnd(src, 2) == 2;
    assert Substr(src, 1, 2) == "1.";
  }

  /** In `;1.5` the text "3" sorts before `;1.5`, the guard stays quiet, and the fraction is taken. */
  lemma {:induction false} GuardAllowsFraction()
    ensures !IntAtLeast(3, ";1.5")
    ensures Step(";1.5", 1, 1) == Lexed(4, 1, [Token(Number, "1.5", Numeral("1.5"), 1)], [])
  {
    var src := ";1.5";
    assert NumericValue(src) == None;
    assert Decimal(3) == "3";
    assert DigitsEnd(src, 2) == 2;
    assert DigitsEnd(src, 4) == 4;
    assert DigitsEnd(src, 3) == 4;
    assert NumeralEnd(src, 2) == 4;
    assert Substr(src, 1, 4) == "1.5";
  }

  /** The numeric source `1.5` is worth 1.5, so `2 >= "1.5"` holds and the number stops at the dot. */
  lemma {:induction false} NumericSourceSplitsFraction()
    ensures NumericValue("1.5") == Some(1.5)
    ensures Step("1.5", 0, 1) == Lexed(1, 1, [Token(Number, "1", Numeral("1"), 1)], [])
  {
    var src := "1.5";
    var r := Reading(false, 15, 1, false, 0);
    assert Scale(15.0, 0) == 15.0;
    assert Value(r) == Scale(15.0, -1) == 1.5;
    assert Numeric(src, 3, Fraction, r) == Some(1.5);
    assert Numeric(src, 2, Fraction, r.(digits := 1, places := 0)) == Some(1.5);
    assert Numeric(src, 1, Whole, r.(digits := 1, places := 0)) == Some(1.5);
    assert DigitsEnd(src, 1) == 1;
    assert NumeralEnd(src, 1) == 1;
    assert Substr(src, 0, 1) == "1";
  }

  // ---------------------------------------------------------------------
  // The scanner object

  /** The scanner of Scanner.php: a cursor over `source` that appends to `tokens`. */
  class Scanner {
    const source: string
    var tokens: seq<Token>
    var start: nat
    var current: nat
    var line: int
    /** What was handed to `Lox::error`, in order. */
    var reports: seq<Report>

    constructor (source: string)
      ensures this.source == source && tokens == [] && reports == []
      ensures start == 0 && current == 0 && line == 1
    {
      this.source := source;
      tokens := [];
      start, current, line := 0, 0, 1;
      reports := [];
    }

    /** `isAtEnd`; short of the end the cursor is on a character. */
    predicate IsAtEnd()
      reads this
      ensures !IsAtEnd() ==> current < |source|
    {
      current >= |source|
    }

    /** The character at the cursor, or the two-character text '\0' at the end. */
    function Peek(): (c: string)
      reads this
      ensures current < |source| ==> c == [source[current]]
      ensures current >= |source| ==> c == "\\0" && |c| == 2
    {
      if IsAtEnd() then "\\0" else [source[current]]
    }

    /**
     * '\0' when the integer `current + 1` is at least the source text;
     * otherwise the character after the cursor, or the empty string that
     * PHP yields for an offset past the end.
     */
    function PeekNext(): (c: string)
      reads this
      ensures IntAtLeast(current + 1, source) ==> c == "\\0" && |c| == 2
      ensures !IntAtLeast(current + 1, source) ==> c == if current + 1 < |source| then [source[current + 1]] else ""
    {
      if IntAtLeast(current + 1, source) then "\\0"
      else if current + 1 < |source| then [source[current + 1]]
      else ""
    }

    method Advance() returns (c: string)
      requires current < |source|
      modifies this`current
      ensures c == [source[old(current)]] && current == old(current) + 1
    {
      current := current + 1;
      c := [source[current - 1]];
    }

    /** Consumes the next character only when it is identical to `expected`. */
    method Match(expected: string) returns (matched: bool)
      modifies this`current
      ensures matched <==> old(current) < |source| && [source[old(current)]] == expected
      ensures current == if matched then old(current) + 1 else old(current)
    {
      if IsAtEnd() {
        return false;
      }
      if [source[current]] != expected {
        return false;
      }
      current := current + 1;
      return true;
    }

    method AddToken(kind: Kind, literal: Literal)
      requires start <= current <= |source|
      modifies this`tokens
      ensures tokens == old(tokens) + [Token(kind, Substr(source, start, current), literal, line)]
    {
      var text := Substr(source, start, current);
      tokens := tokens + [Token(kind, text, literal, line)];
    }

    /** The loop `while (isDigit(peek())) advance();` that `number()` runs before and after the `.`. */
    method SkipDigits()
      requires current <= |source|
      modifies this`current
      ensures current == DigitsEnd(source, old(current))
    {
      ghost var from := current;
      while IsDigitText(Peek())
        invariant from <= current <= |source|
        invariant forall j :: from <= j < current ==> IsDigit(source[j])
        decreases |source| - current
      {
        var _ := Advance();
      }
      DigitsEndAt(source, from, current);
    }

    /** number() */
    method ScanNumber()
      requires start < current == start + 1 <= |source| && IsDigit(source[start])
      modifies this`current, this`tokens
      ensures current == NumeralEnd(source, start + 1)
      ensures tokens == old(tokens) + [Token(Number, Substr(source, start, current), Numeral(Substr(source, start, current)), line)]
      ensures var r := NumberLexeme(source, start, line); current == r.next && tokens == old(tokens) + r.tokens
    {
      SkipDigits();
      ghost var d := current;
      FractionTest(source, start + 1, d, Peek(), PeekNext());
      if Peek() == "." && IsDigitText(PeekNext()) {
        assert FractionTaken(source, d);
        var _ := Advance();
        SkipDigits();
        assert current == DigitsEnd(source, d + 1);
      } else {
        assert !FractionTaken(source, d);
      }
      AddToken(Number, Numeral(Substr(source, start, current)));
    }

    /** string() */
    method ScanString()
      requires start < current == start + 1 <= |source| && source[start] == Quote
      modifies this`current, this`tokens, this`line, this`reports
      ensures var r := StringLexeme(source, old(start), old(line));
        current == r.next && line == r.line &&
        tokens == old(tokens) + r.tokens && reports == old(reports) + r.reports
    {
      while Peek() != [Quote] && !IsAtEnd()
        invariant start + 1 <= current <= |source|
        invariant forall j :: start + 1 <= j < current ==> source[j] != Quote
        invariant line == old(line) && tokens == old(tokens) && reports == old(reports)
        decreases |source| - current
      {
        if Peek() == "\\n" {
          // `line++` cannot run: no one-character text equals '\n'.
          assert false;
        }
        var _ := Advance();
      }
      QuoteEndAt(source, start + 1, current);
      if IsAtEnd() {
        reports := reports + [Report(line, "Unterminated string.")];
        return;
      }
      var _ := Advance();
      var value := Substr(source, start + 1, current - 1);
      AddToken(String, Text(value));
    }

    /** The branches of `scanToken` for the one-character tokens, `! = < >`, `/` and comments. */
    method ScanSymbol(c: string)
      requires start < current == start + 1 <= |source| && c == [source[start]]
      requires SingleKind(source[start]).Some? || IsOperatorStart(source[start]) || c == "/"
      modifies this`current, this`tokens
      ensures var r := Step(source, start, line);
        current == r.next && tokens == old(tokens) + r.tokens && r.line == line && r.reports == []
    {
      StepOnSymbol(source, start, line);
      if SingleKind(c[0]).Some? {
        AddToken(SingleKind(c[0]).value, NoLiteral);
      } else if IsOperatorStart(c[0]) {
        var two := Match("=");
        AddToken(OperatorKind(c[0], two), NoLiteral);
      } else {
        var comment := Match("/");
        if comment {
          while Peek() != "\\n" && !IsAtEnd()
            invariant start + 2 <= current <= |source| && tokens == old(tokens)
            decreases |source| - current
          {
            var _ := Advance();
          }
        } else {
          AddToken(Slash, NoLiteral);
        }
      }
    }

    method ScanToken()
      requires start == current < |source|
      modifies this`current, this`tokens, this`line, this`reports
      ensures var r := Step(source, start, old(line));
        current == r.next && line == r.line &&
        tokens == old(tokens) + r.tokens && reports == old(reports) + r.reports
    {
      ghost var r := Step(source, start, line);
      var c := Advance();
      assert |c| == 1 && c[0] == source[start];
      if SingleKind(c[0]).Some? || IsOperatorStart(c[0]) || c == "/" {
        ScanSymbol(c);
      } else if c == " " || c == "\\r" || c == "\\t" {
        assert r == Lexed(start + 1, line, [], []);
      } else if c == "\\n" {
        // `line++` cannot run: no one-character text equals '\n'.
        assert false;
      } else if c == [Quote] {
        StepOnQuote(source, start, line);
        ScanString();
      } else if IsDigitText(c) {
        assert r == NumberLexeme(source, start, line);
        ScanNumber();
      } else {
        UnexpectedCharacters(source, start, line);
        reports := reports + [Report(line, "Unexpected character.")];
      }
    }

    method ScanTokens() returns (result: seq<Token>)
      requires current <= |source|
      modifies this`start, this`current, this`tokens, this`line, this`reports
      ensures var s := ScanFrom(source, old(current), old(line));
        tokens == old(tokens) + s.tokens + [Token(Eof, "", NoLiteral, s.line)] &&
        line == s.line && reports == old(reports) + s.reports
      ensures current == |source| && result == tokens
    {
      ghost var total := ScanFrom(source, current, line);
      ghost var tokens0, reports0 := tokens, reports;
      while !IsAtEnd()
        invariant current <= |source|
        invariant var s := ScanFrom(source, current, line);
          tokens0 + total.tokens == tokens + s.tokens &&
          reports0 + total.reports == reports + s.reports && total.line == s.line
        decreases |source| - current
      {
        ScanFromStep(source, current, line, tokens, reports);
        start := current;
        ScanToken();
      }
      tokens := tokens + [Token(Eof, "", NoLiteral, line)];
      result := tokens;
    }
  }

  /** A fresh scanner's scanTokens returns Scan(source) and reports Reports(source). */
  method ScanSource(source: string) returns (tokens: seq<Token>, reports: seq<Report>)
    ensures tokens == Scan(source) && reports == Reports(source)
  {
    var scanner := new Scanner(source);
    tokens := scanner.ScanTokens();
    reports := scanner.reports;
  }
}
