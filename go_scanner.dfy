/**
 * The Go scanner (go/scanner/scanner.go): a partial scanner that knows
 * punctuation, the one- and two-character operators, `//` comments and
 * whitespace, and reports every other character, letters, digits and double quotes
 * included, as unexpected.
 *
 * The source is a Go string, indexed by byte: each character of the
 * model's string stands for one byte, so a character that UTF-8 spells
 * with several bytes is that many characters here.
 *
 * Step and ScanFrom say, as functions, what one `scanToken` call and the
 * `ScanTokens` loop do; the class Scanner is the cursor-driven state
 * machine of the source, proved against them.
 */
module GoScanner {
  import opened Tokens
  import opened Lexing

  /**
   * What `scanToken` does when the lexeme starts at s and the line counter
   * is `line`: the shared punctuation branches, and a report for anything
   * else.
   */
  function Step(src: string, s: nat, line: int): (r: Lexed)
    requires s < |src|
    ensures s < r.next <= |src|
    ensures r.line == line + LineBreaks(src, s, r.next)
    ensures |r.tokens| <= 1
    ensures forall t <- r.tokens ::
      t == Token(t.kind, t.lexeme, NoLiteral, line) && t.lexeme <= src[s..] && s + |t.lexeme| == r.next &&
      r.line == line && t.kind != Eof
  {
    var p := Punctuation(src, s, line);
    if p.Some? then p.value else Lexed(s + 1, line, [], [Report(line, "Unexpected character.")])
  }

  /**
   * What the `ScanTokens` loop appends, reports and leaves in `line` when
   * it starts at i.  No token is EOF, and every line break of the rest of
   * the source bumps the line counter exactly once.
   */
  function ScanFrom(src: string, i: nat, line: int): (r: Scanned)
    requires i <= |src|
    ensures forall t <- r.tokens :: t.kind != Eof
    ensures r.line == line + LineBreaks(src, i, |src|)
    decreases |src| - i
  {
    if i == |src| then Scanned([], line, [])
    else
      var st := Step(src, i, line);
      var rest := ScanFrom(src, st.next, st.line);
      LineBreaksSplit(src, i, st.next, |src|);
      Scanned(st.tokens + rest.tokens, rest.line, st.reports + rest.reports)
  }

  /** One scanning step moves the step's output from the rest of the source to what is done. */
  lemma {:induction false} ScanFromStep(src: string, i: nat, line: int, done: seq<Token>, said: seq<Report>)
    requires i < |src|
    ensures var st := Step(src, i, line);
      var now, rest := ScanFrom(src, i, line), ScanFrom(src, st.next, st.line);
      done + now.tokens == (done + st.tokens) + rest.tokens &&
      said + now.reports == (said + st.reports) + rest.reports && now.line == rest.line
  {
    var st := Step(src, i, line);
    var rest := ScanFrom(src, st.next, st.line);
    assert ScanFrom(src, i, line) == Scanned(st.tokens + rest.tokens, rest.line, st.reports + rest.reports);
  }

  /**
   * The token list `ScanTokens` returns for a fresh scanner: it ends with
   * exactly one EOF token, with an empty lexeme and the final line, which
   * is one more than the number of line breaks in the source.
   */
  function Scan(src: string): (r: seq<Token>)
    ensures |r| > 0 && r[|r| - 1] == Token(Eof, "", NoLiteral, 1 + LineBreaks(src, 0, |src|))
    ensures forall k :: 0 <= k < |r| - 1 ==> r[k].kind != Eof
  {
    var s := ScanFrom(src, 0, 1);
    s.tokens + [Token(Eof, "", NoLiteral, s.line)]
  }

  /** The diagnostics a fresh scanner reports. */
  function Reports(src: string): seq<Report>
  {
    ScanFrom(src, 0, 1).reports
  }

  /**
   * Every emitted token's lexeme is a stretch of the source, and its line
   * is the line counter when the scanner emitted it.
   */
  lemma {:induction false} ScanFromLocated(src: string, i: nat, line: int)
    requires i <= |src|
    ensures forall t <- ScanFrom(src, i, line).tokens :: Located(src, i, line, t)
    decreases |src| - i
  {
    if i < |src| {
      var st := Step(src, i, line);
      ScanFromLocated(src, st.next, st.line);
      forall t <- ScanFrom(src, i, line).tokens ensures Located(src, i, line, t) {
        if t in st.tokens {
          assert t.lexeme == src[i..st.next] && t.line == line + LineBreaks(src, i, st.next);
        } else {
          assert t in ScanFrom(src, st.next, st.line).tokens;
          var a, b :| st.next <= a < b <= |src| && t.lexeme == src[a..b] && t.line == st.line + LineBreaks(src, st.next, b);
          LineBreaksSplit(src, i, st.next, b);
        }
      }
    }
  }

  /**
   * Letters, digits, double quotes and every other unlisted character are reported
   * as unexpected at the current line; nothing is emitted and scanning
   * goes on with the next character.
   */
  lemma UnexpectedCharacters(src: string, s: nat, line: int)
    requires s < |src|
    requires SingleKind(src[s]).None? && !IsOperatorStart(src[s]) && src[s] !in "/ \r\t\n"
    ensures Punctuation(src, s, line) == None
    ensures Step(src, s, line) == Lexed(s + 1, line, [], [Report(line, "Unexpected character.")])
  {
  }

  /**
   * "é" is the two bytes 0xC3 0xA9 in UTF-8, and the scanner reports each
   * of them as unexpected.
   */
  lemma TwoByteCharacter()
    ensures Reports(['\U{C3}', '\U{A9}']) == [Report(1, "Unexpected character."), Report(1, "Unexpected character.")]
  {
    var src := ['\U{C3}', '\U{A9}'];
    UnexpectedCharacters(src, 0, 1);
    UnexpectedCharacters(src, 1, 1);
    assert ScanFrom(src, 2, 1).reports == [];
  }

  /** The scanner of scanner.go: a cursor over `source` that appends to `tokens`. */
  class Scanner {
    const source: string
    var tokens: seq<Token>
    var start: nat
    var current: nat
    var line: int
    /** What the logger received through ErrorReport, in order. */
    var reports: seq<Report>

    /** NewScanner */
    constructor (source: string)
      ensures this.source == source && tokens == [] && reports == []
      ensures start == 0 && current == 0 && line == 1
    {
      this.source := source;
      tokens := [];
      start, current, line := 0, 0, 1;
      reports := [];
    }

    /** `isAtEnd`; short of the end the cursor is on a character. */
    predicate IsAtEnd()
      reads this
      ensures !IsAtEnd() ==> current < |source|
    {
      current >= |source|
    }

    /** `peek`: the character at the cursor, `'\0'` at the end. */
    function Peek(): (c: char)
      reads this
      ensures current < |source| ==> c == source[current]
      ensures current >= |source| ==> c == '\0'
    {
      if IsAtEnd() then '\0' else source[current]
    }

    method Advance() returns (c: char)
      requires current < |source|
      modifies this`current
      ensures c == source[old(current)] && current == old(current) + 1
    {
      current := current + 1;
      c := source[current - 1];
    }

    /** Consumes the next character only when it is `expected`. */
    method Match(expected: char) returns (matched: bool)
      modifies this`current
      ensures matched <==> old(current) < |source| && source[old(current)] == expected
      ensures current == if matched then old(current) + 1 else old(current)
    {
      if IsAtEnd() {
        return false;
      }
      if source[current] != expected {
        return false;
      }
      current := current + 1;
      return true;
    }

    method AddToken(kind: Kind)
      requires start <= current <= |source|
      modifies this`tokens
      ensures tokens == old(tokens) + [Token(kind, source[start..current], NoLiteral, line)]
    {
      AddTokenWithLiteral(kind, NoLiteral);
    }

    method AddTokenWithLiteral(kind: Kind, literal: Literal)
      requires start <= current <= |source|
      modifies this`tokens
      ensures tokens == old(tokens) + [Token(kind, source[start..current], literal, line)]
    {
      var text := source[start..current];
      tokens := tokens + [Token(kind, text, literal, line)];
    }

    method ScanToken()
      requires start == current < |source|
      modifies this`current, this`tokens, this`line, this`reports
      ensures var r := Step(source, old(current), old(line));
        current == r.next && line == r.line &&
        tokens == old(tokens) + r.tokens && reports == old(reports) + r.reports
    {
      var c := Advance();
      if SingleKind(c).Some? {
        AddToken(SingleKind(c).value);
      } else if IsOperatorStart(c) {
        var two := Match('=');
        AddToken(OperatorKind(c, two));
      } else if c == '/' {
        var comment := Match('/');
        if comment {
          while Peek() != '\n' && !IsAtEnd()
            invariant start + 2 <= current <= |source|
            invariant forall j :: start + 2 <= j < current ==> source[j] != '\n'
            invariant line == old(line) && tokens == old(tokens) && reports == old(reports)
            decreases |source| - current
          {
            var _ := Advance();
          }
          LineEndAt(source, start + 2, current);
        } else {
          AddToken(Slash);
        }
      } else if c == ' ' || c == '\r' || c == '\t' {
      } else if c == '\n' {
        line := line + 1;
      } else {
        reports := reports + [Report(line, "Unexpected character.")];
      }
    }

    method ScanTokens() returns (result: seq<Token>)
      requires current <= |source|
      modifies this`start, this`current, this`tokens, this`line, this`reports
      ensures var s := ScanFrom(source, old(current), old(line));
        tokens == old(tokens) + s.tokens + [Token(Eof, "", NoLiteral, s.line)] &&
        line == s.line && reports == old(reports) + s.reports
      ensures current == |source| && result == tokens
    {
      ghost var total := ScanFrom(source, current, line);
      ghost var tokens0, reports0 := tokens, reports;
      while !IsAtEnd()
        invariant current <= |source|
        invariant var s := ScanFrom(source, current, line);
          tokens0 + total.tokens == tokens + s.tokens &&
          reports0 + total.reports == reports + s.reports && total.line == s.line
        decreases |source| - current
      {
        ScanFromStep(source, current, line, tokens, reports);
        start := current;
        ScanToken();
      }
      tokens := tokens + [Token(Eof, "", NoLiteral, line)];
      result := tokens;
    }
  }

  /** A fresh scanner's ScanTokens returns Scan(source) and reports Reports(source). */
  method ScanSource(source: string) returns (tokens: seq<Token>, reports: seq<Report>)
    ensures tokens == Scan(source) && reports == Reports(source)
  {
    var scanner := new Scanner(source);
    tokens := scanner.ScanTokens();
    reports := scanner.reports;
  }
}
