/**
 * Tokens shared by the four scanners and the parser: the closed set of
 * token kinds, the token record, and the diagnostics that scanning and
 * parsing report on the side.
 */
module Tokens {

  datatype Option<+T> = None | Some(value: T)

  /**
   * Token kinds.  The Go, Java, Rust and PHP ports each declare this same
   * enumeration under their own spelling (Java writes the number kind as
   * NUBMER, PHP renames `class` to CLAZZ); one Dafny enumeration stands for
   * all of them.
   */
  datatype Kind =
    // single-character tokens
    | LeftParen | RightParen | LeftBrace | RightBrace
    | Comma | Dot | Minus | Plus | Semicolon | Slash | Star
    // one- or two-character tokens
    | Bang | BangEqual | Equal | EqualEqual
    | Greater | GreaterEqual | Less | LessEqual
    // literals
    | Identifier | String | Number
    // keywords
    | And | Class | Else | False | Fun | For | If | Nil | Or
    | Print | Return | Super | This | True | Var | While
    | Eof

  /**
   * The decoded literal a token carries.  A number keeps the text that the
   * host's float parser would decode (Double.parseDouble, floatval): the
   * decoding itself is not modelled.
   */
  datatype Literal = NoLiteral | Text(text: string) | Numeral(digits: string)

  datatype Token = Token(kind: Kind, lexeme: string, literal: Literal, line: int)

  /** One diagnostic: the line it is reported at and its message. */
  datatype Report = Report(line: int, message: string)

  /**
   * The effect of scanning one lexeme that starts at some position: where
   * the cursor ends, the line counter afterwards, the tokens appended (none
   * or one) and the diagnostics reported.
   */
  datatype Lexed = Lexed(next: nat, line: int, tokens: seq<Token>, reports: seq<Report>)

  /** The effect of scanning from some position to the end of the source. */
  datatype Scanned = Scanned(tokens: seq<Token>, line: int, reports: seq<Report>)
}
