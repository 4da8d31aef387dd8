# Lox front end: scanners, parser, environment, evaluator and printers

A Dafny model of the front end of the Lox implementations in this
repository:

- the four scanners: the partial Go one (punctuation, operators, comments
  and whitespace only), the complete Java one, the Rust port and the PHP
  port, each with its own quirks;
- the Go recursive-descent parser, which builds expression trees and
  `print`, expression and `var` statements from a token list;
- the Go environment chain (`Define`, `Get`, `Assign`);
- the Go tree-walking evaluator over nil, bool, number and string values;
- the Go debug printer, Lisp style, and the Rust debug printer.

Each cursor-driven original is a Dafny `class` whose methods update the
fields the source updates. They are proved against functional
specifications:
- `Step`, `ScanFrom` and `Scan` for a scanner;
- `ExpressionAt`, `FoldAt` and the other `...At` functions for the parser;
- `Eval`, `Execute` and `Run` for the evaluator.

The properties the source promises are then proved as lemmas about those
functions.

Diagnostics that the originals print through a logger, `Lox.error` or
`Lox::error` are modelled as a list of `(line, message)` reports that the
model appends to. Numbers keep their numeral text in tokens. In the
evaluator they are real numbers.

Files:
- `tokens.dfy`: token kinds, tokens and reports.
- `lexing.dfy`: character classes, the keyword table, line counting and the punctuation shared by the Go, Java and Rust scanners.
- `go_scanner.dfy`, `java_scanner.dfy`, `rust_scanner.dfy`, `php_scanner.dfy`: the scanners.
- `ast.dfy`: the Go syntax trees and values.
- `go_parser.dfy` and `go_parser_facts.dfy`: the parser and its properties.
- `scopes.dfy` and `environment.dfy`: the environment chain, as a sequence of maps and as the linked class.
- `interpreter.dfy`: the evaluator.
- `parens.dfy`, `ast_printer.dfy`, `rust_expr.dfy`: the printers and parenthesis balance.

Where the code and its documented intent disagree, the model follows the
code:
- The Java scanner gives an unterminated string's report the line reached at the end of the source.
- The Rust scanner still emits a String token for an unterminated string.
- The PHP scanner's `'\n'`, `'\r'`, `'\t'` and `'\0'` are two-character strings.
- PHP's `substr` takes a length.
- `synchronize`'s switch stops only at `return`.
- `Parse` can loop for ever.

## Model

| member | source | states |
|---|---|---|
| Lexing.WordKind | dev/asazutaiga/lox/Scanner.java:11-30 | a word is IDENTIFIER exactly when it is not one of the sixteen keywords |
| Lexing.KeywordsAreSpelt | rust/src/scanner.rs:247-267 | a word that gets a keyword kind is spelt exactly as that keyword |
| Lexing.KeywordTable | dev/asazutaiga/lox/Scanner.java:11-30 | each entry of the keyword table maps a spelling to the kind of that spelling |
| Lexing.KeywordsMatchExactly | dev/asazutaiga/lox/Scanner.java:140-150 | `printed` is an identifier while `print` is the keyword: only exact matches count |
| Lexing.LineEnd | go/scanner/scanner.go:97-101 | a comment skip stops at the first newline or at the end, and passes none |
| Lexing.QuoteEnd | dev/asazutaiga/lox/Scanner.java:170-174 | the string loop stops at the first `"` after the opening one, or at the end of the source |
| Lexing.DigitsEnd | dev/asazutaiga/lox/Scanner.java:153-154 | the digit loop stops at the first character that is not a digit, or at the end |
| Lexing.AlnumEnd | dev/asazutaiga/lox/Scanner.java:141-142 | the identifier loop stops at the first character that is not a letter, digit or `_`, or at the end |
| Lexing.NumberEnd | dev/asazutaiga/lox/Scanner.java:152-163 | the numeral scan never crosses a newline and stays inside the source |
| Lexing.NumberShape | dev/asazutaiga/lox/Scanner.java:152-163 | a numeral is a maximal digit run with at most one `.`, and each `.` is followed by a digit; a `.` after the run is taken only before a digit |
| Lexing.Punctuation | go/scanner/scanner.go:38-112 | the punctuation, operator, comment and whitespace branches: exactly those characters are handled, with no report, at most one token whose lexeme is the consumed text, and line advanced by the newlines consumed |
| Lexing.PunctuationIsSpelt | go/scanner/scanner.go:39-96 | every punctuation token's lexeme is the spelling of its kind |
| Lexing.SingleCharacterTokens | go/scanner/scanner.go:39-68 | `( ) { } , . - + ; *` each give one token of their kind with a one-character lexeme |
| Lexing.OperatorsMunchEqual | go/scanner/scanner.go:69-96 | `! = < >` take a following `=` into a two-character lexeme exactly when one follows |
| Lexing.CommentStopsBeforeNewline | go/scanner/scanner.go:97-105 | `//` emits nothing and stops before the next newline, so that newline still counts a line |
| Lexing.Whitespace | go/scanner/scanner.go:106-112 | space, CR and tab emit nothing; a newline emits nothing and adds exactly one line |
| Lexing.LineBreaksSplit | go/scanner/scanner.go:110-112 | the line count over a range is the sum of the counts over its two parts |
| Lexing.LineBreaks | go/scanner/scanner.go:110-112 | the lines a stretch of source adds: never more than its length |
| GoAst.NumeralValue | dev/asazutaiga/lox/Scanner.java:165-166 | the value of a number literal's numeral text is never negative |
| GoAst.NumeralExamples | dev/asazutaiga/lox/Scanner.java:165-166 | `12` reads as 12 and `1.5` as 1.5 |
| GoAst.ObjectOf | go/parser/parser.go:180-182 | the literal a NUMBER or STRING token carries becomes the expression's value: its text, or its numeral's (non-negative) value; no literal is nil |
| GoScanner.Step | go/scanner/scanner.go:36-117 | one `scanToken`: consumes at least one byte, at most one token with lexeme `source[start:current]` at the current line, line advanced by the newlines consumed |
| GoScanner.ScanFrom | go/scanner/scanner.go:26-34 | the loop of `ScanTokens`: no EOF token inside, final line is the start line plus every newline |
| GoScanner.ScanFromStep | go/scanner/scanner.go:27-30 | scanning from a position is one step followed by scanning from where the step stopped |
| GoScanner.Scan | go/scanner/scanner.go:26-34 | the token list ends with exactly one EOF token, with empty lexeme and the final line count |
| GoScanner.ScanFromLocated | go/scanner/scanner.go:152-155 | every emitted token's lexeme is a slice of the source at or after the start, on the line counted up to it |
| GoScanner.UnexpectedCharacters | go/scanner/scanner.go:113-115 | any other byte of the source, each model character standing for one byte (letters, digits, `"` included), reports "Unexpected character." at the current line, emits nothing, and scanning goes on after it |
| GoScanner.TwoByteCharacter | go/scanner/scanner.go:113-115 | the two UTF-8 bytes of "é" draw two "Unexpected character." reports |
| GoScanner.Scanner.constructor | go/scanner/scanner.go:16-24 | empty token list, cursor at 0, line 1 |
| GoScanner.Scanner.IsAtEnd | go/scanner/scanner.go:139-141 | short of the end the cursor is on a byte of the source |
| GoScanner.Scanner.Peek | go/scanner/scanner.go:131-137 | the byte at the cursor, `\0` once the cursor is at the end |
| GoScanner.Scanner.Advance | go/scanner/scanner.go:143-146 | returns the current byte and moves one on |
| GoScanner.Scanner.Match | go/scanner/scanner.go:119-129 | moves one on and answers true exactly when not at the end and the byte is the expected one |
| GoScanner.Scanner.AddToken | go/scanner/scanner.go:148-150 | appends one token with lexeme `source[start:current]`, no literal, the current line |
| GoScanner.Scanner.AddTokenWithLiteral | go/scanner/scanner.go:152-155 | appends one token with lexeme `source[start:current]`, the literal and the current line |
| GoScanner.Scanner.ScanToken | go/scanner/scanner.go:36-117 | updates cursor, line, tokens and reports as Step says |
| GoScanner.Scanner.ScanTokens | go/scanner/scanner.go:26-34 | runs to the end of the source; tokens, line and reports are those of ScanFrom, followed by the EOF token |
| GoScanner.ScanSource | go/scanner/scanner.go:16-34 | a fresh scanner returns Scan's token list and reports |
| JavaScanner.StringLexeme | dev/asazutaiga/lox/Scanner.java:169-187 | a string: either a token whose literal is the text between the quotes, on the line after the embedded newlines, or a report and no token |
| JavaScanner.StringLexemeAt | dev/asazutaiga/lox/Scanner.java:169-187 | the string ends at the next quote, or with "Unterminated string." and no token at the end of the source |
| JavaScanner.NumberLexeme | dev/asazutaiga/lox/Scanner.java:152-167 | a number token whose lexeme and literal are the numeral text, ending where NumberEnd says |
| JavaScanner.IdentifierLexeme | dev/asazutaiga/lox/Scanner.java:140-150 | an identifier or keyword token for the maximal letter-digit run |
| JavaScanner.Step | dev/asazutaiga/lox/Scanner.java:54-138 | one `scanToken`: consumes at least one character, at most one token and one report, each token's lexeme is `source.substring(start, current)` |
| JavaScanner.ScanFrom | dev/asazutaiga/lox/Scanner.java:43-49 | the scanning loop: no EOF token inside, final line counts every newline |
| JavaScanner.ScanFromStep | dev/asazutaiga/lox/Scanner.java:43-49 | scanning is one step followed by scanning the rest |
| JavaScanner.Scan | dev/asazutaiga/lox/Scanner.java:43-52 | the token list ends with exactly one EOF token carrying the final line |
| JavaScanner.ScanFromLocated | dev/asazutaiga/lox/Scanner.java:243-246 | every token's lexeme is a slice of the source |
| JavaScanner.NumbersAreMaximal | dev/asazutaiga/lox/Scanner.java:152-167 | a number is a maximal digit run, with one fraction only where the `.` is followed by a digit, and its literal is that text |
| JavaScanner.TrailingDotIsNotAFraction | dev/asazutaiga/lox/Scanner.java:157-163 | `1.` scans as the number `1` and a DOT |
| JavaScanner.NumberBeforeDot | dev/asazutaiga/lox/Scanner.java:211-215 | at the end of the source peekNext gives no digit, so the `.` is not taken |
| JavaScanner.StringsExcludeQuotes | dev/asazutaiga/lox/Scanner.java:169-187 | a terminated string's literal is the text between the quotes and its lexeme includes them |
| JavaScanner.UnterminatedString | dev/asazutaiga/lox/Scanner.java:177-180 | without a closing quote: "Unterminated string." at the line reached, no token, cursor at the end |
| JavaScanner.StepOnQuote | dev/asazutaiga/lox/Scanner.java:122-124 | a `"` starts a string |
| JavaScanner.IdentifiersAreMaximal | dev/asazutaiga/lox/Scanner.java:140-150 | an identifier is the maximal run of letters, digits and `_`; an exact keyword gets its kind, anything else IDENTIFIER |
| JavaScanner.PrintedIsAnIdentifier | dev/asazutaiga/lox/Scanner.java:140-150 | `printed` scans as one IDENTIFIER, not as `print` and `ed` |
| JavaScanner.PrintedIsOneWord | dev/asazutaiga/lox/Scanner.java:141-142 | the identifier loop runs to the end of `printed` |
| JavaScanner.UnexpectedCharacters | dev/asazutaiga/lox/Scanner.java:126-136 | any other character reports "Unexpected character." and scanning goes on after it |
| JavaScanner.Scanner.constructor | dev/asazutaiga/lox/Scanner.java:32-41 | empty token list, cursor at 0, line 1 |
| JavaScanner.Scanner.IsAtEnd | dev/asazutaiga/lox/Scanner.java:231-233 | short of the end the cursor is on a character of the source |
| JavaScanner.Scanner.Peek | dev/asazutaiga/lox/Scanner.java:205-209 | the character at the cursor, `\0` once the cursor is at the end |
| JavaScanner.Scanner.PeekNext | dev/asazutaiga/lox/Scanner.java:211-215 | the character after the cursor, `\0` when there is none |
| JavaScanner.Scanner.Advance | dev/asazutaiga/lox/Scanner.java:235-237 | returns the current character and moves one on |
| JavaScanner.Scanner.Match | dev/asazutaiga/lox/Scanner.java:195-203 | moves one on and answers true exactly when not at the end and the character is the expected one |
| JavaScanner.Scanner.AddToken | dev/asazutaiga/lox/Scanner.java:239-246 | appends one token with lexeme `source.substring(start, current)` and the current line |
| JavaScanner.Scanner.ScanIdentifier | dev/asazutaiga/lox/Scanner.java:140-150 | the loop runs to the end of the letter-digit run, then one keyword-or-IDENTIFIER token |
| JavaScanner.Scanner.ScanNumber | dev/asazutaiga/lox/Scanner.java:152-167 | the loops stop where NumberEnd says, then one NUMBER token with the numeral text |
| JavaScanner.Scanner.ScanString | dev/asazutaiga/lox/Scanner.java:169-187 | the loop counts embedded newlines and the state afterwards is what StringLexeme says |
| JavaScanner.Scanner.ScanPunctuation | dev/asazutaiga/lox/Scanner.java:58-119 | the punctuation, operator, comment and whitespace cases as Punctuation says |
| JavaScanner.Scanner.ScanToken | dev/asazutaiga/lox/Scanner.java:54-138 | updates cursor, line, tokens and reports as Step says |
| JavaScanner.Scanner.ScanTokens | dev/asazutaiga/lox/Scanner.java:43-52 | runs to the end; tokens, line and reports are those of ScanFrom, followed by the EOF token |
| JavaScanner.ScanSource | dev/asazutaiga/lox/Scanner.java:39-52 | a fresh scanner returns Scan's token list and reports |
| RustScanner.StringLexeme | rust/src/scanner.rs:197-214 | on an ASCII source, a string always yields a String token with the text between the quotes, with "Unterminated string." when no quote closes it; a lone `"` at the very end panics (None) |
| RustScanner.StringLexemeAt | rust/src/scanner.rs:197-214 | the token ends after the closing quote, or at the end of the source with the report |
| RustScanner.NumberLexeme | rust/src/scanner.rs:216-230 | a Number token whose literal is its lexeme text |
| RustScanner.IdentifierLexeme | rust/src/scanner.rs:232-245 | a keyword-or-Identifier token for the letter-digit run, carrying its text as literal |
| RustScanner.Step | rust/src/scanner.rs:46-121 | one `scan_token` on an ASCII source: panics only on a lone `"` at the end; otherwise consumes at least one character, at most one token and one report, lexeme `source[start..current]` |
| RustScanner.ScanFrom | rust/src/scanner.rs:34-38 | the scanning loop on an ASCII source: panics only when the source ends with `"`; otherwise no EOF inside and the final line counts every newline |
| RustScanner.ScanFromStep | rust/src/scanner.rs:35-38 | scanning is one step followed by scanning the rest, and panics exactly when the rest does |
| RustScanner.Scan | rust/src/scanner.rs:34-43 | panics (None) on every source with a character beyond ASCII, and on an ASCII source only when it ends with `"`; otherwise the token list ends with an Eof token with empty lexeme and the final line |
| RustScanner.ScanFromLocated | rust/src/scanner.rs:141-150 | every token's lexeme is a slice of the source |
| RustScanner.StringsExcludeQuotes | rust/src/scanner.rs:197-214 | on an ASCII source, a terminated string's literal excludes the quotes and there is no report |
| RustScanner.UnterminatedStringKeepsToken | rust/src/scanner.rs:205-211 | without a closing quote the report is made and a String token is still emitted, its literal cut one character short |
| RustScanner.StepOnQuote | rust/src/scanner.rs:108-110 | a `"` starts a string |
| RustScanner.LoneQuotePanics | rust/src/scanner.rs:208-210 | a `"` as the last character makes the slice `start+1..current-1` invalid: a panic |
| RustScanner.QuoteAlonePanics | rust/src/scanner.rs:208-210 | the source `"` alone panics |
| RustScanner.NumbersAreMaximal | rust/src/scanner.rs:216-230 | a maximal digit run with a fraction only where `.` is followed by a digit; the literal is the lexeme text |
| RustScanner.IdentifiersAreMaximal | rust/src/scanner.rs:232-267 | maximal letter-digit run; exact keywords get their kind, anything else Identifier; the literal is the text |
| RustScanner.UnexpectedCharacters | rust/src/scanner.rs:111-119 | on an ASCII source, any other character reports "Unexpected character." with no token, and scanning goes on |
| RustScanner.Scanner.constructor | rust/src/scanner.rs:24-32 | empty token list, cursor at 0, line 1 |
| RustScanner.Scanner.Advanced | rust/src/scanner.rs:124-132 | at the byte end None and no move; otherwise one step on, answering the character at the cursor, or None when the characters ran out before the bytes |
| RustScanner.Scanner.MatchChar | rust/src/scanner.rs:169-179 | where its `unwrap` cannot panic: moves one on and answers true exactly on an exact match before the end |
| RustScanner.Scanner.AddTokenLiteral | rust/src/scanner.rs:141-150 | appends one token with lexeme `source[start..current]` and the current line |
| RustScanner.Scanner.ScanIdentifier | rust/src/scanner.rs:232-245 | never panics on an ASCII source; when it does not, the loop stops at the end of the run, then one token as IdentifierLexeme says |
| RustScanner.Scanner.ScanNumber | rust/src/scanner.rs:216-230 | never panics on an ASCII source; when it does not, the loops stop where NumberEnd says, then one Number token with the text as literal |
| RustScanner.Scanner.ScanString | rust/src/scanner.rs:197-214 | on an ASCII source answers false exactly where StringLexeme panics; whenever it answers true, the state afterwards is StringLexeme's |
| RustScanner.Scanner.ScanPunctuation | rust/src/scanner.rs:49-107 | never panics on an ASCII source; when it does not, the punctuation, operator, comment and whitespace arms act as Punctuation says |
| RustScanner.Scanner.ScanToken | rust/src/scanner.rs:46-121 | false where an `unwrap` or a slice panics, on an ASCII source exactly where Step panics; whenever true, the state is updated as Step says |
| RustScanner.Scanner.ScanTokens | rust/src/scanner.rs:34-43 | None on every source beyond ASCII, since the character cursor never reaches the byte length; on an ASCII source None exactly where ScanFrom panics, otherwise ScanFrom's tokens, line and reports, followed by Eof |
| RustScanner.ScanSource | rust/src/scanner.rs:24-43 | a fresh scanner returns Scan's result |
| RustScanner.Utf8Length | rust/src/scanner.rs:153-155 | `source.len()` counts UTF-8 bytes and is never below the number of characters |
| RustScanner.Utf8LengthAscii | rust/src/scanner.rs:153-155 | the byte length equals the character count exactly on an ASCII source |
| RustScanner.Scanner.Len | rust/src/scanner.rs:152-155 | the length `is_at_end` compares with is at least the number of characters |
| RustScanner.Scanner.IsAtEnd | rust/src/scanner.rs:152-155 | on an ASCII source, a cursor short of the end is on a character |
| RustScanner.Scanner.Peek | rust/src/scanner.rs:182-187 | where its `unwrap` cannot panic: the character at the cursor, `'\0'` past the characters |
| RustScanner.Scanner.PeekNext | rust/src/scanner.rs:189-194 | where its `unwrap` cannot panic: the character after the cursor, `'\0'` past the characters |
| RustScanner.Scanner.SkipComment | rust/src/scanner.rs:95-97 | never panics on an ASCII source; when it does not, it stops where LineEnd says |
| RustScanner.Scanner.SkipStringBody | rust/src/scanner.rs:198-203 | never panics on an ASCII source; when it does not, it stops at the closing quote or the end and counts the line breaks passed |
| RustScanner.Scanner.SkipDigits | rust/src/scanner.rs:217-219 | never panics on an ASCII source; when it does not, it stops where DigitsEnd says |
| PhpScanner.Substr | php/lox/Scanner.php:186-190 | `substr` with a length: as many characters as asked, or up to the end |
| PhpScanner.NumeralEnd | php/lox/Scanner.php:112-122 | where `number` stops, inside the source |
| PhpScanner.Numeric | php/lox/Scanner.php:165-169 | PHP's numeric-string reading: once the number has ended only blanks may follow, and at the end of the text it is numeric exactly in an accepting state |
| PhpScanner.NotNumericExamples | php/lox/Scanner.php:165-169 | `.`, `1e` and `12a` are not numeric strings |
| PhpScanner.NumericExamples | php/lox/Scanner.php:165-169 | ` 12 ` reads as 12 and `1e3` as 1000 |
| PhpScanner.Decimal | php/lox/Scanner.php:165 | an integer's text is a non-empty run of digits |
| PhpScanner.IntAtLeast | php/lox/Scanner.php:165 | `current + 1 >= source` compares by value when the source is a numeric string, and is false when the source is a non-numeric text starting above `9` |
| PhpScanner.FractionTaken | php/lox/Scanner.php:117-122 | a fraction is taken on a numeric source only while the cursor is still below the source's value |
| PhpScanner.Symbol | php/lox/Scanner.php:34-89 | a punctuation or operator character gives at most one token and no report, moves at least one on and keeps the line; it gives none exactly for `//`, which runs to the end |
| PhpScanner.StringLexeme | php/lox/Scanner.php:130-148 | an unterminated string reports "Unterminated string." and adds no token; a terminated one adds one STRING token whose literal is `substr(source, start + 1, current - 1)` |
| PhpScanner.NumberLexeme | php/lox/Scanner.php:112-128 | one NUMBER token ending where `number` stops, whose literal is the value of its lexeme, and no report |
| PhpScanner.Step | php/lox/Scanner.php:30-110 | one `scanToken`: at least one character, at most one token or one report, lexeme `substr(source, start, current)`, line never changes |
| PhpScanner.ScanFrom | php/lox/Scanner.php:19-24 | the scanning loop: no EOF token inside, and the line never changes, so every token carries the starting line |
| PhpScanner.ScanFromStep | php/lox/Scanner.php:20-24 | scanning is one step followed by scanning the rest |
| PhpScanner.Scan | php/lox/Scanner.php:19-28 | the token list ends with an EOF token with empty lexeme, and every token is on line 1 |
| PhpScanner.OperatorsMunchEqual | php/lox/Scanner.php:54-81 | `! = < >` give the two-character kind exactly when `match('=')` succeeds |
| PhpScanner.NumbersAreDigitRuns | php/lox/Scanner.php:112-122 | a number is a maximal digit run with at most one fraction after a `.` that a digit follows, unless the guard's integer-to-string comparison cuts it |
| PhpScanner.StepOnDigit | php/lox/Scanner.php:103-104 | a digit starts a NUMBER token with lexeme `substr(source, start, current)` |
| PhpScanner.FractionTest | php/lox/Scanner.php:117-122 | the fraction is taken exactly when `peek` gives `.` and `peekNext` gives a digit, where `peekNext` gives `\0` once the integer position compares at least the source string, and the empty string past the end |
| PhpScanner.StepOnSymbol | php/lox/Scanner.php:34-89 | punctuation, operators and `/` follow the symbol branches |
| PhpScanner.SingleCharacterTokens | php/lox/Scanner.php:34-53 | `( ) { } , . - + ; *` each give one token of their kind |
| PhpScanner.StepOnQuote | php/lox/Scanner.php:101 | a `"` starts a string |
| PhpScanner.StringValueKeepsClosingQuote | php/lox/Scanner.php:143-147 | the string value, taken with a length, holds the closing quote and runs on past it |
| PhpScanner.UnterminatedString | php/lox/Scanner.php:137-140 | without a closing quote: "Unterminated string." and no token |
| PhpScanner.CommentsRunToTheEnd | php/lox/Scanner.php:82-85 | `//` runs to the end of the source, since `'\n'` is two characters and never equals one |
| PhpScanner.UnexpectedCharacters | php/lox/Scanner.php:102-108 | letters and any other unlisted character report "Unexpected character." and emit nothing |
| PhpScanner.LineFeedIsUnexpected | php/lox/Scanner.php:91-99 | a real newline is an unexpected character and the line stays 1 |
| PhpScanner.LexemesRunOn | php/lox/Scanner.php:186-190 | a token's lexeme, cut with a length, runs past the token |
| PhpScanner.GuardSplitsFraction | php/lox/Scanner.php:165-169 | the `peekNext` guard compares an integer with the source text, and can refuse a fraction that is there |
| PhpScanner.GuardAllowsFraction | php/lox/Scanner.php:165-169 | for a source text that is not numeric the guard lets the fraction through |
| PhpScanner.NumericSourceSplitsFraction | php/lox/Scanner.php:165-169 | when the whole source is the numeral `1.5` the guard cuts it before the `.` |
| PhpScanner.Scanner.constructor | php/lox/Scanner.php:7-14 | empty token list, cursor at 0, line 1 |
| PhpScanner.Scanner.IsAtEnd | php/lox/Scanner.php:176-179 | short of the end the cursor is on a character of the source |
| PhpScanner.Scanner.Peek | php/lox/Scanner.php:159-163 | the character at the cursor; at the end the two-character text `\0` (single quotes do not escape in PHP) |
| PhpScanner.Scanner.PeekNext | php/lox/Scanner.php:165-169 | `\0` when the integer `current + 1` is at least the source text in PHP's comparison; otherwise the next character, or the empty string past the end |
| PhpScanner.Scanner.Advance | php/lox/Scanner.php:181-184 | returns the current character and moves one on |
| PhpScanner.Scanner.Match | php/lox/Scanner.php:150-157 | moves one on and answers true exactly when not at the end and the character is identical |
| PhpScanner.Scanner.AddToken | php/lox/Scanner.php:186-190 | appends one token with lexeme `substr(source, start, current)` and the current line |
| PhpScanner.Scanner.SkipDigits | php/lox/Scanner.php:114 | the digit loop stops at the end of the digit run |
| PhpScanner.Scanner.ScanNumber | php/lox/Scanner.php:112-128 | the loops stop where NumeralEnd says, then one NUMBER token |
| PhpScanner.Scanner.ScanString | php/lox/Scanner.php:130-148 | the state afterwards is what StringLexeme says |
| PhpScanner.Scanner.ScanSymbol | php/lox/Scanner.php:34-89 | the symbol branches update cursor and tokens as Step says, with no report |
| PhpScanner.Scanner.ScanToken | php/lox/Scanner.php:30-110 | updates cursor, line, tokens and reports as Step says |
| PhpScanner.Scanner.ScanTokens | php/lox/Scanner.php:19-28 | runs to the end; ScanFrom's tokens and reports, followed by the EOF token |
| PhpScanner.ScanSource | php/lox/Scanner.php:19-28 | a fresh scanner returns Scan's token list and reports |
| GoParser.ConsumeAt | go/parser/parser.go:199-206 | the expected kind (never EOF) is taken and returned; otherwise the message is reported at the current token's line, nil is returned and the cursor stays |
| GoParser.ExpressionAt | go/parser/parser.go:52-54 | `expression` goes straight to `equality` and ends inside the token list |
| GoParser.OperandAt | go/parser/parser.go:96-154 | each level's operands are parsed by the next tighter level, ending inside the token list |
| GoParser.FoldAt | go/parser/parser.go:96-154 | a level parses one operand, then its loop; it ends inside the token list |
| GoParser.FoldRestAt | go/parser/parser.go:96-154 | a level's loop moves the cursor exactly when the level's operator follows |
| GoParser.UnaryAt | go/parser/parser.go:156-167 | `unary` consumes a token exactly when the token can start an expression |
| GoParser.PrimaryAt | go/parser/parser.go:169-197 | `primary` consumes exactly on a literal, name or `(`; otherwise nil, "Expect expression." at the token's line, no move |
| GoParser.AssignmentAt | go/parser/parser.go:62-78 | `assignment` ends inside the token list |
| GoParser.TerminatedAt | go/parser/parser.go:80-94 | a print or expression statement always yields a statement |
| GoParser.StatementAt | go/parser/parser.go:56-61 | a print statement exactly after `print`, otherwise an expression statement |
| GoParser.VarDeclarationAt | go/parser/parser.go:38-50 | a missing name is the nil-dereference panic; otherwise a var statement under that name |
| GoParser.DeclarationAt | go/parser/parser.go:31-36 | a var statement or a panic exactly after `var`, otherwise a statement |
| GoParser.ParseFrom | go/parser/parser.go:23-29 | statements are collected in order after those already collected, at most one per token |
| GoParser.SyncFrom | go/parser/parser.go:250-272 | stops just after a `;`, before a `return`, or at EOF, and at the first such place |
| GoParser.Parser.constructor | go/parser/parser.go:16-21 | cursor at the first token, no reports |
| GoParser.Parser.IsAtEnd | go/parser/parser.go:233-235 | true exactly when the current token is EOF |
| GoParser.Parser.Peek | go/parser/parser.go:237-239 | the token at the cursor, which is always inside the token list |
| GoParser.Parser.Previous | go/parser/parser.go:241-243 | the token just before the cursor |
| GoParser.Parser.Check | go/parser/parser.go:219-224 | true exactly when the current token has the kind and is not EOF |
| GoParser.Parser.Advance | go/parser/parser.go:226-231 | one token on, except at EOF, never past it; returns the token just passed |
| GoParser.Parser.Error | go/parser/parser.go:245-248 | one report at the token's line |
| GoParser.Parser.Match | go/parser/parser.go:208-217 | moves exactly one on and answers true exactly when the current token's kind is among the kinds; otherwise no move |
| GoParser.Parser.Consume | go/parser/parser.go:199-206 | cursor, result and reports as ConsumeAt says |
| GoParser.Parser.Expression | go/parser/parser.go:52-54 | result, cursor and reports as ExpressionAt says |
| GoParser.Parser.Equality | go/parser/parser.go:96-106 | the loop folds as FoldAt says for the equality operators |
| GoParser.Parser.Comparison | go/parser/parser.go:108-122 | the loop folds as FoldAt says for the comparison operators |
| GoParser.Parser.Term | go/parser/parser.go:124-138 | the loop folds as FoldAt says for `-` and `+` |
| GoParser.Parser.Factor | go/parser/parser.go:140-154 | the loop folds as FoldAt says for `/` and `*` |
| GoParser.Parser.Unary | go/parser/parser.go:156-167 | result, cursor and reports as UnaryAt says |
| GoParser.Parser.Primary | go/parser/parser.go:169-197 | result, cursor and reports as PrimaryAt says |
| GoParser.Parser.Assignment | go/parser/parser.go:62-78 | result, cursor and reports as AssignmentAt says |
| GoParser.Parser.PrintStatement | go/parser/parser.go:80-86 | a print statement as TerminatedAt says |
| GoParser.Parser.ExpressionStatement | go/parser/parser.go:88-94 | an expression statement as TerminatedAt says |
| GoParser.Parser.Statement | go/parser/parser.go:56-61 | as StatementAt says |
| GoParser.Parser.VarDeclaration | go/parser/parser.go:38-50 | as VarDeclarationAt says, None for the panic |
| GoParser.Parser.Declaration | go/parser/parser.go:31-36 | as DeclarationAt says |
| GoParser.Parser.Parse | go/parser/parser.go:23-29 | the loop's statements, outcome and reports are those of ParseFrom |
| GoParser.Parser.Synchronize | go/parser/parser.go:250-272 | the cursor ends where SyncFrom says |
| GoParserFacts.ExpressionAssignFree | go/parser/parser.go:52-54 | `expression` never builds an Assign node, and reports are only ever added |
| GoParserFacts.FoldAssignFree | go/parser/parser.go:96-154 | no level of the operator grammar builds an Assign node, and reports are only ever added |
| GoParserFacts.UnaryAssignFree | go/parser/parser.go:156-167 | `unary` builds no Assign node and keeps earlier reports |
| GoParserFacts.FoldRestAssignFree | go/parser/parser.go:96-154 | the folding loops keep trees free of Assign nodes and keep earlier reports |
| GoParserFacts.PrimaryAssignFree | go/parser/parser.go:169-197 | `primary` builds no Assign node and keeps earlier reports |
| GoParserFacts.DeclarationAssignFree | go/parser/parser.go:31-50 | a declaration's statement holds no Assign node, and earlier reports are kept |
| GoParserFacts.ParsedAssignFree | go/parser/parser.go:23-29 | a parsed program holds only expression, print and var statements without Assign, and earlier reports are kept |
| GoParserFacts.ParsedExecutable | go/parser/parser.go:23-29 | every statement `Parse` returns is one the evaluator executes |
| GoParserFacts.ShapedTop | go/parser/parser.go:96-154 | a tree of a level has at its top only an operator of that level or a tighter one |
| GoParserFacts.FoldShaped | go/parser/parser.go:96-154 | each level builds a left spine of its own operators over operands of the next tighter level |
| GoParserFacts.FoldRestShaped | go/parser/parser.go:96-154 | a level's loop keeps the left-spine shape |
| GoParserFacts.OperandAtShaped | go/parser/parser.go:140-167 | an operand of a level follows the shape of the next tighter level; at `factor` it is never a Binary |
| GoParserFacts.UnaryTop | go/parser/parser.go:156-167 | `unary` never returns a Binary at its top |
| GoParserFacts.LeftAssociative | go/parser/parser.go:124-138 | a Binary of some level never has a Binary of that same level as its right child |
| GoParserFacts.ExpressionShaped | go/parser/parser.go:52-54 | every tree `expression` builds follows operator precedence |
| GoParserFacts.VariableOperand | go/parser/parser.go:169-190 | a name followed by no tighter operator parses as a Variable of one token |
| GoParserFacts.TermLeftAssociates | go/parser/parser.go:124-138 | `a - b - c ;` parses as `Binary(Binary(a, -, b), -, c)` |
| GoParserFacts.PrefixEnd | go/parser/parser.go:156-163 | where the run of `!` and `-` prefixes ends |
| GoParserFacts.UnaryNesting | go/parser/parser.go:156-167 | `unary` nests the prefixes right to left as `Unary(op, Unary(op, ...))` around the following primary |
| GoParserFacts.FoldProgress | go/parser/parser.go:96-197 | a level consumes nothing exactly when the token neither starts an expression nor is an operator of that level or a tighter one; it then yields nil and only "Expect expression." |
| GoParserFacts.TerminatedProgress | go/parser/parser.go:88-94 | an expression statement stalls exactly on a token that is neither an expression start, a binary operator nor `;`, and then reports twice |
| GoParserFacts.DeclarationProgress | go/parser/parser.go:31-36 | a declaration moves the cursor unless its first token stalls |
| GoParserFacts.StallSpins | go/parser/parser.go:23-29 | on a stalling token such as a lone `)` the loop of `Parse` never ends, after "Expect expression." and "Expect ';' after value." |
| GoParserFacts.SpinsOnlyOnStall | go/parser/parser.go:23-29 | `Parse` loops for ever only if some token stalls |
| GoParserFacts.NamelessVarPanics | go/parser/parser.go:38-50 | a `var` followed by anything but a name makes `Parse` panic |
| GoParserFacts.PanicsOnlyOnNamelessVar | go/parser/parser.go:38-50 | `Parse` panics only at a `var` without a name |
| GoParserFacts.AssignmentTargets | go/parser/parser.go:62-78 | `assignment` builds an Assign exactly over a Variable before `=`, under that name; any other target is reported as "Invalid assignment target." and returned |
| GoParserFacts.VarWithoutName | go/parser/parser.go:38-41 | a var declaration without a name first reports "Expect variable name." at that token's line |
| Scopes.Nearest | go/environment/environment.go:19-27 | the innermost scope holding the name, or none when no scope does |
| Scopes.Lookup | go/environment/environment.go:19-27 | `Get` misses exactly when no scope of the chain binds the name, and a hit is the binding of some scope that holds it |
| Scopes.DefineIn | go/environment/environment.go:15-17 | `Define` binds in the receiver only and leaves the enclosing scopes alone |
| Scopes.AssignIn | go/environment/environment.go:29-39 | `Assign` keeps the chain's length |
| Scopes.LookupNearest | go/environment/environment.go:19-27 | `Get` returns the binding of the nearest scope holding the name, and a miss only when no scope holds it |
| Scopes.DefineThenGet | go/environment/environment.go:15-27 | after `Define(n, v)`, `Get(n)` returns v |
| Scopes.DefineKeepsOthers | go/environment/environment.go:15-17 | `Define` changes no other name's lookup; redefinition overwrites without error |
| Scopes.Shadowing | go/environment/environment.go:19-22 | a local binding shadows the enclosing ones |
| Scopes.FallThrough | go/environment/environment.go:23-26 | a local miss falls through to the enclosing chain |
| Scopes.AssignNearest | go/environment/environment.go:29-39 | `Assign` updates the nearest scope holding the name and no other; with no such scope it changes nothing |
| Scopes.AssignKeepsNames | go/environment/environment.go:29-39 | `Assign` creates no binding in any scope |
| Scopes.AssignThenGet | go/environment/environment.go:29-39 | after `Assign(n, v)`, `Get(n)` returns v if n was bound, and still misses otherwise |
| GoEnvironment.Environment.Scopes | go/environment/environment.go:3-6 | the chain of maps from the receiver outward |
| GoEnvironment.Environment.constructor | go/environment/environment.go:8-13 | a fresh empty map in front of the enclosing chain |
| GoEnvironment.Environment.Define | go/environment/environment.go:15-17 | the receiver's map gets the binding, as DefineIn says |
| GoEnvironment.Environment.Get | go/environment/environment.go:19-27 | the lookup along the chain, as Lookup says |
| GoEnvironment.Environment.Assign | go/environment/environment.go:29-39 | the recursion outward updates the chain as AssignIn says |
| GoInterpreter.IsTruthy | go/interpreter/interpreter.go:197-206 | false exactly for nil and false; 0 and the empty string are true |
| GoInterpreter.IsEqual | go/interpreter/interpreter.go:208-217 | equal exactly when same type and same value, nil only to nil |
| GoInterpreter.CheckNumberOperand | go/interpreter/interpreter.go:219-225 | an error exactly when the operand is not a number |
| GoInterpreter.CheckNumberOperands | go/interpreter/interpreter.go:227-236 | an error exactly when either operand is not a number |
| GoInterpreter.UnaryValue | go/interpreter/interpreter.go:40-56 | `!` is the negated truthiness and never errs; `-` negates a number, else "Operand must be a number." and nil |
| GoInterpreter.BinaryValue | go/interpreter/interpreter.go:72-144 | the value leaves the reals exactly on a number divided by zero; whenever an error is reported the value is nil |
| GoInterpreter.Arithmetic | go/interpreter/interpreter.go:73-137 | on two numbers nothing is reported; `- / *` give numbers and the comparisons booleans; only `/` by zero leaves the reals |
| GoInterpreter.Apply | go/interpreter/interpreter.go:74-78 | an error line is written after the earlier output and the value returned; the environment is untouched; a result outside the reals is a crash |
| GoInterpreter.Eval | go/interpreter/interpreter.go:32-145 | evaluation keeps the number of scopes and only adds output |
| GoInterpreter.Stringify | go/interpreter/interpreter.go:238-251 | printing panics exactly on a bool |
| GoInterpreter.Execute | go/interpreter/interpreter.go:171-189 | a statement keeps the number of scopes and only adds output |
| GoInterpreter.Run | go/interpreter/interpreter.go:25-30 | statements in order; a run that completes yields nil |
| GoInterpreter.EqualityOperators | go/interpreter/interpreter.go:138-141 | `==` is value equality, `!=` its negation, neither reports |
| GoInterpreter.NumericOperands | go/interpreter/interpreter.go:68-137 | `> >= < <= - / *` on anything but two numbers report "Operands must be numbers." and yield nil; only a division by zero leaves the reals |
| GoInterpreter.PlusOperands | go/interpreter/interpreter.go:108-123 | `+` adds numbers, concatenates strings, else "Operands must be two numbers or two strings." and nil |
| GoInterpreter.ReadOnlyKeepsChain | go/interpreter/interpreter.go:32-145 | an expression without Assign leaves the environment unchanged |
| GoInterpreter.UndefinedVariable | go/interpreter/interpreter.go:58-66 | an undefined variable writes "Undefined variable '<name>'." and yields nil |
| GoInterpreter.LeftOperandFirst | go/interpreter/interpreter.go:68-71 | for every binary expression: the left operand's output comes first, its crash is the crash of the whole, and otherwise the right operand runs in the environment and after the output the left one left |
| GoInterpreter.AssignmentSeenOnTheRight | go/interpreter/interpreter.go:68-71 | `(a = v) == a` is true for a bound `a`: the right operand sees the left one's assignment |
| GoInterpreter.LeftErrorFirst | go/interpreter/interpreter.go:58-71 | with two unbound names, the left name's "Undefined variable" line is written before the right one's |
| GoInterpreter.AssignYieldsValue | go/interpreter/interpreter.go:191-195 | an assignment yields its value and binds it where the name is bound |
| GoInterpreter.VarDefines | go/interpreter/interpreter.go:182-189 | a var statement defines the name as the initializer's value, or nil without one |
| GoInterpreter.RunConcat | go/interpreter/interpreter.go:25-30 | running two lists is running the first, then, unless it stopped, the second |
| GoInterpreter.Interpreter.constructor | go/interpreter/interpreter.go:18-23 | one empty global scope, no output |
| GoInterpreter.Interpreter.Evaluate | go/interpreter/interpreter.go:167-169 | outcome, environment and output as Eval says |
| GoInterpreter.Interpreter.Report | go/interpreter/interpreter.go:219-236 | a computed value and its error line as Apply says |
| GoInterpreter.Interpreter.VisitUnaryExpr | go/interpreter/interpreter.go:40-56 | as Eval says for a Unary |
| GoInterpreter.Interpreter.VisitVariableExpr | go/interpreter/interpreter.go:58-66 | as Eval says for a Variable |
| GoInterpreter.Interpreter.VisitBinaryExpr | go/interpreter/interpreter.go:68-145 | as Eval says for a Binary |
| GoInterpreter.Interpreter.VisitAssignExpr | go/interpreter/interpreter.go:191-195 | as Eval says for an Assign |
| GoInterpreter.Interpreter.ExecuteStatement | go/interpreter/interpreter.go:171-189 | as Execute says |
| GoInterpreter.Interpreter.Interpret | go/interpreter/interpreter.go:25-30 | the loop runs the statements as Run says |
| GoAstPrinter.LiteralText | go/cmd/ast_printer.go:22-27 | nil prints `nil`, a string prints itself, any other literal panics |
| GoAstPrinter.Spaced | go/cmd/ast_printer.go:35-38 | one space before each part, in order |
| GoAstPrinter.Parenthesize | go/cmd/ast_printer.go:33-41 | starts with `(`, ends with `)`, and its length is the name, the parts and one space per part |
| GoAstPrinter.SpacedSnoc | go/cmd/ast_printer.go:35-38 | each further part appends one space and itself to what came before |
| GoAstPrinter.ParenthesizePair | go/cmd/ast_printer.go:33-41 | with two parts the text is `(name l r)` |
| GoAstPrinter.ParenthesizeOne | go/cmd/ast_printer.go:33-41 | with one part the text is `(name i)` |
| GoAstPrinter.Print | go/cmd/ast_printer.go:10-31 | the printer yields a text exactly when the tree holds no nil expression and no bool or number literal, and panics otherwise |
| GoAstPrinter.BinaryLayout | go/cmd/ast_printer.go:14-16 | a Binary prints as `(op left right)` |
| GoAstPrinter.GroupingLayout | go/cmd/ast_printer.go:18-20 | a Grouping prints as `(group inner)` |
| GoAstPrinter.UnaryLayout | go/cmd/ast_printer.go:29-31 | a Unary prints as `(op operand)` |
| GoAstPrinter.PrintBalanced | go/cmd/ast_printer.go:33-41 | with no parenthesis in string literals or operators, the printed parentheses are balanced |
| RustExpr.BinarySymbol | rust/src/expr.rs:58-64 | only Minus, Plus, Slash and Star write an operator symbol |
| RustExpr.UnarySymbol | rust/src/expr.rs:82-91 | `-` for Minus, `!` for Bang, nothing otherwise |
| RustExpr.LiteralText | rust/src/expr.rs:73-81 | True, False and Nil write `true`, `false`, `nil` |
| RustExpr.Emit | rust/src/expr.rs:41-91 | a literal writes its text and every other node writes a text wrapped in `(` and `)` |
| RustExpr.EmitBalanced | rust/src/expr.rs:55-91 | with no parenthesis in literal texts, the written parentheses are balanced |
| RustExpr.SilentBinary | rust/src/expr.rs:55-67 | a Binary whose operator writes no symbol prints as `(` left right `)` |
| RustExpr.DroppedOperators | rust/src/expr.rs:55-67 | a Binary over a non-arithmetic operator writes its operands side by side, so different such operators print alike |

## Left out

- Drivers and REPL loops (go/lox/lox.go, go/main.go, go/cmd/glox.go, Lox.java, Lox.php, rust/src/main.rs): file and console I/O and exit codes. The logger and `Lox.error` become the report list.
- Each call of the Go parser's `error` makes a fresh logger, so parser errors never reach the driver's error flag. The model keeps them as reports, and the flag is not modelled.
- Floating point: the decoding of numerals (`Double.parseDouble`, `floatval`, Rust's `f64` display) is not modelled. Tokens keep the numeral text, and the evaluator uses real numbers.
- Floating point in the evaluator: division by zero gives the outcome NotReal instead of an IEEE infinity or NaN. IEEE rounding is not modelled.
- GoInterpreter.Stringify: `%g` formatting is left abstract. The Line value Formatted carries the number.
- Block, Conditional, While and Function statements have no interpreter in the source. Execute requires the executable statement kinds.
- The `StartLine`/`EndLine` stubs of go/ast/assign.go panic; they are not modelled.
- The Go code does not compile as a whole. `NewEnvironment` is called without its argument, `Interpret` takes expressions, and the visitor names differ from stmt.go. Each function is modelled by its own body.
- Environment keys: go/token is not part of this model. Lookup and assignment use `Name.String()`, which is taken to be the lexeme, as definition uses it.
- GoAst.NumeralValue: a NUMBER literal's value is taken to be the decimal value of its numeral text, since go/token is not part of this model.
- The Go printer's visitor has no Variable or Assign method. Print requires a tree without them.
- Rust printer: `f64` display formatting is not modelled (a number literal keeps its text), and neither are non-ASCII characters.
- PHP runtime failures are not modelled: the `?object` TypeError in Token, the missing `Lox::error` and the unimported TokenType namespace.
- PHP byte-string indexing is modelled over characters. Multi-byte characters are not modelled.
- RustScanner.StringsExcludeQuotes: states the string arm over the characters of the source, which is what the Rust scanner does on an ASCII source. A source with any other character panics, as Scan and Scanner.ScanTokens state; this lemma does not say so.
- RustScanner.Step, RustScanner.ScanFrom, RustScanner.StringLexeme, RustScanner.UnterminatedStringKeepsToken, RustScanner.NumbersAreMaximal, RustScanner.IdentifiersAreMaximal and RustScanner.UnexpectedCharacters: the same; they describe the scan of an ASCII source, and only Scan and Scanner.ScanTokens state the panic on every other source.
- RustScanner.Scanner.ScanString: on a source beyond ASCII the literal is sliced by character, where Rust slices by byte and may panic at that slice or cut elsewhere. The model places only the panics of the `unwrap`s at the cursor; the scan of such a source still ends in a panic, since Scanner.ScanTokens is None there. Scanner.AddTokenLiteral slices by character in the same way.
- GoScanner.Step, GoScanner.UnexpectedCharacters: the Go source is a byte string. Each character of the model's string stands for one byte, so a multi-byte UTF-8 character is its sequence of bytes, and each byte that starts no lexeme gets its own "Unexpected character." report (GoScanner.TwoByteCharacter).
- JavaScanner.Step, JavaScanner.UnexpectedCharacters: the model's characters stand for Java's UTF-16 code units. A character outside the Basic Multilingual Plane is two surrogate units in Java and draws two "Unexpected character." reports; surrogate units are not Dafny characters, so such sources are not modelled.
- The `main` demo functions of go/cmd/ast_printer.go and rust/src/expr.rs are not modelled, and neither is token display formatting.
- Tokens after EOF: the parser model requires the token list to end with EOF, as every scanner produces it.
- GoParser.ParseFrom: where the source's `Parse` loops for ever, the model stops at the first round that makes no progress, with the outcome Spins.
- GoParser.Parser.Advance: requires not being at EOF on the first token, where `previous` would index before the list. Parse never calls it there.
- GoParser.AssignmentAt: its own contract states only the cursor bound. What it builds is stated in GoParserFacts.AssignmentTargets.
- Synchronize is modelled although nothing calls it.
