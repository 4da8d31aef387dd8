/**
 * The recursive-descent parser of go/parser/parser.go over a token list
 * that ends with EOF, as the scanners produce it.
 *
 * The grammar functions below say what each parsing method does from a
 * cursor i with the reports made so far: what it builds, where it leaves
 * the cursor and the reports after it.  The class Parser is the
 * cursor-driven original, proved against them.  Reports are the
 * `(line, message)` pairs that `error` hands to a fresh logger.
 *
 * `Parse` loops while the cursor is not at EOF.  A declaration that
 * consumes nothing (a lone `)`, say) leaves the cursor where it was, and
 * since what a declaration does depends on nothing but the cursor, every
 * later round does the same: the loop never ends.  The model stops at the
 * first such round with the outcome Spins.  A `var` without a name panics
 * when the nil token is dereferenced: the outcome Panics.
 */
module GoParser {
  import opened Tokens
  import opened GoAst

  /** A token list as the scanners return it: never empty, EOF last. */
  predicate WellFormed(toks: seq<Token>)
  {
    |toks| > 0 && toks[|toks| - 1].kind == Eof
  }

  /** What an expression method returns, where it leaves the cursor, and all reports so far. */
  datatype Parsed = Parsed(expr: Expr, next: nat, reports: seq<Report>)

  /** What `consume` returns (None for nil), where it leaves the cursor, and all reports so far. */
  datatype Consumed = Consumed(token: Option<Token>, next: nat, reports: seq<Report>)

  /** What a declaration method returns (None where it panics), the cursor, and all reports so far. */
  datatype Declared = Declared(stmt: Option<Stmt>, next: nat, reports: seq<Report>)

  /** Whether `match` with these kinds takes the token at i: never at EOF. */
  predicate Matches(toks: seq<Token>, i: nat, kinds: seq<Kind>)
    requires i < |toks|
  {
    toks[i].kind != Eof && toks[i].kind in kinds
  }

  /** The four left-folding levels, from the loosest to the tightest. */
  datatype Level = EqualityLevel | ComparisonLevel | TermLevel | FactorLevel

  /** The operators each level's loop accepts. */
  function Operators(level: Level): seq<Kind>
  {
    match level
    case EqualityLevel => [BangEqual, EqualEqual]
    case ComparisonLevel => [Greater, GreaterEqual, Less, LessEqual]
    case TermLevel => [Minus, Plus]
    case FactorLevel => [Slash, Star]
  }

  /** The tokens `primary` accepts, and with `!` and `-` those `unary` accepts. */
  const PrimaryStarts: seq<Kind> := [False, True, Kind.Nil, Number, String, Identifier, LeftParen]
  const ExpressionStarts: seq<Kind> := [Bang, Minus] + PrimaryStarts

  /** The operators of a level and of every tighter one. */
  function Binding(level: Level): seq<Kind>
    decreases Rank(level)
  {
    match level
    case FactorLevel => Operators(FactorLevel)
    case TermLevel => Operators(TermLevel) + Binding(FactorLevel)
    case ComparisonLevel => Operators(ComparisonLevel) + Binding(TermLevel)
    case EqualityLevel => Operators(EqualityLevel) + Binding(ComparisonLevel)
  }

  /** The ordering that the mutual recursion of the grammar descends. */
  function Rank(level: Level): nat
  {
    match level
    case EqualityLevel => 13
    case ComparisonLevel => 10
    case TermLevel => 7
    case FactorLevel => 4
  }

  /** No Assign node: what `expression` can build while `assignment` is never called. */
  predicate AssignFree(e: Expr)
  {
    match e
    case Binary(left, _, right) => AssignFree(left) && AssignFree(right)
    case Grouping(inner) => AssignFree(inner)
    case Unary(_, right) => AssignFree(right)
    case Assign(_, _) => false
    case _ => true
  }

  /** `consume`: the token when it has the kind, else a report at the current token and no move. */
  function ConsumeAt(toks: seq<Token>, i: nat, kind: Kind, message: string, reps: seq<Report>): (r: Consumed)
    requires WellFormed(toks) && i < |toks|
    ensures r.token.Some? <==> Matches(toks, i, [kind])
    ensures r.token.Some? ==> r == Consumed(Some(toks[i]), i + 1, reps)
    ensures r.token.None? ==> r == Consumed(None, i, reps + [Report(toks[i].line, message)])
  {
    if toks[i].kind != Eof && toks[i].kind == kind then Consumed(Some(toks[i]), i + 1, reps)
    else Consumed(None, i, reps + [Report(toks[i].line, message)])
  }

  /** `expression`: straight to `equality`. */
  function ExpressionAt(toks: seq<Token>, i: nat, reps: seq<Report>): (r: Parsed)
    requires WellFormed(toks) && i < |toks|
    ensures i <= r.next < |toks|
    decreases |toks| - i, 14
  {
    FoldAt(EqualityLevel, toks, i, reps)
  }

  /** The operand of a level: the next tighter level, or `unary` under `factor`. */
  function OperandAt(level: Level, toks: seq<Token>, i: nat, reps: seq<Report>): (r: Parsed)
    requires WellFormed(toks) && i < |toks|
    ensures i <= r.next < |toks|
    decreases |toks| - i, Rank(level) - 2
  {
    match level
    case EqualityLevel => FoldAt(ComparisonLevel, toks, i, reps)
    case ComparisonLevel => FoldAt(TermLevel, toks, i, reps)
    case TermLevel => FoldAt(FactorLevel, toks, i, reps)
    case FactorLevel => UnaryAt(toks, i, reps)
  }

  /** `equality`, `comparison`, `term` and `factor`: an operand, then the loop. */
  function FoldAt(level: Level, toks: seq<Token>, i: nat, reps: seq<Report>): (r: Parsed)
    requires WellFormed(toks) && i < |toks|
    ensures i <= r.next < |toks|
    decreases |toks| - i, Rank(level)
  {
    var first := OperandAt(level, toks, i, reps);
    FoldRestAt(level, toks, first.next, first.expr, first.reports)
  }

  /** The loop of a level: while its operator follows, the next operand is folded in on the right. */
  function FoldRestAt(level: Level, toks: seq<Token>, i: nat, left: Expr, reps: seq<Report>): (r: Parsed)
    requires WellFormed(toks) && i < |toks|
    ensures i <= r.next < |toks|
    ensures r.next == i <==> !Matches(toks, i, Operators(level))
    decreases |toks| - i, Rank(level) - 1
  {
    if Matches(toks, i, Operators(level)) then
      var right := OperandAt(level, toks, i + 1, reps);
      FoldRestAt(level, toks, right.next, Binary(left, toks[i], right.expr), right.reports)
    else Parsed(left, i, reps)
  }

  /** One round of a level's loop: the operator at i, then the operand after it. */
  lemma FoldRestStep(level: Level, toks: seq<Token>, i: nat, left: Expr, reps: seq<Report>, right: Parsed)
    requires WellFormed(toks) && i < |toks| && Matches(toks, i, Operators(level))
    requires right == OperandAt(level, toks, i + 1, reps)
    ensures FoldRestAt(level, toks, i, left, reps) == FoldRestAt(level, toks, right.next, Binary(left, toks[i], right.expr), right.reports)
  {
  }

  /** Under `factor` the operand is a unary. */
  lemma UnaryOperand(toks: seq<Token>, i: nat, reps: seq<Report>)
    requires WellFormed(toks) && i < |toks|
    ensures OperandAt(FactorLevel, toks, i, reps) == UnaryAt(toks, i, reps)
  {
  }

  /** `unary`: a `!` or `-` prefix around a unary, else a primary. */
  function UnaryAt(toks: seq<Token>, i: nat, reps: seq<Report>): (r: Parsed)
    requires WellFormed(toks) && i < |toks|
    ensures i <= r.next < |toks|
    ensures r.next > i <==> Matches(toks, i, ExpressionStarts)
    decreases |toks| - i, 1
  {
    if Matches(toks, i, [Bang, Minus]) then
      var right := UnaryAt(toks, i + 1, reps);
      Parsed(GoAst.Unary(toks[i], right.expr), right.next, right.reports)
    else PrimaryAt(toks, i, reps)
  }

  /** `primary`: literals, a variable, a grouping, or "Expect expression." without a move. */
  function PrimaryAt(toks: seq<Token>, i: nat, reps: seq<Report>): (r: Parsed)
    requires WellFormed(toks) && i < |toks|
    ensures i <= r.next < |toks|
    ensures r.next > i <==> Matches(toks, i, PrimaryStarts)
    ensures r.next == i ==> r == Parsed(NoExpr, i, reps + [Report(toks[i].line, "Expect expression.")])
    decreases |toks| - i, 0
  {
    var t := toks[i];
    if Matches(toks, i, [False]) then Parsed(Literal(Bool(false)), i + 1, reps)
    else if Matches(toks, i, [True]) then Parsed(Literal(Bool(true)), i + 1, reps)
    else if Matches(toks, i, [Kind.Nil]) then Parsed(Literal(Object.Nil), i + 1, reps)
    else if Matches(toks, i, [Number, String]) then Parsed(Literal(ObjectOf(t.literal)), i + 1, reps)
    else if Matches(toks, i, [Identifier]) then Parsed(Variable(t), i + 1, reps)
    else if Matches(toks, i, [LeftParen]) then
      var inner := ExpressionAt(toks, i + 1, reps);
      var close := ConsumeAt(toks, inner.next, RightParen, "Expect ')' after expression.", inner.reports);
      Parsed(Grouping(inner.expr), close.next, close.reports)
    else Parsed(NoExpr, i, reps + [Report(t.line, "Expect expression.")])
  }

  /**
   * `assignment`, which nothing calls: an equality, and after `=` an
   * assignment on the right; only a variable on the left makes an Assign.
   */
  function AssignmentAt(toks: seq<Token>, i: nat, reps: seq<Report>): (r: Parsed)
    requires WellFormed(toks) && i < |toks|
    ensures i <= r.next < |toks|
    decreases |toks| - i
  {
    var left := FoldAt(EqualityLevel, toks, i, reps);
    if Matches(toks, left.next, [Equal]) then
      var equals := toks[left.next];
      var value := AssignmentAt(toks, left.next + 1, left.reports);
      if left.expr.Variable? then
        Parsed(Assign(left.expr.name, value.expr), value.next, value.reports)
      else
        Parsed(left.expr, value.next, value.reports + [Report(equals.line, "Invalid assignment target.")])
    else left
  }

  /** `printStatement` and `expressionStatement`: an expression and a `;`. */
  function TerminatedAt(toks: seq<Token>, i: nat, printing: bool, reps: seq<Report>): (r: Declared)
    requires WellFormed(toks) && i < |toks|
    ensures i <= r.next < |toks| && r.stmt.Some?
  {
    var value := ExpressionAt(toks, i, reps);
    var semicolon := ConsumeAt(toks, value.next, Semicolon, "Expect ';' after value.", value.reports);
    Declared(Some(if printing then Stmt.Print(value.expr) else Stmt.Expression(value.expr)), semicolon.next, semicolon.reports)
  }

  /** `statement`: a print statement after `print`, else an expression statement. */
  function StatementAt(toks: seq<Token>, i: nat, reps: seq<Report>): (r: Declared)
    requires WellFormed(toks) && i < |toks|
    ensures i <= r.next < |toks| && r.stmt.Some?
    ensures r.stmt.value.Print? <==> Matches(toks, i, [Kind.Print])
    ensures r.stmt.value.Print? || r.stmt.value.Expression?
  {
    if Matches(toks, i, [Kind.Print]) then TerminatedAt(toks, i + 1, true, reps) else TerminatedAt(toks, i, false, reps)
  }

  /**
   * `varDeclaration` after `var`: a name, an optional `= expression`, a
   * `;`.  Without a name the nil token is dereferenced once the rest is
   * parsed: a panic.
   */
  function VarDeclarationAt(toks: seq<Token>, i: nat, reps: seq<Report>): (r: Declared)
    requires WellFormed(toks) && i < |toks|
    ensures i <= r.next < |toks|
    ensures r.stmt.None? <==> toks[i].kind != Identifier
    ensures r.stmt.Some? ==> r.stmt.value.Var? && r.stmt.value.name == toks[i]
  {
    var name := ConsumeAt(toks, i, Identifier, "Expect variable name.", reps);
    var init := if Matches(toks, name.next, [Equal]) then ExpressionAt(toks, name.next + 1, name.reports)
                else Parsed(NoExpr, name.next, name.reports);
    var semicolon := ConsumeAt(toks, init.next, Semicolon, "Expect ';' after variavle declaration.", init.reports);
    match name.token
    case Some(t) => Declared(Some(Stmt.Var(t, init.expr)), semicolon.next, semicolon.reports)
    case None => Declared(None, semicolon.next, semicolon.reports)
  }

  /** `declaration`: a var declaration after `var`, else a statement. */
  function DeclarationAt(toks: seq<Token>, i: nat, reps: seq<Report>): (r: Declared)
    requires WellFormed(toks) && i < |toks|
    ensures i <= r.next < |toks|
    ensures r.stmt.None? ==> Matches(toks, i, [Kind.Var])
    ensures r.stmt.Some? ==> (r.stmt.value.Var? <==> Matches(toks, i, [Kind.Var]))
  {
    if Matches(toks, i, [Kind.Var]) then VarDeclarationAt(toks, i + 1, reps) else StatementAt(toks, i, reps)
  }

  /** How `Parse` ends: with the statements at EOF, in a loop that makes no progress, or in a panic. */
  datatype Outcome = Statements(statements: seq<Stmt>) | Spins | Panics

  datatype Program = Program(outcome: Outcome, reports: seq<Report>)

  /** What `Parse` returns and reports from cursor i on, with the statements `done` already collected. */
  function ParseFrom(toks: seq<Token>, i: nat, done: seq<Stmt>, reps: seq<Report>): (r: Program)
    requires WellFormed(toks) && i < |toks|
    ensures r.outcome.Statements? ==> done <= r.outcome.statements && |r.outcome.statements| <= |done| + |toks| - 1 - i
    decreases |toks| - i
  {
    if toks[i].kind == Eof then Program(Statements(done), reps)
    else
      var d := DeclarationAt(toks, i, reps);
      if d.stmt.None? then Program(Panics, d.reports)
      else if d.next == i then Program(Spins, d.reports)
      else ParseFrom(toks, d.next, done + [d.stmt.value], d.reports)
  }

  /**
   * Where `synchronize`'s loop leaves the cursor, from i on: just after a
   * `;`, or before a `return`, or at EOF.  The other keywords of its
   * switch fall out of it without returning.
   */
  function SyncFrom(toks: seq<Token>, i: nat): (r: nat)
    requires WellFormed(toks) && 0 < i < |toks|
    ensures i <= r < |toks|
    ensures toks[r].kind == Eof || toks[r - 1].kind == Semicolon || toks[r].kind == Return
    ensures forall j :: i <= j < r ==> toks[j].kind != Eof && toks[j].kind != Return
    ensures forall j :: i - 1 <= j < r - 1 ==> toks[j].kind != Semicolon
    decreases |toks| - i
  {
    if toks[i].kind == Eof then i
    else if toks[i - 1].kind == Semicolon then i
    else if toks[i].kind == Return then i
    else SyncFrom(toks, i + 1)
  }

  /** The parser of parser.go: the token list, the cursor and the reports handed to the logger. */
  class Parser {
    const tokens: seq<Token>
    var current: nat
    var reports: seq<Report>

    ghost predicate Valid()
      reads this
    {
      WellFormed(tokens) && current < |tokens|
    }

    /** `NewParser`: the cursor at the first token. */
    constructor (tokens: seq<Token>)
      requires WellFormed(tokens)
      ensures Valid() && this.tokens == tokens && current == 0 && reports == []
    {
      this.tokens := tokens;
      current := 0;
      reports := [];
    }

    /** `isAtEnd`: the current token is the EOF token. */
    predicate IsAtEnd()
      reads this
      requires Valid()
      ensures IsAtEnd() <==> tokens[current].kind == Eof
    {
      Peek().kind == Eof
    }

    /** `peek`: the current token, never past the list. */
    function Peek(): (t: Token)
      reads this
      requires Valid()
      ensures current < |tokens| && t == tokens[current]
    {
      tokens[current]
    }

    /** `previous`: the token just consumed. */
    function Previous(): (t: Token)
      reads this
      requires Valid() && current > 0
      ensures current - 1 < |tokens| && t == tokens[current - 1]
    {
      tokens[current - 1]
    }

    /** `check`: the current token has the kind, and it is not EOF. */
    predicate Check(kind: Kind)
      reads this
      requires Valid()
      ensures Check(kind) <==> Matches(tokens, current, [kind])
    {
      if IsAtEnd() then false else Peek().kind == kind
    }

    /**
     * `advance`: one token on, except at EOF, and the token just passed.
     * At EOF on the first token `previous` would index before the list.
     */
    method Advance() returns (t: Token)
      requires Valid() && (current > 0 || !IsAtEnd())
      modifies this`current
      ensures Valid() && current > 0
      ensures current == if old(IsAtEnd()) then old(current) else old(current) + 1
      ensures t == tokens[current - 1]
    {
      if !IsAtEnd() {
        current := current + 1;
      }
      t := Previous();
    }

    /** `error`: one report at the token's line. */
    method Error(token: Token, message: string)
      modifies this`reports
      ensures reports == old(reports) + [Report(token.line, message)]
    {
      reports := reports + [Report(token.line, message)];
    }

    /** `match`: the kinds in turn; the first one that checks is consumed. */
    method Match(kinds: seq<Kind>) returns (matched: bool)
      requires Valid()
      modifies this`current
      ensures Valid()
      ensures matched == Matches(tokens, old(current), kinds)
      ensures current == if matched then old(current) + 1 else old(current)
    {
      for n := 0 to |kinds|
        invariant current == old(current)
        invariant forall j :: 0 <= j < n ==> !Check(kinds[j])
      {
        if Check(kinds[n]) {
          var _ := Advance();
          return true;
        }
      }
      return false;
    }

    /** `consume`: the expected token, or a report at the current one and nil. */
    method Consume(kind: Kind, message: string) returns (t: Option<Token>)
      requires Valid()
      modifies this`current, this`reports
      ensures Valid()
      ensures ConsumeAt(tokens, old(current), kind, message, old(reports)) == Consumed(t, current, reports)
    {
      if Check(kind) {
        var token := Advance();
        return Some(token);
      }
      Error(Peek(), message);
      return None;
    }

    method Expression() returns (e: Expr)
      requires Valid()
      modifies this`current, this`reports
      ensures Valid()
      ensures ExpressionAt(tokens, old(current), old(reports)) == Parsed(e, current, reports)
      decreases |tokens| - current, 14
    {
      e := Equality();
    }

    /** `equality`: a comparison, then while the level's operator matches, it and the next comparison fold into a Binary. */
    method Equality() returns (e: Expr)
      requires Valid()
      modifies this`current, this`reports
      ensures Valid()
      ensures FoldAt(EqualityLevel, tokens, old(current), old(reports)) == Parsed(e, current, reports)
      decreases |tokens| - current, Rank(EqualityLevel)
    {
      ghost var goal := FoldAt(EqualityLevel, tokens, current, reports);
      e := Comparison();
      assert OperandAt(EqualityLevel, tokens, old(current), old(reports)) == Parsed(e, current, reports);
      while true
        invariant Valid() && old(current) <= current
        invariant goal == FoldRestAt(EqualityLevel, tokens, current, e, reports)
        decreases |tokens| - current
      {
        ghost var i, left, before := current, e, reports;
        var matched := Match(Operators(EqualityLevel));
        if !matched {
          break;
        }
        var operator := Previous();
        var right := Comparison();
        FoldRestStep(EqualityLevel, tokens, i, left, before, Parsed(right, current, reports));
        e := Binary(e, operator, right);
      }
    }

    /** `comparison`: a term, then while the level's operator matches, it and the next term fold into a Binary. */
    method Comparison() returns (e: Expr)
      requires Valid()
      modifies this`current, this`reports
      ensures Valid()
      ensures FoldAt(ComparisonLevel, tokens, old(current), old(reports)) == Parsed(e, current, reports)
      decreases |tokens| - current, Rank(ComparisonLevel)
    {
      ghost var goal := FoldAt(ComparisonLevel, tokens, current, reports);
      e := Term();
      assert OperandAt(ComparisonLevel, tokens, old(current), old(reports)) == Parsed(e, current, reports);
      while true
        invariant Valid() && old(current) <= current
        invariant goal == FoldRestAt(ComparisonLevel, tokens, current, e, reports)
        decreases |tokens| - current
      {
        ghost var i, left, before := current, e, reports;
        var matched := Match(Operators(ComparisonLevel));
        if !matched {
          break;
        }
        var operator := Previous();
        var right := Term();
        FoldRestStep(ComparisonLevel, tokens, i, left, before, Parsed(right, current, reports));
        e := Binary(e, operator, right);
      }
    }

    /** `term`: a factor, then while the level's operator matches, it and the next factor fold into a Binary. */
    method Term() returns (e: Expr)
      requires Valid()
      modifies this`current, this`reports
      ensures Valid()
      ensures FoldAt(TermLevel, tokens, old(current), old(reports)) == Parsed(e, current, reports)
      decreases |tokens| - current, Rank(TermLevel)
    {
      ghost var goal := FoldAt(TermLevel, tokens, current, reports);
      e := Factor();
      assert OperandAt(TermLevel, tokens, old(current), old(reports)) == Parsed(e, current, reports);
      while true
        invariant Valid() && old(current) <= current
        invariant goal == FoldRestAt(TermLevel, tokens, current, e, reports)
        decreases |tokens| - current
      {
        ghost var i, left, before := current, e, reports;
        var matched := Match(Operators(TermLevel));
        if !matched {
          break;
        }
        var operator := Previous();
        var right := Factor();
        FoldRestStep(TermLevel, tokens, i, left, before, Parsed(right, current, reports));
        e := Binary(e, operator, right);
      }
    }

    /** `factor`: a unary, then while the level's operator matches, it and the next unary fold into a Binary. */
    method Factor() returns (e: Expr)
      requires Valid()
      modifies this`current, this`reports
      ensures Valid()
      ensures FoldAt(FactorLevel, tokens, old(current), old(reports)) == Parsed(e, current, reports)
      decreases |tokens| - current, Rank(FactorLevel)
    {
      ghost var goal := FoldAt(FactorLevel, tokens, current, reports);
      e := Unary();
      assert OperandAt(FactorLevel, tokens, old(current), old(reports)) == Parsed(e, current, reports);
      while true
        invariant Valid() && old(current) <= current
        invariant goal == FoldRestAt(FactorLevel, tokens, current, e, reports)
        decreases |tokens| - current
      {
        ghost var i, left, before := current, e, reports;
        var matched := Match(Operators(FactorLevel));
        if !matched {
          break;
        }
        var operator := Previous();
        UnaryOperand(tokens, current, reports);
        var right := Unary();
        FoldRestStep(FactorLevel, tokens, i, left, before, Parsed(right, current, reports));
        e := Binary(e, operator, right);
      }
    }

    method Unary() returns (e: Expr)
      requires Valid()
      modifies this`current, this`reports
      ensures Valid()
      ensures UnaryAt(tokens, old(current), old(reports)) == Parsed(e, current, reports)
      decreases |tokens| - current, 1
    {
      var matched := Match([Bang, Minus]);
      if matched {
        var operator := Previous();
        var right := Unary();
        return GoAst.Unary(operator, right);
      }
      e := Primary();
    }

    method Primary() returns (e: Expr)
      requires Valid()
      modifies this`current, this`reports
      ensures Valid()
      ensures PrimaryAt(tokens, old(current), old(reports)) == Parsed(e, current, reports)
      decreases |tokens| - current, 0
    {
      var matched := Match([False]);
      if matched {
        return Literal(Bool(false));
      }
      matched := Match([True]);
      if matched {
        return Literal(Bool(true));
      }
      matched := Match([Kind.Nil]);
      if matched {
        return Literal(Object.Nil);
      }
      matched := Match([Number, String]);
      if matched {
        var t := Previous();
        return Literal(ObjectOf(t.literal));
      }
      matched := Match([Identifier]);
      if matched {
        var t := Previous();
        return Variable(t);
      }
      matched := Match([LeftParen]);
      if matched {
        var inner := Expression();
        var _ := Consume(RightParen, "Expect ')' after expression.");
        return Grouping(inner);
      }
      Error(Peek(), "Expect expression.");
      return NoExpr;
    }

    /** `assignment`, which no other method calls. */
    method Assignment() returns (e: Expr)
      requires Valid()
      modifies this`current, this`reports
      ensures Valid()
      ensures AssignmentAt(tokens, old(current), old(reports)) == Parsed(e, current, reports)
      decreases |tokens| - current, 15
    {
      e := Equality();
      var matched := Match([Equal]);
      if matched {
        var equals := Previous();
        var value := Assignment();
        if e.Variable? {
          return Assign(e.name, value);
        }
        Error(equals, "Invalid assignment target.");
      }
    }

    method PrintStatement() returns (s: Stmt)
      requires Valid()
      modifies this`current, this`reports
      ensures Valid()
      ensures TerminatedAt(tokens, old(current), true, old(reports)) == Declared(Some(s), current, reports)
    {
      var value := Expression();
      var _ := Consume(Semicolon, "Expect ';' after value.");
      return Stmt.Print(value);
    }

    method ExpressionStatement() returns (s: Stmt)
      requires Valid()
      modifies this`current, this`reports
      ensures Valid()
      ensures TerminatedAt(tokens, old(current), false, old(reports)) == Declared(Some(s), current, reports)
    {
      var value := Expression();
      var _ := Consume(Semicolon, "Expect ';' after value.");
      return Stmt.Expression(value);
    }

    method Statement() returns (s: Stmt)
      requires Valid()
      modifies this`current, this`reports
      ensures Valid()
      ensures StatementAt(tokens, old(current), old(reports)) == Declared(Some(s), current, reports)
    {
      var matched := Match([Kind.Print]);
      if matched {
        s := PrintStatement();
      } else {
        s := ExpressionStatement();
      }
    }

    /** `varDeclaration`; None where `*name` dereferences nil and the parser panics. */
    method VarDeclaration() returns (s: Option<Stmt>)
      requires Valid()
      modifies this`current, this`reports
      ensures Valid()
      ensures VarDeclarationAt(tokens, old(current), old(reports)) == Declared(s, current, reports)
    {
      var name := Consume(Identifier, "Expect variable name.");
      var initializer := NoExpr;
      var matched := Match([Equal]);
      if matched {
        initializer := Expression();
      }
      var _ := Consume(Semicolon, "Expect ';' after variavle declaration.");
      match name
      case Some(t) =>
        return Some(Stmt.Var(t, initializer));
      case None =>
        return None;
    }

    method Declaration() returns (s: Option<Stmt>)
      requires Valid()
      modifies this`current, this`reports
      ensures Valid()
      ensures DeclarationAt(tokens, old(current), old(reports)) == Declared(s, current, reports)
    {
      var matched := Match([Kind.Var]);
      if matched {
        s := VarDeclaration();
      } else {
        var statement := Statement();
        s := Some(statement);
      }
    }

    /**
     * `Parse`: declarations until EOF.  Where a declaration leaves the
     * cursor in place the original loops for ever; this method returns
     * Spins there instead.
     */
    method Parse() returns (outcome: Outcome)
      requires Valid()
      modifies this`current, this`reports
      ensures Valid()
      ensures ParseFrom(tokens, old(current), [], old(reports)) == Program(outcome, reports)
    {
      ghost var goal := ParseFrom(tokens, current, [], reports);
      var statements: seq<Stmt> := [];
      while !IsAtEnd()
        invariant Valid() && goal == ParseFrom(tokens, current, statements, reports)
        decreases |tokens| - current
      {
        var before := current;
        var s := Declaration();
        if s.None? {
          return Panics;
        }
        if current == before {
          return Spins;
        }
        statements := statements + [s.value];
      }
      return Statements(statements);
    }

    /**
     * `synchronize`: past the current token, then on until just after a
     * `;` or before a `return`.  The switch's cases for `class`, `fun`,
     * `var`, `for`, `if`, `while` and `print` are empty: those tokens do
     * not stop it.
     */
    method Synchronize()
      requires Valid() && (current > 0 || !IsAtEnd())
      modifies this`current
      ensures Valid()
      ensures current == SyncFrom(tokens, if old(IsAtEnd()) then old(current) else old(current) + 1)
    {
      var _ := Advance();
      ghost var start := current;
      while !IsAtEnd()
        invariant Valid() && 0 < start <= current
        invariant SyncFrom(tokens, current) == SyncFrom(tokens, start)
        decreases |tokens| - current
      {
        if Previous().kind == Semicolon {
          assert SyncFrom(tokens, current) == current;
          return;
        }
        if Peek().kind == Return {
          assert SyncFrom(tokens, current) == current;
          return;
        }
        assert SyncFrom(tokens, current) == SyncFrom(tokens, current + 1);
        var _ := Advance();
      }
    }
  }
}
