/**
 * What the Go parser's grammar functions guarantee beyond one call:
 * reports only accumulate and `expression` never builds an Assign node;
 * the trees follow the precedence and left associativity of the four
 * binary levels; when a declaration consumes nothing and `Parse` spins;
 * what `assignment` makes of its left side; and that every statement
 * `Parse` returns is one the interpreter executes.
 */
module GoParserFacts {
  import opened Tokens
  import opened GoAst
  import opened GoParser
  import GoInterpreter

  // ---------------------------------------------------------------------
  // Reports accumulate; `expression` builds no Assign
  // ---------------------------------------------------------------------

  lemma {:induction false} ExpressionAssignFree(toks: seq<Token>, i: nat, reps: seq<Report>)
    requires WellFormed(toks) && i < |toks|
    ensures AssignFree(ExpressionAt(toks, i, reps).expr)
    ensures reps <= ExpressionAt(toks, i, reps).reports
    decreases |toks| - i, 14
  {
    FoldAssignFree(EqualityLevel, toks, i, reps);
  }

  lemma {:induction false} FoldAssignFree(level: Level, toks: seq<Token>, i: nat, reps: seq<Report>)
    requires WellFormed(toks) && i < |toks|
    ensures AssignFree(FoldAt(level, toks, i, reps).expr)
    ensures reps <= FoldAt(level, toks, i, reps).reports
    decreases |toks| - i, Rank(level)
  {
    var first := OperandAt(level, toks, i, reps);
    OperandAssignFree(level, toks, i, reps);
    FoldRestAssignFree(level, toks, first.next, first.expr, first.reports);
  }

  lemma {:induction false} FoldRestAssignFree(level: Level, toks: seq<Token>, i: nat, left: Expr, reps: seq<Report>)
    requires WellFormed(toks) && i < |toks| && AssignFree(left)
    ensures AssignFree(FoldRestAt(level, toks, i, left, reps).expr)
    ensures reps <= FoldRestAt(level, toks, i, left, reps).reports
    decreases |toks| - i, Rank(level) - 1
  {
    if Matches(toks, i, Operators(level)) {
      var right := OperandAt(level, toks, i + 1, reps);
      OperandAssignFree(level, toks, i + 1, reps);
      FoldRestAssignFree(level, toks, right.next, Binary(left, toks[i], right.expr), right.reports);
    }
  }

  lemma {:induction false} OperandAssignFree(level: Level, toks: seq<Token>, i: nat, reps: seq<Report>)
    requires WellFormed(toks) && i < |toks|
    ensures AssignFree(OperandAt(level, toks, i, reps).expr)
    ensures reps <= OperandAt(level, toks, i, reps).reports
    decreases |toks| - i, Rank(level) - 2
  {
    match level
    case EqualityLevel => FoldAssignFree(ComparisonLevel, toks, i, reps);
    case ComparisonLevel => FoldAssignFree(TermLevel, toks, i, reps);
    case TermLevel => FoldAssignFree(FactorLevel, toks, i, reps);
    case FactorLevel => UnaryAssignFree(toks, i, reps);
  }

  lemma {:induction false} UnaryAssignFree(toks: seq<Token>, i: nat, reps: seq<Report>)
    requires WellFormed(toks) && i < |toks|
    ensures AssignFree(UnaryAt(toks, i, reps).expr)
    ensures reps <= UnaryAt(toks, i, reps).reports
    decreases |toks| - i, 1
  {
    if Matches(toks, i, [Bang, Minus]) {
      UnaryAssignFree(toks, i + 1, reps);
    } else {
      PrimaryAssignFree(toks, i, reps);
    }
  }

  lemma {:induction false} PrimaryAssignFree(toks: seq<Token>, i: nat, reps: seq<Report>)
    requires WellFormed(toks) && i < |toks|
    ensures AssignFree(PrimaryAt(toks, i, reps).expr)
    ensures reps <= PrimaryAt(toks, i, reps).reports
    decreases |toks| - i, 0
  {
    if toks[i].kind == LeftParen {
      ExpressionAssignFree(toks, i + 1, reps);
    }
  }

  /** No statement a declaration returns holds an Assign, and the reports only grow. */
  predicate StmtAssignFree(s: Stmt)
  {
    match s
    case Expression(e) => AssignFree(e)
    case Print(e) => AssignFree(e)
    case Var(_, initializer) => AssignFree(initializer)
    case _ => false
  }

  lemma TerminatedAssignFree(toks: seq<Token>, i: nat, printing: bool, reps: seq<Report>)
    requires WellFormed(toks) && i < |toks|
    ensures var d := TerminatedAt(toks, i, printing, reps);
      reps <= d.reports && StmtAssignFree(d.stmt.value)
  {
    ExpressionAssignFree(toks, i, reps);
  }

  lemma VarDeclarationAssignFree(toks: seq<Token>, i: nat, reps: seq<Report>)
    requires WellFormed(toks) && i < |toks|
    ensures var d := VarDeclarationAt(toks, i, reps);
      reps <= d.reports && (d.stmt.Some? ==> StmtAssignFree(d.stmt.value))
  {
    var name := ConsumeAt(toks, i, Identifier, "Expect variable name.", reps);
    if Matches(toks, name.next, [Equal]) {
      ExpressionAssignFree(toks, name.next + 1, name.reports);
    }
  }

  lemma DeclarationAssignFree(toks: seq<Token>, i: nat, reps: seq<Report>)
    requires WellFormed(toks) && i < |toks|
    ensures var d := DeclarationAt(toks, i, reps);
      reps <= d.reports && (d.stmt.Some? ==> StmtAssignFree(d.stmt.value))
  {
    if Matches(toks, i, [Kind.Var]) {
      VarDeclarationAssignFree(toks, i + 1, reps);
    } else if Matches(toks, i, [Kind.Print]) {
      TerminatedAssignFree(toks, i + 1, true, reps);
    } else {
      TerminatedAssignFree(toks, i, false, reps);
    }
  }

  /**
   * A program `Parse` returns holds expression, print and var statements
   * only, none with an Assign, and the reports made before are kept.
   */
  lemma {:induction false} ParsedAssignFree(toks: seq<Token>, i: nat, done: seq<Stmt>, reps: seq<Report>)
    requires WellFormed(toks) && i < |toks|
    requires forall s <- done :: StmtAssignFree(s)
    ensures reps <= ParseFrom(toks, i, done, reps).reports
    ensures var p := ParseFrom(toks, i, done, reps);
      p.outcome.Statements? ==> forall s <- p.outcome.statements :: StmtAssignFree(s)
    decreases |toks| - i
  {
    if toks[i].kind != Eof {
      var d := DeclarationAt(toks, i, reps);
      DeclarationAssignFree(toks, i, reps);
      if d.stmt.Some? && d.next != i {
        ParsedAssignFree(toks, d.next, done + [d.stmt.value], d.reports);
      }
    }
  }

  /** Every statement of a parsed program is one the interpreter executes. */
  lemma ParsedExecutable(toks: seq<Token>)
    requires WellFormed(toks)
    ensures var p := ParseFrom(toks, 0, [], []);
      p.outcome.Statements? ==> forall s <- p.outcome.statements :: GoInterpreter.Executable(s)
  {
    ParsedAssignFree(toks, 0, [], []);
  }

  // ---------------------------------------------------------------------
  // Precedence and left associativity
  // ---------------------------------------------------------------------

  /** The next tighter of the four levels. */
  function Tighter(level: Level): (r: Level)
    requires !level.FactorLevel?
    ensures Rank(r) == Rank(level) - 3
  {
    match level
    case EqualityLevel => ComparisonLevel
    case ComparisonLevel => TermLevel
    case TermLevel => FactorLevel
  }

  /**
   * The trees a level builds: a left spine of Binary nodes whose operators
   * are the level's own, every right child and the leftmost leaf a tree of
   * the next tighter level (or, under `factor`, no Binary at the top).
   */
  predicate Shaped(level: Level, e: Expr)
    decreases e, Rank(level)
  {
    if e.Binary? && e.operator.kind in Operators(level) then Shaped(level, e.left) && OperandShaped(level, e.right)
    else OperandShaped(level, e)
  }

  predicate OperandShaped(level: Level, e: Expr)
    decreases e, Rank(level) - 1
  {
    if level.FactorLevel? then !e.Binary? else Shaped(Tighter(level), e)
  }

  /** A tree of a level has at its top no operator of a looser level. */
  lemma {:induction false} ShapedTop(level: Level, e: Expr)
    requires Shaped(level, e) && e.Binary?
    ensures e.operator.kind in Binding(level)
    decreases Rank(level)
  {
    if e.operator.kind !in Operators(level) && !level.FactorLevel? {
      ShapedTop(Tighter(level), e);
    }
  }

  /** The operator lists of two different levels have no kind in common. */
  lemma BindingExcludes(level: Level, k: Kind)
    requires !level.FactorLevel? && k in Binding(Tighter(level))
    ensures k !in Operators(level)
  {
  }

  lemma {:induction false} FoldShaped(level: Level, toks: seq<Token>, i: nat, reps: seq<Report>)
    requires WellFormed(toks) && i < |toks|
    ensures Shaped(level, FoldAt(level, toks, i, reps).expr)
    decreases |toks| - i, Rank(level)
  {
    var first := OperandAt(level, toks, i, reps);
    OperandAtShaped(level, toks, i, reps);
    OperandIsShaped(level, first.expr);
    FoldRestShaped(level, toks, first.next, first.expr, first.reports);
  }

  /** An operand tree of a level is also a tree of the level itself. */
  lemma OperandIsShaped(level: Level, e: Expr)
    requires OperandShaped(level, e)
    ensures Shaped(level, e)
  {
    if e.Binary? && !level.FactorLevel? {
      ShapedTop(Tighter(level), e);
      BindingExcludes(level, e.operator.kind);
    }
  }

  lemma {:induction false} FoldRestShaped(level: Level, toks: seq<Token>, i: nat, left: Expr, reps: seq<Report>)
    requires WellFormed(toks) && i < |toks| && Shaped(level, left)
    ensures Shaped(level, FoldRestAt(level, toks, i, left, reps).expr)
    decreases |toks| - i, Rank(level) - 1
  {
    if Matches(toks, i, Operators(level)) {
      var right := OperandAt(level, toks, i + 1, reps);
      OperandAtShaped(level, toks, i + 1, reps);
      FoldRestShaped(level, toks, right.next, Binary(left, toks[i], right.expr), right.reports);
    }
  }

  lemma {:induction false} OperandAtShaped(level: Level, toks: seq<Token>, i: nat, reps: seq<Report>)
    requires WellFormed(toks) && i < |toks|
    ensures OperandShaped(level, OperandAt(level, toks, i, reps).expr)
    decreases |toks| - i, Rank(level) - 2
  {
    match level
    case EqualityLevel => FoldShaped(ComparisonLevel, toks, i, reps);
    case ComparisonLevel => FoldShaped(TermLevel, toks, i, reps);
    case TermLevel => FoldShaped(FactorLevel, toks, i, reps);
    case FactorLevel => UnaryTop(toks, i, reps);
  }

  /** `unary` builds a Unary node or what `primary` builds: never a Binary at the top. */
  lemma UnaryTop(toks: seq<Token>, i: nat, reps: seq<Report>)
    requires WellFormed(toks) && i < |toks|
    ensures !UnaryAt(toks, i, reps).expr.Binary?
  {
    if !Matches(toks, i, [Bang, Minus]) {
      assert UnaryAt(toks, i, reps) == PrimaryAt(toks, i, reps);
    }
  }

  /**
   * Left associativity: a Binary that `expression` builds at some level
   * never has a Binary of that same level as its right child, so
   * `a - b - c` is `(a - b) - c`.
   */
  lemma LeftAssociative(level: Level, e: Expr)
    requires Shaped(level, e) && e.Binary? && e.operator.kind in Operators(level)
    ensures !(e.right.Binary? && e.right.operator.kind in Operators(level))
  {
    if e.right.Binary? && !level.FactorLevel? {
      ShapedTop(Tighter(level), e.right);
      BindingExcludes(level, e.right.operator.kind);
    }
  }

  /** Every tree `expression` builds follows the precedence of the equality level. */
  lemma ExpressionShaped(toks: seq<Token>, i: nat, reps: seq<Report>)
    requires WellFormed(toks) && i < |toks|
    ensures Shaped(EqualityLevel, ExpressionAt(toks, i, reps).expr)
  {
    FoldShaped(EqualityLevel, toks, i, reps);
  }

  /**
   * A name that no operator of the level or a tighter one follows parses
   * at that level as a Variable, taking one token.
   */
  lemma {:induction false} VariableOperand(level: Level, toks: seq<Token>, i: nat, reps: seq<Report>)
    requires WellFormed(toks) && i + 1 < |toks| && toks[i].kind == Identifier
    requires !Matches(toks, i + 1, Binding(level))
    ensures FoldAt(level, toks, i, reps) == Parsed(Variable(toks[i]), i + 1, reps)
    decreases Rank(level)
  {
    match level
    case FactorLevel =>
      VariableUnary(toks, i, reps);
    case _ =>
      VariableOperand(Tighter(level), toks, i, reps);
  }

  /** `unary` and `primary` take a name as a Variable. */
  lemma VariableUnary(toks: seq<Token>, i: nat, reps: seq<Report>)
    requires WellFormed(toks) && i < |toks| && toks[i].kind == Identifier
    ensures UnaryAt(toks, i, reps) == Parsed(Variable(toks[i]), i + 1, reps)
  {
    assert UnaryAt(toks, i, reps) == PrimaryAt(toks, i, reps);
  }

  /** `a - b - c ;` parses as `(a - b) - c`, over any three names. */
  lemma TermLeftAssociates(toks: seq<Token>, reps: seq<Report>)
    requires |toks| == 7 && toks[6].kind == Eof
    requires toks[0].kind == Identifier && toks[2].kind == Identifier && toks[4].kind == Identifier
    requires toks[1].kind == Minus && toks[3].kind == Minus && toks[5].kind == Semicolon
    ensures ExpressionAt(toks, 0, reps) ==
      Parsed(Binary(Binary(Variable(toks[0]), toks[1], Variable(toks[2])), toks[3], Variable(toks[4])), 5, reps)
  {
    var ab := Binary(Variable(toks[0]), toks[1], Variable(toks[2]));
    var abc := Binary(ab, toks[3], Variable(toks[4]));
    VariableOperand(FactorLevel, toks, 0, reps);
    VariableOperand(FactorLevel, toks, 2, reps);
    VariableOperand(FactorLevel, toks, 4, reps);
    assert OperandAt(TermLevel, toks, 4, reps) == Parsed(Variable(toks[4]), 5, reps);
    assert FoldRestAt(TermLevel, toks, 5, abc, reps) == Parsed(abc, 5, reps);
    assert FoldRestAt(TermLevel, toks, 3, ab, reps) == Parsed(abc, 5, reps);
    assert OperandAt(TermLevel, toks, 2, reps) == Parsed(Variable(toks[2]), 3, reps);
    assert FoldRestAt(TermLevel, toks, 1, Variable(toks[0]), reps) == Parsed(abc, 5, reps);
    assert OperandAt(TermLevel, toks, 0, reps) == Parsed(Variable(toks[0]), 1, reps);
    assert FoldAt(TermLevel, toks, 0, reps) == Parsed(abc, 5, reps);
    assert OperandAt(ComparisonLevel, toks, 0, reps) == Parsed(abc, 5, reps);
    assert FoldRestAt(ComparisonLevel, toks, 5, abc, reps) == Parsed(abc, 5, reps);
    assert FoldAt(ComparisonLevel, toks, 0, reps) == Parsed(abc, 5, reps);
    assert FoldRestAt(EqualityLevel, toks, 5, abc, reps) == Parsed(abc, 5, reps);
    assert OperandAt(EqualityLevel, toks, 0, reps) == Parsed(abc, 5, reps);
    assert FoldAt(EqualityLevel, toks, 0, reps) == Parsed(abc, 5, reps);
  }

  /** Where the run of `!` and `-` tokens from i ends. */
  function PrefixEnd(toks: seq<Token>, i: nat): (r: nat)
    requires WellFormed(toks) && i < |toks|
    ensures i <= r < |toks| && !Matches(toks, r, [Bang, Minus])
    ensures forall j :: i <= j < r ==> toks[j].kind == Bang || toks[j].kind == Minus
    decreases |toks| - i
  {
    if Matches(toks, i, [Bang, Minus]) then PrefixEnd(toks, i + 1) else i
  }

  /** The operand under the prefix operators, innermost last. */
  function Prefixed(operators: seq<Token>, operand: Expr): Expr
  {
    if operators == [] then operand else Unary(operators[0], Prefixed(operators[1..], operand))
  }

  /**
   * `unary` nests the prefix operators right to left around the primary
   * that follows them: `- ! x` is `Unary(-, Unary(!, x))`.
   */
  lemma {:induction false} UnaryNesting(toks: seq<Token>, i: nat, reps: seq<Report>)
    requires WellFormed(toks) && i < |toks|
    ensures var n := PrefixEnd(toks, i);
      var p := PrimaryAt(toks, n, reps);
      UnaryAt(toks, i, reps) == Parsed(Prefixed(toks[i..n], p.expr), p.next, p.reports)
    decreases |toks| - i
  {
    var n := PrefixEnd(toks, i);
    if Matches(toks, i, [Bang, Minus]) {
      UnaryNesting(toks, i + 1, reps);
      assert toks[i..n][1..] == toks[i + 1..n];
    } else {
      assert toks[i..n] == [];
    }
  }

  // ---------------------------------------------------------------------
  // Progress, and when `Parse` spins or panics
  // ---------------------------------------------------------------------

  /**
   * A level consumes nothing exactly when the token can neither start an
   * expression nor be an operator of the level or a tighter one, and then
   * it yields the nil expression and the one report of `primary`.
   */
  lemma {:induction false} FoldProgress(level: Level, toks: seq<Token>, i: nat, reps: seq<Report>)
    requires WellFormed(toks) && i < |toks|
    ensures FoldAt(level, toks, i, reps).next == i <==> !Matches(toks, i, ExpressionStarts + Binding(level))
    ensures FoldAt(level, toks, i, reps).next == i ==>
      FoldAt(level, toks, i, reps) == Parsed(NoExpr, i, reps + [Report(toks[i].line, "Expect expression.")])
    decreases Rank(level)
  {
    var first := OperandAt(level, toks, i, reps);
    match level
    case FactorLevel =>
      if first.next == i {
        assert first == UnaryAt(toks, i, reps);
        assert !Matches(toks, i, ExpressionStarts);
        assert toks[i].kind != Bang && toks[i].kind != Minus by {
          assert Bang in ExpressionStarts && Minus in ExpressionStarts;
        }
        assert first == PrimaryAt(toks, i, reps);
      }
    case _ => FoldProgress(Tighter(level), toks, i, reps);
  }

  /** A token kind on which a declaration consumes nothing (EOF aside). */
  predicate Stalls(k: Kind)
  {
    k != Eof && k !in [Kind.Var, Kind.Print, Semicolon] + ExpressionStarts + Binding(EqualityLevel)
  }

  /**
   * An expression statement consumes nothing exactly when its first token
   * neither starts an expression, nor is a binary operator, nor is a `;`;
   * it then reports twice at that token.
   */
  lemma TerminatedProgress(toks: seq<Token>, i: nat, reps: seq<Report>)
    requires WellFormed(toks) && i < |toks|
    ensures var d := TerminatedAt(toks, i, false, reps);
      d.next == i <==> !Matches(toks, i, ExpressionStarts + Binding(EqualityLevel)) && !Matches(toks, i, [Semicolon])
    ensures var d := TerminatedAt(toks, i, false, reps);
      d.next == i ==> d.reports == reps + [Report(toks[i].line, "Expect expression."), Report(toks[i].line, "Expect ';' after value.")]
  {
    FoldProgress(EqualityLevel, toks, i, reps);
  }

  /** A declaration moves the cursor unless its first token stalls. */
  lemma DeclarationProgress(toks: seq<Token>, i: nat, reps: seq<Report>)
    requires WellFormed(toks) && i < |toks| && toks[i].kind != Eof
    ensures DeclarationAt(toks, i, reps).next == i <==> Stalls(toks[i].kind)
  {
    if !Matches(toks, i, [Kind.Var]) && !Matches(toks, i, [Kind.Print]) {
      TerminatedProgress(toks, i, reps);
    }
  }

  /**
   * On a stalling token `Parse` spins, after the two reports the
   * expression statement makes there.
   */
  lemma StallSpins(toks: seq<Token>, i: nat, done: seq<Stmt>, reps: seq<Report>)
    requires WellFormed(toks) && i < |toks| && Stalls(toks[i].kind)
    ensures ParseFrom(toks, i, done, reps) ==
      Program(Spins, reps + [Report(toks[i].line, "Expect expression."), Report(toks[i].line, "Expect ';' after value.")])
  {
    TerminatedProgress(toks, i, reps);
    DeclarationProgress(toks, i, reps);
  }

  /** `Parse` spins only where some later token stalls. */
  lemma {:induction false} SpinsOnlyOnStall(toks: seq<Token>, i: nat, done: seq<Stmt>, reps: seq<Report>)
    requires WellFormed(toks) && i < |toks|
    requires ParseFrom(toks, i, done, reps).outcome.Spins?
    ensures exists j :: i <= j < |toks| && Stalls(toks[j].kind)
    decreases |toks| - i
  {
    var d := DeclarationAt(toks, i, reps);
    if d.next == i {
      DeclarationProgress(toks, i, reps);
    } else {
      SpinsOnlyOnStall(toks, d.next, done + [d.stmt.value], d.reports);
    }
  }

  /** A `var` followed by anything but a name makes `Parse` panic. */
  lemma NamelessVarPanics(toks: seq<Token>, i: nat, done: seq<Stmt>, reps: seq<Report>)
    requires WellFormed(toks) && i < |toks| && toks[i].kind == Kind.Var
    requires toks[i + 1].kind != Identifier
    ensures ParseFrom(toks, i, done, reps).outcome == Panics
  {
  }

  /** `Parse` panics only at a `var` that some token other than a name follows. */
  lemma {:induction false} PanicsOnlyOnNamelessVar(toks: seq<Token>, i: nat, done: seq<Stmt>, reps: seq<Report>)
    requires WellFormed(toks) && i < |toks|
    requires ParseFrom(toks, i, done, reps).outcome.Panics?
    ensures exists j :: i <= j < |toks| - 1 && toks[j].kind == Kind.Var && toks[j + 1].kind != Identifier
    decreases |toks| - i
  {
    var d := DeclarationAt(toks, i, reps);
    if d.stmt.None? {
      assert toks[i].kind == Kind.Var && toks[i + 1].kind != Identifier;
    } else {
      PanicsOnlyOnNamelessVar(toks, d.next, done + [d.stmt.value], d.reports);
    }
  }

  // ---------------------------------------------------------------------
  // Assignment targets
  // ---------------------------------------------------------------------

  /**
   * `assignment` builds an Assign exactly when an `=` follows a left side
   * that parsed as a variable, under that variable's name; any other left
   * side before `=` is reported as an invalid target and kept.
   */
  lemma AssignmentTargets(toks: seq<Token>, i: nat, reps: seq<Report>)
    requires WellFormed(toks) && i < |toks|
    ensures var left := FoldAt(EqualityLevel, toks, i, reps);
      var r := AssignmentAt(toks, i, reps);
      (r.expr.Assign? <==> Matches(toks, left.next, [Equal]) && left.expr.Variable?) &&
      (r.expr.Assign? ==> r.expr.name == left.expr.name) &&
      (Matches(toks, left.next, [Equal]) && !left.expr.Variable? ==>
        r.expr == left.expr && r.reports[|r.reports| - 1] == Report(toks[left.next].line, "Invalid assignment target."))
  {
    var left := FoldAt(EqualityLevel, toks, i, reps);
    FoldAssignFree(EqualityLevel, toks, i, reps);
  }

  // ---------------------------------------------------------------------
  // var declarations
  // ---------------------------------------------------------------------

  /**
   * A var declaration without a name reports "Expect variable name." at
   * the token where the name should be, before anything else it reports.
   */
  lemma VarWithoutName(toks: seq<Token>, i: nat, reps: seq<Report>)
    requires WellFormed(toks) && i < |toks| && toks[i].kind != Identifier
    ensures reps + [Report(toks[i].line, "Expect variable name.")] <= VarDeclarationAt(toks, i, reps).reports
  {
    var name := ConsumeAt(toks, i, Identifier, "Expect variable name.", reps);
    if Matches(toks, name.next, [Equal]) {
      ExpressionAssignFree(toks, name.next + 1, name.reports);
    }
  }
}
