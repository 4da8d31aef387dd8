/**
 * The tree-walking evaluator of go/interpreter/interpreter.go over the Go
 * syntax trees: dynamic type checks over nil, bool, number and string
 * values, truthiness and equality, and variables kept in an Environment.
 *
 * Errors do not stop evaluation: the message goes to standard output as
 * an "Error: ..." line and the expression's value is nil.  What does
 * stop it is a crash of the Go program: a Grouping evaluates itself
 * again and again until the stack is exhausted, a nil expression or the
 * printing of a bool panics.  A division by zero yields an IEEE infinity
 * or NaN that real numbers cannot stand for; the model stops there too.
 *
 * Eval, Execute and Run say, as functions on a scope chain and the output
 * so far, what evaluating an expression, executing a statement and
 * interpreting a program do; the class Interpreter is proved against
 * them.
 */
module GoInterpreter {
  import opened Tokens
  import opened GoAst
  import opened Scopes
  import opened GoEnvironment

  /** How an evaluation ends: with a value, or with the program crashed or beyond the model. */
  datatype Outcome = Done(value: Object) | StackOverflow | Panic | NotReal

  /** A line the interpreter writes to standard output; a number is written with `%g`. */
  datatype Line = Written(text: string) | Formatted(number: real)

  /** The outcome, the scope chain and the output after an evaluation. */
  datatype Evaluated = Evaluated(outcome: Outcome, chain: Chain, output: seq<Line>)

  /** The value of an operator applied to operand values, and the error it reports. */
  datatype Computed = Computed(value: Object, error: Option<string>) | Infinite

  const OperandError := "Error: Operand must be a number."
  const OperandsError := "Error: Operands must be numbers."
  const PlusError := "Error: Operands must be two numbers or two strings."

  function UndefinedError(name: string): string
  {
    "Error: Undefined variable '" + name + "'."
  }

  /** isTruthy: nil and false are false, every other value is true, 0 and "" included. */
  function IsTruthy(o: Object): (r: bool)
    ensures r <==> !(o.Nil? || o == Bool(false))
  {
    match o
    case Nil => false
    case Bool(b) => b
    case _ => true
  }

  /** isEqual: nil equals only nil; other values are equal when of the same type and value. */
  function IsEqual(a: Object, b: Object): (r: bool)
    ensures r <==> a == b
    ensures a.Nil? ==> (r <==> b.Nil?)
  {
    if a.Nil? && b.Nil? then true
    else if a.Nil? then false
    else a == b
  }

  function CheckNumberOperand(operand: Object): (r: Option<string>)
    ensures r.None? <==> operand.Num?
  {
    if operand.Num? then None else Some(OperandError)
  }

  function CheckNumberOperands(left: Object, right: Object): (r: Option<string>)
    ensures r.None? <==> left.Num? && right.Num?
  {
    if left.Num? && right.Num? then None else Some(OperandsError)
  }

  /** The switch of VisitUnaryExpr on the operand's value. */
  function UnaryValue(operator: Kind, right: Object): (r: Computed)
    ensures r.Computed?
    ensures operator == Bang ==> r == Computed(Bool(!IsTruthy(right)), None)
    ensures operator == Minus ==>
      r == if right.Num? then Computed(Num(-right.x), None) else Computed(Object.Nil, Some(OperandError))
    ensures operator != Bang && operator != Minus ==> r == Computed(Object.Nil, None)
  {
    match operator
    case Bang => Computed(Bool(!IsTruthy(right)), None)
    case Minus =>
      (match CheckNumberOperand(right)
       case Some(error) => Computed(Object.Nil, Some(error))
       case None => Computed(Num(-right.x), None))
    case _ => Computed(Object.Nil, None)
  }

  /** The operators that take two numbers. */
  predicate NumericOperator(k: Kind)
  {
    k in {Greater, GreaterEqual, Less, LessEqual, Minus, Slash, Star}
  }

  /** The switch of VisitBinaryExpr on the two operand values. */
  function BinaryValue(operator: Kind, left: Object, right: Object): (r: Computed)
    ensures r.Infinite? <==> operator == Slash && left.Num? && right == Num(0.0)
    ensures r.Computed? && r.error.Some? ==> r.value == Object.Nil
  {
    if NumericOperator(operator) then
      match CheckNumberOperands(left, right)
      case Some(error) => Computed(Object.Nil, Some(error))
      case None => Arithmetic(operator, left.x, right.x)
    else
      match operator
      case Plus =>
        if left.Num? && right.Num? then Computed(Num(left.x + right.x), None)
        else if left.Str? && right.Str? then Computed(Str(left.s + right.s), None)
        else Computed(Object.Nil, Some(PlusError))
      case BangEqual => Computed(Bool(!IsEqual(left, right)), None)
      case EqualEqual => Computed(Bool(IsEqual(left, right)), None)
      case _ => Computed(Object.Nil, None)
  }

  /** A numeric operator on two numbers; a division by zero leaves the real numbers. */
  function Arithmetic(operator: Kind, x: real, y: real): (r: Computed)
    requires NumericOperator(operator)
    ensures r.Infinite? <==> operator == Slash && y == 0.0
    ensures r.Computed? ==> r.error.None?
    ensures r.Computed? && operator in {Minus, Slash, Star} ==> r.value.Num?
    ensures r.Computed? && operator in {Greater, GreaterEqual, Less, LessEqual} ==> r.value.Bool?
  {
    match operator
    case Greater => Computed(Bool(x > y), None)
    case GreaterEqual => Computed(Bool(x >= y), None)
    case Less => Computed(Bool(x < y), None)
    case LessEqual => Computed(Bool(x <= y), None)
    case Minus => Computed(Num(x - y), None)
    case Star => Computed(Num(x * y), None)
    case Slash => if y == 0.0 then Infinite else Computed(Num(x / y), None)
  }

  /** The evaluation state after a computed value: an error line is written, the value is nil. */
  function Apply(c: Computed, chain: Chain, output: seq<Line>): (r: Evaluated)
    ensures r.chain == chain
    ensures c.Computed? ==> r.outcome == Done(c.value)
    ensures c.Computed? ==> r.output == output + if c.error.Some? then [Written(c.error.value)] else []
    ensures c.Infinite? ==> r.outcome == NotReal && r.output == output
  {
    match c
    case Computed(value, None) => Evaluated(Done(value), chain, output)
    case Computed(value, Some(error)) => Evaluated(Done(value), chain, output + [Written(error)])
    case Infinite => Evaluated(NotReal, chain, output)
  }

  /**
   * `evaluate`: the outcome of an expression in a scope chain, the chain
   * afterwards and the output.  Operands are evaluated left to right; a
   * crash of an operand is a crash of the whole.
   */
  function Eval(e: Expr, chain: Chain, output: seq<Line>): (r: Evaluated)
    ensures |r.chain| == |chain|
    ensures output <= r.output
  {
    match e
    case Literal(value) => Evaluated(Done(value), chain, output)
    case Grouping(_) => Evaluated(StackOverflow, chain, output)
    case Unary(operator, right) =>
      var a := Eval(right, chain, output);
      if !a.outcome.Done? then a
      else Apply(UnaryValue(operator.kind, a.outcome.value), a.chain, a.output)
    case Variable(name) =>
      (match Lookup(chain, name.lexeme)
       case Some(value) => Evaluated(Done(value), chain, output)
       case None => Evaluated(Done(Object.Nil), chain, output + [Written(UndefinedError(name.lexeme))]))
    case Binary(left, operator, right) =>
      var a := Eval(left, chain, output);
      if !a.outcome.Done? then a
      else
        var b := Eval(right, a.chain, a.output);
        if !b.outcome.Done? then b
        else Apply(BinaryValue(operator.kind, a.outcome.value, b.outcome.value), b.chain, b.output)
    case Assign(name, value) =>
      var a := Eval(value, chain, output);
      if !a.outcome.Done? then a
      else Evaluated(a.outcome, AssignIn(a.chain, name.lexeme, a.outcome.value), a.output)
    case NoExpr => Evaluated(Panic, chain, output)
  }

  /** `stringify` for `print`: nil, a number by `%g`, a string as itself; a bool fails the string assertion. */
  function Stringify(o: Object): (r: Option<Line>)
    ensures r.None? <==> o.Bool?
  {
    match o
    case Nil => Some(Written("nil"))
    case Num(x) => Some(Formatted(x))
    case Str(s) => Some(Written(s))
    case Bool(_) => None
  }

  /** The statements the interpreter has a visitor for. */
  predicate Executable(s: Stmt)
  {
    s.Expression? || s.Print? || s.Var?
  }

  /** What executing a statement does; Done(nil) is a normal completion. */
  function Execute(s: Stmt, chain: Chain, output: seq<Line>): (r: Evaluated)
    requires Executable(s) && |chain| > 0
    ensures |r.chain| == |chain| && output <= r.output
  {
    match s
    case Expression(e) =>
      var a := Eval(e, chain, output);
      if !a.outcome.Done? then a else Evaluated(Done(Object.Nil), a.chain, a.output)
    case Print(e) =>
      var a := Eval(e, chain, output);
      if !a.outcome.Done? then a
      else
        (match Stringify(a.outcome.value)
         case None => Evaluated(Panic, a.chain, a.output)
         case Some(line) => Evaluated(Done(Object.Nil), a.chain, a.output + [line]))
    case Var(name, initializer) =>
      if initializer == NoExpr then Evaluated(Done(Object.Nil), DefineIn(chain, name.lexeme, Object.Nil), output)
      else
        var a := Eval(initializer, chain, output);
        if !a.outcome.Done? then a
        else Evaluated(Done(Object.Nil), DefineIn(a.chain, name.lexeme, a.outcome.value), a.output)
  }

  /** `Interpret`: the statements in order, until the end or the first crash. */
  function Run(statements: seq<Stmt>, chain: Chain, output: seq<Line>): (r: Evaluated)
    requires forall s <- statements :: Executable(s)
    requires |chain| > 0
    ensures |r.chain| == |chain| && output <= r.output
    ensures r.outcome.Done? ==> r.outcome.value == Object.Nil
  {
    if statements == [] then Evaluated(Done(Object.Nil), chain, output)
    else
      var a := Execute(statements[0], chain, output);
      if !a.outcome.Done? then a else Run(statements[1..], a.chain, a.output)
  }

  // ---------------------------------------------------------------------
  // Properties of the evaluator

  /** `!=` is the negation of `==`, and neither reports an error, whatever the operands. */
  lemma EqualityOperators(left: Object, right: Object)
    ensures BinaryValue(EqualEqual, left, right) == Computed(Bool(left == right), None)
    ensures BinaryValue(BangEqual, left, right) == Computed(Bool(left != right), None)
  {
  }

  /**
   * `> >= < <= - / *` need two numbers: with any other operand they report
   * "Operands must be numbers." and yield nil.
   */
  lemma NumericOperands(operator: Kind, left: Object, right: Object)
    requires NumericOperator(operator)
    ensures !(left.Num? && right.Num?) ==> BinaryValue(operator, left, right) == Computed(Object.Nil, Some(OperandsError))
    ensures left.Num? && right.Num? ==> BinaryValue(operator, left, right).Infinite? || BinaryValue(operator, left, right).error.None?
    ensures BinaryValue(operator, left, right).Infinite? <==> operator == Slash && left.Num? && right == Num(0.0)
  {
  }

  /** `+` adds two numbers or joins two strings; any other pair reports and yields nil. */
  lemma PlusOperands(left: Object, right: Object)
    ensures BinaryValue(Plus, left, right) ==
      if left.Num? && right.Num? then Computed(Num(left.x + right.x), None)
      else if left.Str? && right.Str? then Computed(Str(left.s + right.s), None)
      else Computed(Object.Nil, Some(PlusError))
  {
  }

  /** No Assign node: evaluation reads the scope chain but never changes it. */
  predicate ReadOnly(e: Expr)
  {
    match e
    case Unary(_, right) => ReadOnly(right)
    case Binary(left, _, right) => ReadOnly(left) && ReadOnly(right)
    case Assign(_, _) => false
    case _ => true
  }

  lemma {:induction false} ReadOnlyKeepsChain(e: Expr, chain: Chain, output: seq<Line>)
    requires ReadOnly(e)
    ensures Eval(e, chain, output).chain == chain
  {
    match e
    case Unary(_, right) =>
      ReadOnlyKeepsChain(right, chain, output);
    case Binary(left, _, right) =>
      ReadOnlyKeepsChain(left, chain, output);
      var a := Eval(left, chain, output);
      ReadOnlyKeepsChain(right, a.chain, a.output);
    case _ =>
  }

  /** A name no scope binds reads as nil after an "Undefined variable" line. */
  lemma UndefinedVariable(name: Token, chain: Chain, output: seq<Line>)
    requires Lookup(chain, name.lexeme) == None
    ensures Eval(Variable(name), chain, output) ==
      Evaluated(Done(Object.Nil), chain, output + [Written("Error: Undefined variable '" + name.lexeme + "'.")])
  {
  }

  /**
   * The left operand is evaluated before the right one: what it writes
   * comes first, a crash in it is the crash of the whole, and otherwise
   * the right operand is evaluated in the scope chain and after the output
   * that the left one left behind.
   */
  lemma LeftOperandFirst(l: Expr, operator: Token, r: Expr, chain: Chain, output: seq<Line>)
    ensures var a := Eval(l, chain, output);
      var e := Eval(Binary(l, operator, r), chain, output);
      a.output <= e.output && (!a.outcome.Done? ==> e == a) &&
      (a.outcome.Done? ==>
        var b := Eval(r, a.chain, a.output);
        b.output <= e.output && e.chain == b.chain && (!b.outcome.Done? ==> e == b))
  {
  }

  /**
   * An assignment in the left operand is seen by the right one: `(a = v) == a`
   * is true when a is bound and v evaluates without assigning.
   */
  lemma AssignmentSeenOnTheRight(name: Token, value: Expr, operator: Token, chain: Chain, output: seq<Line>)
    requires Lookup(chain, name.lexeme).Some? && ReadOnly(value) && Eval(value, chain, output).outcome.Done?
    requires operator.kind == EqualEqual
    ensures Eval(Binary(Assign(name, value), operator, Variable(name)), chain, output).outcome == Done(Bool(true))
  {
    ReadOnlyKeepsChain(value, chain, output);
    AssignYieldsValue(name, value, chain, output);
  }

  /** With two unbound names, the left name's error line comes first. */
  lemma LeftErrorFirst(a: Token, operator: Token, b: Token, chain: Chain)
    requires Lookup(chain, a.lexeme) == None && Lookup(chain, b.lexeme) == None
    requires operator.kind == EqualEqual
    ensures Eval(Binary(Variable(a), operator, Variable(b)), chain, []).output ==
      [Written(UndefinedError(a.lexeme)), Written(UndefinedError(b.lexeme))]
  {
    UndefinedVariable(a, chain, []);
    UndefinedVariable(b, chain, [Written(UndefinedError(a.lexeme))]);
  }

  /**
   * An assignment evaluates its value, rebinds the name where it is bound
   * (nowhere, when no scope binds it: no error is reported) and yields
   * that same value.
   */
  lemma AssignYieldsValue(name: Token, value: Expr, chain: Chain, output: seq<Line>)
    requires Eval(value, chain, output).outcome.Done?
    ensures var a := Eval(value, chain, output);
      var r := Eval(Assign(name, value), chain, output);
      r.outcome == a.outcome && r.output == a.output &&
      Lookup(r.chain, name.lexeme) == if Lookup(a.chain, name.lexeme).Some? then Some(a.outcome.value) else None
  {
    var a := Eval(value, chain, output);
    AssignThenGet(a.chain, name.lexeme, a.outcome.value);
  }

  /** A var statement binds the name to the initializer's value, or to nil without one. */
  lemma VarDefines(name: Token, initializer: Expr, chain: Chain, output: seq<Line>)
    requires |chain| > 0
    requires initializer != NoExpr ==> Eval(initializer, chain, output).outcome.Done?
    ensures var r := Execute(Stmt.Var(name, initializer), chain, output);
      r.outcome == Done(Object.Nil) &&
      Lookup(r.chain, name.lexeme) ==
        Some(if initializer == NoExpr then Object.Nil else Eval(initializer, chain, output).outcome.value)
  {
    if initializer != NoExpr {
      var a := Eval(initializer, chain, output);
      DefineThenGet(a.chain, name.lexeme, a.outcome.value);
    } else {
      DefineThenGet(chain, name.lexeme, Object.Nil);
    }
  }

  /** Statements run in list order: a program is its first part, then the rest from where that part left off. */
  lemma {:induction false} RunConcat(first: seq<Stmt>, rest: seq<Stmt>, chain: Chain, output: seq<Line>)
    requires forall s <- first :: Executable(s)
    requires forall s <- rest :: Executable(s)
    requires |chain| > 0
    ensures forall s <- first + rest :: Executable(s)
    ensures Run(first + rest, chain, output) ==
      var a := Run(first, chain, output);
      if a.outcome.Done? then Run(rest, a.chain, a.output) else a
  {
    if first == [] {
      assert first + rest == rest;
    } else {
      var x := Execute(first[0], chain, output);
      assert (first + rest)[0] == first[0];
      assert (first + rest)[1..] == first[1..] + rest;
      if x.outcome.Done? {
        RunConcat(first[1..], rest, x.chain, x.output);
      }
    }
  }

  // ---------------------------------------------------------------------
  // The interpreter object

  /** The Interpreter of interpreter.go, with the lines it writes to standard output. */
  class Interpreter {
    /** `environment`: the commented-out `executeBlock` is the only code that would reassign it. */
    const environment: Environment
    var output: seq<Line>

    ghost predicate Valid()
    {
      environment.Valid() && this !in environment.Repr
    }

    /** NewInterpreter, with a global environment that encloses nothing. */
    constructor ()
      ensures Valid() && environment.Scopes() == [map[]] && output == []
      ensures fresh(environment.Repr)
    {
      environment := new Environment(null);
      output := [];
    }

    /** `evaluate`: `Accept` dispatches to the Visit method of the expression's kind. */
    method Evaluate(e: Expr) returns (r: Outcome)
      requires Valid()
      modifies environment.Repr, this`output
      ensures Valid()
      ensures Eval(e, old(environment.Scopes()), old(output)) == Evaluated(r, environment.Scopes(), output)
      decreases e, 1
    {
      match e
      case Literal(value) =>
        r := Done(value);
      case Grouping(_) =>
        // VisitGroupingExpr calls `expr.Accept(i)` on the grouping itself: the recursion never ends.
        r := StackOverflow;
      case Unary(_, _) =>
        r := VisitUnaryExpr(e);
      case Variable(_) =>
        r := VisitVariableExpr(e);
      case Binary(_, _, _) =>
        r := VisitBinaryExpr(e);
      case Assign(_, _) =>
        r := VisitAssignExpr(e);
      case NoExpr =>
        // `Accept` on a nil expression: a nil dereference.
        r := Panic;
    }

    /** Writes an operator's error line, if any, and yields its value. */
    method Report(c: Computed) returns (r: Outcome)
      requires Valid()
      modifies this`output
      ensures Apply(c, environment.Scopes(), old(output)).output == output
      ensures Apply(c, environment.Scopes(), old(output)).outcome == r
    {
      match c
      case Computed(value, error) =>
        if error.Some? {
          output := output + [Written(error.value)];
        }
        r := Done(value);
      case Infinite =>
        r := NotReal;
    }

    method VisitUnaryExpr(e: Expr) returns (r: Outcome)
      requires Valid() && e.Unary?
      modifies environment.Repr, this`output
      ensures Valid()
      ensures Eval(e, old(environment.Scopes()), old(output)) == Evaluated(r, environment.Scopes(), output)
      decreases e, 0
    {
      var right := Evaluate(e.right);
      if !right.Done? {
        return right;
      }
      r := Report(UnaryValue(e.operator.kind, right.value));
    }

    method VisitVariableExpr(e: Expr) returns (r: Outcome)
      requires Valid() && e.Variable?
      modifies environment.Repr, this`output
      ensures Valid()
      ensures Eval(e, old(environment.Scopes()), old(output)) == Evaluated(r, environment.Scopes(), output)
      decreases e, 0
    {
      var value := environment.Get(e.name.lexeme);
      if value.None? {
        output := output + [Written(UndefinedError(e.name.lexeme))];
        return Done(Object.Nil);
      }
      return Done(value.value);
    }

    method VisitBinaryExpr(e: Expr) returns (r: Outcome)
      requires Valid() && e.Binary?
      modifies environment.Repr, this`output
      ensures Valid()
      ensures Eval(e, old(environment.Scopes()), old(output)) == Evaluated(r, environment.Scopes(), output)
      decreases e, 0
    {
      var left := Evaluate(e.left);
      if !left.Done? {
        return left;
      }
      var right := Evaluate(e.right);
      if !right.Done? {
        return right;
      }
      r := Report(BinaryValue(e.operator.kind, left.value, right.value));
    }

    method VisitAssignExpr(e: Expr) returns (r: Outcome)
      requires Valid() && e.Assign?
      modifies environment.Repr, this`output
      ensures Valid()
      ensures Eval(e, old(environment.Scopes()), old(output)) == Evaluated(r, environment.Scopes(), output)
      decreases e, 0
    {
      var value := Evaluate(e.newValue);
      if !value.Done? {
        return value;
      }
      environment.Assign(e.name.lexeme, value.value);
      return value;
    }

    /** `execute`, with the statement visitors VisitExpressionStmt, VisitPrintStmt and VisitVarStmt. */
    method ExecuteStatement(s: Stmt) returns (r: Outcome)
      requires Valid() && Executable(s)
      modifies environment.Repr, this`output
      ensures Valid()
      ensures Execute(s, old(environment.Scopes()), old(output)) == Evaluated(r, environment.Scopes(), output)
    {
      match s
      case Expression(e) =>
        r := Evaluate(e);
        if r.Done? {
          r := Done(Object.Nil);
        }
      case Print(e) =>
        r := Evaluate(e);
        if r.Done? {
          var line := Stringify(r.value);
          if line.None? {
            return Panic;
          }
          output := output + [line.value];
          r := Done(Object.Nil);
        }
      case Var(name, initializer) =>
        var value := Object.Nil;
        if initializer != NoExpr {
          r := Evaluate(initializer);
          if !r.Done? {
            return r;
          }
          value := r.value;
        }
        environment.Define(name.lexeme, value);
        r := Done(Object.Nil);
    }

    /** `Interpret`: executes the statements in order and returns nil, unless the program crashes. */
    method Interpret(statements: seq<Stmt>) returns (r: Outcome)
      requires Valid() && forall s <- statements :: Executable(s)
      modifies environment.Repr, this`output
      ensures Valid()
      ensures Run(statements, old(environment.Scopes()), old(output)) == Evaluated(r, environment.Scopes(), output)
    {
      ghost var total := Run(statements, environment.Scopes(), output);
      var i := 0;
      while i < |statements|
        invariant 0 <= i <= |statements| && Valid()
        invariant Run(statements[i..], environment.Scopes(), output) == total
        decreases |statements| - i
      {
        assert statements[i..][1..] == statements[i + 1..];
        r := ExecuteStatement(statements[i]);
        if !r.Done? {
          return r;
        }
        i := i + 1;
      }
      return Done(Object.Nil);
    }
  }
}
