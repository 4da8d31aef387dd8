/**
 * The Go syntax trees (go/ast and go/stmt): the expressions the parser
 * builds and the interpreter and printer visit, the statements, and the
 * dynamic values (`interface{}`) that literals carry and evaluation
 * produces.
 */
module GoAst {
  import opened Tokens

  /**
   * A Go `interface{}` value as the interpreter sees it: nil, a bool, a
   * float64 (a real number here) or a string.
   */
  datatype Object = Nil | Bool(b: bool) | Num(x: real) | Str(s: string)

  /**
   * An expression.  NoExpr is the nil `ast.Expr` that a failed `primary`
   * returns and that an absent initializer leaves behind.
   */
  datatype Expr =
    | Binary(left: Expr, operator: Token, right: Expr)
    | Grouping(expression: Expr)
    | Literal(value: Object)
    | Unary(operator: Token, right: Expr)
    | Variable(name: Token)
    | Assign(name: Token, newValue: Expr)
    | NoExpr

  datatype Stmt =
    | Expression(expression: Expr)
    | Print(expression: Expr)
    | Var(name: Token, initializer: Expr)
    | Block(statements: seq<Stmt>)
    | Conditional(condition: Expr, thenStatement: Stmt, elseStatement: Stmt)
    | While(condition: Expr, body: Stmt)
    | Function(name: Token, params: seq<Token>, statements: seq<Stmt>)

  /**
   * The number a numeral of the scanners' shape (digits, optionally a `.`
   * and more digits) stands for, read from position i on with `whole` the
   * digits so far as one number and `places` of them after the point.
   */
  function Numeral(d: string, i: nat, whole: nat, places: nat, point: bool): (r: real)
    requires i <= |d|
    ensures r >= 0.0
    decreases |d| - i
  {
    if i == |d| then whole as real / Power(places)
    else if d[i] == '.' && !point then Numeral(d, i + 1, whole, places, true)
    else
      var digit := if '0' <= d[i] <= '9' then d[i] as int - '0' as int else 0;
      Numeral(d, i + 1, 10 * whole + digit, if point then places + 1 else places, point)
  }

  /** 10 to the power k. */
  function Power(k: nat): (r: real)
    ensures r >= 1.0
  {
    if k == 0 then 1.0 else 10.0 * Power(k - 1)
  }

  /** The value of a NUMBER token's numeral text: never negative, since a numeral has no sign. */
  function NumeralValue(d: string): (r: real)
    ensures r >= 0.0
  {
    Numeral(d, 0, 0, 0, false)
  }

  /** A whole numeral and one with a fraction read as their decimal values. */
  lemma NumeralExamples()
    ensures NumeralValue("12") == 12.0
    ensures NumeralValue("1.5") == 1.5
  {
    assert Numeral("12", 2, 12, 0, false) == 12.0;
    assert Numeral("1.5", 3, 15, 1, true) == 1.5;
  }

  /**
   * The value a token's literal stands for once it is a `LiteralExpr`: a
   * string literal its text, a number literal its numeral's value.
   */
  function ObjectOf(literal: Literal): (r: Object)
    ensures literal.NoLiteral? ==> r == Object.Nil
    ensures literal.Text? ==> r == Str(literal.text)
    ensures literal.Numeral? ==> r == Num(NumeralValue(literal.digits)) && r.x >= 0.0
  {
    match literal
    case NoLiteral => Object.Nil
    case Text(s) => Str(s)
    case Numeral(d) => Num(NumeralValue(d))
  }
}
