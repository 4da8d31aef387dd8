/**
 * The debug printer of go/cmd/ast_printer.go: an expression as a Lisp-like
 * text, `(op left right)`, `(group e)`, `(op e)`, a string literal as
 * itself and nil as `nil`.
 *
 * The printer's visitor knows four expression kinds; a tree holding a
 * Variable or an Assign node cannot be given to it.  Everywhere else the
 * Go code can fail at run time: `Accept` on a nil expression and the
 * `.(string)` assertion on a bool or number literal panic.  Print returns
 * None for those panics.
 */
module GoAstPrinter {
  import opened Tokens
  import opened GoAst
  import opened Parens

  /** The trees the printer's visitor covers: no Variable and no Assign node. */
  predicate Printable(e: Expr)
  {
    match e
    case Binary(left, _, right) => Printable(left) && Printable(right)
    case Grouping(inner) => Printable(inner)
    case Unary(_, right) => Printable(right)
    case Variable(_) => false
    case Assign(_, _) => false
    case _ => true
  }

  /** VisitLiteralExpr: nil prints `nil`, a string prints itself, anything else panics. */
  function LiteralText(value: Object): (r: Option<string>)
    ensures r.Some? <==> value.Nil? || value.Str?
    ensures value.Str? ==> r == Some(value.s)
  {
    match value
    case Nil => Some("nil")
    case Str(s) => Some(s)
    case _ => None
  }

  /**
   * When the printer does not panic: no nil expression and only nil and
   * string literals.
   */
  predicate Renders(e: Expr)
  {
    match e
    case Binary(left, _, right) => Renders(left) && Renders(right)
    case Grouping(inner) => Renders(inner)
    case Literal(value) => value.Nil? || value.Str?
    case Unary(_, right) => Renders(right)
    case _ => false
  }

  /**
   * `Print`, with `Accept` dispatching to the Visit methods.  The
   * subexpressions are printed first, left to right, and `parenthesize`
   * joins their texts; a panic in any of them is a panic of the whole.
   */
  function Print(e: Expr): (r: Option<string>)
    requires Printable(e)
    ensures r.Some? <==> Renders(e)
  {
    match e
    case Binary(left, operator, right) =>
      (match (Print(left), Print(right))
       case (Some(l), Some(r)) => Some(Parenthesize(operator.lexeme, [l, r]))
       case _ => None)
    case Grouping(inner) =>
      (match Print(inner)
       case Some(i) => Some(Parenthesize("group", [i]))
       case None => None)
    case Literal(value) => LiteralText(value)
    case Unary(operator, right) =>
      (match Print(right)
       case Some(r) => Some(Parenthesize(operator.lexeme, [r]))
       case None => None)
    case NoExpr => None
  }

  /** The loop of `parenthesize`: a space before each part, in order. */
  function Spaced(parts: seq<string>): (r: string)
    ensures |r| == |parts| + Total(parts)
  {
    if parts == [] then "" else " " + parts[0] + Spaced(parts[1..])
  }

  function Total(parts: seq<string>): nat
  {
    if parts == [] then 0 else |parts[0]| + Total(parts[1..])
  }

  /** `parenthesize`: `(`, the name, each part after one space, `)`. */
  function Parenthesize(name: string, parts: seq<string>): (r: string)
    ensures |r| == |name| + 2 + |parts| + Total(parts)
    ensures r[0] == '(' && r[|r| - 1] == ')'
  {
    "(" + name + Spaced(parts) + ")"
  }

  /** `parenthesize` appends the parts one at a time: a further part adds a space and itself at the end. */
  lemma {:induction false} SpacedSnoc(parts: seq<string>, p: string)
    ensures Spaced(parts + [p]) == Spaced(parts) + " " + p
  {
    if parts == [] {
      assert [] + [p] == [p];
      assert [p][1..] == [];
    } else {
      assert (parts + [p])[1..] == parts[1..] + [p];
      SpacedSnoc(parts[1..], p);
    }
  }

  /** `parenthesize` with two parts. */
  lemma ParenthesizePair(name: string, l: string, r: string)
    ensures Parenthesize(name, [l, r]) == "(" + name + " " + l + " " + r + ")"
  {
    assert [l, r][1..] == [r];
    assert [r][1..] == [];
    assert Spaced([l, r]) == " " + l + " " + r;
    assert "(" + name + (" " + l + " " + r) + ")" == "(" + name + " " + l + " " + r + ")";
  }

  /** `parenthesize` with one part. */
  lemma ParenthesizeOne(name: string, i: string)
    ensures Parenthesize(name, [i]) == "(" + name + " " + i + ")"
  {
    assert [i][1..] == [];
    assert "(" + name + (" " + i) + ")" == "(" + name + " " + i + ")";
  }

  /** A Binary prints as `(` operator, a space, the left side, a space, the right side, `)`. */
  lemma BinaryLayout(left: Expr, operator: Token, right: Expr)
    requires Printable(left) && Printable(right) && Print(left).Some? && Print(right).Some?
    ensures Print(Binary(left, operator, right)) ==
      Some("(" + operator.lexeme + " " + Print(left).value + " " + Print(right).value + ")")
  {
    ParenthesizePair(operator.lexeme, Print(left).value, Print(right).value);
  }

  /** A Grouping prints as `(group ` and the inner text, then `)`. */
  lemma GroupingLayout(inner: Expr)
    requires Printable(inner) && Print(inner).Some?
    ensures Print(Grouping(inner)) == Some("(group " + Print(inner).value + ")")
  {
    var i := Print(inner).value;
    ParenthesizeOne("group", i);
    assert "(" + "group" + " " + i + ")" == "(group " + i + ")";
  }

  /** A Unary prints as `(` operator, a space, the operand, `)`. */
  lemma UnaryLayout(operator: Token, right: Expr)
    requires Printable(right) && Print(right).Some?
    ensures Print(Unary(operator, right)) == Some("(" + operator.lexeme + " " + Print(right).value + ")")
  {
    ParenthesizeOne(operator.lexeme, Print(right).value);
  }

  /** No string literal and no operator lexeme holds a parenthesis. */
  predicate Plain(e: Expr)
  {
    match e
    case Binary(left, operator, right) => ParenFree(operator.lexeme) && Plain(left) && Plain(right)
    case Grouping(inner) => Plain(inner)
    case Literal(value) => value.Str? ==> ParenFree(value.s)
    case Unary(operator, right) => ParenFree(operator.lexeme) && Plain(right)
    case _ => true
  }

  /** The text parenthesize builds from two balanced parts under a name without parentheses. */
  lemma BalancedPair(name: string, l: string, r: string)
    requires ParenFree(name) && Balanced(l) && Balanced(r)
    ensures Balanced("(" + name + " " + l + " " + r + ")")
  {
    assert ParenFree(" ");
    ParenFreeBalanced(" ");
    ParenFreeBalanced(name);
    BalancedConcat(name, " ");
    BalancedConcat(name + " ", l);
    BalancedConcat(name + " " + l, " ");
    BalancedConcat(name + " " + l + " ", r);
    BalancedWrap(name + " " + l + " " + r);
    assert "(" + (name + " " + l + " " + r) + ")" == "(" + name + " " + l + " " + r + ")";
  }

  /** The text parenthesize builds from one balanced part under a name without parentheses. */
  lemma BalancedSingle(name: string, i: string)
    requires ParenFree(name) && Balanced(i)
    ensures Balanced("(" + name + " " + i + ")")
  {
    assert ParenFree(" ");
    ParenFreeBalanced(" ");
    ParenFreeBalanced(name);
    BalancedConcat(name, " ");
    BalancedConcat(name + " ", i);
    BalancedWrap(name + " " + i);
    assert "(" + (name + " " + i) + ")" == "(" + name + " " + i + ")";
  }

  /** The printed parentheses are balanced when the texts copied into the output hold none. */
  lemma {:induction false} PrintBalanced(e: Expr)
    requires Printable(e) && Plain(e) && Print(e).Some?
    ensures Balanced(Print(e).value)
  {
    match e
    case Binary(left, operator, right) =>
      PrintBalanced(left);
      PrintBalanced(right);
      ParenthesizePair(operator.lexeme, Print(left).value, Print(right).value);
      BalancedPair(operator.lexeme, Print(left).value, Print(right).value);
    case Grouping(inner) =>
      PrintBalanced(inner);
      ParenthesizeOne("group", Print(inner).value);
      assert ParenFree("group");
      BalancedSingle("group", Print(inner).value);
    case Unary(operator, right) =>
      PrintBalanced(right);
      ParenthesizeOne(operator.lexeme, Print(right).value);
      BalancedSingle(operator.lexeme, Print(right).value);
    case Literal(value) =>
      if value.Str? {
        ParenFreeBalanced(value.s);
      } else {
        assert Print(e).value == "nil";
        assert ParenFree("nil");
        ParenFreeBalanced("nil");
      }
  }
}
