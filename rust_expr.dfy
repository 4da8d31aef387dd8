/**
 * The expression tree and debug printer of rust/src/expr.rs.  The
 * printer's visitor writes with `print!`; Emit is the text it writes for
 * a tree, in order: `(left op right)` with no spaces, `(inner)` for a
 * grouping, `(op operand)` for a unary, and the literal's text.
 */
module RustExpr {
  import Tokens
  import opened Parens

  /**
   * A literal.  A number keeps the text that Rust's `{}` formatting of
   * the f64 writes.
   */
  datatype Literal = Number(text: string) | String(s: string) | True | False | Nil

  datatype Expr =
    | Binary(left: Expr, operator: Tokens.Kind, right: Expr)
    | Grouping(inner: Expr)
    | Unary(operator: Tokens.Kind, operand: Expr)
    | Literal(literal: Literal)

  /** The four arithmetic operator kinds. */
  predicate Arithmetic(k: Tokens.Kind)
  {
    k == Tokens.Kind.Minus || k == Tokens.Kind.Plus || k == Tokens.Kind.Slash || k == Tokens.Kind.Star
  }

  /** The operator text a Binary writes: only the four arithmetic kinds write one. */
  function BinarySymbol(k: Tokens.Kind): (r: string)
    ensures r != "" <==> Arithmetic(k)
    ensures |r| <= 1 && ParenFree(r)
  {
    match k
    case Minus => "-"
    case Plus => "+"
    case Slash => "/"
    case Star => "*"
    case _ => ""
  }

  /** The operator text a Unary writes: `-` for Minus, `!` for Bang, nothing otherwise. */
  function UnarySymbol(k: Tokens.Kind): (r: string)
    ensures r != "" <==> k == Tokens.Kind.Minus || k == Tokens.Kind.Bang
    ensures |r| <= 1 && ParenFree(r)
  {
    match k
    case Minus => "-"
    case Bang => "!"
    case _ => ""
  }

  /** visit_literal_expr */
  function LiteralText(l: Literal): (r: string)
    ensures l.True? ==> r == "true"
    ensures l.False? ==> r == "false"
    ensures l.Nil? ==> r == "nil"
  {
    match l
    case Number(text) => text
    case String(s) => s
    case True => "true"
    case False => "false"
    case Nil => "nil"
  }

  /**
   * What `AstPrinter::print` writes: `accept` sends each variant to its
   * own visit method, and each visit method writes its pieces in order.
   */
  function Emit(e: Expr): (r: string)
    ensures e.Literal? ==> r == LiteralText(e.literal)
    ensures !e.Literal? ==> |r| >= 2 && r[0] == '(' && r[|r| - 1] == ')'
  {
    match e
    case Binary(left, operator, right) => "(" + Emit(left) + BinarySymbol(operator) + Emit(right) + ")"
    case Grouping(inner) => "(" + Emit(inner) + ")"
    case Unary(operator, operand) => "(" + UnarySymbol(operator) + Emit(operand) + ")"
    case Literal(literal) => LiteralText(literal)
  }

  /** The texts of the literals hold no parenthesis. */
  predicate Plain(e: Expr)
  {
    match e
    case Binary(left, _, right) => Plain(left) && Plain(right)
    case Grouping(inner) => Plain(inner)
    case Unary(_, operand) => Plain(operand)
    case Literal(l) => ParenFree(LiteralText(l))
  }

  /** The written parentheses are balanced when no literal's text holds one. */
  lemma {:induction false} EmitBalanced(e: Expr)
    requires Plain(e)
    ensures Balanced(Emit(e))
  {
    match e
    case Binary(left, operator, right) =>
      EmitBalanced(left);
      EmitBalanced(right);
      var l, o, r := Emit(left), BinarySymbol(operator), Emit(right);
      ParenFreeBalanced(o);
      BalancedConcat(l, o);
      BalancedConcat(l + o, r);
      BalancedWrap(l + o + r);
      assert "(" + (l + o + r) + ")" == "(" + l + o + r + ")";
    case Grouping(inner) =>
      EmitBalanced(inner);
      BalancedWrap(Emit(inner));
    case Unary(operator, operand) =>
      EmitBalanced(operand);
      var o, r := UnarySymbol(operator), Emit(operand);
      ParenFreeBalanced(o);
      BalancedConcat(o, r);
      BalancedWrap(o + r);
      assert "(" + (o + r) + ")" == "(" + o + r + ")";
    case Literal(l) =>
      ParenFreeBalanced(LiteralText(l));
  }

  /**
   * A comparison or equality operator writes nothing, so a Binary over it
   * reads like the two operands side by side: `1 == 2` and `1 > 2` are
   * both written `(12)`.
   */
  lemma DroppedOperators(left: Expr, a: Tokens.Kind, b: Tokens.Kind, right: Expr)
    requires !Arithmetic(a) && !Arithmetic(b)
    ensures Emit(Binary(left, a, right)) == Emit(Binary(left, b, right)) == "(" + Emit(left) + Emit(right) + ")"
  {
    SilentBinary(left, a, right);
    SilentBinary(left, b, right);
  }

  /** A Binary over an operator that writes nothing is its two operands in parentheses. */
  lemma SilentBinary(left: Expr, k: Tokens.Kind, right: Expr)
    requires !Arithmetic(k)
    ensures Emit(Binary(left, k, right)) == "(" + Emit(left) + Emit(right) + ")"
  {
    var l, r := Emit(left), Emit(right);
    assert BinarySymbol(k) == "";
    assert l + "" == l;
  }
}
