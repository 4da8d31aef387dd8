/**
 * Parenthesis nesting in printed text, shared by the two tree printers:
 * the depth reached after reading a text, and whether a text never closes
 * more parentheses than it has opened.
 */
module Parens {

  function Delta(c: char): int
  {
    if c == '(' then 1 else if c == ')' then -1 else 0
  }

  /** The nesting depth after reading s from depth d. */
  function Walk(s: string, d: int): int
    decreases |s|
  {
    if s == [] then d else Walk(s[1..], d + Delta(s[0]))
  }

  /** Reading s from depth d never goes below depth 0. */
  predicate Stays(s: string, d: int)
    decreases |s|
  {
    d >= 0 && (s == [] || Stays(s[1..], d + Delta(s[0])))
  }

  /** Every `)` closes an earlier `(`, and every `(` is closed. */
  predicate Balanced(s: string)
  {
    Stays(s, 0) && Walk(s, 0) == 0
  }

  predicate ParenFree(s: string)
  {
    forall k :: 0 <= k < |s| ==> s[k] != '(' && s[k] != ')'
  }

  /** Reading a + b is reading a, then b from where a left off. */
  lemma {:induction false} WalkConcat(a: string, b: string, d: int)
    ensures Walk(a + b, d) == Walk(b, Walk(a, d))
    ensures Stays(a + b, d) <==> Stays(a, d) && Stays(b, Walk(a, d))
    decreases |a|
  {
    if a != [] {
      assert (a + b)[1..] == a[1..] + b;
      WalkConcat(a[1..], b, d + Delta(a[0]));
    } else {
      assert a + b == b;
    }
  }

  /** Starting k levels deeper ends k levels deeper and stays above 0 as before. */
  lemma {:induction false} WalkShift(s: string, d: int, k: nat)
    ensures Walk(s, d + k) == Walk(s, d) + k
    ensures Stays(s, d) ==> Stays(s, d + k)
    decreases |s|
  {
    if s != [] {
      WalkShift(s[1..], d + Delta(s[0]), k);
    }
  }

  /** A text without parentheses leaves the depth where it was. */
  lemma {:induction false} WalkParenFree(s: string, d: int)
    requires ParenFree(s)
    ensures Walk(s, d) == d && (Stays(s, d) <==> d >= 0)
    decreases |s|
  {
    if s != [] {
      WalkParenFree(s[1..], d);
    }
  }

  lemma ParenFreeBalanced(s: string)
    requires ParenFree(s)
    ensures Balanced(s)
  {
    WalkParenFree(s, 0);
  }

  lemma BalancedConcat(a: string, b: string)
    requires Balanced(a) && Balanced(b)
    ensures Balanced(a + b)
  {
    WalkConcat(a, b, 0);
  }

  /** Wrapping a balanced text in a pair of parentheses keeps it balanced. */
  lemma BalancedWrap(s: string)
    requires Balanced(s)
    ensures Balanced("(" + s + ")")
  {
    WalkConcat("(", s, 0);
    WalkConcat("(" + s, ")", 0);
    WalkShift(s, 0, 1);
    assert Walk("(", 0) == 1 && Stays("(", 0);
    assert Walk(")", 1) == 0 && Stays(")", 1);
  }
}
