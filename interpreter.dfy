/**
 * Interpreter.ts: arithmetic expression trees built from number literals,
 * additions and subtractions; `interpret` evaluates a tree bottom-up.
 * Numbers are mathematical integers here (see the README on JavaScript numbers).
 */
module Interpreter {

  datatype Expression =
    | NumberExpression(num: int)
    | AddExpression(leftExpression: Expression, rightExpression: Expression)
    | SubtractExpression(leftExpression: Expression, rightExpression: Expression)

  /** `interpret`: a literal is its number; `+` and `-` combine left with right, in that order. */
  function Interpret(e: Expression): int {
    match e
    case NumberExpression(n) => n
    case AddExpression(l, r) => Interpret(l) + Interpret(r)
    case SubtractExpression(l, r) => Interpret(l) - Interpret(r)
  }

  /**
   * An independent reading of a tree: the list of its literals, left to right,
   * each with the sign it ends up with (a literal under the right operand of
   * an odd number of subtractions counts negatively).
   */
  function SignedLiterals(e: Expression): seq<int> {
    match e
    case NumberExpression(n) => [n]
    case AddExpression(l, r) => SignedLiterals(l) + SignedLiterals(r)
    case SubtractExpression(l, r) => SignedLiterals(l) + Negated(SignedLiterals(r))
  }

  function Negated(s: seq<int>): (r: seq<int>)
    ensures |r| == |s|
    ensures forall i :: 0 <= i < |s| ==> r[i] == -s[i]
  {
    if s == [] then [] else [-s[0]] + Negated(s[1..])
  }

  function Sum(s: seq<int>): int {
    if s == [] then 0 else s[0] + Sum(s[1..])
  }

  lemma {:induction false} SumAppend(a: seq<int>, b: seq<int>)
    ensures Sum(a + b) == Sum(a) + Sum(b)
  {
    if a == [] {
      assert a + b == b;
    } else {
      assert (a + b)[1..] == a[1..] + b;
      SumAppend(a[1..], b);
    }
  }

  lemma {:induction false} SumNegated(s: seq<int>)
    ensures Sum(Negated(s)) == -Sum(s)
  {
    if s != [] {
      assert Negated(s)[1..] == Negated(s[1..]);
      SumNegated(s[1..]);
    }
  }

  /**
   * `interpret` agrees with the signed-literal reading: every tree evaluates
   * to the sum of its literals, with subtraction negating exactly its right
   * operand's literals.
   */
  lemma {:induction false} InterpretIsSignedSum(e: Expression)
    ensures Interpret(e) == Sum(SignedLiterals(e))
  {
    match e
    case NumberExpression(n) =>
      assert Sum([n]) == n + Sum([]);
    case AddExpression(l, r) =>
      InterpretIsSignedSum(l);
      InterpretIsSignedSum(r);
      SumAppend(SignedLiterals(l), SignedLiterals(r));
    case SubtractExpression(l, r) =>
      InterpretIsSignedSum(l);
      InterpretIsSignedSum(r);
      SumAppend(SignedLiterals(l), Negated(SignedLiterals(r)));
      SumNegated(SignedLiterals(r));
  }

  /** Subtraction is taken in operand order: swapping its operands negates the value. */
  lemma SubtractOperandOrder(l: Expression, r: Expression)
    ensures Interpret(SubtractExpression(l, r)) == -Interpret(SubtractExpression(r, l))
  {
  }

  /** The driver's tree (10 + 5) - 2 interprets to 13. */
  lemma Example()
    ensures Interpret(SubtractExpression(
              AddExpression(NumberExpression(10), NumberExpression(5)),
              NumberExpression(2))) == 13
  {
  }
}
