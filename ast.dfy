/** The expression tree: a closed set of four node kinds, and the visitor
    each node dispatches to. */
module Ast {
  import opened Tokens

  datatype Expr =
    | Binary(left: Expr, operator: Token, right: Expr)
    | Grouping(expression: Expr)
    | Literal(value: Value)
    | Unary(operator: Token, right: Expr)

  /** One visit function per node kind; each receives the node's fields. */
  datatype Visitor<R> = Visitor(
    visitBinaryExpr: (Expr, Token, Expr) -> R,
    visitGroupingExpr: Expr -> R,
    visitLiteralExpr: Value -> R,
    visitUnaryExpr: (Token, Expr) -> R)

  /** accept: each node calls the visit function of its own kind, and only
      that one, on its own fields. */
  function Accept<R>(e: Expr, v: Visitor<R>): R
  {
    match e
    case Binary(left, operator, right) => v.visitBinaryExpr(left, operator, right)
    case Grouping(expression) => v.visitGroupingExpr(expression)
    case Literal(value) => v.visitLiteralExpr(value)
    case Unary(operator, right) => v.visitUnaryExpr(operator, right)
  }

  /** accept depends on the visitor only through the arm of the node's own
      kind: two visitors that agree on that one arm give the same result,
      whatever their other arms do. */
  lemma AcceptOwnArm<R>(e: Expr, v: Visitor<R>, w: Visitor<R>)
    requires e.Binary? ==> v.visitBinaryExpr == w.visitBinaryExpr
    requires e.Grouping? ==> v.visitGroupingExpr == w.visitGroupingExpr
    requires e.Literal? ==> v.visitLiteralExpr == w.visitLiteralExpr
    requires e.Unary? ==> v.visitUnaryExpr == w.visitUnaryExpr
    ensures Accept(e, v) == Accept(e, w)
  {
  }

  /** Number of nodes in a tree. */
  function Size(e: Expr): (n: nat)
    ensures n >= 1
  {
    match e
    case Binary(left, _, right) => 1 + Size(left) + Size(right)
    case Grouping(expression) => 1 + Size(expression)
    case Literal(_) => 1
    case Unary(_, right) => 1 + Size(right)
  }

  /** One more than the number of nodes in a list of trees. */
  function SizeAll(es: seq<Expr>): (n: nat)
    ensures n >= 1
  {
    if es == [] then 1 else Size(es[0]) + SizeAll(es[1..])
  }

  lemma {:induction false} SizeAllBound(es: seq<Expr>, i: nat)
    requires i < |es|
    ensures Size(es[i]) < SizeAll(es)
    decreases |es|
  {
    if i > 0 {
      SizeAllBound(es[1..], i - 1);
    }
  }
}
