/**
 * The expression tree the parser builds (lib/src/expr.rs). The source's five
 * node structs behind a visitor trait become one datatype. Binary, Unary,
 * Literal and Grouping each have a `new` that keeps its arguments unchanged,
 * which is the datatype constructor of the same name; the source gives
 * `Assign` no `new`, so its constructor here stands for nothing callable.
 */
module Exprs {
  import opened Tokens

  datatype Expr =
    | Assign(name: Token, newValue: Expr)
    | Binary(left: Expr, operator: Token, right: Expr)
    | Unary(operator: Token, right: Expr)
    | Literal(value: Token)
    | Grouping(expr: Expr)

  /**
   * A visitor: one callback per node type. Each callback receives the
   * visitor's state and the node itself and returns the new state, which is
   * how the source's `&mut self` visitor methods are modelled.
   */
  datatype Visitor<!S> = Visitor(
    visitAssign: (S, Expr) -> S,
    visitBinary: (S, Expr) -> S,
    visitUnary: (S, Expr) -> S,
    visitLiteral: (S, Expr) -> S,
    visitGrouping: (S, Expr) -> S)

  /** Double dispatch: a node calls the visitor method for its own type. */
  function Accept<S>(e: Expr, v: Visitor<S>, s: S): (r: S)
    ensures e.Assign? ==> r == v.visitAssign(s, e)
    ensures e.Binary? ==> r == v.visitBinary(s, e)
    ensures e.Unary? ==> r == v.visitUnary(s, e)
    ensures e.Literal? ==> r == v.visitLiteral(s, e)
    ensures e.Grouping? ==> r == v.visitGrouping(s, e)
  {
    match e
    case Assign(_, _) => v.visitAssign(s, e)
    case Binary(_, _, _) => v.visitBinary(s, e)
    case Unary(_, _) => v.visitUnary(s, e)
    case Literal(_) => v.visitLiteral(s, e)
    case Grouping(_) => v.visitGrouping(s, e)
  }
}
