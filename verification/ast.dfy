/** The abstract syntax tree: a closed set of expression and statement nodes. */
module Ast {
  /** Expression nodes. */
  datatype Expr =
    | Num(value: nat)                                 // a number literal: the value of its digits
    | Var(name: string)                               // a variable reference
    | BinOp(left: Expr, op: string, right: Expr)      // a binary operation, left operand first
    | Paren(child: Expr)                              // a parenthesised expression
    | Call(callee: Expr, args: Args)                  // a call
    | Neg(operand: Expr)                              // unary minus: evaluable, never built by the parser

  /** A call's argument list: `Absent` is the missing list that `f()` produces. */
  datatype Args = Absent | Present(items: seq<Expr>)

  /** Statement nodes. */
  datatype Stmt =
    | Assign(target: string, value: Expr)
    | If(cond: Expr, body: seq<Stmt>)
    | While(cond: Expr, body: seq<Stmt>)
    | ExprStmt(expr: Expr)

  /** The root node: the top-level statements in order. */
  datatype Program = Program(body: seq<Stmt>)

  /** True when the expression contains no call, so evaluating it can print nothing. */
  predicate CallFree(e: Expr)
  {
    match e
    case Num(_) => true
    case Var(_) => true
    case BinOp(l, _, r) => CallFree(l) && CallFree(r)
    case Paren(c) => CallFree(c)
    case Call(_, _) => false
    case Neg(x) => CallFree(x)
  }

  /** The variables the expression reads. */
  function FreeVars(e: Expr): set<string>
  {
    match e
    case Num(_) => {}
    case Var(x) => {x}
    case BinOp(l, _, r) => FreeVars(l) + FreeVars(r)
    case Paren(c) => FreeVars(c)
    case Call(f, args) =>
      FreeVars(f) + (if args.Absent? then {} else set i, x | 0 <= i < |args.items| && x in FreeVars(args.items[i]) :: x)
    case Neg(x) => FreeVars(x)
  }
}
