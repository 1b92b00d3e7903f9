/**
 * The part of `syn::Expr` that the rewriter looks at. A cfg expression is an
 * atom (a path), a `key = literal` assignment, or a call `name(args...)`;
 * every other node kind is `Other`.
 */
module Syntax {

  datatype Literal = Str(value: string) | NonStr

  datatype Expr =
    | Path(segs: seq<string>)
    | Assign(left: Expr, right: Expr)
    | Lit(lit: Literal)
    | Call(func: Expr, args: seq<Expr>)
    | Other

  /** A single-identifier path such as `risc0` or `feature`. */
  function Ident(name: string): Expr {
    Path([name])
  }

  /** `key = "value"` */
  function KeyValue(key: string, value: string): Expr {
    Assign(Ident(key), Lit(Str(value)))
  }

  /** `name(args...)` */
  function Apply(name: string, args: seq<Expr>): Expr {
    Call(Ident(name), args)
  }

  /** `sub` is a node of the tree `e` (the place a diagnostic's span can point at). */
  predicate Within(sub: Expr, e: Expr) {
    sub == e ||
    match e
    case Assign(left, right) => Within(sub, left) || Within(sub, right)
    case Call(func, args) => Within(sub, func) || exists i :: 0 <= i < |args| && Within(sub, args[i])
    case _ => false
  }
}
