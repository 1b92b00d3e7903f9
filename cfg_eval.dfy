/**
 * How the Rust compiler evaluates a `cfg(...)` predicate against the set of
 * cfg options that are on: a name is true when it is set, `key = "value"`
 * when that pair is set, and `all`, `any` and `not` combine their arguments.
 * A predicate the compiler would refuse evaluates to None. This is the
 * meaning the macro's output is given; the compiler itself is not part of
 * this model.
 */
module CfgEval {
  import opened Wrappers
  import opened Syntax

  /** The cfg options that are on: bare names and `key = "value"` pairs. */
  datatype CfgSet = CfgSet(flags: set<string>, pairs: set<(string, string)>)

  function Eval(e: Expr, c: CfgSet): Option<bool>
    decreases e, 1
  {
    match e
    case Path(segs) => if |segs| == 1 then Some(segs[0] in c.flags) else None
    case Assign(left, right) =>
      if left.Path? && |left.segs| == 1 && right.Lit? && right.lit.Str?
      then Some((left.segs[0], right.lit.value) in c.pairs)
      else None
    case Call(func, args) =>
      if func == Ident("all") then EvalAll(args, c)
      else if func == Ident("any") then EvalAny(args, c)
      else if func == Ident("not") && |args| == 1 then
        (match Eval(args[0], c)
         case Some(b) => Some(!b)
         case None => None)
      else None
    case _ => None
  }

  /** `all(args...)`: true when every argument is; `all()` is true. */
  function EvalAll(args: seq<Expr>, c: CfgSet): Option<bool>
    decreases args, 0
  {
    if args == [] then Some(true)
    else
      match Eval(args[0], c)
      case None => None
      case Some(b) =>
        (match EvalAll(args[1..], c)
         case None => None
         case Some(rest) => Some(b && rest))
  }

  /** `any(args...)`: true when some argument is; `any()` is false. */
  function EvalAny(args: seq<Expr>, c: CfgSet): Option<bool>
    decreases args, 0
  {
    if args == [] then Some(false)
    else
      match Eval(args[0], c)
      case None => None
      case Some(b) =>
        (match EvalAny(args[1..], c)
         case None => None
         case Some(rest) => Some(b || rest))
  }

  /** `all` over arguments that all evaluate is their conjunction. */
  lemma {:induction false} EvalAllDefined(args: seq<Expr>, c: CfgSet)
    requires forall i :: 0 <= i < |args| ==> Eval(args[i], c).Some?
    ensures EvalAll(args, c) == Some(forall i :: 0 <= i < |args| ==> Eval(args[i], c) == Some(true))
  {
    if args != [] {
      EvalAllDefined(args[1..], c);
      assert forall i :: 1 <= i < |args| ==> args[1..][i - 1] == args[i];
    }
  }

  /** `all` and `any` see their arguments only through the arguments' values. */
  lemma {:induction false} CombinatorsArePointwise(xs: seq<Expr>, c1: CfgSet, ys: seq<Expr>, c2: CfgSet)
    requires |xs| == |ys|
    requires forall i :: 0 <= i < |xs| ==> Eval(xs[i], c1) == Eval(ys[i], c2)
    ensures EvalAll(xs, c1) == EvalAll(ys, c2)
    ensures EvalAny(xs, c1) == EvalAny(ys, c2)
  {
    if xs != [] {
      assert Eval(xs[0], c1) == Eval(ys[0], c2);
      CombinatorsArePointwise(xs[1..], c1, ys[1..], c2);
    }
  }

  /** A call's value depends on its arguments only through their values. */
  lemma CallIsPointwise(func: Expr, xs: seq<Expr>, c1: CfgSet, ys: seq<Expr>, c2: CfgSet)
    requires |xs| == |ys|
    requires forall i :: 0 <= i < |xs| ==> Eval(xs[i], c1) == Eval(ys[i], c2)
    ensures Eval(Call(func, xs), c1) == Eval(Call(func, ys), c2)
  {
    CombinatorsArePointwise(xs, c1, ys, c2);
    if |xs| == 1 {
      assert Eval(xs[0], c1) == Eval(ys[0], c2);
    }
  }
}
