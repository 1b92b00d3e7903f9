/**
 * `transform_expr`: the structure-preserving substitution that turns a
 * `cfg_zkvm` expression into a plain `cfg` expression
 * (crates/cfg-zkvm-macro/src/lib.rs).
 */
module Rewrite {
  import opened Wrappers
  import opened Syntax
  import opened ZkvmIdents
  import Ascii

  /** The five error kinds of `transform_expr`, raised at its seven error sites. */
  datatype ErrorKind =
    | NotAnIdent            // `require_ident` failed: "expected this path to be an identifier"
    | OnlyIdentifier        // "Only identifier supported in this place"
    | OnlyStringLiteral     // "Only string literal supported in this place"
    | InvalidZkvm(parse: ParseZkvmIdentError)  // the parse error's own text
    | NotSupported          // "Not supported expression"

  /** A `syn::Error`: its kind and the node whose span it is attached to. */
  datatype TransformError = TransformError(at: Expr, kind: ErrorKind)

  /**
   * The expressions the rewriter leaves exactly as they are: an atom that is
   * not a canonical name, an assignment to a key other than `zkvm`, and a call
   * all of whose arguments are of this kind.
   */
  predicate Inert(e: Expr) {
    match e
    case Path(segs) => |segs| == 1 && ExactMatch(segs[0]).None?
    case Assign(left, _) => left.Path? && |left.segs| == 1 && left.segs[0] != ZkvmKey
    case Call(_, args) => forall i :: 0 <= i < |args| ==> Inert(args[i])
    case _ => false
  }

  /** The tie-break flag is not a backend name. */
  lemma PicoFlagInert()
    ensures Inert(Ident(PicoFlag))
  {
  }

  /** A call whose arguments are all inert is inert. */
  lemma ApplyInert(name: string, args: seq<Expr>)
    requires forall i :: 0 <= i < |args| ==> Inert(args[i])
    ensures Inert(Apply(name, args))
  {
  }

  /** No backend predicate mentions a backend name, so each is left alone by a second pass. */
  lemma CfgAttrInert(id: ZkvmIdent)
    ensures Inert(CfgAttr(id))
  {
    var args := CfgAttr(id).args;
    forall i | 0 <= i < |args|
      ensures Inert(args[i])
    {
      if i == 2 {
        PicoFlagInert();
        ApplyInert("not", [Ident(PicoFlag)]);
      }
    }
  }

  /**
   * `transform_expr`. Successful results name no backend; every error points
   * at a node of the input.
   */
  function Transform(e: Expr): (r: Result<Expr, TransformError>)
    ensures r.Ok? ==> Inert(r.value)
    ensures r.Err? ==> Within(r.error.at, e)
    decreases e, 1
  {
    match e
    case Path(segs) =>
      if |segs| != 1 then Err(TransformError(e, NotAnIdent))
      else (
        match FromStr(segs[0])
        case Ok(id) => CfgAttrInert(id); Ok(CfgAttr(id))
        case Err(_) => Ok(e))
    case Assign(left, right) =>
      if !left.Path? then Err(TransformError(left, OnlyIdentifier))
      else if |left.segs| != 1 then Err(TransformError(left, NotAnIdent))
      else if left.segs[0] != ZkvmKey then Ok(e)
      else if !right.Lit? then Err(TransformError(right, OnlyStringLiteral))
      else if !right.lit.Str? then Err(TransformError(right, OnlyStringLiteral))
      else (
        match FromStr(right.lit.value)
        case Ok(id) => CfgAttrInert(id); Ok(CfgAttr(id))
        case Err(pe) => Err(TransformError(right, InvalidZkvm(pe))))
    case Call(func, args) =>
      (match TransformAll(args)
       case Ok(args') => Ok(Call(func, args'))
       case Err(err) => Err(err))
    case _ => Err(TransformError(e, NotSupported))
  }

  /**
   * The `map`/`collect` over a call's arguments: each argument is rewritten
   * independently, in order; the first failing argument's error is the result.
   */
  function TransformAll(args: seq<Expr>): (r: Result<seq<Expr>, TransformError>)
    ensures r.Ok? <==> forall i :: 0 <= i < |args| ==> Transform(args[i]).Ok?
    ensures r.Ok? ==> |r.value| == |args| && forall i :: 0 <= i < |args| ==> Transform(args[i]) == Ok(r.value[i])
    ensures r.Ok? ==> forall i :: 0 <= i < |r.value| ==> Inert(r.value[i])
    ensures r.Err? ==> exists k :: 0 <= k < |args| && Transform(args[k]) == Err(r.error)
                                 && forall j :: 0 <= j < k ==> Transform(args[j]).Ok?
    ensures r.Err? ==> exists k :: 0 <= k < |args| && Within(r.error.at, args[k])
    decreases args, 0
  {
    if args == [] then Ok([])
    else
      match Transform(args[0])
      case Err(err) => Err(err)
      case Ok(a) =>
        match TransformAll(args[1..])
        case Err(err) => Err(err)
        case Ok(rest) => Ok([a] + rest)
  }

  // ---------------------------------------------------------------------
  // Properties of the rewrite
  // ---------------------------------------------------------------------

  /** The rewrite leaves an expression as it is exactly when the expression is inert. */
  lemma {:induction false} FixedPointsAreInert(e: Expr)
    ensures Transform(e) == Ok(e) <==> Inert(e)
  {
    if Inert(e) {
      match e
      case Call(func, args) =>
        forall i | 0 <= i < |args| ensures Transform(args[i]) == Ok(args[i]) {
          FixedPointsAreInert(args[i]);
        }
        var args' := TransformAll(args).value;
        assert args' == args;
      case _ =>
    }
  }

  /** Rewriting a rewritten expression changes nothing. */
  lemma Idempotent(e: Expr)
    requires Transform(e).Ok?
    ensures Transform(Transform(e).value) == Transform(e)
  {
    FixedPointsAreInert(Transform(e).value);
  }

  /**
   * Atoms: a canonical name becomes its predicate, any other single
   * identifier is kept, a longer path is an error.
   */
  lemma AtomRule(segs: seq<string>)
    ensures |segs| == 1 && FromStr(segs[0]).Ok? ==> Transform(Path(segs)) == Ok(CfgAttr(FromStr(segs[0]).value))
    ensures |segs| == 1 && FromStr(segs[0]).Err? ==> Transform(Path(segs)) == Ok(Path(segs))
    ensures |segs| != 1 ==> Transform(Path(segs)) == Err(TransformError(Path(segs), NotAnIdent))
  {
  }

  /**
   * Assignments: the left side must be a single identifier; keys other than
   * `zkvm` pass unchanged; under `zkvm` the right side must be a string
   * literal that names a backend.
   */
  lemma AssignRule(left: Expr, right: Expr)
    ensures !left.Path? ==> Transform(Assign(left, right)) == Err(TransformError(left, OnlyIdentifier))
    ensures left.Path? && |left.segs| != 1 ==> Transform(Assign(left, right)) == Err(TransformError(left, NotAnIdent))
    ensures left.Path? && |left.segs| == 1 && left.segs[0] != ZkvmKey ==> Transform(Assign(left, right)) == Ok(Assign(left, right))
    ensures left == Ident(ZkvmKey) && !(right.Lit? && right.lit.Str?) ==>
              Transform(Assign(left, right)) == Err(TransformError(right, OnlyStringLiteral))
    ensures left == Ident(ZkvmKey) && right.Lit? && right.lit.Str? && FromStr(right.lit.value).Ok? ==>
              Transform(Assign(left, right)) == Ok(CfgAttr(FromStr(right.lit.value).value))
    ensures left == Ident(ZkvmKey) && right.Lit? && right.lit.Str? && FromStr(right.lit.value).Err? ==>
              Transform(Assign(left, right)) == Err(TransformError(right, InvalidZkvm(FromStr(right.lit.value).error)))
  {
  }

  /**
   * `zkvm = "X"` and the atom `X` mean the same for every canonical `X`; for
   * any other `X` the atom is kept, while the full form is an error carrying
   * the parse error.
   */
  lemma FullFormMatchesShorthand(s: string)
    ensures FromStr(s).Ok? ==> Transform(KeyValue(ZkvmKey, s)) == Transform(Ident(s)) == Ok(CfgAttr(FromStr(s).value))
    ensures FromStr(s).Err? ==> Transform(Ident(s)) == Ok(Ident(s))
    ensures FromStr(s).Err? ==> Transform(KeyValue(ZkvmKey, s)) == Err(TransformError(Lit(Str(s)), InvalidZkvm(FromStr(s).error)))
  {
  }

  /**
   * Calls keep their function and the number and order of their arguments,
   * each rewritten on its own; one failing argument fails the call with the
   * first failure's error.
   */
  lemma CallRule(func: Expr, args: seq<Expr>)
    ensures Transform(Call(func, args)).Ok? <==> forall i :: 0 <= i < |args| ==> Transform(args[i]).Ok?
    ensures Transform(Call(func, args)).Ok? ==>
              var r := Transform(Call(func, args)).value;
              r.Call? && r.func == func && |r.args| == |args| &&
              forall i :: 0 <= i < |args| ==> Transform(args[i]) == Ok(r.args[i])
    ensures Transform(Call(func, args)).Err? ==>
              exists k :: 0 <= k < |args| && Transform(args[k]) == Err(Transform(Call(func, args)).error)
                          && forall j :: 0 <= j < k ==> Transform(args[j]).Ok?
  {
  }

  /** Literals, operators and every other node kind are refused. */
  lemma OtherShapesRejected(e: Expr)
    requires e.Lit? || e.Other?
    ensures Transform(e) == Err(TransformError(e, NotSupported))
  {
  }

  // ---------------------------------------------------------------------
  // Cases from the unit tests and the compile-pass / compile-fail cases
  // ---------------------------------------------------------------------

  /** A call whose arguments rewrite to `args'` rewrites to the same call over `args'`. */
  lemma CallRewritesPointwise(func: Expr, args: seq<Expr>, args': seq<Expr>)
    requires |args'| == |args|
    requires forall i :: 0 <= i < |args| ==> Transform(args[i]) == Ok(args'[i])
    ensures Transform(Call(func, args)) == Ok(Call(func, args'))
  {
    CallRule(func, args);
    assert Transform(Call(func, args)).value.args == args';
  }

  /** `CallRewritesPointwise` for one argument. */
  lemma CallOfOne(func: Expr, x: Expr, x': Expr)
    requires Transform(x) == Ok(x')
    ensures Transform(Call(func, [x])) == Ok(Call(func, [x']))
  {
    CallRewritesPointwise(func, [x], [x']);
  }

  /** `CallRewritesPointwise` for two arguments. */
  lemma CallOfTwo(func: Expr, x: Expr, y: Expr, x': Expr, y': Expr)
    requires Transform(x) == Ok(x') && Transform(y) == Ok(y')
    ensures Transform(Call(func, [x, y])) == Ok(Call(func, [x', y']))
  {
    CallRule(func, [x, y]);
    assert Transform(Call(func, [x, y])).value.args == [x', y'];
  }

  /** Every backend, written either way, becomes its predicate. */
  lemma BackendTable(id: ZkvmIdent)
    ensures Transform(Ident(Name(id))) == Ok(CfgAttr(id))
    ensures Transform(KeyValue(ZkvmKey, Name(id))) == Ok(CfgAttr(id))
  {
    AcceptsExactlyCanonicalNames(Name(id));
    FullFormMatchesShorthand(Name(id));
  }

  /** A single identifier that names no backend is kept as it is. */
  lemma UnknownAtomKept(n: string)
    requires ExactMatch(n).None?
    ensures Transform(Ident(n)) == Ok(Ident(n))
  {
    AtomRule([n]);
  }

  /** `unkown`: a misspelt backend name is an ordinary cfg option. */
  lemma UnknownAtomExample()
    ensures Transform(Ident("unkown")) == Ok(Ident("unkown"))
  {
    UnknownAtomKept("unkown");
  }

  /** An unknown atom beside `risc0`: only the backend name is rewritten. */
  lemma MixedAtoms(n: string)
    requires ExactMatch(n).None?
    ensures Transform(Apply("all", [Ident(n), Ident("risc0")])) == Ok(Apply("all", [Ident(n), CfgAttr(Risc0)]))
  {
    var a, b := Ident(n), Ident("risc0");
    assert Transform(a) == Ok(a) by { UnknownAtomKept(n); }
    assert Transform(b) == Ok(CfgAttr(Risc0)) by { AtomRule(["risc0"]); }
    CallOfTwo(Ident("all"), a, b, a, CfgAttr(Risc0));
  }

  /** `all(fuzz, risc0)` */
  lemma MixedAtomsExample()
    ensures Transform(Apply("all", [Ident("fuzz"), Ident("risc0")])) == Ok(Apply("all", [Ident("fuzz"), CfgAttr(Risc0)]))
  {
    MixedAtoms("fuzz");
  }

  /** A negated backend name is the negation of its predicate. */
  lemma NegatedBackend(id: ZkvmIdent)
    ensures Transform(Apply("not", [Ident(Name(id))])) == Ok(Apply("not", [CfgAttr(id)]))
  {
    AcceptsExactlyCanonicalNames(Name(id));
    AtomRule([Name(id)]);
    CallOfOne(Ident("not"), Ident(Name(id)), CfgAttr(id));
  }

  /** `not(risc0)` */
  lemma NegationExample()
    ensures Transform(Apply("not", [Ident("risc0")])) == Ok(Apply("not", [CfgAttr(Risc0)]))
  {
    NegatedBackend(Risc0);
  }

  /** `any(all(risc0, feature = "foo"), all(sp1, feature = "bar"))` */
  lemma NestedCallExample()
    ensures Transform(Apply("any", [Apply("all", [Ident("risc0"), KeyValue("feature", "foo")]),
                                    Apply("all", [Ident("sp1"), KeyValue("feature", "bar")])]))
         == Ok(Apply("any", [Apply("all", [CfgAttr(Risc0), KeyValue("feature", "foo")]),
                             Apply("all", [CfgAttr(Sp1), KeyValue("feature", "bar")])]))
  {
    AtomRule(["risc0"]);
    AtomRule(["sp1"]);
    AssignRule(Ident("feature"), Lit(Str("foo")));
    AssignRule(Ident("feature"), Lit(Str("bar")));
    var foo, bar := KeyValue("feature", "foo"), KeyValue("feature", "bar");
    CallOfTwo(Ident("all"), Ident("risc0"), foo, CfgAttr(Risc0), foo);
    CallOfTwo(Ident("all"), Ident("sp1"), bar, CfgAttr(Sp1), bar);
    CallOfTwo(Ident("any"), Apply("all", [Ident("risc0"), foo]), Apply("all", [Ident("sp1"), bar]),
              Apply("all", [CfgAttr(Risc0), foo]), Apply("all", [CfgAttr(Sp1), bar]));
  }

  /** `any(feature = "cool", zkvm = "some-cool-zkvm")` fails as a whole. */
  lemma FailingArgumentExample()
    ensures Transform(Apply("any", [KeyValue("feature", "cool"), KeyValue(ZkvmKey, "some-cool-zkvm")])).Err?
  {
    var args := [KeyValue("feature", "cool"), KeyValue(ZkvmKey, "some-cool-zkvm")];
    assert FromStr("some-cool-zkvm").Err?;
    AssignRule(Ident(ZkvmKey), Lit(Str("some-cool-zkvm")));
    assert Transform(args[1]).Err?;
    CallRule(Ident("any"), args);
  }

  /** `zkvm = "dummy"` fails at the literal, with no suggestion. */
  lemma DummyFullFormExample()
    ensures Transform(KeyValue(ZkvmKey, "dummy")) == Err(TransformError(Lit(Str("dummy")), InvalidZkvm(UnknownZkvm("dummy", None))))
  {
    DummyExample();
    FullFormMatchesShorthand("dummy");
  }

  /** `zkvm = "RISC0"` fails, suggesting `risc0`. */
  lemma WrongCaseFullFormExample()
    ensures Transform(KeyValue(ZkvmKey, "RISC0")) == Err(TransformError(Lit(Str("RISC0")), InvalidZkvm(UnknownZkvm("RISC0", Some("risc0")))))
  {
    var t := Ascii.Trim("RISC0");
    assert t == "RISC0";
    var l := Ascii.ToLower(t);
    assert l[0] == 'r' && l[1] == 'i' && l[2] == 's' && l[3] == 'c' && l[4] == '0';
    assert l == Name(Risc0);
    CaseVariantSuggestsCanonical("RISC0", Risc0);
    FullFormMatchesShorthand("RISC0");
  }
}
