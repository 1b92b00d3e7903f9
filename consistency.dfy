/**
 * The two halves of `cfg_zkvm` agree. A crate that runs `config_values` in
 * its build script is compiled with the target's own cfgs plus the ones the
 * build script sets. `RewriteMatchesBuildScript` says the predicate the macro
 * produces has, on the target's own cfgs, the value the original `p` has in
 * the build; `InertIgnoresBuild` says the build's extra cfgs do not change
 * the value of the macro's output; together, `KeepsItemExactlyWhen` says
 * `#[cfg_zkvm(p)]` keeps its item in the build exactly when `cfg(p)` holds
 * there.
 */
module Consistency {
  import opened Wrappers
  import opened Syntax
  import opened ZkvmIdents
  import opened Rewrite
  import opened BuildScript
  import opened CfgEval

  /**
   * A compilation target: its `target_os` and `target_vendor`, whether
   * `zkvm_pico` is set, and any other cfg options that are on.
   */
  datatype Target = Target(os: string, vendor: string, pico: bool,
                           userFlags: set<string>, userPairs: set<(string, string)>)

  /**
   * The other options do not use the names this crate gives meaning to:
   * no backend name or `zkvm_pico` as a bare option, and no second
   * `target_os`, `target_vendor` or `zkvm` value.
   */
  predicate WellFormed(t: Target) {
    && (forall n :: n in t.userFlags ==> FromStr(n).Err? && n != PicoFlag)
    && (forall p :: p in t.userPairs ==> p.0 != "target_os" && p.0 != "target_vendor" && p.0 != ZkvmKey)
  }

  /** The options the target has before the build script runs. */
  function TargetCfg(t: Target): CfgSet {
    CfgSet(t.userFlags + (if t.pico then {PicoFlag} else {}),
           t.userPairs + {("target_os", t.os), ("target_vendor", t.vendor)})
  }

  /** What one printed directive turns on. */
  function Step(c: CfgSet, d: Directive): CfgSet {
    match d
    case RustcCfg(name) => CfgSet(c.flags + {name}, c.pairs)
    case RustcCfgValue(key, value) => CfgSet(c.flags, c.pairs + {(key, value)})
    case _ => c
  }

  /** The options on after the directives, in order. */
  function ApplyAll(c: CfgSet, ds: seq<Directive>): CfgSet
    decreases |ds|
  {
    if ds == [] then c else ApplyAll(Step(c, ds[0]), ds[1..])
  }

  /** The options on while the crate itself is compiled. */
  function BuiltCfg(t: Target): CfgSet {
    ApplyAll(TargetCfg(t), ConfigValues(Some(t.os), Some(t.vendor), t.pico).directives)
  }

  lemma {:induction false} ApplyAppend(c: CfgSet, a: seq<Directive>, b: seq<Directive>)
    ensures ApplyAll(c, a + b) == ApplyAll(ApplyAll(c, a), b)
    decreases |a|
  {
    if a == [] {
      assert a + b == b;
    } else {
      assert (a + b)[0] == a[0];
      assert (a + b)[1..] == a[1..] + b;
      ApplyAppend(Step(c, a[0]), a[1..], b);
    }
  }

  /** Declarations and warnings turn nothing on. */
  lemma {:induction false} InertDirectives(c: CfgSet, ds: seq<Directive>)
    requires forall i :: 0 <= i < |ds| ==> !ds[i].RustcCfg? && !ds[i].RustcCfgValue?
    ensures ApplyAll(c, ds) == c
    decreases |ds|
  {
    if ds != [] {
      InertDirectives(c, ds[1..]);
    }
  }

  /**
   * The build script turns on, for a selected backend, its bare name and
   * `zkvm = "name"`, and nothing in any other case.
   */
  lemma BuiltCfgShape(t: Target)
    ensures var sel := Classify(t.os, t.vendor, t.pico);
            var base := TargetCfg(t);
            BuiltCfg(t) == if sel.Selected? then CfgSet(base.flags + {sel.zkvm}, base.pairs + {(ZkvmKey, sel.zkvm)})
                           else base
  {
    var out := ConfigValues(Some(t.os), Some(t.vendor), t.pico);
    var base := TargetCfg(t);
    InertDirectives(base, CheckCfgs);
    EmittedCfgs(t.os, t.vendor, t.pico);
    assert out.directives == CheckCfgs + Emitted(out);
    ApplyAppend(base, CheckCfgs, Emitted(out));
    var sel := Classify(t.os, t.vendor, t.pico);
    if sel.Selected? {
      var ds := Emitted(out);
      assert ds == [RustcCfg(sel.zkvm), RustcCfgValue(ZkvmKey, sel.zkvm)];
      assert ds[1..] == [RustcCfgValue(ZkvmKey, sel.zkvm)];
      assert ds[1..][1..] == [];
      var c1 := Step(base, ds[0]);
      assert ApplyAll(base, ds) == ApplyAll(c1, ds[1..]);
      assert ApplyAll(c1, ds[1..]) == ApplyAll(Step(c1, ds[1..][0]), []);
    } else {
      forall i | 0 <= i < |Emitted(out)|
        ensures !Emitted(out)[i].RustcCfg? && !Emitted(out)[i].RustcCfgValue?
      {
        assert Emitted(out)[i] in Emitted(out);
      }
      InertDirectives(base, Emitted(out));
    }
  }

  /** The three facts a backend predicate is made of. */
  lemma TargetFacts(t: Target, vendor: string)
    requires WellFormed(t)
    ensures Eval(KeyValue("target_os", "zkvm"), TargetCfg(t)) == Some(t.os == "zkvm")
    ensures Eval(KeyValue("target_vendor", vendor), TargetCfg(t)) == Some(t.vendor == vendor)
    ensures Eval(Ident(PicoFlag), TargetCfg(t)) == Some(t.pico)
    ensures Eval(Apply("not", [Ident(PicoFlag)]), TargetCfg(t)) == Some(!t.pico)
  {
    assert ("target_os", "zkvm") !in t.userPairs;
    assert ("target_vendor", vendor) !in t.userPairs;
    assert PicoFlag !in t.userFlags;
    assert [Ident(PicoFlag)][0] == Ident(PicoFlag);
  }

  /** `all(target_os = "zkvm", target_vendor = vendor, extra...)` on a target. */
  lemma TargetPredicateValue(t: Target, vendor: string, extra: seq<Expr>)
    requires WellFormed(t)
    requires forall i :: 0 <= i < |extra| ==> Eval(extra[i], TargetCfg(t)).Some?
    ensures Eval(Apply("all", [KeyValue("target_os", "zkvm"), KeyValue("target_vendor", vendor)] + extra), TargetCfg(t))
         == Some(t.os == "zkvm" && t.vendor == vendor &&
                 forall i :: 0 <= i < |extra| ==> Eval(extra[i], TargetCfg(t)) == Some(true))
  {
    var c := TargetCfg(t);
    var args := [KeyValue("target_os", "zkvm"), KeyValue("target_vendor", vendor)] + extra;
    TargetFacts(t, vendor);
    assert forall i :: 2 <= i < |args| ==> args[i] == extra[i - 2];
    EvalAllDefined(args, c);
    assert Apply("all", args).func == Ident("all");
  }

  /** What `cfg_attr(id)` evaluates to on a target, before the build script runs. */
  lemma CfgAttrValue(t: Target, id: ZkvmIdent)
    requires WellFormed(t)
    ensures Eval(CfgAttr(id), TargetCfg(t)) == Some(
              && t.os == "zkvm"
              && (match id
                  case Risc0 => t.vendor == "risc0" && !t.pico
                  case Sp1 => t.vendor == "succinct"
                  case Pico => t.vendor == "risc0" && t.pico
                  case Ziren => t.vendor == "zkm"
                  case Zisk => t.vendor == "zisk"))
  {
    var os := KeyValue("target_os", "zkvm");
    TargetFacts(t, "risc0");
    match id
    case Risc0 =>
      var extra := [Apply("not", [Ident(PicoFlag)])];
      TargetPredicateValue(t, "risc0", extra);
      assert Eval(extra[0], TargetCfg(t)) == Some(!t.pico);
      assert (forall i :: 0 <= i < |extra| ==> Eval(extra[i], TargetCfg(t)) == Some(true)) <==> !t.pico;
      assert [os, KeyValue("target_vendor", "risc0")] + extra == CfgAttr(id).args;
    case Sp1 =>
      TargetPredicateValue(t, "succinct", []);
      assert [os, KeyValue("target_vendor", "succinct")] + [] == CfgAttr(id).args;
    case Pico =>
      var extra := [Ident(PicoFlag)];
      TargetPredicateValue(t, "risc0", extra);
      assert Eval(extra[0], TargetCfg(t)) == Some(t.pico);
      assert (forall i :: 0 <= i < |extra| ==> Eval(extra[i], TargetCfg(t)) == Some(true)) <==> t.pico;
      assert [os, KeyValue("target_vendor", "risc0")] + extra == CfgAttr(id).args;
    case Ziren =>
      TargetPredicateValue(t, "zkm", []);
      assert [os, KeyValue("target_vendor", "zkm")] + [] == CfgAttr(id).args;
    case Zisk =>
      TargetPredicateValue(t, "zisk", []);
      assert [os, KeyValue("target_vendor", "zisk")] + [] == CfgAttr(id).args;
  }

  /**
   * The macro's predicate for a backend and the build script's classifier
   * agree: on every target the build script accepts, the predicate holds
   * exactly when the classifier selects that backend, and on a target it
   * rejects, neither risc0 nor pico is selected.
   */
  lemma PredicateMatchesClassifier(t: Target, id: ZkvmIdent)
    requires WellFormed(t)
    ensures Eval(CfgAttr(id), TargetCfg(t)).Some?
    ensures Classify(t.os, t.vendor, t.pico) != PicoMisconfigured ==>
              (Eval(CfgAttr(id), TargetCfg(t)) == Some(true) <==> Classify(t.os, t.vendor, t.pico) == Selected(Name(id)))
    ensures Classify(t.os, t.vendor, t.pico) == PicoMisconfigured && (id == Risc0 || id == Pico) ==>
              Eval(CfgAttr(id), TargetCfg(t)) == Some(false)
  {
    CfgAttrValue(t, id);
  }

  /**
   * The other direction fails off the accepted targets: the predicates of
   * sp1, ziren and zisk do not look at `zkvm_pico`, so on a zkvm target of
   * their vendor with `zkvm_pico` set the predicate holds while the build
   * script panics.
   */
  lemma PicoFlagIgnoredOffRisc0(t: Target, id: ZkvmIdent)
    requires WellFormed(t)
    requires t.os == "zkvm" && t.pico
    requires (id == Sp1 && t.vendor == "succinct") || (id == Ziren && t.vendor == "zkm") || (id == Zisk && t.vendor == "zisk")
    ensures Eval(CfgAttr(id), TargetCfg(t)) == Some(true)
    ensures Classify(t.os, t.vendor, t.pico) == PicoMisconfigured
    ensures ConfigValues(Some(t.os), Some(t.vendor), t.pico).panic == Some(PicoMisconfiguredMessage)
  {
    CfgAttrValue(t, id);
  }

  /** At most one backend predicate holds on a target the build script accepts. */
  lemma AtMostOneBackend(t: Target, a: ZkvmIdent, b: ZkvmIdent)
    requires WellFormed(t)
    requires Classify(t.os, t.vendor, t.pico) != PicoMisconfigured
    requires Eval(CfgAttr(a), TargetCfg(t)) == Some(true) && Eval(CfgAttr(b), TargetCfg(t)) == Some(true)
    ensures a == b
  {
    PredicateMatchesClassifier(t, a);
    PredicateMatchesClassifier(t, b);
    assert Name(a) == Name(b);
  }

  /** A bare option is on in the build when the target has it or it names the selected backend. */
  lemma BuiltFlags(t: Target, n: string)
    ensures n in BuiltCfg(t).flags <==> n in TargetCfg(t).flags || Classify(t.os, t.vendor, t.pico) == Selected(n)
  {
    BuiltCfgShape(t);
  }

  /** A pair is on in the build when the target has it or it is `zkvm = ` the selected backend. */
  lemma BuiltPairs(t: Target, k: string, v: string)
    ensures (k, v) in BuiltCfg(t).pairs <==>
              (k, v) in TargetCfg(t).pairs || (k == ZkvmKey && Classify(t.os, t.vendor, t.pico) == Selected(v))
  {
    BuiltCfgShape(t);
  }

  /** The theorem below for an atom. */
  lemma AtomMatchesBuildScript(t: Target, n: string)
    requires WellFormed(t)
    requires Classify(t.os, t.vendor, t.pico) != PicoMisconfigured
    ensures Transform(Ident(n)).Ok? && Eval(Transform(Ident(n)).value, TargetCfg(t)) == Eval(Ident(n), BuiltCfg(t))
  {
    AtomRule([n]);
    BuiltFlags(t, n);
    var sel := Classify(t.os, t.vendor, t.pico);
    assert Eval(Ident(n), BuiltCfg(t)) == Some(n in BuiltCfg(t).flags);
    if FromStr(n).Ok? {
      var id := FromStr(n).value;
      PredicateMatchesClassifier(t, id);
      assert n == Name(id);
      assert n !in TargetCfg(t).flags;
    } else {
      assert sel.Selected? ==> FromStr(sel.zkvm).Ok?;
      assert sel != Selected(n);
    }
  }

  /** The theorem below for a `key = "value"` pair the rewrite accepts. */
  lemma PairMatchesBuildScript(t: Target, k: string, right: Expr)
    requires WellFormed(t)
    requires Classify(t.os, t.vendor, t.pico) != PicoMisconfigured
    requires Transform(Assign(Ident(k), right)).Ok?
    ensures Eval(Transform(Assign(Ident(k), right)).value, TargetCfg(t)) == Eval(Assign(Ident(k), right), BuiltCfg(t))
  {
    AssignRule(Ident(k), right);
    var sel := Classify(t.os, t.vendor, t.pico);
    if k == ZkvmKey {
      var v := right.lit.value;
      var id := FromStr(v).value;
      PredicateMatchesClassifier(t, id);
      BuiltPairs(t, k, v);
      assert (k, v) !in TargetCfg(t).pairs;
      assert v == Name(id);
    } else if right.Lit? && right.lit.Str? {
      BuiltPairs(t, k, right.lit.value);
    }
  }

  /**
   * The rewrite means what the build script's cfgs mean: on every target
   * the build script accepts, the macro's output evaluated against the
   * target's own options has the value the input has once the build
   * script's options are on.
   */
  lemma {:induction false} RewriteMatchesBuildScript(t: Target, e: Expr)
    requires WellFormed(t)
    requires ConfigValues(Some(t.os), Some(t.vendor), t.pico).panic.None?
    requires Transform(e).Ok?
    ensures Eval(Transform(e).value, TargetCfg(t)) == Eval(e, BuiltCfg(t))
    decreases e
  {
    match e
    case Path(segs) =>
      assert e == Ident(segs[0]);
      AtomMatchesBuildScript(t, segs[0]);
    case Assign(left, right) =>
      assert left == Ident(left.segs[0]);
      PairMatchesBuildScript(t, left.segs[0], right);
    case Call(func, args) =>
      var args' := TransformAll(args).value;
      forall i | 0 <= i < |args|
        ensures Eval(args'[i], TargetCfg(t)) == Eval(args[i], BuiltCfg(t))
      {
        RewriteMatchesBuildScript(t, args[i]);
      }
      CallIsPointwise(func, args', TargetCfg(t), args, BuiltCfg(t));
  }

  /**
   * An inert predicate does not look at what the build script adds: it names
   * no backend as a bare option and asks no question about `zkvm`.
   */
  lemma {:induction false} InertIgnoresBuild(t: Target, e: Expr)
    requires Inert(e)
    ensures Eval(e, BuiltCfg(t)) == Eval(e, TargetCfg(t))
    decreases e
  {
    BuiltCfgShape(t);
    var sel := Classify(t.os, t.vendor, t.pico);
    match e
    case Path(segs) =>
      if sel.Selected? {
        assert FromStr(sel.zkvm).Ok?;
        assert segs[0] != sel.zkvm;
      }
    case Assign(left, right) =>
    case Call(func, args) =>
      forall i | 0 <= i < |args|
        ensures Eval(args[i], BuiltCfg(t)) == Eval(args[i], TargetCfg(t))
      {
        InertIgnoresBuild(t, args[i]);
      }
      CallIsPointwise(func, args, BuiltCfg(t), args, TargetCfg(t));
  }

  /**
   * What the compiler decides in the build: the macro's output for `p` has
   * there the value `cfg(p)` has there, so the item is kept exactly when
   * `cfg(p)` holds.
   */
  lemma KeepsItemExactlyWhen(t: Target, e: Expr)
    requires WellFormed(t)
    requires ConfigValues(Some(t.os), Some(t.vendor), t.pico).panic.None?
    requires Transform(e).Ok?
    ensures Eval(Transform(e).value, BuiltCfg(t)) == Eval(e, BuiltCfg(t))
  {
    InertIgnoresBuild(t, Transform(e).value);
    RewriteMatchesBuildScript(t, e);
  }
}
