/**
 * `config_values`, the build-script half of `cfg_zkvm`
 * (crates/cfg-zkvm/src/lib.rs): it declares the cfg names the macro's output
 * uses, reads the target from the environment, and tells the compiler which
 * backend is being built.
 */
module BuildScript {
  import opened Wrappers
  import opened ZkvmIdents

  /** What the backend match of `config_values` decides for a target. */
  datatype Selection =
    | Selected(zkvm: string)          // a backend: its canonical name
    | PicoMisconfigured               // the `panic!` arm
    | UnknownVendor(vendor: string)   // a zkvm target of an unsupported vendor: a warning
    | NotZkvm                         // any other target: nothing to say

  /** The vendors the match recognises on a zkvm target. */
  const KnownVendors: set<string> := {"risc0", "succinct", "zkm", "zisk"}

  /** The `match (target_os, target_vendor, cfg_zkvm_pico)` of `config_values`. */
  function Classify(targetOs: string, targetVendor: string, zkvmPico: bool): (r: Selection)
    ensures r.Selected? ==> FromStr(r.zkvm).Ok?
    ensures r == PicoMisconfigured <==> zkvmPico && !(targetOs == "zkvm" && targetVendor == "risc0")
    ensures r.UnknownVendor? <==> targetOs == "zkvm" && !zkvmPico && targetVendor !in KnownVendors
    ensures r.UnknownVendor? ==> r.vendor == targetVendor
    ensures r == NotZkvm <==> targetOs != "zkvm" && !zkvmPico
  {
    if targetOs == "zkvm" && targetVendor == "risc0" && !zkvmPico then Selected("risc0")
    else if targetOs == "zkvm" && targetVendor == "succinct" && !zkvmPico then Selected("sp1")
    else if targetOs == "zkvm" && targetVendor == "risc0" && zkvmPico then Selected("pico")
    else if targetOs == "zkvm" && targetVendor == "zkm" && !zkvmPico then Selected("ziren")
    else if targetOs == "zkvm" && targetVendor == "zisk" && !zkvmPico then Selected("zisk")
    else if zkvmPico then PicoMisconfigured
    else if targetOs == "zkvm" then UnknownVendor(targetVendor)
    else NotZkvm
  }

  /** One `cargo::` line printed by the build script. */
  datatype Directive =
    | CheckCfg(name: string, values: seq<Option<string>>)  // `rustc-check-cfg=cfg(name, values(...))`; None is `none()`
    | RustcCfg(name: string)                               // `rustc-cfg=name`
    | RustcCfgValue(key: string, value: string)            // `rustc-cfg=key="value"`
    | Warning(message: string)                             // `warning=...`

  /** Everything the build script prints, and the panic message if it panics. */
  datatype BuildOutput = BuildOutput(directives: seq<Directive>, panic: Option<string>)

  /** The seven check-cfg declarations printed first, whatever the target. */
  const CheckCfgs: seq<Directive> := [
    CheckCfg("risc0", [None]), CheckCfg("sp1", [None]), CheckCfg("pico", [None]),
    CheckCfg("ziren", [None]), CheckCfg("zisk", [None]), CheckCfg(PicoFlag, [None]),
    CheckCfg(ZkvmKey, [Some("risc0"), Some("sp1"), Some("pico"), Some("ziren"), Some("zisk")])
  ]

  const NotInBuildScript: string := "config_values() function is expected to be executed in build.rs file"

  /**
   * The panic of `Result::expect` on an unset variable: the message, `": "`,
   * and the `Debug` form of `VarError::NotPresent`.
   */
  const UnsetVariablePanic: string := NotInBuildScript + ": NotPresent"

  const PicoMisconfiguredMessage: string :=
    "invalid configuration - configuration option `zkvm_pico` may be set only when target_vendor is `risc0`."

  function UnknownVendorWarning(vendor: string): string {
    "Unknown zkvm vendor found (\"" + vendor + "\") - cfg_zkvm doesn't support this zkvm."
  }

  /**
   * `config_values`, with the three environment reads as parameters:
   * `CARGO_CFG_TARGET_OS`, `CARGO_CFG_TARGET_VENDOR` (None when unset) and
   * whether `CARGO_CFG_ZKVM_PICO` is set.
   */
  function ConfigValues(targetOs: Option<string>, targetVendor: Option<string>, zkvmPicoSet: bool): (out: BuildOutput)
    ensures CheckCfgs <= out.directives
    ensures out.panic.None? <==>
              targetOs.Some? && targetVendor.Some? && Classify(targetOs.value, targetVendor.value, zkvmPicoSet) != PicoMisconfigured
    ensures targetOs.None? || targetVendor.None? ==> out.panic == Some(UnsetVariablePanic)
    ensures targetOs.Some? && targetVendor.Some? && Classify(targetOs.value, targetVendor.value, zkvmPicoSet) == PicoMisconfigured ==>
              out.panic == Some(PicoMisconfiguredMessage)
  {
    if targetOs.None? || targetVendor.None? then BuildOutput(CheckCfgs, Some(UnsetVariablePanic))
    else
      match Classify(targetOs.value, targetVendor.value, zkvmPicoSet)
      case Selected(zkvm) => BuildOutput(CheckCfgs + [RustcCfg(zkvm), RustcCfgValue(ZkvmKey, zkvm)], None)
      case PicoMisconfigured => BuildOutput(CheckCfgs, Some(PicoMisconfiguredMessage))
      case UnknownVendor(vendor) => BuildOutput(CheckCfgs + [Warning(UnknownVendorWarning(vendor))], None)
      case NotZkvm => BuildOutput(CheckCfgs, None)
  }

  /** The directives after the check-cfg block. */
  function Emitted(out: BuildOutput): seq<Directive>
    requires CheckCfgs <= out.directives
  {
    out.directives[|CheckCfgs|..]
  }

  // ---------------------------------------------------------------------
  // Properties of the classifier
  // ---------------------------------------------------------------------

  /** The five rows that select a backend. */
  lemma ClassificationTable()
    ensures Classify("zkvm", "risc0", false) == Selected(Name(Risc0))
    ensures Classify("zkvm", "succinct", false) == Selected(Name(Sp1))
    ensures Classify("zkvm", "risc0", true) == Selected(Name(Pico))
    ensures Classify("zkvm", "zkm", false) == Selected(Name(Ziren))
    ensures Classify("zkvm", "zisk", false) == Selected(Name(Zisk))
  {
  }

  /**
   * On a recognised backend exactly two cfgs follow the declarations: the
   * bare canonical name and `zkvm = "name"`. Otherwise no cfg is emitted at
   * all, and a zkvm target of an unknown vendor gets one warning naming it.
   */
  lemma EmittedCfgs(targetOs: string, targetVendor: string, zkvmPico: bool)
    ensures var out := ConfigValues(Some(targetOs), Some(targetVendor), zkvmPico);
            var sel := Classify(targetOs, targetVendor, zkvmPico);
            && (sel.Selected? ==> Emitted(out) == [RustcCfg(sel.zkvm), RustcCfgValue(ZkvmKey, sel.zkvm)]
                                  && FromStr(sel.zkvm).Ok?)
            && (sel.UnknownVendor? ==> Emitted(out) == [Warning(UnknownVendorWarning(targetVendor))])
            && (!sel.Selected? ==> forall d :: d in Emitted(out) ==> !d.RustcCfg? && !d.RustcCfgValue?)
  {
    var out := ConfigValues(Some(targetOs), Some(targetVendor), zkvmPico);
    assert CheckCfgs + Emitted(out) == out.directives;
  }

  /** The values declared for `zkvm` are exactly the names `FromStr` accepts. */
  lemma DeclaredZkvmValues(v: string)
    ensures CheckCfgs[6].name == ZkvmKey
    ensures Some(v) in CheckCfgs[6].values <==> FromStr(v).Ok?
  {
    var vals := CheckCfgs[6].values;
    assert vals == [Some("risc0"), Some("sp1"), Some("pico"), Some("ziren"), Some("zisk")];
    if Some(v) in vals {
      assert v == Name(Risc0) || v == Name(Sp1) || v == Name(Pico) || v == Name(Ziren) || v == Name(Zisk);
    }
    if FromStr(v).Ok? {
      var id := FromStr(v).value;
      var k := match id case Risc0 => 0 case Sp1 => 1 case Pico => 2 case Ziren => 3 case Zisk => 4;
      assert vals[k] == Some(v);
    }
  }

  /** Every cfg the build script sets is one it has declared. */
  lemma EmittedCfgsAreDeclared(targetOs: string, targetVendor: string, zkvmPico: bool)
    ensures var out := ConfigValues(Some(targetOs), Some(targetVendor), zkvmPico);
            forall d :: d in out.directives ==>
              (d.RustcCfg? ==> CheckCfg(d.name, [None]) in CheckCfgs)
              && (d.RustcCfgValue? ==> exists c :: c in CheckCfgs && c.name == d.key && Some(d.value) in c.values)
  {
    var out := ConfigValues(Some(targetOs), Some(targetVendor), zkvmPico);
    var sel := Classify(targetOs, targetVendor, zkvmPico);
    if sel.Selected? {
      var id := FromStr(sel.zkvm).value;
      assert sel.zkvm == Name(id);
      DeclaredZkvmValues(sel.zkvm);
      assert CheckCfgs[6] in CheckCfgs;
    }
  }
}
