# cfg_zkvm: a Dafny model of the backend-selection predicate compiler

`cfg_zkvm` lets a Rust crate write `#[cfg_zkvm(risc0)]`,
`#[cfg_zkvm(zkvm = "sp1")]` or `#[cfg_zkvm(any(pico, feature = "x"))]` in place
of a hand-written `#[cfg(...)]` over the target's facts. It has two halves.

- The attribute macro (`crates/cfg-zkvm-macro/src/lib.rs`) parses backend
  names with an exact-match parser. That parser has a "did you mean"
  suggestion table. The macro then rewrites the attribute's expression
  tree: each backend name becomes a conjunction over `target_os`,
  `target_vendor` and the `zkvm_pico` tie-break flag.
- The build-script helper `config_values` (`crates/cfg-zkvm/src/lib.rs`)
  declares the cfg names involved. It then classifies the target
  `(target_os, target_vendor, zkvm_pico)` as one backend, a fatal
  misconfiguration, an unknown vendor (a warning) or not a zkvm. For a
  backend it sets the bare name and `zkvm = "name"`.

The model is pure, like the source: datatypes, functions and lemmas.

| file | module | models |
|---|---|---|
| `wrappers.dfy` | `Wrappers` | `Option` and `Result` |
| `ascii.dfy` | `Ascii` | `str::trim` and `str::to_lowercase`, restricted to ASCII |
| `syntax.dfy` | `Syntax` | the part of `syn::Expr` the macro looks at |
| `zkvm_idents.dfy` | `ZkvmIdents` | `ZkvmIdent`, `from_str`, the error type and its message, `cfg_attr` |
| `rewrite.dfy` | `Rewrite` | `transform_expr` |
| `build_script.dfy` | `BuildScript` | `config_values`, its classification match and its output |
| `cfg_eval.dfy` | `CfgEval` | how the Rust compiler evaluates a `cfg(...)` predicate |
| `consistency.dfy` | `Consistency` | the two halves agree |

`CfgEval` is not code of this repository. It states the meaning the
compiler gives to the macro's output:
- a name holds when it is set;
- `key = "value"` holds when that pair is set;
- `all`, `any` and a one-argument `not` combine their arguments.

With it, `Consistency` proves the main theorems. A crate whose build
script runs `config_values` is compiled with the target's own options plus
the ones the build script sets. On every target the build script accepts:
- `RewriteMatchesBuildScript`: the rewritten predicate has, on the target's
  own options, the value the original attribute has in the build;
- `InertIgnoresBuild`: the rewritten predicate does not look at what the
  build script adds, so its value is the same with or without those options;
- `KeepsItemExactlyWhen`: together, in the build the rewritten predicate has
  the value `cfg(p)` has, so `#[cfg_zkvm(p)]` keeps its item exactly when
  `cfg(p)` holds.

The only assumption is that the crate's other options do not reuse
`zkvm_pico`, the backend names or the keys `target_os`, `target_vendor`
and `zkvm`.

Error values of the rewrite are `TransformError(at, kind)`:
- `at` is the expression node whose span `syn::Error::new` receives;
- `kind` is one of the five error kinds of `transform_expr`, raised at its
  seven error sites (two of them are `require_ident` failures, whose error
  `syn` builds).

## Model

| member | source | states |
|---|---|---|
| Ascii.ToLower | crates/cfg-zkvm-macro/src/lib.rs:71 | lower-casing keeps the length and maps every character on its own: A–Z to a–z, anything else unchanged |
| Ascii.TrimStart | crates/cfg-zkvm-macro/src/lib.rs:71 | the result is a suffix of the input; everything cut off is whitespace; the result does not start with whitespace |
| Ascii.TrimEnd | crates/cfg-zkvm-macro/src/lib.rs:71 | the result is a prefix of the input; everything cut off is whitespace; the result does not end with whitespace |
| Ascii.Trim | crates/cfg-zkvm-macro/src/lib.rs:71 | the result is no longer than the input and has no whitespace at either end; it is empty exactly when the input is all whitespace |
| Ascii.TrimPadded | crates/cfg-zkvm-macro/src/lib.rs:71 | whitespace around a middle that has none at its ends is exactly what `Trim` removes |
| Ascii.Normalize | crates/cfg-zkvm-macro/src/lib.rs:71 | the result is no longer than the input, has no upper-case letter and no whitespace at either end |
| Ascii.NormalizeFixed | crates/cfg-zkvm-macro/src/lib.rs:71 | a string with no upper-case letter and no whitespace at either end is its own trimmed lower-case form |
| Ascii.NormalizeIdempotent | crates/cfg-zkvm-macro/src/lib.rs:71 | normalising a normalised string changes nothing |
| ZkvmIdents.Unknown | crates/cfg-zkvm-macro/src/lib.rs:52-57 | no ensures; `DummyExample` and `UnlistedGetsNoSuggestion` show it is the error of a spelling in no alias list, and `MessageListsAllOptions` that its message names every backend |
| ZkvmIdents.Suggestion | crates/cfg-zkvm-macro/src/lib.rs:59-64 | no ensures; `SuggestionFollowsAliasTable` shows it is the error exactly when the normalised input is an alias, and `MessageNamesSuggestion` that its message ends with the suggestion |
| ZkvmIdents.Name | crates/cfg-zkvm-macro/src/lib.rs:73-77 | no ensures; the canonical spellings, which `ExactMatch` and `AcceptsExactlyCanonicalNames` show are the only accepted spelling of each backend, and `CanonicalNamesAreNormal` shows are their own normal form |
| ZkvmIdents.ExactMatch | crates/cfg-zkvm-macro/src/lib.rs:73-77 | backend `id` is found exactly when the input is `id`'s canonical name, case-sensitively and untrimmed |
| ZkvmIdents.SuggestionFor | crates/cfg-zkvm-macro/src/lib.rs:79-99 | whatever is suggested is one of the five canonical names |
| ZkvmIdents.FromStr | crates/cfg-zkvm-macro/src/lib.rs:70-101 | `Ok(id)` exactly when the input is `id`'s canonical name; an error keeps the raw input; a suggestion is always a canonical name |
| ZkvmIdents.AcceptsExactlyCanonicalNames | crates/cfg-zkvm-macro/src/lib.rs:70-77 | accepted inputs are exactly "risc0", "sp1", "pico", "ziren", "zisk", and each name parses back to its own backend |
| ZkvmIdents.AliasesOf | crates/cfg-zkvm-macro/src/lib.rs:79-97 | no ensures; the alias lists of the suggestion arms as data, which `SuggestionForMatchesAliases` ties to the arms in both directions |
| ZkvmIdents.SuggestionForMatchesAliases | crates/cfg-zkvm-macro/src/lib.rs:79-99 | the suggestion arms and the alias table agree in both directions, and no suggestion means no alias matched |
| ZkvmIdents.SuggestionFollowsAliasTable | crates/cfg-zkvm-macro/src/lib.rs:79-99 | a failed parse keeps its input and suggests `id` exactly when the trimmed lower-case input is one of `id`'s aliases |
| ZkvmIdents.SuggestionDependsOnlyOnNormalForm | crates/cfg-zkvm-macro/src/lib.rs:71-99 | two failing inputs with the same trimmed lower-case form get the same suggestion |
| ZkvmIdents.SuggestionIsAccepted | crates/cfg-zkvm-macro/src/lib.rs:79-97 | every suggestion is itself accepted by the parser |
| ZkvmIdents.CanonicalNamesAreNormal | crates/cfg-zkvm-macro/src/lib.rs:71 | the canonical names are their own normal form |
| ZkvmIdents.CaseVariantSuggestsCanonical | crates/cfg-zkvm-macro/src/lib.rs:79-99 | a mis-cased or padded canonical name is refused and the error suggests that name |
| ZkvmIdents.ListedAliasSuggests | crates/cfg-zkvm-macro/src/lib.rs:79-97 | a listed alias that is not itself canonical, typed as listed (lower-case, unpadded), is refused, and the error suggests its backend |
| ZkvmIdents.ShortAliasExamples | crates/cfg-zkvm-macro/tests/fail/03_zkvm_identifier_suggestions.rs:8-38 | "r0", "succinct" and "zkm" are refused with the suggestions `risc0`, `sp1` and `ziren` |
| ZkvmIdents.PicoAliasExamples | crates/cfg-zkvm-macro/tests/fail/03_zkvm_identifier_suggestions.rs:23-33 | "brevis", "brevis-pico", "picovm" and "pico-vm" are refused with the suggestion `pico` |
| ZkvmIdents.PaddedCaseVariant | crates/cfg-zkvm-macro/src/lib.rs:71-99 | a canonical name typed with other capitals and with whitespace around it is refused, and the error suggests it |
| ZkvmIdents.PaddedRisc0Example | crates/cfg-zkvm-macro/tests/fail/03_zkvm_identifier_suggestions.rs:14 | `" riSc0   "` is refused with the suggestion `risc0` |
| ZkvmIdents.UpperSp1Example | crates/cfg-zkvm-macro/tests/fail/03_zkvm_identifier_suggestions.rs:20 | `"SP1"` is refused with the suggestion `sp1` |
| ZkvmIdents.UpperPicoExample | crates/cfg-zkvm-macro/tests/fail/03_zkvm_identifier_suggestions.rs:35 | `"PICO"` is refused with the suggestion `pico` |
| ZkvmIdents.UpperZiskExample | crates/cfg-zkvm-macro/tests/fail/03_zkvm_identifier_suggestions.rs:41 | `"ZISK"` is refused with the suggestion `zisk` |
| ZkvmIdents.UnlistedGetsNoSuggestion | crates/cfg-zkvm-macro/src/lib.rs:79-100 | a spelling whose normal form is in no alias list is refused without a suggestion, and its message is the quoted input followed by the list of valid options |
| ZkvmIdents.DummyExample | crates/cfg-zkvm-macro/tests/fail/02_invalid_zkvm_identifier.rs:9 | `"dummy"` is refused without a suggestion, and its message lists all five options |
| ZkvmIdents.FormatSuggestion | crates/cfg-zkvm-macro/src/lib.rs:34-39 | no ensures; `MessageNamesSuggestion` shows the suggestion in backticks followed by `?`, and `MessageListsAllOptions` the list of every backend |
| ZkvmIdents.ValidOptions | crates/cfg-zkvm-macro/src/lib.rs:38 | a constant; `OptionsListName` shows it names every backend in backticks |
| ZkvmIdents.ErrorMessage | crates/cfg-zkvm-macro/src/lib.rs:44 | no ensures; `MessageQuotesInput`, `MessageNamesSuggestion` and `MessageListsAllOptions` show it starts with the quoted input and ends with the suggestion or the list of options |
| ZkvmIdents.MessageQuotesInput | crates/cfg-zkvm-macro/src/lib.rs:44 | the error text starts with `unknown zkvm "` followed by the raw input in quotes |
| ZkvmIdents.MessageNamesSuggestion | crates/cfg-zkvm-macro/src/lib.rs:34-39 | with a suggestion, the message ends by naming it in backticks followed by `?` |
| ZkvmIdents.OptionsListName | crates/cfg-zkvm-macro/src/lib.rs:38 | the valid-options text names every backend in backticks |
| ZkvmIdents.MessageListsAllOptions | crates/cfg-zkvm-macro/src/lib.rs:34-44 | without a suggestion, the message names every backend |
| ZkvmIdents.CfgAttr | crates/cfg-zkvm-macro/src/lib.rs:104-118 | no ensures; `CfgAttrInjective` shows the five predicates are distinct, `Rewrite.CfgAttrInert` that a second rewrite leaves them alone, and `Consistency.CfgAttrValue` and `PredicateMatchesClassifier` that, on targets the build script accepts, each holds exactly when the build script selects its backend |
| ZkvmIdents.CfgAttrInjective | crates/cfg-zkvm-macro/src/lib.rs:104-118 | the five backend predicates are pairwise distinct |
| ZkvmIdents.UnitTestIdentifiers | crates/cfg-zkvm-macro/src/lib.rs:188-229 | the five names parse to their variants and the 21 near-miss spellings of the unit tests are rejected |
| Rewrite.CfgAttrInert | crates/cfg-zkvm-macro/src/lib.rs:104-118 | no backend predicate contains anything the rewrite would change |
| Rewrite.Transform | crates/cfg-zkvm-macro/src/lib.rs:120-177 | a successful result contains nothing a second rewrite would change; every error points at a node of the input |
| Rewrite.TransformAll | crates/cfg-zkvm-macro/src/lib.rs:166-171 | the arguments succeed exactly when each one does; on success the length is kept and each result is that argument's rewrite; on failure the error is the first failing argument's |
| Rewrite.FixedPointsAreInert | crates/cfg-zkvm-macro/src/lib.rs:120-177 | the rewrite returns its input unchanged exactly when every atom is one identifier that is not a canonical name, every assignment has a one-segment key other than `zkvm`, and every other node is a call over such arguments; anything else is either rewritten or refused |
| Rewrite.Idempotent | crates/cfg-zkvm-macro/src/lib.rs:120-177 | rewriting a rewritten expression changes nothing |
| Rewrite.AtomRule | crates/cfg-zkvm-macro/src/lib.rs:122-130 | a canonical single identifier becomes its predicate, any other single identifier is kept, a longer path is an error at that path |
| Rewrite.AssignRule | crates/cfg-zkvm-macro/src/lib.rs:131-165 | the five outcomes of an assignment: non-path key, multi-segment key, key other than `zkvm` passed through, non-string value, and a value that parses or carries the parse error |
| Rewrite.FullFormMatchesShorthand | crates/cfg-zkvm-macro/src/lib.rs:122-165 | `zkvm = "X"` and `X` give the same predicate for canonical `X`; otherwise the atom is kept while the full form fails with the parse error |
| Rewrite.BackendTable | crates/cfg-zkvm-macro/src/lib.rs:245-291 | every backend, as an atom and in the full form, becomes its `cfg_attr` predicate |
| Rewrite.CallRule | crates/cfg-zkvm-macro/src/lib.rs:166-174 | a call keeps its function and the number and order of its arguments; it fails exactly when an argument fails, with the first failure's error |
| Rewrite.CallRewritesPointwise | crates/cfg-zkvm-macro/src/lib.rs:166-174 | a call whose arguments rewrite to `args'` rewrites to the same call over `args'` |
| Rewrite.OtherShapesRejected | crates/cfg-zkvm-macro/src/lib.rs:175 | literals and every other expression kind are "Not supported expression" at that node |
| Rewrite.UnknownAtomKept | crates/cfg-zkvm-macro/src/lib.rs:125-129 | an identifier that is not a canonical name is returned unchanged |
| Rewrite.UnknownAtomExample | crates/cfg-zkvm-macro/tests/pass/04_unknown_shorthand.rs:28 | `unkown` is kept as it is |
| Rewrite.MixedAtoms | crates/cfg-zkvm-macro/tests/pass/04_unknown_shorthand.rs:16 | an unknown atom beside `risc0` survives while `risc0` is rewritten |
| Rewrite.MixedAtomsExample | crates/cfg-zkvm-macro/tests/pass/04_unknown_shorthand.rs:16 | `all(fuzz, risc0)` rewrites only `risc0` |
| Rewrite.NegatedBackend | crates/cfg-zkvm-macro/src/lib.rs:166-174 | `not(B)` becomes `not` of `B`'s predicate |
| Rewrite.NegationExample | crates/cfg-zkvm-macro/src/lib.rs:362-370 | `not(risc0)` becomes `not(all(target_os = "zkvm", target_vendor = "risc0", not(zkvm_pico)))` |
| Rewrite.NestedCallExample | crates/cfg-zkvm-macro/src/lib.rs:390-407 | `any(all(risc0, feature = "foo"), all(sp1, feature = "bar"))` rewrites both backend atoms and keeps both features |
| Rewrite.FailingArgumentExample | crates/cfg-zkvm-macro/tests/fail/02_invalid_zkvm_identifier.rs:12 | `any(feature = "cool", zkvm = "some-cool-zkvm")` fails as a whole |
| Rewrite.DummyFullFormExample | crates/cfg-zkvm-macro/tests/fail/02_invalid_zkvm_identifier.rs:9 | `zkvm = "dummy"` fails at the literal with the parse error and no suggestion |
| Rewrite.WrongCaseFullFormExample | crates/cfg-zkvm-macro/tests/fail/03_zkvm_identifier_suggestions.rs:11 | `zkvm = "RISC0"` fails at the literal with the suggestion `risc0` |
| BuildScript.Classify | crates/cfg-zkvm/src/lib.rs:22-39 | a selected name always parses; misconfiguration exactly when `zkvm_pico` is set off risc0's (os, vendor); a warning exactly for a zkvm target with an unknown vendor and no `zkvm_pico`, and it carries that vendor; nothing exactly off zkvm without `zkvm_pico` |
| BuildScript.CheckCfgs | crates/cfg-zkvm/src/lib.rs:6-14 | a constant; `DeclaredZkvmValues` shows the declared `zkvm` values are exactly the accepted names, and `EmittedCfgsAreDeclared` that every cfg set is declared |
| BuildScript.NotInBuildScript | crates/cfg-zkvm/src/lib.rs:16-19 | a constant: the message passed to `expect`; `ConfigValues` shows that, followed by `: NotPresent` (`UnsetVariablePanic`), is the panic when either target variable is unset |
| BuildScript.PicoMisconfiguredMessage | crates/cfg-zkvm/src/lib.rs:29-31 | a constant; `ConfigValues` shows it is the panic exactly on a misconfigured target with both variables set |
| BuildScript.UnknownVendorWarning | crates/cfg-zkvm/src/lib.rs:32-36 | no ensures; `EmittedCfgs` shows it is the one directive emitted for an unknown vendor, with the target's vendor |
| BuildScript.ClassificationTable | crates/cfg-zkvm/src/lib.rs:23-27 | the five rows that select risc0, sp1, pico, ziren and zisk |
| BuildScript.ConfigValues | crates/cfg-zkvm/src/lib.rs:5-43 | the declarations always come first; the build script finishes without panicking exactly when both variables are set and the target is not misconfigured; an unset variable panics with the `expect` text followed by `: NotPresent`, a misconfigured target with the `zkvm_pico` text |
| BuildScript.EmittedCfgs | crates/cfg-zkvm/src/lib.rs:32-42 | a selected backend gets exactly the bare name and `zkvm = "name"`, with a parseable name; an unknown vendor gets exactly one warning; no other case sets a cfg |
| BuildScript.DeclaredZkvmValues | crates/cfg-zkvm/src/lib.rs:12-14 | the values declared for `zkvm` are exactly the names the parser accepts |
| BuildScript.EmittedCfgsAreDeclared | crates/cfg-zkvm/src/lib.rs:6-42 | every cfg the build script sets is one it has declared, with a declared value |
| Consistency.BuiltCfgShape | crates/cfg-zkvm/src/lib.rs:41-42 | the build adds the selected backend's name and `zkvm = "name"` to the target's options, and nothing otherwise |
| Consistency.CfgAttrValue | crates/cfg-zkvm-macro/src/lib.rs:105-117 | each backend predicate holds exactly on its row of target facts |
| Consistency.PredicateMatchesClassifier | crates/cfg-zkvm/src/lib.rs:22-27 | on every target the build script accepts, `cfg_attr(B)` holds exactly when the classifier selects `B`; on a misconfigured one neither risc0 nor pico holds |
| Consistency.PicoFlagIgnoredOffRisc0 | crates/cfg-zkvm-macro/src/lib.rs:112-115 | on a zkvm target of vendor succinct, zkm or zisk with `zkvm_pico` set, the sp1, ziren or zisk predicate holds while the build script classifies the target as misconfigured and panics |
| Consistency.AtMostOneBackend | crates/cfg-zkvm-macro/src/lib.rs:105-117 | at most one backend predicate holds on a target the build script accepts |
| Consistency.AtomMatchesBuildScript | crates/cfg-zkvm-macro/src/lib.rs:122-130 | a rewritten atom means on the target what the atom means once the build's cfgs are on |
| Consistency.PairMatchesBuildScript | crates/cfg-zkvm-macro/src/lib.rs:131-165 | a rewritten `key = "value"` means on the target what it means once the build's cfgs are on |
| Consistency.RewriteMatchesBuildScript | crates/cfg-zkvm-macro/src/lib.rs:120-177 | for every expression the rewrite accepts, the output on the target's own options has the value of the input on the options the build script sets |
| Consistency.InertIgnoresBuild | crates/cfg-zkvm-macro/src/lib.rs:120-177 | a predicate the rewrite leaves alone, such as any rewrite output, has the same value with and without the build script's options |
| Consistency.KeepsItemExactlyWhen | crates/cfg-zkvm-macro/src/lib.rs:120-177 | in a build whose script accepts the target, the output for `p` has the value of `cfg(p)`, so the item is kept exactly when `cfg(p)` holds |

## Left out

- The `#[proc_macro_attribute]` entry point, token streams, quoting and spans (crates/cfg-zkvm-macro/src/lib.rs:8-23): expressions are `Syntax.Expr` values, and an error's span is the node it is attached to.
- The trybuild harness (crates/cfg-zkvm-macro/src/lib.rs:480-485), since it only runs the compile cases. Each case of tests/fail/02 and tests/fail/03 has an example lemma, and so do `unkown` and the documented `all(fuzz, risc0)` of tests/pass/04 (see "## Model"). The cases of tests/pass/01 and tests/pass/02 follow from `BackendTable`. Those of tests/pass/03 follow from `CallRule` and `CallRewritesPointwise` with `BackendTable` and `AssignRule`, without a lemma per case.
- The unit tests of `transform_expr` (crates/cfg-zkvm-macro/src/lib.rs:293-478): only `not(risc0)` (`NegationExample`) and the nested `any(all(..), all(..))` (`NestedCallExample`) have a lemma of their own. The others, `not(zkvm = "pico")` and the deeply nested expression included, follow from `BackendTable`, `NegatedBackend`, `CallRule`, `CallOfOne`/`CallOfTwo` and `AssignRule`, without a lemma per test.
- Consistency.PredicateMatchesClassifier: the predicate table inverts the classifier only on targets the build script accepts. On a zkvm target of vendor succinct, zkm or zisk with `zkvm_pico` set, `cfg_zkvm(sp1)`, `cfg_zkvm(ziren)` or `cfg_zkvm(zisk)` holds while `config_values` panics (`PicoFlagIgnoredOffRisc0`). A crate that uses the macro without running the build script therefore gets that backend selected on such a target.
- The compile-fail case tests/fail/01_expressions_statements.rs: it checks that the compiler refuses attribute macros on statements and expressions, which is outside the macro's own code; the model has no notion of where an attribute is placed.
- The `syn::parse2` reparse of each rewritten argument (line 170) is treated as the identity.
- The text of `require_ident`'s error comes from `syn`, which is not part of this model; only that it fails on a path that is not one plain segment is modelled.
- Paths with a leading `::`, generic arguments or a `qself`, raw identifiers (`r#risc0`) and attributes on expressions are not represented; a path is its list of segment names.
- `Ascii.ToLower` and `Ascii.TrimStart`/`TrimEnd`: Unicode lower-casing and Unicode white space are not modelled. Only A–Z is lower-cased, and only U+0009–U+000D and the space are trimmed. So a spelling that needs Unicode rules to reach an alias (for example with the Kelvin sign) gets no suggestion here.
- `BuildScript.ConfigValues` reads of the environment are parameters: a variable that is unset is `None`. A variable whose value is not valid Unicode (for which `env::var` also fails) is not distinguished from an unset one, so its panic would end in `: NotUnicode(..)` rather than the modelled `: NotPresent`.
- `println!` output is the list of `Directive` values, not text. The process exit of `panic!` and the early `return`s are the `panic` field and the end of the list.
- Evaluation of a predicate by the Rust compiler (`CfgEval`) covers names, `key = "value"`, `all`, `any` and one-argument `not`. Everything else evaluates to no value; the compiler's own diagnostics are not modelled.
- The other crates of the repository (the backend wrappers, serialization adapters, build orchestration, guest I/O shims, the platform macro and the examples) are not part of this model.
